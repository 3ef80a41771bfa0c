/**
  Budgets: what a run spends and what it gives its children never exceed what it was given, along
  every log drivers write, and so over every tree of delegations.
  */
module Budget {
  import opened Protocol
  import opened Reducer
  import opened Folding
  import opened Authorizer
  import opened Driving
  import opened Looping
  import opened CrashResume

  predicate Within(a: Limits, b: Limits) {
    a.maxSteps <= b.maxSteps && a.maxModelCalls <= b.maxModelCalls
  }

  /** Whether a log may go on with `e`: decisions, authorizations and children are the driver's to write. */
  predicate Allowed(spec: RunSpec, log: Log, e: Event) {
    match e
    case EffectDecided(effect) => !OverBudget(spec, StateOf(spec, log), effect)
    case EffectAuthorized(effect) =>
      && log != [] && Last(log) == EffectDecided(effect)
      && (StartsRun(effect) ==> spec.lineage.hop < MAX_DELEGATION_HOPS)
    case ChildStarted(runId, _, limits) =>
      && log != [] && Last(log).EffectAuthorized? && StartsRun(Last(log).effect)
      && (runId in Started(log) ||
          (Carve(spec, StateOf(spec, log)).Ok? && Within(limits, Carve(spec, StateOf(spec, log)).value)))
    case _ => true
  }

  predicate Disciplined(spec: RunSpec, log: Log) {
    log == [] || (Disciplined(spec, Front(log)) && Allowed(spec, Front(log), Last(log)))
  }

  lemma DisciplinedSnoc(spec: RunSpec, log: Log, e: Event)
    requires Disciplined(spec, log) && Allowed(spec, log, e)
    ensures Disciplined(spec, log + [e])
  {
  }

  lemma {:induction false} DisciplinedPrefix(spec: RunSpec, log: Log, n: nat)
    requires Disciplined(spec, log) && n <= |log|
    ensures Disciplined(spec, log[..n])
  {
    if n < |log| {
      DisciplinedPrefix(spec, Front(log), n);
      assert Front(log)[..n] == log[..n];
    } else {
      assert log[..n] == log;
    }
  }

  /** Steps and model calls a run took, with what it gave away. */
  predicate WithinBudget(spec: RunSpec, log: Log) {
    && Steps(spec, log) + GivenSteps(log) <= spec.limits.maxSteps
    && ModelCalls(log) + GivenModelCalls(log) <= spec.limits.maxModelCalls
    && Children(log) <= MAX_CHILDREN
    && (spec.lineage.hop >= MAX_DELEGATION_HOPS ==> Started(log) == {})
  }

  /**
    Whether a child's share fits what is left. The counter of what was given saturates at 2^32-1, so
    against an unlimited budget nothing was spent of, any share does.
    */
  predicate ShareFits(max: u32, used: nat, given: u32, share: u32) {
    share <= LeftOf(max, used, given) || (used == 0 && max == U32_MAX)
  }

  /**
    A child keeps its parent's budget if and only if it is already counted, or its steps and model calls
    fit what is left of a parent with fewer than 10 children and hops to spare.
    */
  lemma ChildKeepsBudget(spec: RunSpec, log: Log, e: Event)
    requires e.ChildStarted? && WithinBudget(spec, log)
    ensures WithinBudget(spec, log + [e]) <==>
              || e.runId in Started(log)
              || (&& ShareFits(spec.limits.maxSteps, Steps(spec, log), GivenSteps(log), e.limits.maxSteps)
                  && ShareFits(spec.limits.maxModelCalls, ModelCalls(log), GivenModelCalls(log), e.limits.maxModelCalls)
                  && Children(log) < MAX_CHILDREN && spec.lineage.hop < MAX_DELEGATION_HOPS)
  {
    hide Reduce;
    hide ReduceDispatch;
    FoldSnoc(spec, log, e);
  }

  /** What is carved for a child is something, and leaves its parent at least as much. */
  lemma CarveLeavesHalf(spec: RunSpec, log: Log)
    requires WithinBudget(spec, log) && Carve(spec, StateOf(spec, log)).Ok?
    ensures var given := Carve(spec, StateOf(spec, log)).value;
            && 1 <= given.maxSteps && 1 <= given.maxModelCalls
            && Steps(spec, log) + GivenSteps(log) + 2 * given.maxSteps <= spec.limits.maxSteps
            && spec.limits.maxSteps <= Steps(spec, log) + GivenSteps(log) + 2 * given.maxSteps + 1
            && ModelCalls(log) + GivenModelCalls(log) + 2 * given.maxModelCalls <= spec.limits.maxModelCalls
            && spec.limits.maxModelCalls <= ModelCalls(log) + GivenModelCalls(log) + 2 * given.maxModelCalls + 1
            && Children(log) < MAX_CHILDREN && Harness(spec, log).Running?
  {
    hide Harness;
    hide Dispatch;
  }

  lemma DecisionKeepsBudget(spec: RunSpec, log: Log, effect: Effect)
    requires WithinBudget(spec, log) && !OverBudget(spec, StateOf(spec, log), effect)
    ensures WithinBudget(spec, log + [EffectDecided(effect)])
  {
  }

  /** A model call was paid for when it was decided, and nothing was spent since. */
  lemma AuthorizationKeepsBudget(spec: RunSpec, log: Log, effect: Effect)
    requires WithinBudget(spec, log) && !OverBudget(spec, StateOf(spec, log), effect)
    requires WithinBudget(spec, log + [EffectDecided(effect)])
    ensures WithinBudget(spec, log + [EffectDecided(effect)] + [EffectAuthorized(effect)])
  {
  }

  lemma ChildWithinBudget(spec: RunSpec, log: Log, e: Event)
    requires e.ChildStarted? && WithinBudget(spec, log) && spec.lineage.hop < MAX_DELEGATION_HOPS
    requires e.runId in Started(log) ||
             (Carve(spec, StateOf(spec, log)).Ok? && Within(e.limits, Carve(spec, StateOf(spec, log)).value))
    ensures WithinBudget(spec, log + [e])
  {
    hide Reduce;
    hide ReduceDispatch;
    FoldSnoc(spec, log, e);
  }

  lemma PlainKeepsBudget(spec: RunSpec, log: Log, e: Event)
    requires WithinBudget(spec, log) && !e.EffectDecided? && !e.EffectAuthorized? && !e.ChildStarted?
    ensures WithinBudget(spec, log + [e])
  {
  }

  /** Every disciplined log is within the run's budget, its children and its hops within their caps. */
  lemma {:induction false} DisciplineKeepsBudget(spec: RunSpec, log: Log)
    requires Disciplined(spec, log)
    ensures WithinBudget(spec, log)
  {
    if log == [] {
      return;
    }
    hide Reduce;
    hide WithinBudget;
    hide OverBudget;
    hide Carve;
    hide StateOf;
    hide StartsRun;
    DisciplineKeepsBudget(spec, Front(log));
    var e := Last(log);
    assert log == Front(log) + [e];
    if e.EffectDecided? {
      DecisionKeepsBudget(spec, Front(log), e.effect);
    } else if e.EffectAuthorized? {
      var before := Front(Front(log));
      assert Front(log) == before + [EffectDecided(e.effect)];
      DisciplineKeepsBudget(spec, before);
      AuthorizationKeepsBudget(spec, before, e.effect);
    } else if e.ChildStarted? {
      HopHolds(spec, Front(log));
      ChildWithinBudget(spec, Front(log), e);
    } else {
      PlainKeepsBudget(spec, Front(log), e);
    }
  }

  /** A run at the hop cap has no authorized effect that starts another. */
  lemma HopHolds(spec: RunSpec, log: Log)
    requires Disciplined(spec, log) && log != [] && Last(log).EffectAuthorized? && StartsRun(Last(log).effect)
    ensures spec.lineage.hop < MAX_DELEGATION_HOPS
  {
  }

  // ---------------------------------------------------------------------------
  // Drivers write disciplined logs
  // ---------------------------------------------------------------------------

  /** A spawner and a deliverer that start a child with what was carved for it, or name one already counted. */
  ghost predicate Honest(w: World) {
    && (w.spawner.Some? ==>
          forall log: Log, request :: w.spawner.value(log, request).Ok? ==>
            var child := w.spawner.value(log, request).value;
            child.runId in Started(log) || Within(child.limits, request.limits))
    && (w.deliverer.Some? ==>
          forall log: Log, request ::
            w.deliverer.value(log, request).Ok? && w.deliverer.value(log, request).value.task.Some? ==>
            var task := w.deliverer.value(log, request).value.task.value;
            request.limits.Some? && (task.runId in Started(log) || Within(task.limits, request.limits.value)))
  }

  /** A child the driver records was carved from what the run had left. */
  lemma PerformedChild(spec: RunSpec, w: World, effect: Effect, log: Log)
    requires Honest(w)
    ensures var events := Performed(spec, w, effect, log);
            events != [] && events[0].ChildStarted? ==>
              && StartsRun(effect)
              && (events[0].runId in Started(log) ||
                  (Carve(spec, StateOf(spec, log)).Ok? &&
                   Within(events[0].limits, Carve(spec, StateOf(spec, log)).value)))
  {
    hide Reduce;
    hide Carve;
    hide StateOf;
  }

  lemma PerformedDisciplined(spec: RunSpec, w: World, log: Log)
    requires Honest(w) && Disciplined(spec, log) && log != [] && Last(log).EffectAuthorized?
    ensures Disciplined(spec, log + Performed(spec, w, Last(log).effect, log))
  {
    hide Reduce;
    hide Performed;
    hide Carve;
    hide StateOf;
    var effect := Last(log).effect;
    var events := Performed(spec, w, effect, log);
    PerformedAreOutcomes(spec, w, effect, log);
    PerformedChild(spec, w, effect, log);
    if |events| == 0 {
      assert log + events == log;
    } else {
      assert IsOutcome(events[0]);
      DisciplinedSnoc(spec, log, events[0]);
      if |events| == 1 {
        assert log + events == log + [events[0]];
      } else {
        DisciplinedSnoc(spec, log + [events[0]], events[1]);
        assert log + events == log + [events[0]] + [events[1]];
      }
    }
  }

  lemma AdvanceDisciplined(spec: RunSpec, log: Log)
    requires Disciplined(spec, log)
    ensures Disciplined(spec, Advance(spec, log))
  {
  }

  /** Authorizing and performing the decision that ends a log keeps it disciplined. */
  lemma SettledDisciplined(spec: RunSpec, w: World, h: HarnessState, effect: Effect, log: Log)
    requires Honest(w) && Disciplined(spec, log) && log != [] && Last(log) == EffectDecided(effect)
    ensures var (decided, effects) := AuthorizeDecided(spec, w, h, effect, log);
            Disciplined(spec, Advance(spec, Perform(spec, w, effects, decided)))
  {
    hide Refusal;
    hide Reduce;
    hide Performed;
    hide StateOf;
    hide Advance;
    hide Harness;
    hide EffectsOfLast;
    var (decided, effects) := AuthorizeDecided(spec, w, h, effect, log);
    match Refusal(spec, w, h, effect) {
      case Some(why) =>
        DisciplinedSnoc(spec, log, EffectDenied(effect, why));
        AdvanceDisciplined(spec, decided);
      case None =>
        PermittedStarts(spec, w, h, effect);
        DisciplinedSnoc(spec, log, EffectAuthorized(effect));
        var at := log + [EffectAuthorized(effect)];
        if decided == at {
          HandedOut(spec, at);
          PerformedDisciplined(spec, w, at);
          PerformOne(spec, w, effect, at);
          AdvanceDisciplined(spec, decided);
          AdvanceDisciplined(spec, at + Performed(spec, w, effect, at));
        } else {
          var done := RunCompleted(effect.outcome);
          assert decided == at + [done];
          DisciplinedSnoc(spec, at, done);
          QuietLast(spec, decided);
          AdvanceDisciplined(spec, decided);
        }
    }
  }

  lemma HandedOut(spec: RunSpec, log: Log)
    requires log != [] && Last(log).EffectAuthorized?
    ensures EffectsOfLast(spec, log) == [] || EffectsOfLast(spec, log) == [Last(log).effect]
  {
  }

  /** The policy allows no effect that starts a run past the hop cap. */
  lemma PermittedStarts(spec: RunSpec, w: World, h: HarnessState, effect: Effect)
    requires Refusal(spec, w, h, effect).None?
    ensures StartsRun(effect) ==> spec.lineage.hop < MAX_DELEGATION_HOPS
  {
  }

  /** A turn of the loop keeps a log disciplined. */
  lemma TurnDisciplined(spec: RunSpec, w: World, log: Log)
    requires Honest(w) && Disciplined(spec, log)
    ensures Disciplined(spec, OneTurn(spec, w, log).log)
  {
    hide Refusal;
    hide Reduce;
    hide Performed;
    hide Advance;
    hide Harness;
    hide Perform;
    hide AuthorizeDecided;
    hide OverBudget;
    hide Allowed;
    DisciplinedEnd(spec, log, RunCancelled);
    DisciplinedEnd(spec, log, RunFailed(Budget, "limit hit"));
    if w.decide(log).Ok? && !OverBudget(spec, StateOf(spec, log), w.decide(log).value) {
      var effect := w.decide(log).value;
      var h := Harness(spec, log);
      DecidedAllowed(spec, log, effect);
      DisciplinedSnoc(spec, log, EffectDecided(effect));
      SettledDisciplined(spec, w, h, effect, log + [EffectDecided(effect)]);
      QuietSettled(spec, w, h, effect, log + [EffectDecided(effect)]);
    }
  }

  lemma DisciplinedEnd(spec: RunSpec, log: Log, e: Event)
    requires Disciplined(spec, log) && IsRunEnd(e)
    ensures Disciplined(spec, log + [e])
  {
  }

  lemma DecidedAllowed(spec: RunSpec, log: Log, effect: Effect)
    requires !OverBudget(spec, StateOf(spec, log), effect)
    ensures Allowed(spec, log, EffectDecided(effect))
  {
  }

  /** When nothing was handed out, advancing what was authorized is a prefix question only. */
  lemma QuietSettled(spec: RunSpec, w: World, h: HarnessState, effect: Effect, log: Log)
    requires var (decided, effects) := AuthorizeDecided(spec, w, h, effect, log);
             Disciplined(spec, Advance(spec, Perform(spec, w, effects, decided)))
    ensures var (decided, effects) := AuthorizeDecided(spec, w, h, effect, log);
            effects == [] ==> Disciplined(spec, decided)
  {
    hide Refusal;
    hide Reduce;
    hide Performed;
    hide Harness;
    hide AuthorizeDecided;
    hide Allowed;
    var (decided, effects) := AuthorizeDecided(spec, w, h, effect, log);
    if effects == [] {
      DisciplinedPrefix(spec, Advance(spec, decided), |decided|);
      assert Advance(spec, decided)[..|decided|] == decided;
    }
  }

  /** So does resuming it, wherever it was cut. */
  lemma RecoverDisciplined(spec: RunSpec, w: World, log: Log)
    requires Honest(w) && Disciplined(spec, log)
    ensures Disciplined(spec, Recover(spec, w, log))
  {
    hide Refusal;
    hide Reduce;
    hide Performed;
    hide Advance;
    hide Harness;
    hide AuthorizeDecided;
    hide EffectsOfLast;
    hide Allowed;
    if Resume(spec, log).Err? {
      return;
    }
    var r := Resume(spec, log).value;
    PlainDisciplined(spec, log, RunStarted);
    if Harness(spec, log).Completed? {
      PlainDisciplined(spec, log, RunCompleted(Harness(spec, log).outcome));
    }
    if r.undecided.Some? {
      SettledDisciplined(spec, w, r.undecided.value.0, r.undecided.value.1, log);
    } else if r.pending != [] {
      HandedFrom(spec, log);
      PerformedDisciplined(spec, w, log);
      PerformOne(spec, w, Last(log).effect, log);
      AdvanceDisciplined(spec, log + Performed(spec, w, Last(log).effect, log));
    } else {
      AdvanceDisciplined(spec, r.log);
    }
  }

  lemma PlainDisciplined(spec: RunSpec, log: Log, e: Event)
    requires Disciplined(spec, log) && !e.EffectDecided? && !e.EffectAuthorized? && !e.ChildStarted?
    ensures Disciplined(spec, log + [e])
  {
  }

  /** However a run is resumed and run to where it stops, it stays within its budget. */
  lemma {:induction false} RunKeepsBudget(spec: RunSpec, w: World, log: Log)
    requires Honest(w) && Disciplined(spec, log)
    ensures Disciplined(spec, RunLoop(spec, w, log).log) && WithinBudget(spec, RunLoop(spec, w, log).log)
    decreases Fuel(spec, log)
  {
    hide Reduce;
    hide OneTurn;
    hide WithinBudget;
    hide Allowed;
    TurnProgress(spec, w, log);
    TurnDisciplined(spec, w, log);
    if OneTurn(spec, w, log).Go? {
      RunKeepsBudget(spec, w, OneTurn(spec, w, log).log);
    } else {
      DisciplineKeepsBudget(spec, OneTurn(spec, w, log).log);
    }
  }

  // ---------------------------------------------------------------------------
  // A stale child
  // ---------------------------------------------------------------------------

  const DELEGATOR := RunSpec(RunId(1), Owner("", "", ""), AgentId(1), "", {"agent.delegate"}, Limits(7, 8), map[],
                             Lineage(None, None, 0))

  const HAND_OVER := Delegate(AgentId(2), "draft")

  /** A run that decided `n` effects that are not implemented. */
  function Idled(n: nat): Log {
    if n == 0 then [RunStarted]
    else Idled(n - 1) + [EffectDecided(Wait(""))] + [EffectDenied(Wait(""), NOT_IMPLEMENTED)]
  }

  /** And then a delegation, authorized and not yet performed. */
  function HandsOver(n: nat): Log {
    Idled(n) + [EffectDecided(HAND_OVER)] + [EffectAuthorized(HAND_OVER)]
  }

  /** A run in its first step that decided `n` effects and gave nothing away. */
  predicate Spent(log: Log, n: nat) {
    && Harness(DELEGATOR, log) == HarnessState.Running(1, 0, false)
    && Steps(DELEGATOR, log) == n && GivenSteps(log) == 0
    && ModelCalls(log) == 0 && GivenModelCalls(log) == 0
    && Children(log) == 0 && Started(log) == {}
    && Disciplined(DELEGATOR, log)
  }

  lemma DecideMore(log: Log, n: nat, effect: Effect)
    requires Spent(log, n) && n <= 6 && !effect.Complete? && !effect.ModelCall?
    ensures Spent(log + [EffectDecided(effect)], n + 1)
  {
  }

  lemma DenyMore(log: Log, n: nat, effect: Effect)
    requires Spent(log, n)
    ensures Spent(log + [EffectDenied(effect, NOT_IMPLEMENTED)], n)
  {
    FoldSnoc(DELEGATOR, log, EffectDenied(effect, NOT_IMPLEMENTED));
    PlainDisciplined(DELEGATOR, log, EffectDenied(effect, NOT_IMPLEMENTED));
  }

  lemma AuthorizeMore(log: Log, n: nat)
    requires Spent(log, n) && log != [] && Last(log) == EffectDecided(HAND_OVER)
    ensures Spent(log + [EffectAuthorized(HAND_OVER)], n)
  {
    FoldSnoc(DELEGATOR, log, EffectAuthorized(HAND_OVER));
    DisciplinedSnoc(DELEGATOR, log, EffectAuthorized(HAND_OVER));
  }

  lemma JustStarted()
    ensures Spent([RunStarted], 0)
  {
  }

  lemma {:induction false} IdledState(n: nat)
    requires n <= 6
    ensures Spent(Idled(n), n)
  {
    hide Spent;
    if n == 0 {
      JustStarted();
    } else {
      IdledState(n - 1);
      DecideMore(Idled(n - 1), n - 1, Wait(""));
      DenyMore(Idled(n - 1) + [EffectDecided(Wait(""))], n, Wait(""));
    }
  }

  lemma HandsOverState(n: nat)
    requires n <= 6
    ensures Spent(HandsOver(n), n + 1)
  {
    hide Spent;
    IdledState(n);
    DecideMore(Idled(n), n, HAND_OVER);
    AuthorizeMore(Idled(n) + [EffectDecided(HAND_OVER)], n + 1);
  }

  lemma CarvedFrom(log: Log, n: nat)
    requires Spent(log, n) && n <= 5
    ensures Carve(DELEGATOR, StateOf(DELEGATOR, log)) == Ok(Limits((7 - n) / 2, 4))
  {
    hide Harness;
    hide Dispatch;
    hide Disciplined;
  }

  lemma OverspentBy(log: Log, e: Event)
    requires Spent(log, 5) && e.ChildStarted? && e.limits == Limits(3, 4)
    ensures !WithinBudget(DELEGATOR, log + [e])
  {
  }

  /**
    A spawner that answers with a child stored earlier breaks the budget. A first delivery carves 3
    steps for a child and dies before its log says so; the next one, which decides otherwise first and
    then asks for the same child with 2 steps left, records the 3 it was stored with.
    */
  lemma StaleChildOverspends(child: RunId)
    ensures Carve(DELEGATOR, StateOf(DELEGATOR, HandsOver(0))) == Ok(Limits(3, 4))
    ensures Disciplined(DELEGATOR, HandsOver(4))
    ensures Carve(DELEGATOR, StateOf(DELEGATOR, HandsOver(4))) == Ok(Limits(1, 4))
    ensures !WithinBudget(DELEGATOR, HandsOver(4) + [ChildStarted(child, AgentId(2), Limits(3, 4))])
  {
    hide HandsOver;
    hide Idled;
    hide WithinBudget;
    hide Carve;
    hide StateOf;
    HandsOverState(0);
    HandsOverState(4);
    CarvedFrom(HandsOver(0), 1);
    CarvedFrom(HandsOver(4), 5);
    OverspentBy(HandsOver(4), ChildStarted(child, AgentId(2), Limits(3, 4)));
  }

  // ---------------------------------------------------------------------------
  // Trees of delegations
  // ---------------------------------------------------------------------------

  /** The limits each child was first recorded with. */
  function Gave(log: Log): map<RunId, Limits> {
    if log == [] then map[]
    else if NewChild(Front(log), Last(log)) then Gave(Front(log))[Last(log).runId := Last(log).limits]
    else Gave(Front(log))
  }

  /** A run and the runs it started, each with its log. */
  datatype RunTree = RunTree(spec: RunSpec, log: Log, children: seq<RunTree>)

  predicate Grown(t: RunTree) {
    && Disciplined(t.spec, t.log)
    && (forall i, j :: 0 <= i < j < |t.children| ==> t.children[i].spec.runId != t.children[j].spec.runId)
    && forall child <- t.children ::
         && child.spec.runId in Gave(t.log) && child.spec.limits == Gave(t.log)[child.spec.runId]
         && child.spec.lineage.hop == t.spec.lineage.hop + 1
         && Grown(child)
  }

  function TotalSteps(t: RunTree): nat
    decreases t, 0
  {
    Steps(t.spec, t.log) + TotalStepsOf(t.children)
  }

  function TotalStepsOf(children: seq<RunTree>): nat
    decreases children
  {
    if children == [] then 0 else TotalSteps(children[0]) + TotalStepsOf(children[1..])
  }

  function TotalModelCalls(t: RunTree): nat
    decreases t, 0
  {
    ModelCalls(t.log) + TotalModelCallsOf(t.children)
  }

  function TotalModelCallsOf(children: seq<RunTree>): nat
    decreases children
  {
    if children == [] then 0 else TotalModelCalls(children[0]) + TotalModelCallsOf(children[1..])
  }

  /** The most runs below one another in a tree. */
  function Height(t: RunTree): nat
    decreases t, 0
  {
    HeightOf(t.children)
  }

  function HeightOf(children: seq<RunTree>): nat
    decreases children
  {
    if children == [] then 0
    else
      var first, rest := 1 + Height(children[0]), HeightOf(children[1..]);
      if first > rest then first else rest
  }

  predicate GivenApart(gave: map<RunId, Limits>, children: seq<RunTree>) {
    && (forall i, j :: 0 <= i < j < |children| ==> children[i].spec.runId != children[j].spec.runId)
    && forall child <- children ::
         child.spec.runId in gave && child.spec.limits == gave[child.spec.runId]
  }

  function LimitsOf(children: seq<RunTree>): (nat, nat) {
    if children == [] then (0, 0)
    else
      var rest := LimitsOf(children[1..]);
      (children[0].spec.limits.maxSteps + rest.0, children[0].spec.limits.maxModelCalls + rest.1)
  }

  lemma {:induction false} LimitsOfWithout(children: seq<RunTree>, i: nat)
    requires i < |children|
    ensures var rest := LimitsOf(children[..i] + children[i + 1..]);
            LimitsOf(children) == (children[i].spec.limits.maxSteps + rest.0, children[i].spec.limits.maxModelCalls + rest.1)
  {
    if i == 0 {
      assert children[..0] + children[1..] == children[1..];
    } else {
      LimitsOfWithout(children[1..], i - 1);
      var without := children[..i] + children[i + 1..];
      assert without[0] == children[0];
      assert without[1..] == children[1..][..i - 1] + children[1..][i..];
    }
  }

  lemma {:induction false} GaveStarted(log: Log)
    ensures Gave(log).Keys == Started(log)
  {
    if log != [] {
      GaveStarted(Front(log));
    }
  }

  /** Together the children of a disciplined log were given no more than it says it gave. */
  lemma {:induction false} ChildrenWithinGiven(spec: RunSpec, log: Log, children: seq<RunTree>)
    requires Disciplined(spec, log) && GivenApart(Gave(log), children)
    ensures LimitsOf(children).0 <= GivenSteps(log) && LimitsOf(children).1 <= GivenModelCalls(log)
  {
    hide Reduce;
    hide Carve;
    hide OverBudget;
    if log == [] {
      GivenBySomeone(Gave(log), children);
      return;
    }
    var e := Last(log);
    if NewChild(Front(log), e) && exists i :: 0 <= i < |children| && children[i].spec.runId == e.runId {
      var i :| 0 <= i < |children| && children[i].spec.runId == e.runId;
      var rest := children[..i] + children[i + 1..];
      GaveStarted(Front(log));
      RestApart(Gave(log), Gave(Front(log)), e.runId, children, i);
      ChildrenWithinGiven(spec, Front(log), rest);
      LimitsOfWithout(children, i);
      Unsaturated(spec, log);
      assert children[i] in children;
    } else {
      forall child | child in children
        ensures child.spec.runId in Gave(Front(log)) && child.spec.limits == Gave(Front(log))[child.spec.runId]
      {
        var i :| 0 <= i < |children| && children[i] == child;
      }
      ChildrenWithinGiven(spec, Front(log), children);
    }
  }

  lemma GivenBySomeone(gave: map<RunId, Limits>, children: seq<RunTree>)
    requires GivenApart(gave, children)
    ensures children != [] ==> gave != map[]
  {
    if children != [] {
      assert children[0].spec.runId in gave;
    }
  }

  lemma RestApart(gave: map<RunId, Limits>, before: map<RunId, Limits>, id: RunId, children: seq<RunTree>, i: nat)
    requires GivenApart(gave, children) && i < |children| && children[i].spec.runId == id
    requires id in gave && gave == before[id := gave[id]]
    ensures GivenApart(before, children[..i] + children[i + 1..])
  {
  }

  /** What a disciplined log gives a child is added in full. */
  lemma Unsaturated(spec: RunSpec, log: Log)
    requires Disciplined(spec, log) && log != [] && NewChild(Front(log), Last(log))
    ensures GivenSteps(log) == GivenSteps(Front(log)) + Last(log).limits.maxSteps
    ensures GivenModelCalls(log) == GivenModelCalls(Front(log)) + Last(log).limits.maxModelCalls
  {
    DisciplineKeepsBudget(spec, Front(log));
  }

  /**
    Over a run and everything it started, directly or not: the steps taken and the model calls made
    never exceed the root's own limits, and the chain of delegations is no longer than the hops left.
    */
  lemma {:induction false} TreeWithinBudget(t: RunTree)
    requires Grown(t)
    ensures TotalSteps(t) <= t.spec.limits.maxSteps
    ensures TotalModelCalls(t) <= t.spec.limits.maxModelCalls
    ensures |t.children| <= MAX_CHILDREN
    ensures t.spec.lineage.hop + Height(t) <= MAX_DELEGATION_HOPS || Height(t) == 0
    decreases t, 0
  {
    hide Reduce;
    hide Disciplined;
    hide Steps;
    hide ModelCalls;
    DisciplineKeepsBudget(t.spec, t.log);
    ChildrenWithinGiven(t.spec, t.log, t.children);
    GaveStarted(t.log);
    if t.children != [] {
      assert t.children[0].spec.runId in Started(t.log);
    }
    ForestWithinBudget(t.children, t.spec.lineage.hop);
    AtMostStarted(t);
  }

  lemma {:induction false} ForestWithinBudget(children: seq<RunTree>, hop: u32)
    requires forall child <- children :: Grown(child) && child.spec.lineage.hop == hop + 1
    requires children != [] ==> hop < MAX_DELEGATION_HOPS
    ensures TotalStepsOf(children) <= LimitsOf(children).0
    ensures TotalModelCallsOf(children) <= LimitsOf(children).1
    ensures hop + HeightOf(children) <= MAX_DELEGATION_HOPS || HeightOf(children) == 0
    decreases children
  {
    if children != [] {
      TreeWithinBudget(children[0]);
      ForestWithinBudget(children[1..], hop);
    }
  }

  function Ids(children: seq<RunTree>): set<RunId> {
    set child <- children :: child.spec.runId
  }

  lemma {:induction false} DistinctIds(children: seq<RunTree>)
    requires forall i, j :: 0 <= i < j < |children| ==> children[i].spec.runId != children[j].spec.runId
    ensures |Ids(children)| == |children|
  {
    if children != [] {
      var front, last := children[..|children| - 1], children[|children| - 1];
      DistinctIds(front);
      assert Ids(children) == Ids(front) + {last.spec.runId};
    }
  }

  lemma SubsetSize(a: set<RunId>, b: set<RunId>)
    requires a <= b
    ensures |a| <= |b|
  {
    assert b == a + (b - a);
  }

  lemma AtMostStarted(t: RunTree)
    requires Grown(t)
    ensures |t.children| <= Children(t.log)
  {
    DistinctIds(t.children);
    GaveStarted(t.log);
    ChildrenAreDistinct(t.log);
    SubsetSize(Ids(t.children), Started(t.log));
  }
}
