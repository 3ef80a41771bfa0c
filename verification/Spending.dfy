/**
  Budgets over a whole deployment: when every driver's spawner and deliverer start a child with what was
  carved for it, or name one already counted, every stored log is within its run's budget.
  */
module Spending {
  import opened Protocol
  import opened Reducer
  import opened Folding
  import opened Driving
  import opened CrashResume
  import opened Budget
  import opened Asks
  import opened RunLog
  import opened Stores
  import opened Cluster
  import opened Serializing
  import opened Deployments

  /** The step's driver, if it has one, meets an honest spawner and deliverer. */
  ghost predicate HonestStep(a: Action) {
    a.Labors? ==> (a.laboring.Begin? ==> Honest(a.laboring.world)) && (a.laboring.Turn? ==> Honest(a.laboring.world))
  }

  predicate LogsDisciplined(s: Store) {
    forall id <- s :: Disciplined(s[id].spec, s[id].log)
  }

  /** A worker's own log is disciplined too. */
  predicate ProcDisciplined(s: Store, proc: Proc) {
    match proc
    case Loaded(id, _, log) => id in s && Disciplined(s[id].spec, log)
    case Working(id, _, _, mine, _, _) => id in s && Disciplined(s[id].spec, mine)
    case _ => true
  }

  ghost predicate SpendsOk(c: Cluster) {
    LogInv(c) && LogsDisciplined(c.store) && forall p <- c.procs :: ProcDisciplined(c.store, c.procs[p])
  }

  lemma QueuedDisciplined(spec: RunSpec)
    ensures Disciplined(spec, QueuedEvents(spec))
  {
    hide Reduce;
    assert QueuedEvents(spec) == [] + [RunCreated] + [RunQueued] + [UserMessage(spec.input)];
    PlainDisciplined(spec, [], RunCreated);
    PlainDisciplined(spec, [] + [RunCreated], RunQueued);
    PlainDisciplined(spec, [] + [RunCreated] + [RunQueued], UserMessage(spec.input));
  }

  lemma LadderDisciplined(spec: RunSpec, log: Log)
    requires Disciplined(spec, log)
    ensures Disciplined(spec, log + LADDER)
  {
    hide Disciplined;
    assert log + LADDER == log + [RunScheduled] + [RunProvisioning] + [RunStarting];
    PlainDisciplined(spec, log, RunScheduled);
    PlainDisciplined(spec, log + [RunScheduled], RunProvisioning);
    PlainDisciplined(spec, log + [RunScheduled] + [RunProvisioning], RunStarting);
  }

  lemma RebuiltDisciplined(spec: RunSpec, log: Log)
    requires Disciplined(spec, log)
    ensures Disciplined(spec, Rebuilt(spec, log))
  {
    hide Disciplined;
    hide Rebuilt;
    hide Harness;
    RebuiltExtends(spec, log);
    PlainDisciplined(spec, log, RunStarted);
    if Harness(spec, log).Completed? {
      PlainDisciplined(spec, log, RunCompleted(Harness(spec, log).outcome));
    }
  }

  lemma BeganDisciplined(spec: RunSpec, proc: Proc, stopped: bool, decider: bool, w: World)
    requires proc.Working? && Disciplined(spec, proc.mine) && Honest(w)
    ensures var began := Began(spec, proc, stopped, decider, w);
            began.Working? && began.id == proc.id && Disciplined(spec, began.mine)
  {
    hide Disciplined;
    hide Recover;
    hide Rebuilt;
    hide Resume;
    hide Honest;
    hide Dispatch;
    var log := proc.mine;
    DisciplinedEnd(spec, log, RunCancelled);
    DisciplinedEnd(spec, log, RunFailed(Infrastructure, "cannot resume"));
    LadderDisciplined(spec, log);
    RebuiltDisciplined(spec, log);
    DisciplinedEnd(spec, Rebuilt(spec, log), RunFailed(Dependency, "decider: none"));
    RecoverDisciplined(spec, w, log);
  }

  lemma TurnedDisciplined(spec: RunSpec, proc: Proc, w: World)
    requires proc.Working? && Disciplined(spec, proc.mine) && Honest(w)
    ensures var turned := Turned(spec, proc, w);
            turned.Working? && turned.id == proc.id && Disciplined(spec, turned.mine)
  {
    hide Disciplined;
    hide OneTurn;
    hide Honest;
    TurnDisciplined(spec, w, proc.mine);
    var turn := OneTurn(spec, w, proc.mine);
    if turn.Stop? && turn.error.Some? {
      DisciplinedEnd(spec, turn.log, RunFailed(Dependency, "decider: " + turn.error.value));
    }
  }

  // ---------------------------------------------------------------------------
  // Each step
  // ---------------------------------------------------------------------------

  lemma PlainAppend(s: Store, id: RunId, seen: Option<nat>, e: Event)
    requires LogsDisciplined(s) && !e.EffectDecided? && !e.EffectAuthorized? && !e.ChildStarted?
    ensures LogsDisciplined(AppendTo(s, id, seen, [e]).0)
  {
    hide Disciplined;
    hide Ended;
    if id in s {
      PlainDisciplined(s[id].spec, s[id].log, e);
    }
  }

  lemma ProduceSpends(c: Cluster, proc: Proc, a: Producing)
    requires LogsDisciplined(c.store) && MayProduce(c, proc, a)
    ensures var o := Produce(c, proc, a); LogsDisciplined(o.store) && ProcDisciplined(o.store, o.next)
  {
    hide Disciplined;
    hide AppendTo;
    hide StillWaiting;
    match a {
      case Put => QueuedDisciplined(proc.spec);
      case PutFails(_) => QueuedDisciplined(proc.spec);
      case End => PlainAppend(c.store, proc.id, None, Undelivered(proc.why));
      case Hold => PlainAppend(c.store, proc.id, None, RunCancelled);
      case _ =>
    }
  }

  lemma ServeSpends(c: Cluster, proc: Proc, a: Serving)
    requires LogsDisciplined(c.store) && LogOk(c.store, proc) && MayServe(c, proc, a)
    ensures var o := Serve(c, proc, a); LogsDisciplined(o.store) && ProcDisciplined(o.store, o.next)
  {
    hide Disciplined;
    hide AppendTo;
    hide AskStateOf;
    hide OpenQuestion;
    hide Ended;
    hide Follows;
    hide Written;
    match a {
      case Answer => PlainAppend(c.store, proc.id, None, proc.answer);
      case PutReply => PlainAppend(c.store, proc.id, Some(proc.length), UserAnswered(proc.ask, proc.text));
      case Cancel => PlainAppend(c.store, proc.id, Some(proc.length), RunCancelled);
      case _ =>
    }
  }

  lemma StoreSpends(c: Cluster, proc: Proc)
    requires LogsDisciplined(c.store) && LogOk(c.store, proc) && ProcDisciplined(c.store, proc) && MayLabor(c, proc, Store)
    ensures var o := Labor(c, proc, Store); LogsDisciplined(o.store) && ProcDisciplined(o.store, o.next)
  {
    hide Disciplined;
    hide AppendTo;
    hide Ended;
    hide Follows;
    hide Works;
    FollowsWrites(c.store, proc);
    TakenExactly(c.store, proc);
  }

  lemma DriveSpends(c: Cluster, proc: Proc, a: Laboring)
    requires LogsDisciplined(c.store) && ProcDisciplined(c.store, proc) && MayLabor(c, proc, a)
    requires a.Begin? || a.Turn? || a.StopHere?
    requires (a.Begin? || a.Turn?) ==> Honest(a.world)
    ensures var o := Labor(c, proc, a); LogsDisciplined(o.store) && ProcDisciplined(o.store, o.next)
  {
    hide Disciplined;
    hide Honest;
    hide Began;
    hide Turned;
    hide Ended;
    match a {
      case Begin(stopped, decider, w) => BeganDisciplined(c.store[proc.id].spec, proc, stopped, decider, w);
      case Turn(w) => TurnedDisciplined(c.store[proc.id].spec, proc, w);
      case StopHere => DisciplinedEnd(c.store[proc.id].spec, proc.mine, RunCancelled);
    }
  }

  lemma OtherSpends(c: Cluster, proc: Proc, a: Laboring)
    requires LogsDisciplined(c.store) && ProcDisciplined(c.store, proc) && MayLabor(c, proc, a)
    requires !(a.Begin? || a.Turn? || a.StopHere? || a.Store?)
    ensures var o := Labor(c, proc, a); LogsDisciplined(o.store) && ProcDisciplined(o.store, o.next)
  {
    hide Disciplined;
    hide AppendTo;
    hide AskStateOf;
    hide Began;
    hide Turned;
    hide Harness;
    hide Ended;
    hide Queue.Claim;
    hide Queue.Start;
    hide Queue.Ack;
    hide Queue.Release;
    hide Queue.Park;
    if a.Fail? {
      PlainAppend(c.store, proc.id, None, RunFailed(Infrastructure, "started without ending"));
    }
  }

  lemma ActedSpends(c: Cluster, a: Action)
    requires SpendsOk(c) && Enabled(c, a) && HonestStep(a)
    ensures var o := Acted(c, a); LogsDisciplined(o.store) && ProcDisciplined(o.store, o.next)
  {
    hide LogOk;
    hide StoreOk;
    hide LogsDisciplined;
    hide ProcDisciplined;
    hide Produce;
    hide Labor;
    hide Serve;
    hide MayProduce;
    hide MayLabor;
    hide MayServe;
    hide Honest;
    KnownOk(c, a.p);
    ProcKnown(c, a.p);
    match a {
      case Produces(p, producing) => ProduceSpends(c, At(c, p), producing);
      case Serves(p, serving) => ServeSpends(c, At(c, p), serving);
      case Labors(p, laboring) =>
        if laboring.Store? {
          StoreSpends(c, At(c, p));
        } else if laboring.Begin? || laboring.Turn? || laboring.StopHere? {
          DriveSpends(c, At(c, p), laboring);
        } else {
          OtherSpends(c, At(c, p), laboring);
        }
    }
  }

  lemma ProcKnown(c: Cluster, p: nat)
    requires SpendsOk(c)
    ensures ProcDisciplined(c.store, At(c, p))
  {
  }

  lemma ProcStays(s: Store, s': Store, proc: Proc)
    requires ProcDisciplined(s, proc) && Grows(s, s')
    ensures ProcDisciplined(s', proc)
  {
    hide Disciplined;
  }

  lemma StepSpends(c: Cluster, a: Action)
    requires SpendsOk(c) && Enabled(c, a) && HonestStep(a)
    ensures SpendsOk(Apply(c, a))
  {
    hide LogInv;
    hide LogsDisciplined;
    hide ProcDisciplined;
    hide Acted;
    hide Enabled;
    hide Grows;
    hide Serial;
    hide HonestStep;
    StepLogs(c, a);
    ActedSpends(c, a);
    var o, c' := Acted(c, a), Apply(c, a);
    forall k | k in c'.procs ensures ProcDisciplined(c'.store, c'.procs[k]) {
      if k != a.p {
        ProcStays(c.store, o.store, c.procs[k]);
      }
    }
  }

  // ---------------------------------------------------------------------------
  // Whole runs
  // ---------------------------------------------------------------------------

  lemma {:induction false} RunSpends(cs: seq<Cluster>, actions: seq<Action>, n: nat)
    requires Runs(cs, actions) && n < |cs| && forall a <- actions :: HonestStep(a)
    ensures SpendsOk(cs[n])
  {
    hide Apply;
    hide Enabled;
    hide SpendsOk;
    hide HonestStep;
    if n == 0 {
      InitialSpends(cs[0]);
    } else {
      RunSpends(cs, actions, n - 1);
      assert actions[n - 1] in actions;
      assert StepAt(cs, actions, n - 1);
      StepSpends(cs[n - 1], actions[n - 1]);
    }
  }

  lemma InitialSpends(c: Cluster)
    requires Initial(c)
    ensures SpendsOk(c)
  {
  }

  /**
    In every reachable state of a deployment whose drivers all meet honest spawners and deliverers,
    every stored log is within its run's budget, its children and its hops within their caps.
    */
  lemma StoredWithinBudget(cs: seq<Cluster>, actions: seq<Action>, n: nat, id: RunId)
    requires Runs(cs, actions) && n < |cs| && id in cs[n].store && forall a <- actions :: HonestStep(a)
    ensures WithinBudget(cs[n].store[id].spec, cs[n].store[id].log)
  {
    hide Runs;
    hide HonestStep;
    hide WithinBudget;
    hide Disciplined;
    RunSpends(cs, actions, n);
    DisciplineKeepsBudget(cs[n].store[id].spec, cs[n].store[id].log);
  }
}
