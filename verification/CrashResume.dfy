/**
  A driver rebuilt from a stored log carries on as the one that wrote it would have, wherever the log
  was cut, with one exception: a log cut between the two events of a sent message.
  */
module CrashResume {
  import opened Protocol
  import opened Reducer
  import opened Folding
  import opened Driving
  import opened Looping

  /** Rebuilding a driver and finishing the step its log was cut in. A log that cannot be resumed stays as it is. */
  function Recover(spec: RunSpec, w: World, log: Log): Log {
    match Resume(spec, log)
    case Ok(r) => Preamble(spec, w, r)
    case Err(_) => log
  }

  /** A log that records the task a message started and not yet the message. */
  predicate TornSend(log: Log) {
    && |log| >= 2 && Last(log).ChildStarted?
    && log[|log| - 2].EffectAuthorized? && log[|log| - 2].effect.SendMessage?
  }

  /** A log as the loop leaves it between two steps, or once it ended. */
  predicate AtBoundary(spec: RunSpec, log: Log) {
    && RunStarted in log
    && EndsOnce(log)
    && (Harness(spec, log).Completed? ==> Ended(log))
    && !Last(log).EffectDecided? && !Last(log).EffectAuthorized?
    && !AwaitsAdvance(spec, Harness(spec, log))
    && !TornSend(log)
  }

  /** Only an authorization hands an effect out. */
  lemma QuietLast(spec: RunSpec, log: Log)
    requires log != [] && !Last(log).EffectAuthorized?
    ensures EffectsOfLast(spec, log) == []
  {
  }

  /** An event hands out at most one effect, and an end none. */
  lemma HandedAtMostOne(spec: RunSpec, log: Log)
    ensures |EffectsOfLast(spec, log)| <= 1
    ensures log != [] && IsRunEnd(Last(log)) ==> EffectsOfLast(spec, log) == []
  {
    if log != [] {
      HandsOutOne(Harness(spec, Front(log)), Last(log), spec);
    }
  }

  /** An effect handed out was applicable, and only a tool call moved the harness. */
  lemma HandedFrom(spec: RunSpec, log: Log)
    requires log != [] && EffectsOfLast(spec, log) != []
    ensures Last(log).EffectAuthorized? && EffectsOfLast(spec, log) == [Last(log).effect]
    ensures var h, effect := Harness(spec, log), Last(log).effect;
            if effect.ToolCall? then h.WaitingForTool? else Applicable(h, effect, spec) && !effect.Complete?
  {
    HandsOutOne(Harness(spec, Front(log)), Last(log), spec);
  }

  /** Recovering a log cut at a step boundary appends nothing. */
  lemma RecoverBoundary(spec: RunSpec, w: World, log: Log)
    requires AtBoundary(spec, log)
    ensures Recover(spec, w, log) == log
  {
    hide Reduce;
    hide EffectsOfLast;
    QuietLast(spec, log);
  }

  lemma RecoverEnded(spec: RunSpec, w: World, log: Log)
    requires Ended(log)
    ensures Recover(spec, w, log) == log
  {
  }

  lemma RecoverDecided(spec: RunSpec, w: World, log: Log, effect: Effect)
    requires RunStarted in log && !Ended(log) && !Harness(spec, log).IsTerminal()
    ensures var (decided, effects) := AuthorizeDecided(spec, w, Harness(spec, log), effect, Decided(log, effect));
            Recover(spec, w, Decided(log, effect)) == Advance(spec, Perform(spec, w, effects, decided))
  {
    hide Reduce;
    hide Refusal;
    hide Performed;
    hide AuthorizeDecided;
    EndedSnoc(log, EffectDecided(effect));
    HarnessThroughDecision(spec, log, effect);
    assert Front(Decided(log, effect)) == log;
  }

  /** Authorizing an effect the harness acts on moves it only for a tool call, and hands the effect out. */
  lemma AuthorizedHarness(spec: RunSpec, log: Log, effect: Effect)
    requires Applicable(Harness(spec, log), effect, spec) && !effect.Complete?
    ensures var h, h' := Harness(spec, log), Harness(spec, Authorized(log, effect));
            h.Running? &&
            h' == if effect.ToolCall? then WaitingForTool(h.step, h.attempt, effect.name, effect.invocation) else h
    ensures EffectsOfLast(spec, Authorized(log, effect)) == [effect]
  {
    hide Harness;
    HarnessThroughDecision(spec, log, effect);
  }

  lemma RecoverAuthorized(spec: RunSpec, w: World, log: Log, effect: Effect)
    requires RunStarted in log && !Ended(log)
    requires Applicable(Harness(spec, log), effect, spec) && !effect.Complete?
    ensures Recover(spec, w, Authorized(log, effect)) == ActedOn(spec, w, log, effect)
  {
    hide Performed;
    hide Reduce;
    hide EffectsOfLast;
    hide Applicable;
    AuthorizedHarness(spec, log, effect);
    AuthorizedNotEnded(log, effect);
    PerformOne(spec, w, effect, Authorized(log, effect));
  }

  lemma AuthorizedNotEnded(log: Log, effect: Effect)
    requires !Ended(log)
    ensures !Ended(Decided(log, effect)) && !Ended(Authorized(log, effect))
  {
  }

  lemma RecoverFinishing(spec: RunSpec, w: World, log: Log, effect: Effect)
    requires RunStarted in log && !Ended(log)
    requires Harness(spec, log).Running? && effect.Complete?
    ensures Recover(spec, w, Authorized(log, effect)) == Finished(log, effect)
  {
    hide Reduce;
    hide Performed;
    AuthorizedNotEnded(log, effect);
    FinishedHarness(spec, log, effect);
  }

  lemma FinishedHarness(spec: RunSpec, log: Log, effect: Effect)
    requires Harness(spec, log).Running? && effect.Complete?
    ensures Harness(spec, Authorized(log, effect)) == HarnessState.Completed(effect.outcome)
    ensures Harness(spec, Finished(log, effect)) == HarnessState.Completed(effect.outcome)
  {
    hide Harness;
    HarnessThroughDecision(spec, log, effect);
    FoldSnoc(spec, Authorized(log, effect), RunCompleted(effect.outcome));
  }

  /** The results an effect can have, from the harness its authorization left. */
  lemma ToolOutcome(spec: RunSpec, w: World, effect: Effect, log: Log)
    requires effect.ToolCall?
    requires var h := Harness(spec, log);
             h.WaitingForTool? && h.name == effect.name && h.invocation == effect.invocation
    ensures var h, events := Harness(spec, log), Performed(spec, w, effect, log);
            && |events| == 1
            && (events[0].RunFailed? || (events[0].ToolResult? &&
                events[0] == ToolResult(h.name, h.invocation, h.step, h.attempt, events[0].output)))
  {
  }

  lemma OtherOutcome(spec: RunSpec, w: World, effect: Effect, log: Log)
    requires Applicable(Harness(spec, log), effect, spec) && !effect.Complete? && !effect.ToolCall?
    ensures var events := Performed(spec, w, effect, log);
            && 1 <= |events| <= 2
            && (forall e <- events :: IsOutcome(e) && !e.ToolResult?)
            && (|events| == 2 ==> effect.SendMessage? && events[0].ChildStarted? && events[1].MessageSent?)
            && (|events| == 1 && events[0].ChildStarted? ==> effect.Delegate?)
  {
    PerformedAreOutcomes(spec, w, effect, log);
  }

  /** Such a result ends the harness, makes an open step wait, or leaves the harness alone. */
  lemma OutcomeMoves(spec: RunSpec, h: HarnessState, e: Event)
    requires h.Running? && IsOutcome(e) && !e.ToolResult?
    ensures var h' := Reduce(h, e, spec).0;
            if e.RunFailed? then h'.Failed? else h' == h || (h'.WaitingForMessage? && !e.ChildStarted?)
  {
  }

  /** Where an acted-on effect leaves the harness, and when its step then advances. */
  lemma ActedHarness(spec: RunSpec, w: World, log: Log, effect: Effect)
    requires Applicable(Harness(spec, log), effect, spec) && !effect.Complete?
    requires !AwaitsAdvance(spec, Harness(spec, log))
    ensures var at := Authorized(log, effect);
            var events := Performed(spec, w, effect, at);
            var h := Harness(spec, at + events);
            && 1 <= |events| <= 2
            && (forall e <- events :: IsOutcome(e))
            && (events[0].RunFailed? ==> |events| == 1 && h.Failed?)
            && (!events[0].RunFailed? ==> !h.IsTerminal())
            && (AwaitsAdvance(spec, h) ==> |events| == 1 && events[0].ToolResult?)
            && (|events| == 2 ==> && effect.SendMessage? && events[0].ChildStarted? && events[1].MessageSent?
                                  && Harness(spec, at + [events[0]]) == Harness(spec, log))
            && (|events| == 1 && events[0].ChildStarted? ==> effect.Delegate?)
  {
    hide Performed;
    hide Reduce;
    hide Applicable;
    hide EffectsOfLast;
    AuthorizedHarness(spec, log, effect);
    var at := Authorized(log, effect);
    var events := Performed(spec, w, effect, at);
    if effect.ToolCall? {
      ToolOutcome(spec, w, effect, at);
      ToolHarness(spec, at, events[0]);
      assert at + events == at + [events[0]];
    } else {
      OtherHarness(spec, w, log, effect);
    }
  }

  lemma ToolHarness(spec: RunSpec, log: Log, e: Event)
    requires var h := Harness(spec, log);
             h.WaitingForTool? && (e.RunFailed? || (e.ToolResult? &&
             e == ToolResult(h.name, h.invocation, h.step, h.attempt, e.output)))
    ensures var h := Harness(spec, log + [e]);
            if e.RunFailed? then h.Failed? else h.Running?
  {
  }

  lemma OtherHarness(spec: RunSpec, w: World, log: Log, effect: Effect)
    requires Applicable(Harness(spec, log), effect, spec) && !effect.Complete? && !effect.ToolCall?
    ensures var at := Authorized(log, effect);
            var events := Performed(spec, w, effect, at);
            var h := Harness(spec, at + events);
            && 1 <= |events| <= 2
            && (forall e <- events :: IsOutcome(e) && !e.ToolResult?)
            && (if events[0].RunFailed? then |events| == 1 && h.Failed? else
                h == Harness(spec, log) || h.WaitingForMessage?)
            && (|events| == 2 ==> && effect.SendMessage? && events[0].ChildStarted? && events[1].MessageSent?
                                  && Harness(spec, at + [events[0]]) == Harness(spec, log))
            && (|events| == 1 && events[0].ChildStarted? ==> effect.Delegate?)
  {
    hide Performed;
    hide Reduce;
    hide Applicable;
    hide EffectsOfLast;
    AuthorizedHarness(spec, log, effect);
    var at := Authorized(log, effect);
    OtherOutcome(spec, w, effect, at);
    var events := Performed(spec, w, effect, at);
    FoldSnoc(spec, at, events[0]);
    OutcomeMoves(spec, Harness(spec, at), events[0]);
    if |events| == 2 {
      FoldSnoc(spec, at + [events[0]], events[1]);
      OutcomeMoves(spec, Harness(spec, at), events[1]);
      assert at + events == at + [events[0]] + [events[1]];
    } else {
      assert at + events == at + [events[0]];
    }
  }

  // ---------------------------------------------------------------------------
  // One turn, cut anywhere
  // ---------------------------------------------------------------------------

  lemma UnendedSuffix(log: Log, more: Log)
    requires !Ended(log) && forall e <- more :: !IsRunEnd(e)
    ensures !Ended(log + more) && EndsOnce(log + more)
  {
  }

  lemma BoundaryOpen(spec: RunSpec, log: Log)
    requires AtBoundary(spec, log) && !Ended(log)
    ensures Open(Harness(spec, log))
  {
    IdleIffUnstarted(spec, log);
    EndedHarness(spec, log);
  }

  /** A log that an event just ended is at a boundary. */
  lemma EndsAtBoundary(spec: RunSpec, log: Log, e: Event)
    requires RunStarted in log && !Ended(log) && IsRunEnd(e)
    requires Harness(spec, log + [e]).IsTerminal()
    ensures AtBoundary(spec, log + [e]) && Ended(log + [e])
  {
  }

  /** So is one that ends on the outcome of a step or on a refusal. */
  lemma GoesOnAtBoundary(spec: RunSpec, log: Log, more: Log)
    requires RunStarted in log && !Ended(log) && more != []
    requires forall e <- more :: !IsRunEnd(e)
    requires var h := Harness(spec, log + more); !h.IsTerminal() && !AwaitsAdvance(spec, h)
    requires !Last(more).EffectDecided? && !Last(more).EffectAuthorized? && !TornSend(log + more)
    ensures AtBoundary(spec, log + more) && !Ended(log + more)
  {
  }

  /** A finished turn leaves its log at a boundary again, ended at most once. */
  lemma TurnKeepsBoundary(spec: RunSpec, w: World, log: Log)
    requires AtBoundary(spec, log) && !Ended(log)
    ensures AtBoundary(spec, OneTurn(spec, w, log).log)
    ensures var turn := OneTurn(spec, w, log);
            Ended(turn.log) || (turn.Stop? ==> turn.log == log && (turn.error.Some? || !Asks(spec, w, log)))
  {
    hide Refusal;
    hide Reduce;
    hide Performed;
    hide OneTurn;
    hide Applicable;
    BoundaryOpen(spec, log);
    if !Asks(spec, w, log) {
      Unasked(spec, w, log);
      FoldSnoc(spec, log, RunCancelled);
      CancelledHarness(spec, Harness(spec, log));
      EndsAtBoundary(spec, log, RunCancelled);
      return;
    }
    TurnOf(spec, w, log);
    var c := CourseOf(spec, w, log);
    match c {
      case Fails =>
      case Exhausted =>
        var e := RunFailed(Budget, "limit hit");
        FoldSnoc(spec, log, e);
        FailedHarness(spec, Harness(spec, log), e);
        EndsAtBoundary(spec, log, e);
      case Denied(effect, why) =>
        QuietSnoc(spec, log, effect, why);
        GoesOnAtBoundary(spec, log, [EffectDecided(effect), EffectDenied(effect, why)]);
      case Finishes(effect) =>
        PermittedIsApplicable(spec, w, Harness(spec, log), effect);
        RunningApplies(spec, Harness(spec, log), effect);
        FinishedHarness(spec, log, effect);
        AuthorizedNotEnded(log, effect);
        EndsAtBoundary(spec, Authorized(log, effect), RunCompleted(effect.outcome));
      case Acts(effect) =>
        PermittedIsApplicable(spec, w, Harness(spec, log), effect);
        ActedKeepsBoundary(spec, w, log, effect);
    }
  }

  lemma RunningApplies(spec: RunSpec, h: HarnessState, effect: Effect)
    requires Applicable(h, effect, spec)
    ensures h.Running?
  {
  }

  lemma CancelledHarness(spec: RunSpec, h: HarnessState)
    requires Open(h)
    ensures Reduce(h, RunCancelled, spec).0.Cancelled?
  {
  }

  lemma FailedHarness(spec: RunSpec, h: HarnessState, e: Event)
    requires Open(h) && e.RunFailed?
    ensures Reduce(h, e, spec).0.Failed?
  {
  }

  lemma ActedKeepsBoundary(spec: RunSpec, w: World, log: Log, effect: Effect)
    requires RunStarted in log && !Ended(log)
    requires Applicable(Harness(spec, log), effect, spec) && !effect.Complete?
    requires !AwaitsAdvance(spec, Harness(spec, log))
    ensures AtBoundary(spec, ActedOn(spec, w, log, effect))
  {
    hide Performed;
    hide Reduce;
    hide Applicable;
    hide Harness;
    hide AtBoundary;
    hide Advance;
    var at := Authorized(log, effect);
    var events := Performed(spec, w, effect, at);
    ActedHarness(spec, w, log, effect);
    AuthorizedNotEnded(log, effect);
    if events[0].RunFailed? {
      FailedAtBoundary(spec, at, events);
    } else {
      OutcomeAtBoundary(spec, at, events);
    }
  }

  lemma FailedAtBoundary(spec: RunSpec, log: Log, events: Log)
    requires RunStarted in log && !Ended(log)
    requires |events| == 1 && events[0].RunFailed? && Harness(spec, log + events).Failed?
    ensures AtBoundary(spec, Advance(spec, log + events))
  {
  }

  lemma OutcomeAtBoundary(spec: RunSpec, log: Log, events: Log)
    requires RunStarted in log && !Ended(log) && Last(log).EffectAuthorized?
    requires 1 <= |events| <= 2 && (forall e <- events :: IsOutcome(e) && !e.RunFailed?)
    requires !Harness(spec, log + events).IsTerminal()
    requires Last(events).ChildStarted? ==> |events| == 1 && !Last(log).effect.SendMessage?
    ensures AtBoundary(spec, Advance(spec, log + events))
  {
    hide Harness;
    hide AtBoundary;
    if AwaitsAdvance(spec, Harness(spec, log + events)) {
      UnendedSuffix(log, events);
      FoldSnoc(spec, log + events, StepAdvanced);
      AdvancedHarness(spec, Harness(spec, log + events));
      GoesOnAtBoundary(spec, log + events, [StepAdvanced]);
    } else {
      assert IsOutcome(Last(events));
      assert Last(log + events) == Last(events);
      assert |events| == 1 ==> (log + events)[|log + events| - 2] == Last(log);
      GoesOnAtBoundary(spec, log, events);
    }
  }

  lemma AdvancedHarness(spec: RunSpec, h: HarnessState)
    requires AwaitsAdvance(spec, h)
    ensures var h' := Reduce(h, StepAdvanced, spec).0; h'.Running? && !h'.answered
  {
  }

  /** Every cut inside a turn is recovered to the end of that turn, unless it tears a sent message apart. */
  lemma TurnRecovers(spec: RunSpec, w: World, log: Log, cut: nat)
    requires AtBoundary(spec, log) && !Ended(log)
    requires |log| < cut <= |OneTurn(spec, w, log).log|
    ensures var turn := OneTurn(spec, w, log);
            var kept := turn.log[..cut];
            if TornSend(kept)
            then turn.Go? && cut < |turn.log| && turn.log[cut].MessageSent? && Recover(spec, w, kept) == kept
            else Recover(spec, w, kept) == turn.log
  {
    hide Refusal;
    hide Reduce;
    hide Performed;
    hide OneTurn;
    hide Applicable;
    hide Recover;
    var turn := OneTurn(spec, w, log);
    TurnKeepsBoundary(spec, w, log);
    RecoverBoundary(spec, w, turn.log);
    if cut == |turn.log| {
      assert turn.log[..cut] == turn.log;
      return;
    }
    if !Asks(spec, w, log) {
      Unasked(spec, w, log);
      return;
    }
    TurnOf(spec, w, log);
    var c := CourseOf(spec, w, log);
    if c.Denied? || c.Finishes? || c.Acts? {
      TurnInside(spec, w, log, cut, c);
    }
  }

  lemma TurnInside(spec: RunSpec, w: World, log: Log, cut: nat, c: Course)
    requires AtBoundary(spec, log) && !Ended(log) && Asks(spec, w, log)
    requires c == CourseOf(spec, w, log) && (c.Denied? || c.Finishes? || c.Acts?)
    requires |log| < cut < |OneTurn(spec, w, log).log|
    ensures var turn := OneTurn(spec, w, log);
            var kept := turn.log[..cut];
            if TornSend(kept)
            then turn.Go? && cut < |turn.log| && turn.log[cut].MessageSent? && Recover(spec, w, kept) == kept
            else Recover(spec, w, kept) == turn.log
  {
    hide Refusal;
    hide Reduce;
    hide Performed;
    hide OneTurn;
    hide Applicable;
    hide Recover;
    hide AuthorizeDecided;
    TurnOf(spec, w, log);
    RecoverDecided(spec, w, log, c.effect);
    var kept := OneTurn(spec, w, log).log[..cut];
    match c {
      case Denied(effect, why) =>
        RefusedVerdict(spec, w, log, effect, why);
        QuietSnoc(spec, log, effect, why);
        assert kept == Decided(log, effect);
      case Finishes(effect) =>
        FinishingVerdict(spec, w, log, effect);
        PermittedIsApplicable(spec, w, Harness(spec, log), effect);
        RunningApplies(spec, Harness(spec, log), effect);
        RecoverFinishing(spec, w, log, effect);
        assert kept == Decided(log, effect) || kept == Authorized(log, effect);
      case Acts(effect) =>
        ActingVerdict(spec, w, log, effect);
        PermittedIsApplicable(spec, w, Harness(spec, log), effect);
        ActsInside(spec, w, log, cut, effect);
    }
  }

  lemma ActsInside(spec: RunSpec, w: World, log: Log, cut: nat, effect: Effect)
    requires AtBoundary(spec, log) && !Ended(log)
    requires Applicable(Harness(spec, log), effect, spec) && !effect.Complete?
    requires Recover(spec, w, Decided(log, effect))
          == Advance(spec, Perform(spec, w, [effect], Authorized(log, effect)))
    requires |log| < cut < |ActedOn(spec, w, log, effect)|
    ensures var all := ActedOn(spec, w, log, effect);
            var kept := all[..cut];
            if TornSend(kept) then all[cut].MessageSent? && Recover(spec, w, kept) == kept
            else Recover(spec, w, kept) == all
  {
    hide Reduce;
    hide Performed;
    hide Applicable;
    hide Recover;
    var at := Authorized(log, effect);
    var all := ActedOn(spec, w, log, effect);
    var kept := all[..cut];
    ActedHarness(spec, w, log, effect);
    var events := Performed(spec, w, effect, at);
    if cut == |log| + 1 {
      PerformOne(spec, w, effect, at);
      assert kept == Decided(log, effect);
    } else if cut == |log| + 2 {
      RecoverAuthorized(spec, w, log, effect);
      assert kept == at;
    } else if |events| == 1 {
      assert kept == at + events;
      AuthorizedNotEnded(log, effect);
      UnendedSuffix(at, events);
      RecoverAnswered(spec, w, kept);
    } else {
      assert kept == at + [events[0]];
      AuthorizedNotEnded(log, effect);
      UnendedSuffix(at, [events[0]]);
      RunningApplies(spec, Harness(spec, log), effect);
      RecoverTorn(spec, w, kept);
    }
  }

  lemma RecoverAnswered(spec: RunSpec, w: World, log: Log)
    requires RunStarted in log && !Ended(log) && Last(log).ToolResult? && !Harness(spec, log).IsTerminal()
    ensures Recover(spec, w, log) == Advance(spec, log)
  {
    hide Reduce;
    hide EffectsOfLast;
    hide Performed;
    QuietLast(spec, log);
  }

  lemma RecoverTorn(spec: RunSpec, w: World, log: Log)
    requires RunStarted in log && !Ended(log) && Last(log).ChildStarted?
    requires !Harness(spec, log).IsTerminal() && !AwaitsAdvance(spec, Harness(spec, log))
    ensures Recover(spec, w, log) == log
  {
    hide Reduce;
    hide EffectsOfLast;
    hide Performed;
    QuietLast(spec, log);
  }

  // ---------------------------------------------------------------------------
  // The whole run, cut anywhere
  // ---------------------------------------------------------------------------

  /** The first event a turn appends is never a sent message. */
  lemma TurnOpens(spec: RunSpec, w: World, log: Log)
    ensures var turn := OneTurn(spec, w, log);
            |turn.log| > |log| ==> !turn.log[|log|].MessageSent?
  {
    hide Refusal;
    hide Reduce;
    hide Performed;
    hide OneTurn;
    hide Applicable;
    if Asks(spec, w, log) {
      TurnOf(spec, w, log);
    } else {
      Unasked(spec, w, log);
    }
  }

  /** A log cut in the middle of a sent message is not carried on as it was: the message is not recorded. */
  lemma TornDiverges(spec: RunSpec, w: World, kept: Log, all: Log)
    requires kept <= all && |kept| < |all| && all[|kept|].MessageSent?
    ensures RunLoop(spec, w, kept).log != all
  {
    hide Reduce;
    hide OneTurn;
    TurnProgress(spec, w, kept);
    TurnOpens(spec, w, kept);
    var turn, ran := OneTurn(spec, w, kept), RunLoop(spec, w, kept).log;
    assert turn.log <= ran;
    if |turn.log| > |kept| {
      assert ran[|kept|] == turn.log[|kept|];
    } else {
      assert turn.log == kept;
    }
  }

  lemma RunLoopEnded(spec: RunSpec, w: World, log: Log)
    requires Ended(log)
    ensures RunLoop(spec, w, log) == Ran(log, None, 0)
  {
  }

  /**
    For a run the loop carries on from a boundary, and every point its log could be cut at: rebuilding
    the driver from the cut and running it again gives the same log, if and only if the cut does not
    fall between the two events of a sent message.
    */
  lemma {:induction false} CrashResumeEquivalence(spec: RunSpec, w: World, log: Log, cut: nat)
    requires AtBoundary(spec, log)
    requires |log| <= cut <= |RunLoop(spec, w, log).log|
    ensures var all := RunLoop(spec, w, log).log;
            RunLoop(spec, w, Recover(spec, w, all[..cut])).log == all <==> !TornSend(all[..cut])
    decreases Fuel(spec, log)
  {
    hide Reduce;
    hide OneTurn;
    hide Recover;
    var all := RunLoop(spec, w, log).log;
    if cut == |log| {
      assert all[..cut] == log;
      RecoverBoundary(spec, w, log);
      return;
    }
    if Ended(log) {
      RunLoopEnded(spec, w, log);
      return;
    }
    TurnProgress(spec, w, log);
    TurnKeepsBoundary(spec, w, log);
    var turn := OneTurn(spec, w, log);
    if turn.Go? && cut >= |turn.log| {
      CrashResumeEquivalence(spec, w, turn.log, cut);
    } else {
      assert all[..cut] == turn.log[..cut];
      TurnRecovers(spec, w, log, cut);
      if TornSend(all[..cut]) {
        TornDiverges(spec, w, all[..cut], all);
      } else if turn.Stop? {
        RunLoopEnded(spec, w, turn.log);
      }
    }
  }

  /** The loop leaves its log at a boundary, ended at most once, and says why it stopped if it is open. */
  lemma {:induction false} LoopSettles(spec: RunSpec, w: World, log: Log)
    requires AtBoundary(spec, log)
    ensures var r := RunLoop(spec, w, log);
            && AtBoundary(spec, r.log) && EndsOnce(r.log)
            && (Ended(r.log) || r.error.Some? || w.boundary(r.log).Pause? || Harness(spec, r.log).WaitingForMessage?)
    decreases Fuel(spec, log)
  {
    hide Reduce;
    hide OneTurn;
    TurnProgress(spec, w, log);
    if Ended(log) {
      RunLoopEnded(spec, w, log);
    } else {
      BoundaryOpen(spec, log);
      TurnKeepsBoundary(spec, w, log);
      if OneTurn(spec, w, log).Go? {
        LoopSettles(spec, w, OneTurn(spec, w, log).log);
      } else if w.boundary(log).Cancel? {
        CancelEnds(spec, w, log);
      }
    }
  }

  lemma CancelEnds(spec: RunSpec, w: World, log: Log)
    requires !Ended(log) && !Harness(spec, log).IsTerminal() && w.boundary(log).Cancel?
    ensures OneTurn(spec, w, log).log == log + [RunCancelled] && Ended(OneTurn(spec, w, log).log)
  {
    EndedSnoc(log, RunCancelled);
  }

  /** A turn whose decider failed appended nothing. */
  lemma FailedTurn(spec: RunSpec, w: World, log: Log)
    requires OneTurn(spec, w, log).Stop? && OneTurn(spec, w, log).error.Some?
    ensures OneTurn(spec, w, log).log == log
  {
    hide Reduce;
    hide Performed;
    hide Refusal;
    hide OneTurn;
    if Asks(spec, w, log) { TurnOf(spec, w, log); } else { Unasked(spec, w, log); }
  }
}
