/**
  `run_until` from any log a driver can be rebuilt from, wherever and however it was cut: it returns
  after a bounded number of decisions, and ends the log at most once.
  */
module Termination {
  import opened Protocol
  import opened Reducer
  import opened Driving
  import opened Looping
  import opened CrashResume

  /** What a piece of work appends: no decision, and nothing after a terminal event. */
  predicate Orderly(log: Log, now: Log) {
    && log <= now
    && (forall i :: |log| <= i < |now| ==> !now[i].EffectDecided?)
    && EndsOnce(now)
  }

  /** A failure leaves no step that could still advance. */
  lemma FailedStays(spec: RunSpec, log: Log, e: Event)
    requires IsRunEnd(e)
    ensures !AwaitsAdvance(spec, Harness(spec, log + [e]))
  {
  }

  /** The end of a run is the last thing performing an effect records. */
  lemma PerformedOrderly(spec: RunSpec, w: World, effect: Effect, log: Log)
    requires !Ended(log)
    ensures Orderly(log, Advance(spec, log + Performed(spec, w, effect, log)))
  {
    hide Performed;
    hide Harness;
    var events := Performed(spec, w, effect, log);
    PerformedAreOutcomes(spec, w, effect, log);
    forall i | 0 <= i < |events| ensures IsOutcome(events[i]) {
      assert events[i] in events;
    }
    if |events| == 1 && events[0].RunFailed? {
      FailedStays(spec, log, events[0]);
      assert log + events == log + [events[0]];
    } else {
      UnendedSuffix(log, events);
      UnendedSuffix(log + events, [StepAdvanced]);
    }
  }

  lemma AdvanceOrderly(spec: RunSpec, log: Log)
    requires EndsOnce(log) && (Ended(log) ==> !AwaitsAdvance(spec, Harness(spec, log)))
    ensures Orderly(log, Advance(spec, log))
  {
  }

  lemma PendingOrderly(spec: RunSpec, w: World, effects: seq<Effect>, log: Log)
    requires !Ended(log) && |effects| <= 1
    ensures Orderly(log, Advance(spec, Perform(spec, w, effects, log)))
  {
    hide Performed;
    hide Harness;
    hide Advance;
    if effects == [] {
      UnendedOnce(log);
      AdvanceOrderly(spec, log);
    } else {
      assert effects == [effects[0]];
      PerformOne(spec, w, effects[0], log);
      PerformedOrderly(spec, w, effects[0], log);
    }
  }

  lemma UnendedOnce(log: Log)
    requires !Ended(log)
    ensures EndsOnce(log)
  {
  }

  /** Settling a decision, from its verdict to the advance. */
  lemma SettledOrderly(spec: RunSpec, w: World, h: HarnessState, effect: Effect, log: Log)
    requires !Ended(log)
    ensures var (decided, effects) := AuthorizeDecided(spec, w, h, effect, log);
            Orderly(log, decided) && Orderly(log, Advance(spec, Perform(spec, w, effects, decided)))
  {
    hide Refusal;
    hide Performed;
    hide Harness;
    hide EffectsOfLast;
    var verdict := Verdict(spec, w, h, effect, log);
    var (decided, effects) := AuthorizeDecided(spec, w, h, effect, log);
    HandedAtMostOne(spec, decided);
    if |verdict| == 2 {
      UnendedSuffix(log, [verdict[0]]);
      var at := log + [verdict[0]];
      assert decided == at + [verdict[1]];
      EndedSnoc(at, verdict[1]);
      FailedStays(spec, at, verdict[1]);
      AdvanceOrderly(spec, decided);
    } else {
      UnendedSuffix(log, verdict);
      PendingOrderly(spec, w, effects, decided);
      OrderlyTrans(log, decided, Advance(spec, Perform(spec, w, effects, decided)));
    }
  }

  lemma OrderlyTrans(a: Log, b: Log, c: Log)
    requires Orderly(a, b) && Orderly(b, c)
    ensures Orderly(a, c)
  {
  }

  lemma TurnEndsOnce(spec: RunSpec, w: World, log: Log)
    requires !Ended(log)
    ensures EndsOnce(OneTurn(spec, w, log).log)
  {
    hide Performed;
    hide Harness;
    hide Perform;
    hide Advance;
    hide AuthorizeDecided;
    hide OverBudget;
    UnendedOnce(log);
    EndedSnoc(log, RunCancelled);
    if w.decide(log).Ok? {
      var effect := w.decide(log).value;
      UnendedSuffix(log, [EffectDecided(effect)]);
      SettledOrderly(spec, w, Harness(spec, log), effect, log + [EffectDecided(effect)]);
    }
  }

  lemma RecoverOrderly(spec: RunSpec, w: World, log: Log)
    requires EndsOnce(log)
    ensures Orderly(log, Recover(spec, w, log))
  {
    hide Performed;
    hide Harness;
    hide Perform;
    hide Advance;
    hide AuthorizeDecided;
    hide EffectsOfLast;
    if Ended(log) || Resume(spec, log).Err? {
      return;
    }
    var r := Resume(spec, log).value;
    if r.undecided.Some? {
      SettledOrderly(spec, w, r.undecided.value.0, r.undecided.value.1, log);
    } else if r.log == log {
      HandedAtMostOne(spec, log);
      if r.resumed { PendingOrderly(spec, w, r.pending, log); }
    } else if r.resumed {
      var done := Last(r.log);
      EndedSnoc(log, done);
      FailedStays(spec, log, done);
      AdvanceOrderly(spec, r.log);
      NothingPending(spec, w, r.log);
    } else {
      UnendedSuffix(log, [RunStarted]);
    }
  }

  lemma NothingPending(spec: RunSpec, w: World, log: Log)
    ensures Perform(spec, w, [], log) == log
  {
  }

  lemma {:induction false} LoopEndsOnce(spec: RunSpec, w: World, log: Log)
    requires EndsOnce(log)
    ensures EndsOnce(RunLoop(spec, w, log).log)
    decreases Fuel(spec, log)
  {
    hide OneTurn;
    hide EndsOnce;
    hide Harness;
    TurnProgress(spec, w, log);
    if Ended(log) {
      RunLoopEnded(spec, w, log);
    } else {
      TurnEndsOnce(spec, w, log);
      if OneTurn(spec, w, log).Go? {
        LoopEndsOnce(spec, w, OneTurn(spec, w, log).log);
      }
    }
  }

  /**
    Rebuilding a driver from any log that ended at most once, and running it: the decider is asked at
    most once for each step the log leaves in its budget, and once more; the log is only added to, and
    ends at most once.
    */
  lemma RunUntilTerminates(spec: RunSpec, w: World, log: Log)
    requires EndsOnce(log)
    ensures var ran := RunLoop(spec, w, Recover(spec, w, log));
            && ran.asked <= StepsLeft(spec, log) + 1
            && log <= ran.log && EndsOnce(ran.log)
            && (Ended(log) ==> ran.log == log && ran.asked == 0)
  {
    hide Recover;
    hide EndsOnce;
    hide Harness;
    hide OneTurn;
    var recovered := Recover(spec, w, log);
    RecoverOrderly(spec, w, log);
    DecisionsBounded(spec, w, recovered);
    var more := recovered[|log|..];
    assert recovered == log + more;
    assert forall i :: 0 <= i < |more| ==> more[i] == recovered[|log| + i];
    UndecidedCostsNothing(spec, log, more);
    LoopEndsOnce(spec, w, recovered);
    if Ended(log) {
      RecoverEnded(spec, w, log);
      RunLoopEnded(spec, w, log);
    }
  }
}
