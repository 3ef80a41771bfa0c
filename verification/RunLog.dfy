/**
  The logs a store comes to hold when workers write them: the queued events a run is stored with,
  then one writer's batch after another. A worker's batch is what a driver resumed from exactly the
  log it extends would have written.
  */
module RunLog {
  import opened Protocol
  import opened Reducer
  import opened Folding
  import opened Driving
  import opened Looping
  import opened CrashResume
  import opened Asks

  /** What a run is stored with. */
  function QueuedEvents(spec: RunSpec): Log {
    [RunCreated, RunQueued, UserMessage(spec.input)]
  }

  /** What a worker records ahead of the harness's events. */
  const LADDER: Log := [RunScheduled, RunProvisioning, RunStarting]

  /** The log as a rebuilt driver first holds it, before it finishes the step the log was cut in. */
  function Rebuilt(spec: RunSpec, log: Log): Log {
    match Resume(spec, log)
    case Ok(r) => r.log
    case Err(_) => log
  }

  /**
    The batch a driver with the world `w` stores: the log it resumed, finished or one step on, or ended
    there; or the log it was rebuilt with, ended because no decider could be had.
    */
  predicate DrivenBy(spec: RunSpec, w: World, was: Log, now: Log) {
    var resumed := Recover(spec, w, was);
    var stepped := OneTurn(spec, w, resumed).log;
    || now == resumed
    || now == stepped
    || (&& now != [] && IsRunEnd(Last(now)) && !Ended(Front(now))
        && (Front(now) == resumed || Front(now) == stepped || Front(now) == Rebuilt(spec, was)))
  }

  ghost predicate Driven(spec: RunSpec, was: Log, now: Log) {
    Resume(spec, was).Ok? && exists w :: DrivenBy(spec, w, was, now)
  }

  predicate Ends(was: Log, now: Log) {
    |now| == |was| + 1 && Front(now) == was && IsRunEnd(Last(now))
  }

  /** An answer to an ask of a run that has started. */
  predicate Answers(was: Log, now: Log) {
    |now| == |was| + 1 && Front(now) == was && AnsweredBy(Last(now)).Some? && RunStarted in was
  }

  /** What workers append, and every process that ends a run. */
  ghost predicate Works(spec: RunSpec, was: Log, now: Log) {
    && !Ended(was)
    && (|| (Dispatch(was).Queued? && now == was + LADDER)
        || Driven(spec, was, now)
        || Ends(was, now))
  }

  /** One writer's append. */
  ghost predicate Writes(spec: RunSpec, was: Log, now: Log) {
    Works(spec, was, now) || (!Ended(was) && Answers(was, now))
  }

  /** A log that writers built one after another. */
  ghost predicate Written(spec: RunSpec, log: Log)
    decreases |log|
  {
    || log == QueuedEvents(spec)
    || exists n :: 0 <= n < |log| && Written(spec, log[..n]) && Writes(spec, log[..n], log)
  }

  lemma WrittenSnoc(spec: RunSpec, was: Log, now: Log)
    requires Written(spec, was) && Writes(spec, was, now) && was <= now
    ensures Written(spec, now)
  {
    if |was| < |now| {
      assert now[..|was|] == was;
    } else {
      assert now == was;
    }
  }

  // ---------------------------------------------------------------------------
  // Where stored logs stand
  // ---------------------------------------------------------------------------

  /** A started log whose last step is whole: no effect is pending, no decision open, no message torn. */
  predicate AtRest(spec: RunSpec, log: Log) {
    && RunStarted in log && !Ended(log)
    && !Harness(spec, log).Completed?
    && !Last(log).EffectDecided? && !Last(log).EffectAuthorized?
    && !TornSend(log)
  }

  predicate Shaped(spec: RunSpec, log: Log) {
    && EndsOnce(log)
    && (|| Ended(log)
        || log == QueuedEvents(spec)
        || log == QueuedEvents(spec) + LADDER
        || (AtRest(spec, log) && Active(Dispatch(log))))
  }

  lemma DispatchSnoc(log: Log, e: Event)
    ensures Dispatch(log + [e]) == ReduceDispatch(Dispatch(log), e)
  {
  }

  lemma QueuedPhase(spec: RunSpec)
    ensures Dispatch(QueuedEvents(spec)).Queued?
  {
    DispatchSnoc([], RunCreated);
    DispatchSnoc([RunCreated], RunQueued);
    DispatchSnoc([RunCreated, RunQueued], UserMessage(spec.input));
    assert [] + [RunCreated] == [RunCreated] && [RunCreated] + [RunQueued] == [RunCreated, RunQueued];
    assert QueuedEvents(spec) == [RunCreated, RunQueued] + [UserMessage(spec.input)];
  }

  lemma LadderPhase(log: Log)
    requires Dispatch(log).Queued?
    ensures Dispatch(log + LADDER).Starting?
  {
    DispatchSnoc(log, RunScheduled);
    DispatchSnoc(log + [RunScheduled], RunProvisioning);
    DispatchSnoc(log + [RunScheduled] + [RunProvisioning], RunStarting);
    assert log + LADDER == log + [RunScheduled] + [RunProvisioning] + [RunStarting];
  }

  lemma QueuedDispatch(spec: RunSpec)
    ensures Dispatch(QueuedEvents(spec)).Queued? && !Ended(QueuedEvents(spec)) && RunStarted !in QueuedEvents(spec)
    ensures Dispatch(QueuedEvents(spec) + LADDER).Starting? && !Ended(QueuedEvents(spec) + LADDER)
    ensures RunStarted !in QueuedEvents(spec) + LADDER
  {
    hide Dispatch;
    QueuedPhase(spec);
    LadderPhase(QueuedEvents(spec));
    UnendedSuffix(QueuedEvents(spec), LADDER);
  }

  lemma StartsAtBoundary(spec: RunSpec, log: Log)
    requires RunStarted !in log && !Ended(log)
    ensures AtBoundary(spec, log + [RunStarted]) && !Ended(log + [RunStarted])
  {
    hide Reduce;
    hide Harness;
    IdleIffUnstarted(spec, log);
    FoldSnoc(spec, log, RunStarted);
    StartedHarness(spec);
    UnendedSuffix(log, [RunStarted]);
  }

  lemma StartedHarness(spec: RunSpec)
    ensures Reduce(Idle, RunStarted, spec).0 == HarnessState.Running(1, 0, false)
  {
  }

  /** A log at rest has at most its answered step left to advance, whatever the world. */
  lemma RestRecovers(spec: RunSpec, w: World, log: Log)
    requires AtRest(spec, log)
    ensures Recover(spec, w, log) == Advance(spec, log)
    ensures AtBoundary(spec, Recover(spec, w, log)) && !Ended(Recover(spec, w, log))
  {
    hide Reduce;
    hide EffectsOfLast;
    hide Harness;
    hide AuthorizeDecided;
    IdleIffUnstarted(spec, log);
    EndedHarness(spec, log);
    QuietLast(spec, log);
    if AwaitsAdvance(spec, Harness(spec, log)) {
      FoldSnoc(spec, log, StepAdvanced);
      AdvancedHarness(spec, Harness(spec, log));
      GoesOnAtBoundary(spec, log, [StepAdvanced]);
    }
  }

  lemma RestRecoversActive(spec: RunSpec, w: World, log: Log)
    requires AtRest(spec, log) && Active(Dispatch(log))
    ensures log <= Recover(spec, w, log) && Active(Dispatch(Recover(spec, w, log)))
  {
    hide Recover;
    hide AtBoundary;
    hide AtRest;
    hide Dispatch;
    RestRecovers(spec, w, log);
    var recovered := Recover(spec, w, log);
    assert recovered == log + recovered[|log|..];
    StaysActive(log, recovered[|log|..]);
  }

  lemma StartRecovers(spec: RunSpec, w: World, log: Log)
    requires RunStarted !in log && !Ended(log) && Resume(spec, log).Ok?
    ensures Recover(spec, w, log) == log + [RunStarted] && Active(Dispatch(Recover(spec, w, log)))
  {
    hide Harness;
    DispatchSnoc(log, RunStarted);
  }

  /** Every open shaped log a driver accepts is resumed to a step boundary. */
  lemma ShapedRecovers(spec: RunSpec, w: World, log: Log)
    requires Shaped(spec, log) && !Ended(log) && Resume(spec, log).Ok?
    ensures AtBoundary(spec, Recover(spec, w, log)) && !Ended(Recover(spec, w, log))
    ensures log <= Recover(spec, w, log) && Active(Dispatch(Recover(spec, w, log)))
  {
    hide Recover;
    hide Resume;
    hide Harness;
    hide AtBoundary;
    hide Dispatch;
    QueuedDispatch(spec);
    if AtRest(spec, log) {
      RestRecovers(spec, w, log);
      RestRecoversActive(spec, w, log);
    } else {
      StartsAtBoundary(spec, log);
      StartRecovers(spec, w, log);
    }
  }

  /** A started run stays started in its dispatch phase until something ends it. */
  lemma {:induction false} StaysActive(log: Log, more: Log)
    requires Active(Dispatch(log)) && !Ended(log + more)
    ensures Active(Dispatch(log + more))
  {
    if more == [] {
      assert log + more == log;
    } else {
      var front := log + Front(more);
      assert log + more == front + [Last(more)] && Front(log + more) == front;
      EndedSnoc(front, Last(more));
      StaysActive(log, Front(more));
      ActiveMoves(Dispatch(front), Last(more));
    }
  }

  lemma ActiveMoves(phase: DispatchPhase, e: Event)
    requires Active(phase) && !IsRunEnd(e)
    ensures Active(ReduceDispatch(phase, e))
  {
  }

  lemma BoundaryShaped(spec: RunSpec, log: Log, from: Log)
    requires AtBoundary(spec, log) && from <= log && Active(Dispatch(from))
    ensures Shaped(spec, log)
  {
    hide Reduce;
    hide Harness;
    hide ReduceDispatch;
    assert log == from + log[|from|..];
    if !Ended(log) {
      StaysActive(from, log[|from|..]);
    }
  }

  lemma DrivenShaped(spec: RunSpec, w: World, was: Log, now: Log)
    requires Shaped(spec, was) && !Ended(was) && Resume(spec, was).Ok? && DrivenBy(spec, w, was, now)
    ensures Shaped(spec, now) && was <= now
  {
    hide Reduce;
    hide Harness;
    hide AtBoundary;
    hide OneTurn;
    hide Recover;
    hide Resume;
    hide AtRest;
    var resumed := Recover(spec, w, was);
    ShapedRecovers(spec, w, was);
    TurnKeepsBoundary(spec, w, resumed);
    TurnProgress(spec, w, resumed);
    BoundaryShaped(spec, resumed, resumed);
    BoundaryShaped(spec, OneTurn(spec, w, resumed).log, resumed);
    if now != resumed && now != OneTurn(spec, w, resumed).log {
      RebuiltExtends(spec, was);
      EndShaped(spec, Front(now), Last(now));
      assert now == Front(now) + [Last(now)];
    }
  }

  /** Rebuilding a driver appends at most one event: the start, or the completion the log owes. */
  lemma RebuiltExtends(spec: RunSpec, log: Log)
    ensures var r := Rebuilt(spec, log);
            r == log || r == log + [RunStarted] ||
            (Harness(spec, log).Completed? && r == log + [RunCompleted(Harness(spec, log).outcome)])
  {
    hide Harness;
    hide Reduce;
  }

  /** A shaped open log is rebuilt open. */
  lemma RebuiltOpen(spec: RunSpec, log: Log)
    requires Shaped(spec, log) && !Ended(log)
    ensures !Ended(Rebuilt(spec, log)) && log <= Rebuilt(spec, log)
  {
    hide Harness;
    hide Reduce;
    hide Rebuilt;
    RebuiltExtends(spec, log);
    UnendedSuffix(log, [RunStarted]);
    IdleIffUnstarted(spec, log);
    QueuedDispatch(spec);
  }

  lemma EndShaped(spec: RunSpec, log: Log, e: Event)
    requires !Ended(log) && IsRunEnd(e)
    ensures Shaped(spec, log + [e]) && Ended(log + [e])
  {
    EndedSnoc(log, e);
  }

  lemma WritesShaped(spec: RunSpec, was: Log, now: Log)
    requires Shaped(spec, was) && Writes(spec, was, now)
    ensures Shaped(spec, now) && was <= now
  {
    hide Reduce;
    hide Harness;
    hide DrivenBy;
    hide Resume;
    hide AtRest;
    hide Ended;
    QueuedDispatch(spec);
    if Driven(spec, was, now) {
      var w :| DrivenBy(spec, w, was, now);
      DrivenShaped(spec, w, was, now);
    } else if Ends(was, now) || Answers(was, now) {
      OneMoreShaped(spec, was, now);
    } else {
      LadderShaped(spec, was);
    }
  }

  lemma OneMoreShaped(spec: RunSpec, was: Log, now: Log)
    requires Shaped(spec, was) && !Ended(was) && (Ends(was, now) || Answers(was, now))
    ensures Shaped(spec, now) && was <= now
  {
  }

  /** Only the queued events themselves leave a run queued. */
  lemma LadderShaped(spec: RunSpec, was: Log)
    requires Shaped(spec, was) && !Ended(was) && Dispatch(was).Queued?
    ensures Shaped(spec, was + LADDER)
  {
    hide Reduce;
    hide Harness;
    QueuedDispatch(spec);
    UnendedSuffix(was, LADDER);
  }

  // ---------------------------------------------------------------------------
  // What every written log keeps
  // ---------------------------------------------------------------------------

  /** Whatever order writers come in, a stored log ends once and is never left inside a step. */
  lemma {:induction false} WrittenShaped(spec: RunSpec, log: Log)
    requires Written(spec, log)
    ensures Shaped(spec, log)
    decreases |log|
  {
    hide Shaped;
    hide Writes;
    if log == QueuedEvents(spec) {
      QueuedShaped(spec);
    } else {
      var n :| 0 <= n < |log| && Written(spec, log[..n]) && Writes(spec, log[..n], log);
      WrittenShaped(spec, log[..n]);
      WritesShaped(spec, log[..n], log);
    }
  }

  lemma QueuedShaped(spec: RunSpec)
    ensures Shaped(spec, QueuedEvents(spec))
  {
  }

  /** So resuming a stored log performs nothing: it appends at most the start or the advance it owes. */
  lemma StoredResumes(spec: RunSpec, w: World, log: Log)
    requires Written(spec, log) && !Ended(log) && Resume(spec, log).Ok?
    ensures !TornSend(log)
    ensures AtBoundary(spec, Recover(spec, w, log))
    ensures Recover(spec, w, log) == if RunStarted in log then Advance(spec, log) else log + [RunStarted]
  {
    hide Reduce;
    hide Harness;
    hide AtBoundary;
    WrittenShaped(spec, log);
    ShapedRecovers(spec, w, log);
    QueuedDispatch(spec);
    if RunStarted in log {
      RestRecovers(spec, w, log);
    }
  }

  /** A stored run still waits exactly while its log is what it was stored with: no worker scheduled it, and nothing ended it. */
  lemma WaitsIffQueued(spec: RunSpec, log: Log)
    requires Written(spec, log)
    ensures StillWaiting(log) <==> log == QueuedEvents(spec)
    ensures StillWaiting(log) <==> !Ended(log) && Dispatch(log).Queued?
  {
    hide Written;
    hide Dispatch;
    hide Harness;
    WrittenShaped(spec, log);
    QueuedDispatch(spec);
    if Ended(log) {
      var i :| 0 <= i < |log| && IsRunEnd(log[i]);
      assert log[i] in log && !StillWaiting(log);
    } else if log == QueuedEvents(spec) + LADDER {
      assert log[|QueuedEvents(spec)|] == RunScheduled && RunScheduled in log;
    } else if log != QueuedEvents(spec) {
      assert RunStarted in log && Active(Dispatch(log));
    }
  }

  /** The writers of a log record asks only in open steps. */
  lemma {:induction false} WrittenInOpenSteps(spec: RunSpec, log: Log)
    requires Written(spec, log)
    ensures AsksInOpenSteps(spec, log)
    decreases |log|
  {
    hide Writes;
    hide Reduce;
    if log == QueuedEvents(spec) {
      QuietInOpenSteps(spec, [], log);
      assert [] + log == log;
    } else {
      var n :| 0 <= n < |log| && Written(spec, log[..n]) && Writes(spec, log[..n], log);
      WrittenInOpenSteps(spec, log[..n]);
      WritesInOpenSteps(spec, log[..n], log);
    }
  }

  lemma {:induction false} QuietInOpenSteps(spec: RunSpec, log: Log, more: Log)
    requires AsksInOpenSteps(spec, log) && forall e <- more :: !OpensAsk(e)
    ensures AsksInOpenSteps(spec, log + more)
  {
    hide Reduce;
    if more == [] {
      assert log + more == log;
    } else {
      QuietInOpenSteps(spec, log, Front(more));
      assert log + more == log + Front(more) + [Last(more)];
      OpenSnoc(spec, log + Front(more), Last(more));
    }
  }

  lemma WritesInOpenSteps(spec: RunSpec, was: Log, now: Log)
    requires AsksInOpenSteps(spec, was) && Writes(spec, was, now)
    ensures AsksInOpenSteps(spec, now)
  {
    hide AsksInOpenSteps;
    hide Recover;
    hide OneTurn;
    hide Resume;
    if Driven(spec, was, now) {
      var w :| DrivenBy(spec, w, was, now);
      var resumed := Recover(spec, w, was);
      RecoverInOpenSteps(spec, w, was);
      TurnInOpenSteps(spec, w, resumed);
      if now != resumed && now != OneTurn(spec, w, resumed).log {
        RebuiltExtends(spec, was);
        OpenSnoc(spec, was, RunStarted);
        if Harness(spec, was).Completed? {
          OpenSnoc(spec, was, RunCompleted(Harness(spec, was).outcome));
        }
        OpenSnoc(spec, Front(now), Last(now));
        assert now == Front(now) + [Last(now)];
      }
    } else if Ends(was, now) || Answers(was, now) {
      OpenSnoc(spec, was, Last(now));
      assert now == was + [Last(now)];
    } else {
      QuietInOpenSteps(spec, was, LADDER);
    }
  }

  /** So in every stored open log, what reads open is what the run waits on, or a tell nothing answered. */
  lemma StoredAsksAgree(spec: RunSpec, log: Log, ask: MessageId)
    requires Written(spec, log) && !Ended(log) && FreshIds(log)
    ensures AskStateOf(log, ask).Open? <==> WaitsOn(Harness(spec, log), ask) || UnansweredTell(log, ask)
    ensures !(WaitsOn(Harness(spec, log), ask) && UnansweredTell(log, ask))
  {
    hide Reduce;
    WrittenInOpenSteps(spec, log);
    AskIndexAgrees(spec, log, ask);
  }

  // ---------------------------------------------------------------------------
  // A driver answers no ask
  // ---------------------------------------------------------------------------

  predicate Answerless(was: Log, now: Log) {
    was <= now && forall i :: |was| <= i < |now| ==> AnsweredBy(now[i]).None?
  }

  /** Only an answer turns an ask answered. */
  lemma {:induction false} AnswerlessKeeps(was: Log, now: Log, ask: MessageId)
    requires Answerless(was, now) && AskStateOf(now, ask).Answered?
    ensures AskStateOf(was, ask).Answered?
    decreases |now|
  {
    if |now| > |was| {
      AnswerlessKeeps(was, Front(now), ask);
    } else {
      assert now == was;
    }
  }

  lemma PerformedAnswerless(spec: RunSpec, w: World, effects: seq<Effect>, log: Log)
    requires |effects| <= 1
    ensures Answerless(log, Advance(spec, Perform(spec, w, effects, log)))
  {
    hide Performed;
    hide Harness;
    if |effects| == 1 {
      assert effects == [effects[0]];
      PerformOne(spec, w, effects[0], log);
      PerformedAreOutcomes(spec, w, effects[0], log);
      var events := Performed(spec, w, effects[0], log);
      forall i | 0 <= i < |events| ensures AnsweredBy(events[i]).None? {
        assert events[i] in events;
        assert IsOutcome(events[i]);
      }
    }
  }

  lemma SettledAnswerless(spec: RunSpec, w: World, h: HarnessState, effect: Effect, log: Log)
    ensures var (decided, effects) := AuthorizeDecided(spec, w, h, effect, log);
            Answerless(log, decided) && Answerless(log, Advance(spec, Perform(spec, w, effects, decided)))
  {
    hide Refusal;
    hide Reduce;
    hide Performed;
    hide Harness;
    hide Perform;
    hide Advance;
    hide EffectsOfLast;
    var (decided, effects) := AuthorizeDecided(spec, w, h, effect, log);
    HandedAtMostOne(spec, decided);
    PerformedAnswerless(spec, w, effects, decided);
  }

  lemma TurnAnswerless(spec: RunSpec, w: World, log: Log)
    ensures Answerless(log, OneTurn(spec, w, log).log)
  {
    hide Reduce;
    hide Performed;
    hide Harness;
    hide Perform;
    hide Advance;
    hide AuthorizeDecided;
    hide OverBudget;
    if w.decide(log).Ok? {
      var effect := w.decide(log).value;
      SettledAnswerless(spec, w, Harness(spec, log), effect, log + [EffectDecided(effect)]);
    }
  }

  lemma RecoverAnswerless(spec: RunSpec, w: World, log: Log)
    ensures Answerless(log, Recover(spec, w, log))
  {
    hide Reduce;
    hide Performed;
    hide Harness;
    hide Perform;
    hide Advance;
    hide AuthorizeDecided;
    hide EffectsOfLast;
    if Resume(spec, log).Ok? {
      var r := Resume(spec, log).value;
      if r.undecided.Some? {
        SettledAnswerless(spec, w, r.undecided.value.0, r.undecided.value.1, log);
      } else {
        HandedAtMostOne(spec, log);
        PerformedAnswerless(spec, w, r.pending, r.log);
      }
    }
  }

  lemma DrivenAnswerless(spec: RunSpec, w: World, was: Log, now: Log)
    requires DrivenBy(spec, w, was, now)
    ensures Answerless(was, now)
  {
    hide Recover;
    hide OneTurn;
    hide Rebuilt;
    hide Harness;
    var resumed := Recover(spec, w, was);
    RecoverAnswerless(spec, w, was);
    TurnAnswerless(spec, w, resumed);
    RebuiltExtends(spec, was);
  }

  lemma WorksAnswerless(spec: RunSpec, was: Log, now: Log)
    requires Works(spec, was, now)
    ensures Answerless(was, now)
  {
    hide Answerless;
    hide DrivenBy;
    hide Resume;
    if Driven(spec, was, now) {
      var w :| DrivenBy(spec, w, was, now);
      DrivenAnswerless(spec, w, was, now);
    } else {
      PlainAnswerless(was, now);
    }
  }

  lemma PlainAnswerless(was: Log, now: Log)
    requires now == was + LADDER || Ends(was, now)
    ensures Answerless(was, now)
  {
  }
}
