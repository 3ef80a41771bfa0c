/**
  The loop of `run_until`: it always returns, after a bounded number of decisions, having ended the
  log at most once.
  */
module Looping {
  import opened Protocol
  import opened Reducer
  import opened Folding
  import opened Driving

  /** What performing an effect may record: never a decision, an authorization or a start. */
  predicate IsOutcome(e: Event) {
    e.RunFailed? || e.ToolResult? || e.ModelResponded? || e.MemoryRead? || e.MemoryWritten? || e.ChildStarted? ||
    e.DelegateRefused? || e.MessageSent? || e.MessageRefused? || e.UserAsked? || e.UserAskRefused?
  }

  lemma PerformedAreOutcomes(spec: RunSpec, w: World, effect: Effect, log: Log)
    ensures var events := Performed(spec, w, effect, log);
            && |events| <= 2
            && (forall e <- events :: IsOutcome(e))
            && (|events| == 2 ==> effect.SendMessage? && events[0].ChildStarted? && events[1].MessageSent?)
            && (|events| == 1 && events[0].ChildStarted? ==> effect.Delegate?)
  {
  }

  /** Events that decide nothing take no step, and what was given to children is never taken back. */
  lemma {:induction false} UndecidedCostsNothing(spec: RunSpec, log: Log, more: Log)
    requires forall e <- more :: !e.EffectDecided?
    ensures Steps(spec, log + more) == Steps(spec, log)
    ensures GivenSteps(log + more) >= GivenSteps(log)
    ensures Started(log) <= Started(log + more)
  {
    if more == [] {
      assert log + more == log;
    } else {
      UndecidedCostsNothing(spec, log, Front(more));
      assert log + more == (log + Front(more)) + [Last(more)];
      FoldSnoc(spec, log + Front(more), Last(more));
    }
  }

  /** How the decision of one turn is recorded, up to the point where its effect is performed. */
  datatype Course =
    | Fails                               // the decider has no answer
    | Exhausted                           // the budget ends the run
    | Denied(effect: Effect, why: string) // the decision is refused
    | Finishes(effect: Effect)            // a completion that ends the run
    | Acts(effect: Effect)                // the effect is handed out

  function CourseOf(spec: RunSpec, w: World, log: Log): Course {
    var s := StateOf(spec, log);
    match w.decide(log)
    case Err(_) => Fails
    case Ok(effect) =>
      if OverBudget(spec, s, effect) then Exhausted
      else match Refusal(spec, w, s.harness, effect)
        case Some(why) => Denied(effect, why)
        case None => if effect.Complete? then Finishes(effect) else Acts(effect)
  }

  /** Deciding leaves the harness as it is; authorizing moves it only for a tool call or a completion. */
  lemma HarnessThroughDecision(spec: RunSpec, log: Log, effect: Effect)
    ensures Harness(spec, log + [EffectDecided(effect)]) == Harness(spec, log)
    ensures Harness(spec, log + [EffectDecided(effect), EffectAuthorized(effect)])
         == Reduce(Harness(spec, log), EffectAuthorized(effect), spec).0
    ensures EffectsOfLast(spec, log + [EffectDecided(effect), EffectAuthorized(effect)])
         == Reduce(Harness(spec, log), EffectAuthorized(effect), spec).1
  {
    FoldSnoc(spec, log, EffectDecided(effect));
    FoldSnoc(spec, log + [EffectDecided(effect)], EffectAuthorized(effect));
    assert log + [EffectDecided(effect), EffectAuthorized(effect)]
        == log + [EffectDecided(effect)] + [EffectAuthorized(effect)];
  }

  function Decided(log: Log, effect: Effect): Log {
    log + [EffectDecided(effect)]
  }

  function Authorized(log: Log, effect: Effect): Log {
    log + [EffectDecided(effect), EffectAuthorized(effect)]
  }

  function Refused(log: Log, effect: Effect, why: string): Log {
    log + [EffectDecided(effect), EffectDenied(effect, why)]
  }

  function Finished(log: Log, effect: Effect): Log
    requires effect.Complete?
  {
    Authorized(log, effect) + [RunCompleted(effect.outcome)]
  }

  /** The log after an effect that was handed out has been performed and its answered step advanced. */
  function ActedOn(spec: RunSpec, w: World, log: Log, effect: Effect): Log {
    Advance(spec, Authorized(log, effect) + Performed(spec, w, effect, Authorized(log, effect)))
  }

  /** A decision that is not refused is one the harness acts on. */
  lemma PermittedIsApplicable(spec: RunSpec, w: World, h: HarnessState, effect: Effect)
    requires Refusal(spec, w, h, effect).None?
    ensures Applicable(h, effect, spec)
  {
  }

  lemma RefusedVerdict(spec: RunSpec, w: World, log: Log, effect: Effect, why: string)
    requires Refusal(spec, w, Harness(spec, log), effect) == Some(why)
    ensures AuthorizeDecided(spec, w, Harness(spec, log), effect, Decided(log, effect))
         == (Refused(log, effect, why), [])
  {
    assert Decided(log, effect) + [EffectDenied(effect, why)] == Refused(log, effect, why);
  }

  lemma FinishingVerdict(spec: RunSpec, w: World, log: Log, effect: Effect)
    requires Refusal(spec, w, Harness(spec, log), effect).None? && effect.Complete?
    ensures AuthorizeDecided(spec, w, Harness(spec, log), effect, Decided(log, effect))
         == (Finished(log, effect), [])
    ensures Harness(spec, Finished(log, effect)).Completed?
  {
    hide Refusal;
    hide Applicable;
    hide Harness;
    PermittedIsApplicable(spec, w, Harness(spec, log), effect);
    HarnessThroughDecision(spec, log, effect);
    FoldSnoc(spec, Authorized(log, effect), RunCompleted(effect.outcome));
    assert Decided(log, effect) + [EffectAuthorized(effect)] == Authorized(log, effect);
    assert Decided(log, effect) + [EffectAuthorized(effect), RunCompleted(effect.outcome)] == Finished(log, effect);
  }

  lemma ActingVerdict(spec: RunSpec, w: World, log: Log, effect: Effect)
    requires Refusal(spec, w, Harness(spec, log), effect).None? && !effect.Complete?
    ensures AuthorizeDecided(spec, w, Harness(spec, log), effect, Decided(log, effect))
         == (Authorized(log, effect), [effect])
  {
    hide Refusal;
    hide Applicable;
    hide Harness;
    PermittedIsApplicable(spec, w, Harness(spec, log), effect);
    HarnessThroughDecision(spec, log, effect);
    assert Decided(log, effect) + [EffectAuthorized(effect)] == Authorized(log, effect);
  }

  lemma PerformOne(spec: RunSpec, w: World, effect: Effect, log: Log)
    ensures Perform(spec, w, [effect], log) == log + Performed(spec, w, effect, log)
  {
  }

  predicate Asks(spec: RunSpec, w: World, log: Log) {
    && !Harness(spec, log).IsTerminal() && !Ended(log)
    && w.boundary(log).Continue?
    && !Harness(spec, log).WaitingForMessage?
  }

  /** One turn of the loop, from a log at which the decider is asked. */
  lemma TurnOf(spec: RunSpec, w: World, log: Log)
    requires Asks(spec, w, log)
    ensures var c, turn := CourseOf(spec, w, log), OneTurn(spec, w, log);
            && (c.Fails? ==> turn == Stop(log, Some(w.decide(log).error), true))
            && (c.Exhausted? ==> turn.log == log + [RunFailed(Budget, "limit hit")] &&
                                 (turn.Stop? ==> turn.error.None? && turn.asked))
            && (c.Denied? ==> turn == Go(Refused(log, c.effect, c.why)))
            && (c.Finishes? ==> turn == Stop(Finished(log, c.effect), None, true))
            && (c.Acts? ==> turn == Go(ActedOn(spec, w, log, c.effect)))
  {
    hide Refusal;
    hide AuthorizeDecided;
    hide OverBudget;
    hide Performed;
    hide Reduce;
    hide Perform;
    var c := CourseOf(spec, w, log);
    match c {
      case Denied(effect, why) =>
        RefusedVerdict(spec, w, log, effect, why);
        QuietSnoc(spec, log, effect, why);
      case Finishes(effect) =>
        FinishingVerdict(spec, w, log, effect);
      case Acts(effect) =>
        ActingVerdict(spec, w, log, effect);
        PerformOne(spec, w, effect, Authorized(log, effect));
      case _ =>
    }
  }

  /** A refused decision leaves the harness where it was. */
  lemma QuietSnoc(spec: RunSpec, log: Log, effect: Effect, why: string)
    ensures Harness(spec, Refused(log, effect, why)) == Harness(spec, log)
  {
    FoldSnoc(spec, log, EffectDecided(effect));
    FoldSnoc(spec, Decided(log, effect), EffectDenied(effect, why));
    assert Refused(log, effect, why) == Decided(log, effect) + [EffectDenied(effect, why)];
  }

  lemma DecisionCosts(spec: RunSpec, log: Log, effect: Effect, more: Log)
    requires CostsStep(Harness(spec, log), effect)
    requires forall e <- more :: !e.EffectDecided?
    ensures Steps(spec, Decided(log, effect) + more) == Steps(spec, log) + 1
    ensures GivenSteps(Decided(log, effect) + more) >= GivenSteps(log)
  {
    FoldSnoc(spec, log, EffectDecided(effect));
    UndecidedCostsNothing(spec, Decided(log, effect), more);
  }

  /** Each turn that goes on leaves fewer turns to take, and never rewrites the log. */
  lemma TurnProgress(spec: RunSpec, w: World, log: Log)
    ensures log <= OneTurn(spec, w, log).log
    ensures OneTurn(spec, w, log).Go? ==> Fuel(spec, OneTurn(spec, w, log).log) < Fuel(spec, log)
  {
    hide Refusal;
    hide Reduce;
    hide Performed;
    hide OneTurn;
    hide Advance;
    if !Asks(spec, w, log) {
      Unasked(spec, w, log);
      return;
    }
    TurnOf(spec, w, log);
    var c := CourseOf(spec, w, log);
    match c {
      case Fails =>
      case Exhausted => EndedSnoc(log, RunFailed(Budget, "limit hit"));
      case Denied(effect, why) =>
        DeniedCosts(spec, w, log, effect);
        DecisionCosts(spec, log, effect, [EffectDenied(effect, why)]);
        assert Refused(log, effect, why) == Decided(log, effect) + [EffectDenied(effect, why)];
      case Finishes(effect) =>
      case Acts(effect) =>
        var after := ActedSince(spec, w, log, effect);
        DecisionCosts(spec, log, effect, after);
    }
  }

  lemma Unasked(spec: RunSpec, w: World, log: Log)
    requires !Asks(spec, w, log)
    ensures OneTurn(spec, w, log).Stop? && log <= OneTurn(spec, w, log).log
    ensures !OneTurn(spec, w, log).asked && OneTurn(spec, w, log).error.None?
    ensures OneTurn(spec, w, log).log == log || OneTurn(spec, w, log).log == log + [RunCancelled]
  {
  }

  /** A completion decided while running is never refused, so a refused decision always takes a step. */
  lemma DeniedCosts(spec: RunSpec, w: World, log: Log, effect: Effect)
    requires Refusal(spec, w, Harness(spec, log), effect).Some?
    ensures CostsStep(Harness(spec, log), effect)
  {
  }

  /** What follows the decision of a turn that acts on it. */
  lemma ActedSince(spec: RunSpec, w: World, log: Log, effect: Effect) returns (after: Log)
    ensures ActedOn(spec, w, log, effect) == Decided(log, effect) + after
    ensures forall e <- after :: !e.EffectDecided?
  {
    var at := Authorized(log, effect);
    var events := Performed(spec, w, effect, at);
    PerformedAreOutcomes(spec, w, effect, at);
    after := [EffectAuthorized(effect)] + events;
    assert Decided(log, effect) + after == at + events;
    if AwaitsAdvance(spec, Harness(spec, at + events)) {
      assert Decided(log, effect) + (after + [StepAdvanced]) == at + events + [StepAdvanced];
      after := after + [StepAdvanced];
    }
  }

  // ---------------------------------------------------------------------------
  // The whole loop
  // ---------------------------------------------------------------------------

  /** How the loop came back: the log it left, the decider's error, and how often the decider was asked. */
  datatype Ran = Ran(log: Log, error: Option<string>, asked: nat)

  function RunLoop(spec: RunSpec, w: World, log: Log): (r: Ran)
    ensures log <= r.log
    decreases Fuel(spec, log)
  {
    TurnProgress(spec, w, log);
    match OneTurn(spec, w, log)
    case Stop(end, error, asked) => Ran(end, error, if asked then 1 else 0)
    case Go(next) =>
      var r := RunLoop(spec, w, next);
      r.(asked := r.asked + 1)
  }

  /** The loop asks the decider at most once for each step left, and once more to be told the budget is spent. */
  lemma {:induction false} DecisionsBounded(spec: RunSpec, w: World, log: Log)
    ensures RunLoop(spec, w, log).asked <= StepsLeft(spec, log) + 1
    decreases Fuel(spec, log)
  {
    TurnProgress(spec, w, log);
    var turn := OneTurn(spec, w, log);
    if turn.Go? {
      if Harness(spec, turn.log).IsTerminal() || Ended(turn.log) {
        assert RunLoop(spec, w, turn.log).asked == 0;
      } else {
        DecisionsBounded(spec, w, turn.log);
      }
    }
  }
}
