/**
  The driver itself: an object that holds a run's log and grows it in place. Each method does to
  `events` what the function of the same name in `Driving` says.
  */
module Drivers {
  import opened Protocol
  import opened Reducer
  import opened Folding
  import opened Authorizer
  import opened Driving
  import opened Looping

  class Driver {
    const spec: RunSpec
    var events: Log
    var pending: seq<Effect>
    var undecided: Option<(HarnessState, Effect)>
    var resumed: bool

    ghost function Cut(): Resumed
      reads this
    {
      Resumed(events, pending, undecided, resumed)
    }

    constructor Boot(spec: RunSpec)
      ensures this.spec == spec
      ensures Cut() == Resumed([RunStarted], [], None, false)
    {
      this.spec := spec;
      events := [RunStarted];
      pending, undecided, resumed := [], None, false;
    }

    /** A driver over a stored log, before `resume` looked at where the log was cut. */
    constructor Over(spec: RunSpec, log: Log)
      ensures this.spec == spec
      ensures Cut() == Resumed(log, [], None, false)
    {
      this.spec := spec;
      events := log;
      pending, undecided, resumed := [], None, false;
    }

    static method Resume(spec: RunSpec, log: Log) returns (r: Result<Driver, DispatchPhase>)
      ensures r.Ok? <==> Driving.Resume(spec, log).Ok?
      ensures r.Ok? ==> fresh(r.value) && r.value.spec == spec && r.value.Cut() == Driving.Resume(spec, log).value
      ensures r.Err? ==> r.error == Driving.Resume(spec, log).error
    {
      hide Reduce;
      var started := RunStarted in log;
      var ended := HasEnded(log);
      var driver := new Driver.Over(spec, log);
      if ended {
        return Ok(driver);
      }
      var state := driver.State();
      if !started {
        if state.dispatch.Created? || state.dispatch.Starting? {
          driver.Push(RunStarted);
          return Ok(driver);
        }
        return Err(state.dispatch);
      }
      driver.resumed := true;
      if state.harness.Completed? {
        driver.Push(RunCompleted(state.harness.outcome));
      } else if !state.harness.IsTerminal() {
        var last := Last(driver.events);
        if last.EffectDecided? {
          var before := Fold(spec, Front(driver.events));
          driver.undecided := Some((before.harness, last.effect));
        } else {
          driver.pending := EffectsOfLast(spec, driver.events);
        }
      }
      return Ok(driver);
    }

    method State() returns (state: RunState)
      ensures state == StateOf(spec, events)
    {
      state := Fold(spec, events);
    }

    method Push(e: Event)
      modifies this`events
      ensures events == old(events) + [e]
    {
      events := events + [e];
    }

    method AuthorizeDecided(w: World, h: HarnessState, effect: Effect) returns (effects: seq<Effect>)
      modifies this`events
      ensures (events, effects) == Driving.AuthorizeDecided(spec, w, h, effect, old(events))
    {
      hide Reduce;
      hide Authorize;
      hide Applicable;
      hide Harness;
      hide EffectsOfLast;
      hide Describe;
      match Authorize(spec, effect, w.tools) {
        case Allow =>
          if !Applicable(h, effect, spec) {
            Push(EffectDenied(effect, "not applicable while " + Describe(h)));
            return [];
          }
          Push(EffectAuthorized(effect));
          if effect.Complete? {
            var state := State();
            if state.harness.Completed? {
              Push(RunCompleted(effect.outcome));
              assert events == old(events) + [EffectAuthorized(effect), RunCompleted(effect.outcome)];
            }
          }
          return EffectsOfLast(spec, events);
        case Deny(reason) =>
          Push(EffectDenied(effect, reason));
          return [];
        case _ =>
          Push(EffectDenied(effect, NOT_IMPLEMENTED));
          return [];
      }
    }

    method Decide(w: World) returns (effects: seq<Effect>, error: Option<string>)
      modifies this`events
      ensures Decision(events, effects, error) == Driving.Decide(spec, w, old(events))
    {
      hide Reduce;
      hide Driving.AuthorizeDecided;
      var state := State();
      if state.harness.IsTerminal() {
        return [], None;
      }
      var stepsSpent := SaturatingAdd(state.steps, state.givenSteps) >= spec.limits.maxSteps;
      var modelCallsSpent := SaturatingAdd(state.modelCalls, state.givenModelCalls) >= spec.limits.maxModelCalls;
      match w.decide(events) {
        case Err(message) => return [], Some(message);
        case Ok(effect) =>
          var overBudget :=
            if effect.Complete? && state.harness.Running? then false
            else if effect.ModelCall? then stepsSpent || modelCallsSpent
            else stepsSpent;
          if overBudget {
            Push(RunFailed(Budget, "limit hit"));
            return [], None;
          }
          Push(EffectDecided(effect));
          effects := AuthorizeDecided(w, state.harness, effect);
          error := None;
      }
    }

    method Perform(w: World, effects: seq<Effect>)
      modifies this`events
      ensures events == Driving.Perform(spec, w, effects, old(events))
    {
      hide Reduce;
      hide Performed;
      for i := 0 to |effects|
        invariant Driving.Perform(spec, w, effects[i..], events) == Driving.Perform(spec, w, effects, old(events))
      {
        var effect := effects[i];
        var results := Performed(spec, w, effect, events);
        assert effects[i..][0] == effect && effects[i..][1..] == effects[i + 1..];
        events := events + results;
        if Abandons(effect, results) {
          return;
        }
      }
    }

    method AdvanceAnsweredStep()
      modifies this`events
      ensures events == Advance(spec, old(events))
    {
      hide Reduce;
      var state := State();
      if state.harness.Running? && state.harness.answered && state.harness.step < spec.limits.maxSteps {
        Push(StepAdvanced);
      }
    }

    /** Finishes the step a resumed log was cut in. */
    method FinishCut(w: World)
      modifies this
      ensures events == Preamble(spec, w, old(Cut()))
      ensures pending == [] && undecided == None && !resumed
    {
      hide Reduce;
      hide Driving.Perform;
      hide Driving.AuthorizeDecided;
      hide Advance;
      var effects := pending;
      pending := [];
      if undecided.Some? {
        var (h, effect) := undecided.value;
        undecided := None;
        effects := AuthorizeDecided(w, h, effect);
      }
      if resumed {
        resumed := false;
        Perform(w, effects);
        AdvanceAnsweredStep();
      }
    }

    /** One turn of the loop: whether the loop is done, and the decider's error. */
    method Turn(w: World) returns (done: bool, error: Option<string>, asked: bool)
      modifies this`events
      ensures OneTurn(spec, w, old(events)) == if done then Stop(events, error, asked) else Go(events)
      ensures !done ==> asked
    {
      hide Reduce;
      hide Harness;
      hide Driving.Perform;
      hide Driving.Decide;
      hide Advance;
      var state := State();
      var ended := HasEnded(events);
      if state.harness.IsTerminal() || ended {
        return true, None, false;
      }
      match w.boundary(events) {
        case Continue =>
        case Cancel =>
          Push(RunCancelled);
          return true, None, false;
        case Pause =>
          return true, None, false;
      }
      if state.harness.WaitingForMessage? {
        return true, None, false;
      }
      var effects, failure := Decide(w);
      if failure.Some? {
        return true, failure, true;
      }
      if effects == [] {
        var after := State();
        return after.harness.IsTerminal(), None, true;
      }
      Perform(w, effects);
      AdvanceAnsweredStep();
      return false, None, true;
    }

    /** Runs step by step until the run stops; the effects a resumed log left pending come first. */
    method RunUntil(w: World) returns (error: Option<string>, asked: nat)
      modifies this
      ensures Ran(events, error, asked) == RunLoop(spec, w, Preamble(spec, w, old(Cut())))
      ensures pending == [] && undecided == None && !resumed
    {
      hide Reduce;
      hide Harness;
      hide OneTurn;
      hide Preamble;
      FinishCut(w);
      ghost var start := events;
      asked := 0;
      while true
        invariant pending == [] && undecided == None && !resumed
        invariant RunLoop(spec, w, start)
               == RunLoop(spec, w, events).(asked := RunLoop(spec, w, events).asked + asked)
        decreases Fuel(spec, events)
      {
        TurnProgress(spec, w, events);
        var done, failure, wasAsked := Turn(w);
        asked := if wasAsked then asked + 1 else asked;
        if done {
          return failure, asked;
        }
      }
    }
  }
}
