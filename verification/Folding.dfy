/**
  Folding a log: the harness and dispatch phase it leaves a run in, and what the run has spent of
  its budget. Each quantity is a function of the log; `Fold` is the one pass that computes them all.
  */
module Folding {
  import opened Protocol
  import opened Reducer

  datatype RunState = RunState(
    harness: HarnessState,
    dispatch: DispatchPhase,
    steps: nat,
    modelCalls: nat,
    children: nat,
    givenSteps: u32,
    givenModelCalls: u32)

  function Dispatch(log: Log): DispatchPhase {
    if log == [] then DispatchPhase.Created else ReduceDispatch(Dispatch(Front(log)), Last(log))
  }

  /** Whether deciding `effect` in `h` takes a step of the budget. */
  predicate CostsStep(h: HarnessState, effect: Effect) {
    !(effect.Complete? && h.Running?)
  }

  function Steps(spec: RunSpec, log: Log): nat {
    if log == [] then 0
    else Steps(spec, Front(log)) +
         (if Last(log).EffectDecided? && CostsStep(Harness(spec, Front(log)), Last(log).effect) then 1 else 0)
  }

  function ModelCalls(log: Log): nat {
    if log == [] then 0
    else ModelCalls(Front(log)) + (if Last(log).EffectAuthorized? && Last(log).effect.ModelCall? then 1 else 0)
  }

  /** The distinct child runs a log names. */
  function Started(log: Log): set<RunId> {
    if log == [] then {}
    else Started(Front(log)) + (if Last(log).ChildStarted? then {Last(log).runId} else {})
  }

  predicate NewChild(log: Log, e: Event) {
    e.ChildStarted? && e.runId !in Started(log)
  }

  function Children(log: Log): nat {
    if log == [] then 0 else Children(Front(log)) + (if NewChild(Front(log), Last(log)) then 1 else 0)
  }

  function GivenSteps(log: Log): u32 {
    if log == [] then 0
    else if NewChild(Front(log), Last(log)) then SaturatingAdd(GivenSteps(Front(log)), Last(log).limits.maxSteps)
    else GivenSteps(Front(log))
  }

  function GivenModelCalls(log: Log): u32 {
    if log == [] then 0
    else if NewChild(Front(log), Last(log))
    then SaturatingAdd(GivenModelCalls(Front(log)), Last(log).limits.maxModelCalls)
    else GivenModelCalls(Front(log))
  }

  function StateOf(spec: RunSpec, log: Log): RunState {
    RunState(Harness(spec, log), Dispatch(log), Steps(spec, log), ModelCalls(log),
             Children(log), GivenSteps(log), GivenModelCalls(log))
  }

  /** One pass over the log, with the set of children seen so far. */
  method Fold(spec: RunSpec, log: Log) returns (state: RunState)
    ensures state == StateOf(spec, log)
  {
    hide Reduce;
    hide ReduceDispatch;
    var harness, dispatch := HarnessState.Idle, DispatchPhase.Created;
    var steps, modelCalls, children: nat := 0, 0, 0;
    var givenSteps: u32, givenModelCalls: u32 := 0, 0;
    var started: set<RunId> := {};
    for i := 0 to |log|
      invariant RunState(harness, dispatch, steps, modelCalls, children, givenSteps, givenModelCalls)
             == StateOf(spec, log[..i])
      invariant started == Started(log[..i])
    {
      var e := log[i];
      assert Front(log[..i + 1]) == log[..i] && Last(log[..i + 1]) == e;
      match e {
        case EffectDecided(effect) =>
          if !(effect.Complete? && harness.Running?) { steps := steps + 1; }
        case EffectAuthorized(effect) =>
          if effect.ModelCall? { modelCalls := modelCalls + 1; }
        case ChildStarted(runId, _, limits) =>
          if runId !in started {
            started := started + {runId};
            children := children + 1;
            givenSteps := SaturatingAdd(givenSteps, limits.maxSteps);
            givenModelCalls := SaturatingAdd(givenModelCalls, limits.maxModelCalls);
          }
        case _ =>
      }
      dispatch := ReduceDispatch(dispatch, e);
      harness := Reduce(harness, e, spec).0;
    }
    assert log[..|log|] == log;
    state := RunState(harness, dispatch, steps, modelCalls, children, givenSteps, givenModelCalls);
  }

  /** `children` counts each child once, however often the log names it. */
  lemma {:induction false} ChildrenAreDistinct(log: Log)
    ensures Children(log) == |Started(log)|
    ensures forall i :: 0 <= i < |log| && log[i].ChildStarted? ==> log[i].runId in Started(log)
  {
    if log != [] {
      ChildrenAreDistinct(Front(log));
      assert forall i :: 0 <= i < |log| - 1 ==> log[i] == Front(log)[i];
      if Last(log).ChildStarted? && !NewChild(Front(log), Last(log)) {
        assert Started(log) == Started(Front(log));
      }
    }
  }

  /** What appending one event does to every folded quantity. */
  lemma FoldSnoc(spec: RunSpec, log: Log, e: Event)
    ensures Front(log + [e]) == log && Last(log + [e]) == e
    ensures Harness(spec, log + [e]) == Reduce(Harness(spec, log), e, spec).0
    ensures Dispatch(log + [e]) == ReduceDispatch(Dispatch(log), e)
    ensures Steps(spec, log + [e])
         == Steps(spec, log) + (if e.EffectDecided? && CostsStep(Harness(spec, log), e.effect) then 1 else 0)
    ensures ModelCalls(log + [e]) == ModelCalls(log) + (if e.EffectAuthorized? && e.effect.ModelCall? then 1 else 0)
    ensures Started(log + [e]) == Started(log) + (if e.ChildStarted? then {e.runId} else {})
    ensures Children(log + [e]) == Children(log) + (if NewChild(log, e) then 1 else 0)
    ensures GivenSteps(log + [e])
         == (if NewChild(log, e) then SaturatingAdd(GivenSteps(log), e.limits.maxSteps) else GivenSteps(log))
    ensures GivenModelCalls(log + [e])
         == (if NewChild(log, e) then SaturatingAdd(GivenModelCalls(log), e.limits.maxModelCalls)
             else GivenModelCalls(log))
  {
  }

  /** A harness that left `Idle` never comes back to it: only `RunStarted` starts it. */
  lemma {:induction false} IdleIffUnstarted(spec: RunSpec, log: Log)
    ensures Harness(spec, log).Idle? <==> RunStarted !in log
  {
    if log != [] {
      IdleIffUnstarted(spec, Front(log));
      assert log == Front(log) + [Last(log)];
    }
  }

  /** A harness that ended on anything but a completion has a terminal event in its log. */
  lemma {:induction false} EndedHarness(spec: RunSpec, log: Log)
    ensures Harness(spec, log).Failed? || Harness(spec, log).Cancelled? ==> Ended(log)
  {
    if log != [] {
      EndedHarness(spec, Front(log));
      EndedSnoc(Front(log), Last(log));
      assert log == Front(log) + [Last(log)];
    }
  }

  // ---------------------------------------------------------------------------
  // The folded quantities, said without the fold
  // ---------------------------------------------------------------------------

  /** The positions of the decisions that took a step. */
  function StepsAt(spec: RunSpec, log: Log): set<nat> {
    set i: nat | i < |log| && log[i].EffectDecided? && CostsStep(Harness(spec, log[..i]), log[i].effect)
  }

  /** The positions of the authorized model calls. */
  function ModelCallsAt(log: Log): set<nat> {
    set i: nat | i < |log| && IsModelCall(log[i])
  }

  predicate IsModelCall(e: Event) {
    e.EffectAuthorized? && e.effect.ModelCall?
  }

  /** Steps are the decisions taken, but for the completion of a running harness. */
  lemma {:induction false} StepsArePositions(spec: RunSpec, log: Log)
    ensures Steps(spec, log) == |StepsAt(spec, log)|
  {
    hide Harness;
    hide CostsStep;
    if log != [] {
      var front, n := Front(log), |log| - 1;
      StepsArePositions(spec, front);
      var before, all := StepsAt(spec, front), StepsAt(spec, log);
      forall i: nat | i < n ensures log[..i] == front[..i] && (i in all <==> i in before) {
      }
      assert log[..n] == front;
      if n in all {
        assert all == before + {n};
      } else {
        assert all == before;
      }
    }
  }

  /** Model calls are the ones authorized. */
  lemma {:induction false} ModelCallsArePositions(log: Log)
    ensures ModelCalls(log) == |ModelCallsAt(log)|
  {
    if log != [] {
      var front, n := Front(log), |log| - 1;
      ModelCallsArePositions(front);
      assert ModelCalls(log) == ModelCalls(front) + (if IsModelCall(log[n]) then 1 else 0);
      hide IsModelCall;
      hide ModelCalls;
      var before, all := ModelCallsAt(front), ModelCallsAt(log);
      forall i: nat | i < n ensures i in all <==> i in before {
        assert log[i] == front[i];
      }
      if n in all {
        assert all == before + {n};
      } else {
        assert all == before;
      }
    }
  }

  /** A log that its last event ends is folded to what that event says. */
  lemma EndedAs(spec: RunSpec, log: Log)
    requires log != [] && IsRunEnd(Last(log)) && !Dispatch(Front(log)).IsTerminal()
    requires Last(log).RunCompleted? ==> Active(Dispatch(Front(log)))
    ensures match Dispatch(log)
            case Completed(outcome) => Last(log) == RunCompleted(outcome)
            case Failed(kind, message) => Last(log) == RunFailed(kind, message)
            case Cancelled => Last(log).RunCancelled?
            case Expired => Last(log).RunExpired?
            case _ => false
    ensures Open(Harness(spec, Front(log))) && !Last(log).RunCompleted? ==>
              match Harness(spec, log)
              case Failed(kind, message) =>
                Last(log) == RunFailed(kind, message) || (Last(log).RunExpired? && (kind, message) == (Timeout, "run expired"))
              case Cancelled => Last(log).RunCancelled?
              case _ => false
    ensures Harness(spec, Front(log)).Running? && Last(log).RunCompleted? ==>
              Harness(spec, log) == HarnessState.Completed(Last(log).outcome)
  {
    EndsPhase(Dispatch(Front(log)), Last(log));
    if Open(Harness(spec, Front(log))) {
      EndsHarness(Harness(spec, Front(log)), Last(log), spec);
    }
  }
}
