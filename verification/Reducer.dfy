/**
  The pure reducer: how one event moves the harness and the dispatch phase of a
  run, and which effects an authorization hands to the driver.
  */
module Reducer {
  import opened Protocol

  /** Dispatch phases in which a run is past starting and not ended. */
  predicate Active(phase: DispatchPhase) {
    phase.Running? || phase.Waiting? || phase.AwaitingApproval? || phase.Paused? || phase.Recovering?
  }

  function ReduceDispatch(phase: DispatchPhase, e: Event): DispatchPhase {
    if phase.IsTerminal() then phase
    else match e
      case RunQueued => if phase.Created? then DispatchPhase.Queued else phase
      case RunScheduled => if phase.Queued? then DispatchPhase.Scheduled else phase
      case RunProvisioning => if phase.Scheduled? then DispatchPhase.Provisioning else phase
      case RunStarting => if phase.Provisioning? then DispatchPhase.Starting else phase
      case RunStarted => if phase.Starting? || phase.Created? then DispatchPhase.Running else phase
      case RunWaiting(reason) => if phase.Running? then DispatchPhase.Waiting(reason) else phase
      case RunAwaitingApproval(id) => if phase.Running? then DispatchPhase.AwaitingApproval(id) else phase
      case RunPaused => if phase.Running? then DispatchPhase.Paused else phase
      case RunRecovering => if phase.Running? then DispatchPhase.Recovering else phase
      case RunResumed => if Active(phase) then DispatchPhase.Running else phase
      case RunCompleted(outcome) => if Active(phase) then DispatchPhase.Completed(outcome) else phase
      case RunFailed(kind, message) => DispatchPhase.Failed(kind, message)
      case RunCancelled => DispatchPhase.Cancelled
      case RunExpired => DispatchPhase.Expired
      case _ => phase
  }

  /** Harness states a failure, a cancel or an expiry ends. */
  predicate Open(h: HarnessState) {
    h.Running? || h.WaitingForTool? || h.WaitingForMessage?
  }

  /** Whether `reduce` acts on `effect` when it is authorized in `h`. */
  predicate Applicable(h: HarnessState, effect: Effect, spec: RunSpec) {
    h.Running? &&
    match effect
    case ToolCall(_, _, _) => !h.answered && 1 <= h.step <= spec.limits.maxSteps
    case Complete(_) => true
    case ModelCall(_) => true
    case MemoryRead(_, _) => true
    case MemoryWrite(_, _, _) => true
    case Delegate(_, _) => true
    case SendMessage(_, _, expectsReply, _, _) => !(expectsReply && h.answered)
    case AskUser(_) => !h.answered
    case Execute(_) => false
    case RequestApproval(_, _) => false
    case Wait(_) => false
    case PublishArtifact(_, _, _) => false
  }

  function AnswerAsk(h: HarnessState, ask: MessageId): HarnessState {
    if h.WaitingForMessage? && h.messageId == ask then HarnessState.Running(h.step, h.attempt, true) else h
  }

  function OnAuthorized(h: HarnessState, effect: Effect, spec: RunSpec): (HarnessState, seq<Effect>) {
    if !Applicable(h, effect, spec) then (h, [])
    else match effect
      case ToolCall(name, _, invocation) => (WaitingForTool(h.step, h.attempt, name, invocation), [effect])
      case Complete(outcome) => (HarnessState.Completed(outcome), [])
      case _ => (h, [effect])
  }

  function Reduce(h: HarnessState, e: Event, spec: RunSpec): (HarnessState, seq<Effect>) {
    if h.IsTerminal() then (h, [])
    else match e
      case RunStarted => (if h.Idle? then HarnessState.Running(1, 0, false) else h, [])
      case EffectAuthorized(effect) => OnAuthorized(h, effect, spec)
      case ToolResult(name, invocation, step, attempt, _) =>
        (if h == WaitingForTool(step, attempt, name, invocation) then HarnessState.Running(step, attempt, true) else h, [])
      case MessageSent(ask, _, expectsReply) => (if expectsReply then AwaitAsk(h, ask) else h, [])
      case UserAsked(ask, _) => (AwaitAsk(h, ask), [])
      case MessageReceived(_, _, _, _, replyTo) => (if replyTo.Some? then AnswerAsk(h, replyTo.value) else h, [])
      case AskTimedOut(ask) => (AnswerAsk(h, ask), [])
      case UserAnswered(ask, _) => (AnswerAsk(h, ask), [])
      case StepRetried =>
        (if h.Running? && h.answered && h.attempt < MAX_RETRIES then HarnessState.Running(h.step, h.attempt + 1, false) else h, [])
      case StepAdvanced =>
        (if h.Running? && h.answered && h.step < spec.limits.maxSteps then HarnessState.Running(h.step + 1, 0, false) else h, [])
      case RunCompleted(outcome) => (if h.Running? then HarnessState.Completed(outcome) else h, [])
      case RunFailed(kind, message) => (if Open(h) then HarnessState.Failed(kind, message) else h, [])
      case RunCancelled => (if Open(h) then HarnessState.Cancelled else h, [])
      case RunExpired => (if Open(h) then HarnessState.Failed(Timeout, "run expired") else h, [])
      case _ => (h, [])
  }

  /** An ask or a question recorded in an open running step makes the step wait on it. */
  function AwaitAsk(h: HarnessState, ask: MessageId): HarnessState {
    if h.Running? && !h.answered then WaitingForMessage(h.step, h.attempt, ask) else h
  }

  /** `Applicable` says exactly where an authorization is not dropped. */
  lemma ApplicableIffActedOn(h: HarnessState, effect: Effect, spec: RunSpec)
    ensures Applicable(h, effect, spec) <==> Reduce(h, EffectAuthorized(effect), spec) != (h, [])
  {
  }

  /**
    The payload rule for "this event ends the run" and the dispatch phase agree except for one
    family: a completion recorded before the run started does not end the dispatch.
    */
  lemma RunEndsDispatchUnlessUnstarted(phase: DispatchPhase, e: Event)
    ensures ReduceDispatch(phase, e).IsTerminal()
       <==> phase.IsTerminal() || (IsRunEnd(e) && (e.RunCompleted? ==> Active(phase)))
  {
  }

  // ---------------------------------------------------------------------------
  // Where each state and each phase can go
  // ---------------------------------------------------------------------------

  /** How a wait is left: by its own result or answer, or when the run ends. */
  lemma WaitLeaves(h: HarnessState, e: Event, spec: RunSpec)
    requires h.WaitingForTool? || h.WaitingForMessage?
    ensures var after := Reduce(h, e, spec).0;
            && (after.Running? <==>
                  || (h.WaitingForTool? && e.ToolResult? &&
                      (e.name, e.invocation, e.step, e.attempt) == (h.name, h.invocation, h.step, h.attempt))
                  || (h.WaitingForMessage? && e.MessageReceived? && e.replyTo == Some(h.messageId))
                  || (h.WaitingForMessage? && (e.AskTimedOut? || e.UserAnswered?) && e.messageId == h.messageId))
            && (after.Running? ==> after == HarnessState.Running(h.step, h.attempt, true))
            && (!after.Running? && !(e.RunFailed? || e.RunCancelled? || e.RunExpired?) ==> after == h)
  {
  }

  /** How a running step moves: to its tool's wait, its ask's wait, its next try, the next step, or its end. */
  lemma StepLeaves(h: HarnessState, e: Event, spec: RunSpec)
    requires h.Running?
    ensures var after := Reduce(h, e, spec).0;
            && (after.WaitingForTool? <==>
                  e.EffectAuthorized? && e.effect.ToolCall? && !h.answered && 1 <= h.step <= spec.limits.maxSteps)
            && (after.WaitingForTool? ==> after == WaitingForTool(h.step, h.attempt, e.effect.name, e.effect.invocation))
            && (after.WaitingForMessage? <==> !h.answered && (e.UserAsked? || (e.MessageSent? && e.expectsReply)))
            && (after.WaitingForMessage? ==> after == WaitingForMessage(h.step, h.attempt, e.messageId))
            && (after.Running? && after != h <==>
                  h.answered && ((e.StepRetried? && h.attempt < MAX_RETRIES) || (e.StepAdvanced? && h.step < spec.limits.maxSteps)))
            && (after.Running? && after != h ==>
                  after == if e.StepRetried? then HarnessState.Running(h.step, h.attempt + 1, false)
                           else HarnessState.Running(h.step + 1, 0, false))
            && !after.Idle?
  {
  }

  /** What an end leaves an open harness in: exactly what the event says. */
  lemma EndsHarness(h: HarnessState, e: Event, spec: RunSpec)
    requires Open(h)
    ensures var after := Reduce(h, e, spec).0;
            && (after.Completed? <==> h.Running? && (e.RunCompleted? || (e.EffectAuthorized? && e.effect.Complete?)))
            && (after.Completed? ==> after.outcome == if e.RunCompleted? then e.outcome else e.effect.outcome)
            && (after.Failed? <==> e.RunFailed? || e.RunExpired?)
            && (e.RunFailed? ==> after == HarnessState.Failed(e.kind, e.message))
            && (e.RunExpired? ==> after == HarnessState.Failed(Timeout, "run expired"))
            && (after.Cancelled? <==> e.RunCancelled?)
  {
  }

  /** What an end leaves the dispatch phase in: exactly what the event says. */
  lemma EndsPhase(phase: DispatchPhase, e: Event)
    requires !phase.IsTerminal() && IsRunEnd(e) && (e.RunCompleted? ==> Active(phase))
    ensures var after := ReduceDispatch(phase, e);
            && (e.RunCompleted? ==> after == DispatchPhase.Completed(e.outcome))
            && (e.RunFailed? ==> after == DispatchPhase.Failed(e.kind, e.message))
            && (e.RunCancelled? ==> after == DispatchPhase.Cancelled)
            && (e.RunExpired? ==> after == DispatchPhase.Expired)
  {
  }

  /** The ladder a queued run climbs, one event a rung, and none skipped. */
  function Rung(phase: DispatchPhase): Option<Event> {
    match phase
    case Created => Some(RunQueued)
    case Queued => Some(RunScheduled)
    case Scheduled => Some(RunProvisioning)
    case Provisioning => Some(RunStarting)
    case Starting => Some(RunStarted)
    case _ => None
  }

  function NextPhase(phase: DispatchPhase): DispatchPhase {
    match phase
    case Created => DispatchPhase.Queued
    case Queued => DispatchPhase.Scheduled
    case Scheduled => DispatchPhase.Provisioning
    case Provisioning => DispatchPhase.Starting
    case _ => DispatchPhase.Running
  }

  /** How a phase that has not ended moves on anything but an end. */
  lemma PhaseLeaves(phase: DispatchPhase, e: Event)
    requires !phase.IsTerminal() && !IsRunEnd(e)
    ensures var after := ReduceDispatch(phase, e);
            if Rung(phase) == Some(e) then after == NextPhase(phase)
            else if phase.Created? && e.RunStarted? then after.Running?
            else if Active(phase) && e.RunResumed? then after.Running?
            else if phase.Running? then
              && (e.RunWaiting? ==> after == DispatchPhase.Waiting(e.reason))
              && (e.RunAwaitingApproval? ==> after == DispatchPhase.AwaitingApproval(e.approvalId))
              && (e.RunPaused? ==> after.Paused?) && (e.RunRecovering? ==> after.Recovering?)
              && (!e.RunWaiting? && !e.RunAwaitingApproval? && !e.RunPaused? && !e.RunRecovering? ==> after == phase)
            else after == phase
  {
  }

  // ---------------------------------------------------------------------------
  // Progress over arbitrary event sequences
  // ---------------------------------------------------------------------------

  function Harness(spec: RunSpec, log: Log): HarnessState {
    if log == [] then Idle else Reduce(Harness(spec, Front(log)), Last(log), spec).0
  }

  /** Every effect the reducer handed out over the log, in order. */
  function Emitted(spec: RunSpec, log: Log): seq<Effect> {
    if log == [] then []
    else Emitted(spec, Front(log)) + Reduce(Harness(spec, Front(log)), Last(log), spec).1
  }

  predicate IsWait(h: HarnessState) {
    h.WaitingForTool? || h.WaitingForMessage?
  }

  /** The (step, attempt) of each wait the harness entered, in order. */
  function Waits(spec: RunSpec, log: Log): seq<(u32, u32)> {
    if log == [] then []
    else
      var before, after := Harness(spec, Front(log)), Harness(spec, log);
      Waits(spec, Front(log)) + (if IsWait(after) && !IsWait(before) then [(after.step, after.attempt)] else [])
  }

  /** How often the harness entered a wait for a message. */
  function AskWaits(spec: RunSpec, log: Log): nat {
    if log == [] then 0
    else
      var before, after := Harness(spec, Front(log)), Harness(spec, log);
      AskWaits(spec, Front(log)) + (if after.WaitingForMessage? && !IsWait(before) then 1 else 0)
  }

  function ToolCallsIn(effects: seq<Effect>): nat {
    if effects == [] then 0
    else ToolCallsIn(effects[..|effects| - 1]) + (if effects[|effects| - 1].ToolCall? then 1 else 0)
  }

  /** The steps a run can take: a run always has its first. */
  function StepBound(spec: RunSpec): nat {
    if spec.limits.maxSteps == 0 then 1 else spec.limits.maxSteps
  }

  predicate Before(a: (u32, u32), b: (u32, u32)) {
    a.0 < b.0 || (a.0 == b.0 && a.1 < b.1)
  }

  predicate StrictlyIncreasing(waits: seq<(u32, u32)>) {
    forall i, j :: 0 <= i < j < |waits| ==> Before(waits[i], waits[j])
  }

  predicate InRange(spec: RunSpec, w: (u32, u32)) {
    1 <= w.0 <= StepBound(spec) && w.1 <= MAX_RETRIES
  }

  /** Where the harness stands against the waits it has entered. */
  predicate Tracks(spec: RunSpec, h: HarnessState, waits: seq<(u32, u32)>) {
    && (forall w <- waits :: InRange(spec, w))
    && StrictlyIncreasing(waits)
    && match h
       case Idle => waits == []
       case Running(step, attempt, answered) =>
         && InRange(spec, (step, attempt))
         && (answered ==> waits != [] && waits[|waits| - 1] == (step, attempt))
         && (!answered ==> forall w <- waits :: Before(w, (step, attempt)))
       case WaitingForTool(step, attempt, _, _) => waits != [] && waits[|waits| - 1] == (step, attempt)
       case WaitingForMessage(step, attempt, _) => waits != [] && waits[|waits| - 1] == (step, attempt)
       case _ => true
  }

  /** The waits entered once the harness moved from `h` to `after`. */
  function Entered(h: HarnessState, after: HarnessState, waits: seq<(u32, u32)>): seq<(u32, u32)> {
    waits + (if IsWait(after) && !IsWait(h) then [(after.step, after.attempt)] else [])
  }

  lemma EventTracked(spec: RunSpec, h: HarnessState, e: Event, waits: seq<(u32, u32)>)
    requires Tracks(spec, h, waits)
    ensures var after := Reduce(h, e, spec).0; Tracks(spec, after, Entered(h, after, waits))
  {
    var after := Reduce(h, e, spec).0;
    var entered := Entered(h, after, waits);
    if h.Running? && h.answered && after.Running? && !after.answered {
      forall w | w in waits ensures Before(w, (after.step, after.attempt)) {
        var i :| 0 <= i < |waits| && waits[i] == w;
        assert i < |waits| - 1 ==> Before(waits[i], waits[|waits| - 1]);
      }
    }
    if entered != waits {
      assert entered == waits + [(h.step, h.attempt)];
    } else {
      assert waits + [] == waits;
    }
  }

  lemma {:induction false} WaitsAreTracked(spec: RunSpec, log: Log)
    ensures Tracks(spec, Harness(spec, log), Waits(spec, log))
  {
    hide Reduce;
    hide Tracks;
    if log == [] {
      NothingTracked(spec);
    } else {
      WaitsAreTracked(spec, Front(log));
      EventTracked(spec, Harness(spec, Front(log)), Last(log), Waits(spec, Front(log)));
    }
  }

  lemma NothingTracked(spec: RunSpec)
    ensures Tracks(spec, Idle, [])
  {
  }

  /** A position in the (step, attempt) grid, numbered row by row. */
  function Cell(w: (u32, u32)): int {
    (MAX_RETRIES + 1) * (w.0 - 1) + w.1
  }

  lemma {:induction false} IncreasingBelow(spec: RunSpec, waits: seq<(u32, u32)>)
    requires StrictlyIncreasing(waits)
    requires forall w <- waits :: InRange(spec, w)
    ensures waits == [] || |waits| <= Cell(waits[|waits| - 1]) + 1
  {
    if |waits| == 1 {
      assert InRange(spec, waits[0]);
    } else if |waits| > 1 {
      var front := waits[..|waits| - 1];
      IncreasingBelow(spec, front);
      assert Before(waits[|waits| - 2], waits[|waits| - 1]);
      assert front[|front| - 1] == waits[|waits| - 2];
      assert InRange(spec, waits[|waits| - 2]) && InRange(spec, waits[|waits| - 1]);
    }
  }

  lemma ToolCallsAppend(a: seq<Effect>, e: Effect)
    ensures ToolCallsIn(a + [e]) == ToolCallsIn(a) + (if e.ToolCall? then 1 else 0)
  {
  }

  /** One event hands out at most one effect, and a tool call only while entering its wait. */
  lemma HandsOutOne(h: HarnessState, e: Event, spec: RunSpec)
    ensures var (h', handed) := Reduce(h, e, spec);
            handed == [] || (e.EffectAuthorized? && handed == [e.effect] && h.Running? &&
                             (if e.effect.ToolCall? then h'.WaitingForTool? else h' == h))
  {
  }

  /** Each tool call handed out and each ask waited on is a wait of its own. */
  lemma {:induction false} EachIsAWait(spec: RunSpec, log: Log)
    ensures ToolCallsIn(Emitted(spec, log)) + AskWaits(spec, log) <= |Waits(spec, log)|
  {
    if log != [] {
      EachIsAWait(spec, Front(log));
      var handed := Reduce(Harness(spec, Front(log)), Last(log), spec).1;
      HandsOutOne(Harness(spec, Front(log)), Last(log), spec);
      if handed != [] {
        ToolCallsAppend(Emitted(spec, Front(log)), handed[0]);
      } else {
        assert Emitted(spec, log) == Emitted(spec, Front(log));
      }
    }
  }

  /**
    Whatever events reach a run, in whatever order: its step stays within its budget, its attempt
    within the retries, no (step, attempt) waits twice, and the tool calls it hands out together
    with the asks it waits on are bounded by steps times attempts.
    */
  lemma ReducerProgress(spec: RunSpec, log: Log)
    ensures var h := Harness(spec, log);
            h.Running? || IsWait(h) ==> 1 <= h.step <= StepBound(spec) && h.attempt <= MAX_RETRIES
    ensures var waits := Waits(spec, log);
            forall i, j :: 0 <= i < j < |waits| ==> waits[i] != waits[j]
    ensures |Waits(spec, log)| <= (MAX_RETRIES + 1) * StepBound(spec)
    ensures ToolCallsIn(Emitted(spec, log)) + AskWaits(spec, log) <= |Waits(spec, log)|
  {
    WaitsAreTracked(spec, log);
    var waits := Waits(spec, log);
    IncreasingBelow(spec, waits);
    EachIsAWait(spec, log);
    forall i, j | 0 <= i < j < |waits| ensures waits[i] != waits[j] {
      assert Before(waits[i], waits[j]);
    }
    if waits != [] {
      assert InRange(spec, waits[|waits| - 1]);
    }
  }

  /** An ended harness takes no further event. */
  lemma {:induction false} TerminalAbsorbs(spec: RunSpec, log: Log, more: Log)
    requires Harness(spec, log).IsTerminal()
    ensures Harness(spec, log + more) == Harness(spec, log)
    ensures Emitted(spec, log + more) == Emitted(spec, log)
  {
    if more == [] {
      assert log + more == log;
    } else {
      TerminalAbsorbs(spec, log, Front(more));
      assert Front(log + more) == log + Front(more);
    }
  }
}
