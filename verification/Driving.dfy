/**
  What a driver does to its log, as functions of the log. Everything outside the log (the decider,
  the tools, the model, memory, the spawner, the deliverer, the caller at a boundary) is a `World`
  that answers from the log as it stands, so the same log is answered the same way.
  */
module Driving {
  import opened Protocol
  import opened Reducer
  import opened Folding
  import opened Authorizer

  datatype ChildRequest = ChildRequest(step: u32, agentId: AgentId, input: string, limits: Limits)
  datatype StartedChild = StartedChild(runId: RunId, limits: Limits)
  datatype MessageRequest = MessageRequest(
    decision: nat, to: AgentId, body: string, expectsReply: bool, replyTo: Option<MessageId>,
    timeoutSecs: Option<u32>, limits: Option<Limits>)
  datatype SentMessage = SentMessage(messageId: MessageId, task: Option<StartedChild>)

  datatype Boundary = Continue | Cancel | Pause

  datatype World = World(
    decide: Log -> Result<Effect, string>,
    tools: seq<ToolDescriptor>,
    call: (Log, string, string) -> Result<string, string>,
    complete: (Log, string) -> Result<string, string>,
    read: (Log, MemoryScope, string) -> Result<Option<string>, string>,
    write: (Log, MemoryScope, string, string) -> Result<(), string>,
    spawner: Option<(Log, ChildRequest) -> Result<StartedChild, string>>,
    deliverer: Option<(Log, MessageRequest) -> Result<SentMessage, string>>,
    userQuestions: bool,
    question: Log -> MessageId,
    boundary: Log -> Boundary)

  /** The harness state in words, for the reason of a denied effect. */
  function Describe(h: HarnessState): string {
    match h
    case Idle => "idle"
    case Running(_, _, answered) => if answered then "running, answered" else "running"
    case WaitingForTool(_, _, _, _) => "waiting for a tool"
    case WaitingForMessage(_, _, _) => "waiting for a reply"
    case _ => "finished"
  }

  /** The effects the last event of a log handed out. */
  function EffectsOfLast(spec: RunSpec, log: Log): seq<Effect> {
    if log == [] then [] else Reduce(Harness(spec, Front(log)), Last(log), spec).1
  }

  // ---------------------------------------------------------------------------
  // Budgets
  // ---------------------------------------------------------------------------

  predicate StepsSpent(spec: RunSpec, s: RunState) {
    SaturatingAdd(s.steps, s.givenSteps) >= spec.limits.maxSteps
  }

  predicate ModelCallsSpent(spec: RunSpec, s: RunState) {
    SaturatingAdd(s.modelCalls, s.givenModelCalls) >= spec.limits.maxModelCalls
  }

  predicate OverBudget(spec: RunSpec, s: RunState, effect: Effect) {
    if effect.Complete? && s.harness.Running? then false
    else if effect.ModelCall? then StepsSpent(spec, s) || ModelCallsSpent(spec, s)
    else StepsSpent(spec, s)
  }

  function LeftOf(max: u32, used: nat, given: u32): nat {
    SaturatingSub(max, SaturatingAdd(used, given))
  }

  /** Half of what the run has left, or why it may give nothing. */
  function Carve(spec: RunSpec, s: RunState): Result<Limits, string> {
    var steps := LeftOf(spec.limits.maxSteps, s.steps, s.givenSteps);
    var calls := LeftOf(spec.limits.maxModelCalls, s.modelCalls, s.givenModelCalls);
    if !s.harness.Running? then Err("the run is not running")
    else if s.children >= MAX_CHILDREN then Err("already started 10 children")
    else if steps < 2 || calls < 2 then Err("not enough budget left to give a child")
    else Ok(Limits(steps / 2, calls / 2))
  }

  // ---------------------------------------------------------------------------
  // Performing an effect: the events it appends
  // ---------------------------------------------------------------------------

  function DelegateEvents(spec: RunSpec, w: World, agentId: AgentId, input: string, log: Log): Log {
    var s := StateOf(spec, log);
    var step := if s.harness.Running? then s.harness.step else 0;
    [match Carve(spec, s)
     case Err(reason) => DelegateRefused(agentId, reason)
     case Ok(given) =>
       match w.spawner
       case None => DelegateRefused(agentId, "no agent spawner is configured")
       case Some(start) =>
         match start(log, ChildRequest(step, agentId, input, given))
         case Ok(child) => ChildStarted(child.runId, agentId, child.limits)
         case Err(reason) => DelegateRefused(agentId, reason)]
  }

  /** What the deliverer answers to a message, or why it was not handed over. */
  function Sent(spec: RunSpec, w: World, m: Effect, log: Log): Result<SentMessage, string>
    requires m.SendMessage?
  {
    var s := StateOf(spec, log);
    if !s.harness.Running? then Err("the run is not running")
    else match w.deliverer
      case None => Err("no message deliverer is configured")
      case Some(send) =>
        var request := MessageRequest(s.steps, m.to, m.body, m.expectsReply, m.replyTo, m.timeoutSecs, None);
        if StartsTask(m) then
          match Carve(spec, s)
          case Err(reason) => Err(reason)
          case Ok(given) => send(log, request.(limits := Some(given)))
        else send(log, request)
  }

  function MessageEvents(spec: RunSpec, w: World, m: Effect, log: Log): Log
    requires m.SendMessage?
  {
    match Sent(spec, w, m, log)
    case Err(reason) => [MessageRefused(m.to, reason)]
    case Ok(sent) =>
      (match sent.task
       case Some(task) => [ChildStarted(task.runId, m.to, task.limits)]
       case None => []) + [MessageSent(sent.messageId, m.to, m.expectsReply)]
  }

  function ToolEvents(spec: RunSpec, w: World, call: Effect, log: Log): Log
    requires call.ToolCall?
  {
    var h := Harness(spec, log);
    if !(h.WaitingForTool? && h.name == call.name && h.invocation == call.invocation) then []
    else if FindTool(w.tools, call.name).None? then [RunFailed(Tool, "unknown tool: " + call.name)]
    else match w.call(log, call.name, call.input)
      case Ok(output) => [ToolResult(call.name, call.invocation, h.step, h.attempt, output)]
      case Err(message) => [RunFailed(Tool, message)]
  }

  function ScopeName(scope: MemoryScope): string {
    match scope
    case Step => "Step" case Run => "Run" case Session => "Session" case Agent => "Agent"
    case Workspace => "Workspace" case User => "User" case Organization => "Organization" case Global => "Global"
  }

  function Performed(spec: RunSpec, w: World, effect: Effect, log: Log): Log {
    match effect
    case ToolCall(_, _, _) => ToolEvents(spec, w, effect, log)
    case ModelCall(prompt) =>
      [match w.complete(log, prompt)
       case Ok(text) => ModelResponded(text)
       case Err(message) => RunFailed(Dependency, message)]
    case MemoryRead(scope, key) =>
      if !NamesOwner(spec, scope) then [RunFailed(Policy, "memory " + ScopeName(scope) + ": the run names no owner for it")]
      else [match w.read(log, scope, key)
            case Ok(value) => Event.MemoryRead(scope, key, value)
            case Err(_) => RunFailed(Infrastructure, "memory read: store unavailable")]
    case MemoryWrite(scope, key, value) =>
      if !NamesOwner(spec, scope) then [RunFailed(Policy, "memory " + ScopeName(scope) + ": the run names no owner for it")]
      else [match w.write(log, scope, key, value)
            case Ok(_) => MemoryWritten(scope, key, value)
            case Err(_) => RunFailed(Infrastructure, "memory write: store unavailable")]
    case Delegate(agentId, task) => DelegateEvents(spec, w, agentId, task, log)
    case SendMessage(_, _, _, _, _) => MessageEvents(spec, w, effect, log)
    case AskUser(prompt) =>
      [if w.userQuestions then UserAsked(w.question(log), prompt)
       else UserAskRefused("the run cannot wait for an answer")]
    case _ => []
  }

  /** A tool or memory failure leaves the rest of the effects undone. */
  predicate Abandons(effect: Effect, events: Log) {
    (effect.ToolCall? || effect.MemoryRead? || effect.MemoryWrite?) && events != [] && events[0].RunFailed?
  }

  function Perform(spec: RunSpec, w: World, effects: seq<Effect>, log: Log): Log {
    if effects == [] then log
    else
      var events := Performed(spec, w, effects[0], log);
      if Abandons(effects[0], events) then log + events else Perform(spec, w, effects[1..], log + events)
  }

  // ---------------------------------------------------------------------------
  // Deciding
  // ---------------------------------------------------------------------------

  /** A step whose answer came moves on when there is another step to take. */
  predicate AwaitsAdvance(spec: RunSpec, h: HarnessState) {
    h.Running? && h.answered && h.step < spec.limits.maxSteps
  }

  function Advance(spec: RunSpec, log: Log): Log {
    if AwaitsAdvance(spec, Harness(spec, log)) then log + [StepAdvanced] else log
  }

  /** Why a decision made in `h` is refused, if it is: by the policy, or because the harness would drop it. */
  function Refusal(spec: RunSpec, w: World, h: HarnessState, effect: Effect): Option<string> {
    match Authorize(spec, effect, w.tools)
    case Allow => if Applicable(h, effect, spec) then None else Some("not applicable while " + Describe(h))
    case Deny(reason) => Some(reason)
    case _ => Some(NOT_IMPLEMENTED)
  }

  /** The verdict on a decision made in `h`: the events that record it. */
  function Verdict(spec: RunSpec, w: World, h: HarnessState, effect: Effect, log: Log): Log {
    match Refusal(spec, w, h, effect)
    case Some(why) => [EffectDenied(effect, why)]
    case None =>
      if effect.Complete? && Harness(spec, log + [EffectAuthorized(effect)]).Completed?
      then [EffectAuthorized(effect), RunCompleted(effect.outcome)]
      else [EffectAuthorized(effect)]
  }

  /** Authorizes the decision that ends `log`, made in `h`, and says what to perform. */
  function AuthorizeDecided(spec: RunSpec, w: World, h: HarnessState, effect: Effect, log: Log): (Log, seq<Effect>) {
    var events := Verdict(spec, w, h, effect, log);
    (log + events, if Last(events).EffectDenied? then [] else EffectsOfLast(spec, log + events))
  }

  datatype Decision = Decision(log: Log, effects: seq<Effect>, error: Option<string>)

  function Decide(spec: RunSpec, w: World, log: Log): Decision {
    var s := StateOf(spec, log);
    if s.harness.IsTerminal() then Decision(log, [], None)
    else match w.decide(log)
      case Err(message) => Decision(log, [], Some(message))
      case Ok(effect) =>
        if OverBudget(spec, s, effect) then Decision(log + [RunFailed(Budget, "limit hit")], [], None)
        else
          var (decided, effects) := AuthorizeDecided(spec, w, s.harness, effect, log + [EffectDecided(effect)]);
          Decision(decided, effects, None)
  }

  // ---------------------------------------------------------------------------
  // Resuming from a log
  // ---------------------------------------------------------------------------

  datatype Resumed = Resumed(
    log: Log,
    pending: seq<Effect>,
    undecided: Option<(HarnessState, Effect)>,
    resumed: bool)

  function Resume(spec: RunSpec, log: Log): Result<Resumed, DispatchPhase> {
    var h := Harness(spec, log);
    if Ended(log) then Ok(Resumed(log, [], None, false))
    else if RunStarted !in log then
      if Dispatch(log).Created? || Dispatch(log).Starting? then Ok(Resumed(log + [RunStarted], [], None, false))
      else Err(Dispatch(log))
    else if h.Completed? then Ok(Resumed(log + [RunCompleted(h.outcome)], [], None, true))
    else if h.IsTerminal() then Ok(Resumed(log, [], None, true))
    else if Last(log).EffectDecided? then
      Ok(Resumed(log, [], Some((Harness(spec, Front(log)), Last(log).effect)), true))
    else Ok(Resumed(log, EffectsOfLast(spec, log), None, true))
  }

  /** What `run_until` does before its loop: it finishes the step the log was cut in. */
  function Preamble(spec: RunSpec, w: World, r: Resumed): Log {
    var (log, pending) := if r.undecided.Some?
                          then AuthorizeDecided(spec, w, r.undecided.value.0, r.undecided.value.1, r.log)
                          else (r.log, r.pending);
    if r.resumed then Advance(spec, Perform(spec, w, pending, log)) else log
  }

  // ---------------------------------------------------------------------------
  // The loop of `run_until`
  // ---------------------------------------------------------------------------

  datatype Turn = Stop(log: Log, error: Option<string>, asked: bool) | Go(log: Log)

  /** One turn of the loop: it ends the loop, or leaves the log at the next step boundary. */
  function OneTurn(spec: RunSpec, w: World, log: Log): Turn {
    if Harness(spec, log).IsTerminal() || Ended(log) then Stop(log, None, false)
    else if w.boundary(log).Cancel? then Stop(log + [RunCancelled], None, false)
    else if w.boundary(log).Pause? then Stop(log, None, false)
    else if Harness(spec, log).WaitingForMessage? then Stop(log, None, false)
    else
      var d := Decide(spec, w, log);
      if d.error.Some? then Stop(d.log, d.error, true)
      else if d.effects != [] then Go(Advance(spec, Perform(spec, w, d.effects, d.log)))
      else if Harness(spec, d.log).IsTerminal() then Stop(d.log, None, true)
      else Go(d.log)
  }

  /** The decisions a run still has budget for. */
  function StepsLeft(spec: RunSpec, log: Log): nat {
    SaturatingSub(spec.limits.maxSteps, Steps(spec, log) + GivenSteps(log))
  }

  /** Bounds the turns the loop can still take. */
  function Fuel(spec: RunSpec, log: Log): nat {
    if Harness(spec, log).IsTerminal() || Ended(log) then 0 else 1 + StepsLeft(spec, log)
  }
}
