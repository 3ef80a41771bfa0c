/**
  The values a run is made of: its spec, the effects a decider may choose, the
  events its log holds, and the two phases a log folds to.

  An event is its payload. The envelope (event id, time, actor) takes part in no
  decision of the reducer, the driver or the workers.
  */
module Protocol {

  datatype Option<+T> = None | Some(value: T)

  datatype Result<+T, +E> = Ok(value: T) | Err(error: E)

  /** Machine integers whose width matters: budgets are 32 bits wide and saturate. */
  type u32 = x: int | 0 <= x <= 0xFFFF_FFFF

  const U32_MAX: u32 := 0xFFFF_FFFF

  function SaturatingAdd(a: nat, b: nat): u32 {
    if a + b <= U32_MAX then a + b else U32_MAX
  }

  function SaturatingSub(a: nat, b: nat): nat {
    if a >= b then a - b else 0
  }

  datatype RunId = RunId(uuid: nat)
  datatype AgentId = AgentId(uuid: nat)
  datatype MessageId = MessageId(uuid: nat)
  datatype InvocationId = InvocationId(uuid: nat)
  datatype ApprovalId = ApprovalId(uuid: nat)
  datatype ArtifactId = ArtifactId(uuid: nat)
  datatype TriggerId = TriggerId(uuid: nat)

  const MAX_RETRIES: u32 := 2
  const MAX_DELEGATION_HOPS: u32 := 8
  const MAX_CHILDREN: u32 := 10
  const MAX_MESSAGE_BYTES: nat := 32 * 1024
  const MAX_ASK_TIMEOUT_SECS: u32 := 24 * 60 * 60

  const SESSION_ID: string := "session_id"
  const WORKSPACE_ID: string := "workspace_id"

  datatype MemoryScope = Step | Run | Session | Agent | Workspace | User | Organization | Global

  datatype FailureClass =
    | AgentFailure | Model | Tool | Policy | Environment | Infrastructure | Timeout | Budget
    | Dependency | UserCancellation

  datatype Limits = Limits(maxSteps: u32, maxModelCalls: u32)

  datatype Lineage = Lineage(parent: Option<RunId>, root: Option<RunId>, hop: u32)

  datatype Owner = Owner(issuer: string, subject: string, tenant: string)

  /** What a run is asked to do. The work model, the agent version and the placement are left out. */
  datatype RunSpec = RunSpec(
    runId: RunId,
    owner: Owner,
    agentId: AgentId,
    input: string,
    capabilities: set<string>,
    limits: Limits,
    metadata: map<string, string>,
    lineage: Lineage)

  datatype Effect =
    | ModelCall(prompt: string)
    | ToolCall(name: string, input: string, invocation: InvocationId)
    | MemoryRead(scope: MemoryScope, key: string)
    | MemoryWrite(scope: MemoryScope, key: string, value: string)
    | Execute(command: string)
    | Delegate(agentId: AgentId, task: string)
    | SendMessage(to: AgentId, body: string, expectsReply: bool, replyTo: Option<MessageId>, timeoutSecs: Option<u32>)
    | AskUser(prompt: string)
    | RequestApproval(approvalId: ApprovalId, reason: string)
    | Wait(reason: string)
    | PublishArtifact(artifactId: ArtifactId, name: string, body: string)
    | Complete(outcome: string)

  datatype Event =
    | RunCreated | RunQueued | RunScheduled | RunProvisioning | RunStarting | RunStarted
    | RunWaiting(reason: string)
    | RunAwaitingApproval(approvalId: ApprovalId)
    | RunPaused | RunRecovering | RunResumed
    | RunCompleted(outcome: string)
    | RunFailed(kind: FailureClass, message: string)
    | RunCancelled
    | RunExpired
    | UserMessage(text: string)
    | StepRetried | StepAdvanced
    | EffectDecided(effect: Effect)
    | EffectAuthorized(effect: Effect)
    | EffectDenied(effect: Effect, reason: string)
    | ToolResult(name: string, invocation: InvocationId, step: u32, attempt: u32, output: string)
    | ModelResponded(text: string)
    | MemoryRead(scope: MemoryScope, key: string, value: Option<string>)
    | MemoryWritten(scope: MemoryScope, key: string, written: string)
    | ChildStarted(runId: RunId, agentId: AgentId, limits: Limits)
    | DelegateRefused(agentId: AgentId, reason: string)
    | MessageSent(messageId: MessageId, to: AgentId, expectsReply: bool)
    | MessageRefused(to: AgentId, reason: string)
    | MessageReceived(messageId: MessageId, fromAgent: AgentId, fromRun: RunId, body: string, replyTo: Option<MessageId>)
    | AskTimedOut(messageId: MessageId)
    | UserAsked(messageId: MessageId, prompt: string)
    | UserAskRefused(reason: string)
    | UserAnswered(messageId: MessageId, text: string)

  type Log = seq<Event>

  datatype HarnessState =
    | Idle
    | Running(step: u32, attempt: u32, answered: bool)
    | WaitingForTool(step: u32, attempt: u32, name: string, invocation: InvocationId)
    | WaitingForMessage(step: u32, attempt: u32, messageId: MessageId)
    | Completed(outcome: string)
    | Failed(kind: FailureClass, message: string)
    | Cancelled
  {
    predicate IsTerminal() {
      Completed? || Failed? || Cancelled?
    }
  }

  datatype DispatchPhase =
    | Created | Queued | Scheduled | Provisioning | Starting | Running
    | Waiting(reason: string)
    | AwaitingApproval(approvalId: ApprovalId)
    | Paused | Recovering
    | Completed(outcome: string)
    | Failed(kind: FailureClass, message: string)
    | Cancelled
    | Expired
  {
    predicate IsTerminal() {
      Completed? || Failed? || Cancelled? || Expired?
    }
  }

  /** Whether an event ends its run's log. The driver and the store share this rule. */
  predicate IsRunEnd(e: Event) {
    e.RunCompleted? || e.RunFailed? || e.RunCancelled? || e.RunExpired?
  }

  predicate Ended(log: Log) {
    exists i :: 0 <= i < |log| && IsRunEnd(log[i])
  }

  /** Looks through a log for a terminal event. */
  method HasEnded(log: Log) returns (ended: bool)
    ensures ended == Ended(log)
  {
    for i := 0 to |log|
      invariant forall j :: 0 <= j < i ==> !IsRunEnd(log[j])
    {
      if IsRunEnd(log[i]) {
        return true;
      }
    }
    return false;
  }

  /** Whether no worker ever scheduled a run and nothing ended it: only its queued events. */
  predicate StillWaiting(log: Log) {
    forall e <- log :: e.RunCreated? || e.RunQueued? || e.UserMessage?
  }

  /** Nothing follows a terminal event. */
  predicate EndsOnce(log: Log) {
    forall i :: 0 <= i < |log| - 1 ==> !IsRunEnd(log[i])
  }

  function Last(log: Log): Event
    requires log != []
  {
    log[|log| - 1]
  }

  function Front(log: Log): Log
    requires log != []
  {
    log[..|log| - 1]
  }

  lemma EndedSnoc(log: Log, e: Event)
    ensures Ended(log + [e]) <==> Ended(log) || IsRunEnd(e)
  {
    var grown := log + [e];
    if Ended(log) {
      var i :| 0 <= i < |log| && IsRunEnd(log[i]);
      assert IsRunEnd(grown[i]);
    }
    if IsRunEnd(e) {
      assert IsRunEnd(grown[|log|]);
    }
    if Ended(grown) {
      var i :| 0 <= i < |grown| && IsRunEnd(grown[i]);
      if i < |log| { assert IsRunEnd(log[i]); }
    }
  }

  lemma EndedPrefix(log: Log, more: Log)
    requires log <= more && Ended(log)
    ensures Ended(more)
  {
  }
}
