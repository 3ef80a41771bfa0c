/**
  The policy: which decided effects a run's capabilities and bounds allow.
  */
module Authorizer {
  import opened Protocol

  datatype PolicyDecision = Allow | Deny(reason: string) | RequireApproval | Modify | Limit | Redirect

  datatype ToolDescriptor = ToolDescriptor(name: string, requiredCapability: string)

  const NOT_IMPLEMENTED: string := "effect is not implemented in this slice"

  function AllowCapability(spec: RunSpec, name: string): PolicyDecision {
    if name in spec.capabilities then Allow else Deny("missing capability: " + name)
  }

  /** Whether the spec names an owner for memory of `scope`. */
  predicate NamesOwner(spec: RunSpec, scope: MemoryScope) {
    match scope
    case Global => false
    case Session => SESSION_ID in spec.metadata && spec.metadata[SESSION_ID] != ""
    case Workspace => WORKSPACE_ID in spec.metadata && spec.metadata[WORKSPACE_ID] != ""
    case _ => true
  }

  function AllowMemory(spec: RunSpec, capability: string, scope: MemoryScope): PolicyDecision {
    var decision := AllowCapability(spec, capability);
    if decision != Allow then decision
    else if scope.Global? then Deny("global memory is shared by every tenant and is not offered")
    else if NamesOwner(spec, scope) then decision
    else Deny("no " + (if scope.Workspace? then WORKSPACE_ID else SESSION_ID) + " in the run's metadata")
  }

  /** Unicode white space, as a trim removes it. */
  predicate IsSpace(c: char) {
    || '\t' <= c <= '\r' || c == ' ' || c == '\U{85}' || c == '\U{A0}' || c == '\U{1680}'
    || '\U{2000}' <= c <= '\U{200A}' || c == '\U{2028}' || c == '\U{2029}' || c == '\U{202F}'
    || c == '\U{205F}' || c == '\U{3000}'
  }

  predicate IsBlank(text: string) {
    forall c <- text :: IsSpace(c)
  }

  function Utf8Width(c: char): nat {
    if c < '\U{80}' then 1 else if c < '\U{800}' then 2 else if c < '\U{10000}' then 3 else 4
  }

  /** A text's length in bytes. */
  function ByteLength(text: string): nat {
    if text == "" then 0 else ByteLength(text[..|text| - 1]) + Utf8Width(text[|text| - 1])
  }

  /** A tell or a new ask starts a task one hop further; a reply that asks nothing starts none. */
  predicate StartsTask(effect: Effect)
    requires effect.SendMessage?
  {
    effect.replyTo.None? || effect.expectsReply
  }

  function CheckMessage(spec: RunSpec, effect: Effect): PolicyDecision
    requires effect.SendMessage?
  {
    if StartsTask(effect) && spec.lineage.hop >= MAX_DELEGATION_HOPS then Deny("messaging is already 8 hops deep")
    else if ByteLength(effect.body) > MAX_MESSAGE_BYTES then Deny("a message body is at most 32768 bytes")
    else match effect.timeoutSecs
      case None => Allow
      case Some(seconds) =>
        if !effect.expectsReply then Deny("only an ask has a timeout")
        else if !(1 <= seconds <= MAX_ASK_TIMEOUT_SECS) then Deny("an ask waits at most 86400 seconds")
        else Allow
  }

  function FindTool(tools: seq<ToolDescriptor>, name: string): Option<ToolDescriptor> {
    if tools == [] then None
    else if tools[0].name == name then Some(tools[0])
    else FindTool(tools[1..], name)
  }

  function Authorize(spec: RunSpec, effect: Effect, tools: seq<ToolDescriptor>): PolicyDecision {
    match effect
    case Complete(_) => Allow
    case ModelCall(_) => AllowCapability(spec, "model.call")
    case MemoryRead(scope, _) => AllowMemory(spec, "memory.read", scope)
    case MemoryWrite(scope, _, _) => AllowMemory(spec, "memory.write", scope)
    case ToolCall(name, _, _) =>
      (match FindTool(tools, name)
       case Some(tool) => AllowCapability(spec, tool.requiredCapability)
       case None => Deny("unknown tool: " + name))
    case Delegate(_, _) =>
      var decision := AllowCapability(spec, "agent.delegate");
      if decision == Allow && spec.lineage.hop >= MAX_DELEGATION_HOPS
      then Deny("delegation is already 8 hops deep") else decision
    case SendMessage(_, _, _, _, _) =>
      var decision := AllowCapability(spec, "agent.message");
      if decision == Allow then CheckMessage(spec, effect) else decision
    case AskUser(prompt) =>
      var decision := AllowCapability(spec, "user.ask");
      if decision != Allow then decision
      else if IsBlank(prompt) then Deny("a question is empty")
      else if ByteLength(prompt) > MAX_MESSAGE_BYTES then Deny("a question is over 32768 bytes")
      else decision
    case Execute(_) => Deny(NOT_IMPLEMENTED)
    case RequestApproval(_, _) => Deny(NOT_IMPLEMENTED)
    case Wait(_) => Deny(NOT_IMPLEMENTED)
    case PublishArtifact(_, _, _) => Deny(NOT_IMPLEMENTED)
  }

  /** The effects that start another run. */
  predicate StartsRun(effect: Effect) {
    effect.Delegate? || (effect.SendMessage? && StartsTask(effect))
  }

  /** The tool found is the first of its name, and none is found exactly when none has the name. */
  lemma {:induction false} FindsFirst(tools: seq<ToolDescriptor>, name: string)
    ensures match FindTool(tools, name)
            case Some(tool) =>
              exists i :: 0 <= i < |tools| && tools[i] == tool && tool.name == name && forall j :: 0 <= j < i ==> tools[j].name != name
            case None => forall i :: 0 <= i < |tools| ==> tools[i].name != name
  {
    if tools != [] {
      if tools[0].name == name {
        assert FindTool(tools, name) == Some(tools[0]);
      } else {
        var rest := tools[1..];
        FindsFirst(rest, name);
        match FindTool(rest, name) {
          case Some(tool) =>
            var i :| 0 <= i < |rest| && rest[i] == tool && tool.name == name && forall j :: 0 <= j < i ==> rest[j].name != name;
            assert tools[i + 1] == tool;
            assert forall j :: 0 <= j < i + 1 ==> tools[j].name != name by {
              assert forall j :: 0 < j < i + 1 ==> tools[j] == rest[j - 1];
            }
          case None =>
            assert forall i :: 0 < i < |tools| ==> tools[i] == rest[i - 1];
        }
      }
    }
  }

  /** Session and workspace memory are their id's in the run's metadata, global memory is nobody's, and the rest is the run's own. */
  lemma OwnerOf(spec: RunSpec, scope: MemoryScope)
    ensures NamesOwner(spec, scope) <==>
              && !scope.Global?
              && (scope.Session? ==> SESSION_ID in spec.metadata && |spec.metadata[SESSION_ID]| > 0)
              && (scope.Workspace? ==> WORKSPACE_ID in spec.metadata && |spec.metadata[WORKSPACE_ID]| > 0)
  {
  }

  /** A text takes one to four bytes a character, and exactly one when it is ASCII. */
  lemma {:induction false} BytesBounded(text: string)
    ensures |text| <= ByteLength(text) <= 4 * |text|
    ensures (forall i :: 0 <= i < |text| ==> text[i] < '\U{80}') <==> ByteLength(text) == |text|
  {
    if text != "" {
      var front := text[..|text| - 1];
      BytesBounded(front);
      assert forall i :: 0 <= i < |front| ==> text[i] == front[i];
    }
  }

  /** The capability an effect takes; none for one that no capability buys. */
  function Needs(effect: Effect, tools: seq<ToolDescriptor>): Option<string> {
    match effect
    case ModelCall(_) => Some("model.call")
    case MemoryRead(_, _) => Some("memory.read")
    case MemoryWrite(_, _, _) => Some("memory.write")
    case ToolCall(name, _, _) =>
      (match FindTool(tools, name) case Some(tool) => Some(tool.requiredCapability) case None => None)
    case Delegate(_, _) => Some("agent.delegate")
    case SendMessage(_, _, _, _, _) => Some("agent.message")
    case AskUser(_) => Some("user.ask")
    case _ => None
  }

  /** The bounds an effect keeps besides: depth, size, timeout, and memory that has an owner. */
  predicate InBounds(spec: RunSpec, effect: Effect) {
    && (StartsRun(effect) ==> spec.lineage.hop < MAX_DELEGATION_HOPS)
    && (effect.SendMessage? ==> ByteLength(effect.body) <= MAX_MESSAGE_BYTES)
    && (effect.SendMessage? && effect.timeoutSecs.Some? ==>
          effect.expectsReply && 1 <= effect.timeoutSecs.value <= MAX_ASK_TIMEOUT_SECS)
    && (effect.AskUser? ==> !IsBlank(effect.prompt) && ByteLength(effect.prompt) <= MAX_MESSAGE_BYTES)
    && (effect.MemoryRead? || effect.MemoryWrite? ==> !effect.scope.Global? && NamesOwner(spec, effect.scope))
  }

  /** A completion is always allowed; any other effect exactly when its capability is held and its bounds kept. */
  lemma AllowedExactly(spec: RunSpec, effect: Effect, tools: seq<ToolDescriptor>)
    ensures Authorize(spec, effect, tools).Allow? <==>
              || effect.Complete?
              || (Needs(effect, tools).Some? && Needs(effect, tools).value in spec.capabilities && InBounds(spec, effect))
  {
  }
}
