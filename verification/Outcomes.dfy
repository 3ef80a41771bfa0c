/**
  What a driver records, against what the world told it: every event that performing an effect appends
  says what the tool, the model, memory, the spawner or the deliverer answered to the effect's own
  request, and every decision is taken or refused by what is left of the budget.
  */
module Outcomes {
  import opened Protocol
  import opened Reducer
  import opened Folding
  import opened Authorizer
  import opened Driving
  import opened Looping

  /** The step a run is in, as its child's request names it. */
  function StepOf(spec: RunSpec, log: Log): u32 {
    var h := Harness(spec, log);
    if h.Running? then h.step else 0
  }

  /** The spawner was asked for this child with what was carved, and answered with it. */
  predicate Spawned(spec: RunSpec, w: World, agentId: AgentId, task: string, log: Log, child: StartedChild) {
    var carved := Carve(spec, StateOf(spec, log));
    && w.spawner.Some? && carved.Ok?
    && w.spawner.value(log, ChildRequest(StepOf(spec, log), agentId, task, carved.value)) == Ok(child)
  }

  /** The deliverer was handed this message, with what was carved for the task it starts, and took it. */
  predicate HandedOver(spec: RunSpec, w: World, m: Effect, log: Log, sent: SentMessage)
    requires m.SendMessage?
  {
    var carved := Carve(spec, StateOf(spec, log));
    && w.deliverer.Some? && Harness(spec, log).Running? && (StartsTask(m) ==> carved.Ok?)
    && w.deliverer.value(log, MessageRequest(Steps(spec, log), m.to, m.body, m.expectsReply, m.replyTo, m.timeoutSecs,
                                             if StartsTask(m) then Some(carved.value) else None)) == Ok(sent)
  }

  /** A tool's result is what the tool answered, for the very call the harness waits on. */
  lemma ToolResultMeans(spec: RunSpec, w: World, effect: Effect, log: Log, e: Event)
    requires effect.ToolCall? && e in Performed(spec, w, effect, log)
    ensures Harness(spec, log).WaitingForTool?
    ensures if FindTool(w.tools, effect.name).Some? && w.call(log, effect.name, effect.input).Ok?
            then && Harness(spec, log) == WaitingForTool(Harness(spec, log).step, Harness(spec, log).attempt, effect.name, effect.invocation)
                 && e == ToolResult(effect.name, effect.invocation, Harness(spec, log).step, Harness(spec, log).attempt,
                                    w.call(log, effect.name, effect.input).value)
            else e.RunFailed? && e.kind == Tool
    ensures e.RunFailed? && FindTool(w.tools, effect.name).Some? ==> w.call(log, effect.name, effect.input) == Err(e.message)
  {
  }

  /** A call the harness waits on has a result, and no other call has one. */
  lemma ToolResultIff(spec: RunSpec, w: World, effect: Effect, log: Log)
    requires effect.ToolCall?
    ensures var h := Harness(spec, log);
            |Performed(spec, w, effect, log)| ==
              if h.WaitingForTool? && (h.name, h.invocation) == (effect.name, effect.invocation) then 1 else 0
  {
  }

  /** A model's response is what the model said to the effect's own prompt; its failure fails the run. */
  lemma ModelMeans(spec: RunSpec, w: World, effect: Effect, log: Log)
    requires effect.ModelCall?
    ensures var events := Performed(spec, w, effect, log);
            && |events| == 1
            && (forall text :: w.complete(log, effect.prompt) == Ok(text) ==> events[0] == ModelResponded(text))
            && (forall why :: w.complete(log, effect.prompt) == Err(why) ==> events[0] == RunFailed(Dependency, why))
  {
  }

  /** Memory is read and written in the effect's own scope and key, for an owner the run names; else the run fails. */
  lemma MemoryMeans(spec: RunSpec, w: World, effect: Effect, log: Log)
    requires effect.MemoryRead? || effect.MemoryWrite?
    ensures var events := Performed(spec, w, effect, log);
            && |events| == 1
            && (events[0].MemoryRead? <==>
                  effect.MemoryRead? && NamesOwner(spec, effect.scope) && w.read(log, effect.scope, effect.key).Ok?)
            && (events[0].MemoryRead? ==>
                  events[0] == Event.MemoryRead(effect.scope, effect.key, w.read(log, effect.scope, effect.key).value))
            && (events[0].MemoryWritten? <==>
                  effect.MemoryWrite? && NamesOwner(spec, effect.scope) && w.write(log, effect.scope, effect.key, effect.value).Ok?)
            && (events[0].MemoryWritten? ==> events[0] == MemoryWritten(effect.scope, effect.key, effect.value))
            && (!events[0].MemoryRead? && !events[0].MemoryWritten? ==>
                  events[0].RunFailed? && (events[0].kind.Policy? <==> !NamesOwner(spec, effect.scope))
                                       && (events[0].kind.Infrastructure? <==> NamesOwner(spec, effect.scope)))
  {
  }

  /** A delegation records the child the spawner answered with, or that it was refused. */
  lemma DelegateMeans(spec: RunSpec, w: World, effect: Effect, log: Log)
    requires effect.Delegate?
    ensures var events := Performed(spec, w, effect, log);
            && |events| == 1
            && (forall child :: Spawned(spec, w, effect.agentId, effect.task, log, child) ==>
                  events[0] == ChildStarted(child.runId, effect.agentId, child.limits))
            && (events[0].ChildStarted? ==>
                  Spawned(spec, w, effect.agentId, effect.task, log, StartedChild(events[0].runId, events[0].limits)))
            && (!events[0].ChildStarted? ==> events[0].DelegateRefused? && events[0].agentId == effect.agentId)
  {
    hide Reduce;
  }

  /** A message records the task the deliverer started for it, then itself, or that it was refused. */
  lemma MessageMeans(spec: RunSpec, w: World, effect: Effect, log: Log)
    requires effect.SendMessage?
    ensures var events := Performed(spec, w, effect, log);
            && (forall sent :: HandedOver(spec, w, effect, log, sent) ==>
                  events == (if sent.task.Some?
                             then [ChildStarted(sent.task.value.runId, effect.to, sent.task.value.limits)] else [])
                            + [MessageSent(sent.messageId, effect.to, effect.expectsReply)])
            && ((forall sent :: !HandedOver(spec, w, effect, log, sent)) ==>
                  |events| == 1 && events[0].MessageRefused? && events[0].to == effect.to)
  {
    hide Reduce;
    hide Carve;
    var answer := Sent(spec, w, effect, log);
    if answer.Ok? {
      assert HandedOver(spec, w, effect, log, answer.value);
    }
  }

  /** A question is put under the id it was given, with the effect's own prompt, where it can wait for an answer. */
  lemma QuestionMeans(spec: RunSpec, w: World, effect: Effect, log: Log)
    requires effect.AskUser?
    ensures var events := Performed(spec, w, effect, log);
            if w.userQuestions then events == [UserAsked(w.question(log), effect.prompt)]
            else |events| == 1 && events[0].UserAskRefused?
  {
  }

  // ---------------------------------------------------------------------------
  // Decisions
  // ---------------------------------------------------------------------------

  /** A decision has budget when a step is left, and for a model call a model call too; completing a running run takes none. */
  predicate HasBudget(spec: RunSpec, log: Log, effect: Effect) {
    || (effect.Complete? && Harness(spec, log).Running?)
    || (&& Steps(spec, log) + GivenSteps(log) < spec.limits.maxSteps
        && (effect.ModelCall? ==> ModelCalls(log) + GivenModelCalls(log) < spec.limits.maxModelCalls))
  }

  /** A decision is recorded exactly when it has budget, and what the decider chose is what is recorded. */
  lemma DecidesWithinBudget(spec: RunSpec, w: World, log: Log)
    requires !Harness(spec, log).IsTerminal() && w.decide(log).Ok?
    ensures var effect, d := w.decide(log).value, Decide(spec, w, log);
            && d.error.None?
            && (if HasBudget(spec, log, effect) then Decided(log, effect) <= d.log && |d.log| > |log| + 1
                else d.log == log + [RunFailed(Budget, "limit hit")] && d.effects == [])
  {
    hide Harness;
    hide Refusal;
    hide EffectsOfLast;
  }

  /** A decider's failure is reported, and records nothing. */
  lemma DeciderFails(spec: RunSpec, w: World, log: Log)
    requires !Harness(spec, log).IsTerminal() && w.decide(log).Err?
    ensures Decide(spec, w, log) == Decision(log, [], Some(w.decide(log).error))
  {
  }

  /** A decision is authorized exactly when the policy allows it and the harness acts on it; else it is denied, and says why. */
  lemma VerdictMeans(spec: RunSpec, w: World, h: HarnessState, effect: Effect, log: Log)
    ensures var events := Verdict(spec, w, h, effect, log);
            && (events[0] == EffectAuthorized(effect) <==> Authorize(spec, effect, w.tools).Allow? && Applicable(h, effect, spec))
            && (events[0] != EffectAuthorized(effect) ==> |events| == 1 && events[0].EffectDenied? && events[0].effect == effect)
            && (Authorize(spec, effect, w.tools).Deny? ==> events[0] == EffectDenied(effect, Authorize(spec, effect, w.tools).reason))
            && (Authorize(spec, effect, w.tools).Allow? && !Applicable(h, effect, spec) ==>
                  events[0] == EffectDenied(effect, "not applicable while " + Describe(h)))
  {
    hide Harness;
    hide Applicable;
    hide Authorize;
  }
}
