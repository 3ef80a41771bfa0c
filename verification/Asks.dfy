/**
  Asks: the index a deliverer reads off a log (`AskStateOf`) against the harness the log folds to.
  */
module Asks {
  import opened Protocol
  import opened Reducer
  import opened Folding
  import opened Driving
  import opened Looping
  import opened CrashResume

  datatype AskState = Unsent | Open | Answered

  /** The ask or message an event sends. */
  function SentBy(e: Event): Option<MessageId> {
    match e
    case MessageSent(id, _, _) => Some(id)
    case UserAsked(id, _) => Some(id)
    case _ => None
  }

  /** The ask an event answers: a reply, a timeout or the user's answer. */
  function AnsweredBy(e: Event): Option<MessageId> {
    match e
    case MessageReceived(_, _, _, _, replyTo) => replyTo
    case AskTimedOut(id) => Some(id)
    case UserAnswered(id, _) => Some(id)
    case _ => None
  }

  function AskStateOf(log: Log, ask: MessageId): AskState {
    if log == [] then Unsent
    else
      var before := AskStateOf(Front(log), ask);
      if SentBy(Last(log)) == Some(ask) then Open
      else if AnsweredBy(Last(log)) == Some(ask) && before.Open? then Answered
      else before
  }

  /** Events that make an open step wait: a question, or a message that expects a reply. */
  predicate OpensAsk(e: Event) {
    e.UserAsked? || (e.MessageSent? && e.expectsReply)
  }

  predicate Tells(e: Event, ask: MessageId) {
    e.MessageSent? && !e.expectsReply && e.messageId == ask
  }

  /** Asks are recorded only in an open running step. */
  predicate AsksInOpenSteps(spec: RunSpec, log: Log) {
    log == [] ||
    (&& AsksInOpenSteps(spec, Front(log))
     && (OpensAsk(Last(log)) ==> Harness(spec, Front(log)).Running? && !Harness(spec, Front(log)).answered))
  }

  function SentIds(log: Log): set<MessageId> {
    if log == [] then {}
    else SentIds(Front(log)) + (match SentBy(Last(log)) case Some(id) => {id} case None => {})
  }

  /** Each message id is sent once. */
  predicate FreshIds(log: Log) {
    log == [] ||
    (FreshIds(Front(log)) && (SentBy(Last(log)).Some? ==> SentBy(Last(log)).value !in SentIds(Front(log))))
  }

  predicate WaitsOn(h: HarnessState, ask: MessageId) {
    h.WaitingForMessage? && h.messageId == ask
  }

  /** A harness waiting for a message leaves that wait only on its answer, or when the run ends. */
  lemma WaitMoves(spec: RunSpec, h: HarnessState, e: Event)
    requires !IsRunEnd(e)
    ensures var h' := Reduce(h, e, spec).0;
            && (h.WaitingForMessage? ==>
                  if AnsweredBy(e) == Some(h.messageId) then h'.Running? else h' == h)
            && (!h.WaitingForMessage? && h'.WaitingForMessage? ==>
                  OpensAsk(e) && SentBy(e) == Some(h'.messageId))
            && (h.Running? && !h.answered && OpensAsk(e) ==> h'.WaitingForMessage? && SentBy(e) == Some(h'.messageId))
  {
  }

  lemma {:induction false} UnsentIffNotSent(log: Log, ask: MessageId)
    ensures AskStateOf(log, ask).Unsent? <==> ask !in SentIds(log)
  {
    if log != [] {
      UnsentIffNotSent(Front(log), ask);
    }
  }

  /** A message that expects no reply was sent under this id, and nothing answered it since. */
  predicate UnansweredTell(log: Log, ask: MessageId) {
    log != [] &&
    (if SentBy(Last(log)) == Some(ask) then Tells(Last(log), ask)
     else AnsweredBy(Last(log)) != Some(ask) && UnansweredTell(Front(log), ask))
  }

  /**
    The index against the machine: in an open log that sends each id once and records asks in open
    steps, an id reads open exactly when the harness waits on it or it is a tell nothing answered, and
    never both.
    */
  lemma {:induction false} AskIndexAgrees(spec: RunSpec, log: Log, ask: MessageId)
    requires !Ended(log) && AsksInOpenSteps(spec, log) && FreshIds(log)
    ensures AskStateOf(log, ask).Open? <==> WaitsOn(Harness(spec, log), ask) || UnansweredTell(log, ask)
    ensures !(WaitsOn(Harness(spec, log), ask) && UnansweredTell(log, ask))
  {
    hide Reduce;
    if log != [] {
      var e := Last(log);
      assert log == Front(log) + [e];
      EndedSnoc(Front(log), e);
      AskIndexAgrees(spec, Front(log), ask);
      UnsentIffNotSent(Front(log), ask);
      WaitMoves(spec, Harness(spec, Front(log)), e);
    }
  }

  /** So the index misleads about tells: one reads open as soon as it is sent, and no harness waits on it. */
  lemma TellReadsOpen(spec: RunSpec, log: Log, tell: Event)
    requires tell.MessageSent? && !tell.expectsReply && tell.messageId !in SentIds(log)
    requires !Ended(log) && AsksInOpenSteps(spec, log) && FreshIds(log) && Harness(spec, log).Running?
    ensures AskStateOf(log + [tell], tell.messageId).Open?
    ensures !WaitsOn(Harness(spec, log + [tell]), tell.messageId)
  {
  }

  /** An answer to an ask that is not open (a duplicate, or a late one) changes nothing the log folds to. */
  lemma LateAnswerChangesNothing(spec: RunSpec, log: Log, ask: MessageId, answer: Event)
    requires !Ended(log) && AsksInOpenSteps(spec, log) && FreshIds(log)
    requires AnsweredBy(answer) == Some(ask) && !AskStateOf(log, ask).Open?
    ensures StateOf(spec, log + [answer]) == StateOf(spec, log)
    ensures AskStateOf(log + [answer], ask) == AskStateOf(log, ask)
  {
    hide Reduce;
    AskIndexAgrees(spec, log, ask);
    FoldSnoc(spec, log, answer);
    AnswerMoves(Harness(spec, log), answer, spec, ask);
  }

  lemma AnswerMoves(h: HarnessState, answer: Event, spec: RunSpec, ask: MessageId)
    requires AnsweredBy(answer) == Some(ask)
    ensures Reduce(h, answer, spec).0
         == (if WaitsOn(h, ask) then HarnessState.Running(h.step, h.attempt, true) else h)
  {
  }

  /** The answer to an open ask closes it, and answers its step; the answer to a tell answers none. */
  lemma AnswerAnswersOnce(spec: RunSpec, log: Log, ask: MessageId, answer: Event)
    requires !Ended(log) && AsksInOpenSteps(spec, log) && FreshIds(log)
    requires AnsweredBy(answer) == Some(ask) && AskStateOf(log, ask).Open?
    ensures var h, h' := Harness(spec, log), Harness(spec, log + [answer]);
            if UnansweredTell(log, ask) then h' == h
            else WaitsOn(h, ask) && h' == HarnessState.Running(h.step, h.attempt, true)
    ensures AskStateOf(log + [answer], ask).Answered?
  {
    hide Reduce;
    AskIndexAgrees(spec, log, ask);
    FoldSnoc(spec, log, answer);
    AnswerMoves(Harness(spec, log), answer, spec, ask);
  }

  // ---------------------------------------------------------------------------
  // Drivers record asks in open steps
  // ---------------------------------------------------------------------------

  lemma OpenSnoc(spec: RunSpec, log: Log, e: Event)
    requires AsksInOpenSteps(spec, log)
    requires OpensAsk(e) ==> Harness(spec, log).Running? && !Harness(spec, log).answered
    ensures AsksInOpenSteps(spec, log + [e])
  {
  }

  lemma AskingEffects(spec: RunSpec, w: World, effect: Effect, log: Log)
    ensures forall e <- Performed(spec, w, effect, log) ::
              OpensAsk(e) ==> effect.AskUser? || (effect.SendMessage? && effect.expectsReply)
  {
  }

  lemma PerformedInOpenStep(spec: RunSpec, w: World, log: Log)
    requires AsksInOpenSteps(spec, log) && log != [] && EffectsOfLast(spec, log) != []
    ensures AsksInOpenSteps(spec, log + Performed(spec, w, Last(log).effect, log))
  {
    hide Performed;
    hide Reduce;
    hide EffectsOfLast;
    hide Harness;
    HandedFrom(spec, log);
    var effect := Last(log).effect;
    PerformedAreOutcomes(spec, w, effect, log);
    AskingEffects(spec, w, effect, log);
    var events := Performed(spec, w, effect, log);
    if |events| == 0 {
      assert log + events == log;
    } else {
      assert events[0] in events;
      OpenSnoc(spec, log, events[0]);
      if |events| == 1 {
        assert log + events == log + [events[0]];
      } else {
        FoldSnoc(spec, log, events[0]);
        ChildMovesNothing(spec, Harness(spec, log), events[0]);
        assert events[1] in events;
        OpenSnoc(spec, log + [events[0]], events[1]);
        assert log + events == log + [events[0]] + [events[1]];
      }
    }
  }

  lemma ChildMovesNothing(spec: RunSpec, h: HarnessState, e: Event)
    requires e.ChildStarted?
    ensures Reduce(h, e, spec).0 == h
  {
  }

  lemma SettledInOpenStep(spec: RunSpec, w: World, h: HarnessState, effect: Effect, log: Log)
    requires AsksInOpenSteps(spec, log)
    ensures var (decided, effects) := AuthorizeDecided(spec, w, h, effect, log);
            AsksInOpenSteps(spec, decided) && AsksInOpenSteps(spec, Advance(spec, Perform(spec, w, effects, decided)))
  {
    hide AsksInOpenSteps;
    hide Refusal;
    hide Reduce;
    hide Performed;
    hide Harness;
    hide EffectsOfLast;
    var (decided, effects) := AuthorizeDecided(spec, w, h, effect, log);
    var verdict := Verdict(spec, w, h, effect, log);
    OpenSnoc(spec, log, verdict[0]);
    if |verdict| == 1 {
      assert decided == log + [verdict[0]];
    } else {
      OpenSnoc(spec, log + [verdict[0]], verdict[1]);
      assert decided == log + [verdict[0]] + [verdict[1]];
    }
    PendingInOpenStep(spec, w, effects, decided);
  }

  lemma PendingInOpenStep(spec: RunSpec, w: World, effects: seq<Effect>, log: Log)
    requires AsksInOpenSteps(spec, log)
    requires effects == [] || (log != [] && effects == EffectsOfLast(spec, log))
    ensures AsksInOpenSteps(spec, Advance(spec, Perform(spec, w, effects, log)))
  {
    hide Reduce;
    hide Performed;
    hide Harness;
    hide EffectsOfLast;
    var performed := Perform(spec, w, effects, log);
    if effects != [] {
      HandedFrom(spec, log);
      PerformedInOpenStep(spec, w, log);
      PerformOne(spec, w, Last(log).effect, log);
    }
    OpenSnoc(spec, performed, StepAdvanced);
  }

  /** A turn of the loop, and a resume wherever the log was cut, keep asks in open steps. */
  lemma TurnInOpenSteps(spec: RunSpec, w: World, log: Log)
    requires AsksInOpenSteps(spec, log)
    ensures AsksInOpenSteps(spec, OneTurn(spec, w, log).log)
  {
    hide AsksInOpenSteps;
    hide Refusal;
    hide Reduce;
    hide Harness;
    hide Perform;
    hide AuthorizeDecided;
    hide Advance;
    hide OverBudget;
    OpenSnoc(spec, log, RunCancelled);
    OpenSnoc(spec, log, RunFailed(Budget, "limit hit"));
    if w.decide(log).Ok? {
      var effect := w.decide(log).value;
      OpenSnoc(spec, log, EffectDecided(effect));
      SettledInOpenStep(spec, w, Harness(spec, log), effect, log + [EffectDecided(effect)]);
    }
  }

  lemma RecoverInOpenSteps(spec: RunSpec, w: World, log: Log)
    requires AsksInOpenSteps(spec, log)
    ensures AsksInOpenSteps(spec, Recover(spec, w, log))
  {
    hide AsksInOpenSteps;
    hide Refusal;
    hide Reduce;
    hide Harness;
    hide Perform;
    hide AuthorizeDecided;
    hide EffectsOfLast;
    hide Advance;
    OpenSnoc(spec, log, RunStarted);
    if Harness(spec, log).Completed? {
      OpenSnoc(spec, log, RunCompleted(Harness(spec, log).outcome));
    }
    if Resume(spec, log).Ok? {
      var r := Resume(spec, log).value;
      if r.undecided.Some? {
        SettledInOpenStep(spec, w, r.undecided.value.0, r.undecided.value.1, log);
      } else {
        PendingInOpenStep(spec, w, r.pending, r.log);
      }
    }
  }
}
