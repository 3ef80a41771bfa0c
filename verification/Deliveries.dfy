/**
  Answers, replies and stops, as a process makes them step by step while others go on between its
  steps: what it read when it began, what it then appends and onto which log, and whom it wakes.
  */
module Deliveries {
  import opened Protocol
  import opened Reducer
  import opened Folding
  import opened Asks
  import opened Stores
  import opened Cluster
  import opened Serializing
  import opened Deployments
  import opened Wakeups

  // ---------------------------------------------------------------------------
  // A process between its own steps
  // ---------------------------------------------------------------------------

  /** Steps `i` and `j` are one after the other among the steps of process `p`. */
  predicate NextOwn(actions: seq<Action>, p: nat, i: nat, j: nat) {
    && i < j < |actions| && actions[i].p == p && actions[j].p == p
    && forall k :: i < k < j ==> actions[k].p != p
  }

  /** A step moves its own process, and no other. */
  lemma Moves(c: Cluster, a: Action, p: nat)
    requires Enabled(c, a)
    ensures At(Apply(c, a), p) == if p == a.p then Acted(c, a).next else At(c, p)
    ensures Apply(c, a).store == Acted(c, a).store && Apply(c, a).queue == Acted(c, a).queue
  {
    hide Acted;
    hide Enabled;
  }

  /** A process stays where its own last step left it. */
  lemma {:induction false} Waits(cs: seq<Cluster>, actions: seq<Action>, p: nat, i: nat, j: nat)
    requires Deployments.Steps(cs, actions) && i < j <= |actions| && actions[i].p == p
    requires forall k :: i < k < j ==> actions[k].p != p
    ensures StepAt(cs, actions, i) && At(cs[j], p) == Acted(cs[i], actions[i]).next
  {
    hide Acted;
    hide Enabled;
    hide Apply;
    hide At;
    assert StepAt(cs, actions, j - 1);
    Moves(cs[j - 1], actions[j - 1], p);
    if j > i + 1 {
      Waits(cs, actions, p, i, j - 1);
    }
  }

  // ---------------------------------------------------------------------------
  // Answers
  // ---------------------------------------------------------------------------

  /** What a deliverer does next with the log it read. It has appended nothing yet, and woken nobody. */
  lemma DeliverReads(c: Cluster, id: RunId, ask: MessageId, answer: Event, close: bool)
    requires AnsweredBy(answer) == Some(ask)
    ensures var o := Serve(c, Free, Deliver(id, ask, answer, close));
            && o.store == c.store && o.queue == c.queue
            && (o.next == Answering(id, ask, answer) <==> StillWaits(c.store, id, ask))
            && (o.next == Free <==> !close && id in c.store && !Ended(c.store[id].log) && ask !in SentIds(c.store[id].log))
            && (o.next == Waking(id, ask) || o.next == Answering(id, ask, answer) || o.next == Free)
  {
    UnsentIffNotSent(LogOf(c.store, id), ask);
  }

  /** What a step that appends one event leaves of its run. */
  predicate Records(c: Cluster, c': Cluster, id: RunId, e: Event) {
    && id in c.store && id in c'.store && c'.store[id].spec == c.store[id].spec
    && c'.store[id].log == (if Ended(c.store[id].log) then c.store[id].log else c.store[id].log + [e])
  }

  lemma AnswerStep(c: Cluster, id: RunId, ask: MessageId, answer: Event, a: Action)
    requires At(c, a.p) == Answering(id, ask, answer) && Enabled(c, a) && !IsCrash(a)
    ensures var o := Acted(c, a); a == Serves(a.p, Answer) && o.next == Waking(id, ask)
    ensures Acted(c, a).store == AppendTo(c.store, id, None, [answer]).0
  {
    hide AppendTo;
  }

  lemma WakeStep(c: Cluster, id: RunId, ask: MessageId, a: Action)
    requires At(c, a.p) == Waking(id, ask) && Enabled(c, a) && !IsCrash(a)
    ensures var o := Acted(c, a);
            && a == Serves(a.p, Serving.Wake) && o.store == c.store && o.queue == Queue.Wake(c.queue, id, ask).0
            && !(id in o.queue.parked && o.queue.parked[id] == ask)
            && (id in c.queue.parked && c.queue.parked[id] == ask ==> id in o.queue.runs)
  {
  }

  /**
    In every run of a deployment: a deliverer that read an ask open, and does not die, next appends its
    answer to the asker's log as it then is, unless that has ended by then; and then takes the asker off
    the ask and lists it, if it is parked there.
    */
  lemma DeliveryRecords(cs: seq<Cluster>, actions: seq<Action>, i: nat, j: nat, k: nat)
    requires Runs(cs, actions) && i < |actions| && actions[i].Serves? && actions[i].serving.Deliver?
    requires StillWaits(cs[i].store, actions[i].serving.id, actions[i].serving.ask)
    requires NextOwn(actions, actions[i].p, i, j) && !IsCrash(actions[j])
    requires NextOwn(actions, actions[i].p, j, k) && !IsCrash(actions[k])
    ensures var d := actions[i].serving;
            && Records(cs[j], cs[j + 1], d.id, d.answer)
            && (!Ended(cs[j].store[d.id].log) ==> !AskStateOf(cs[j + 1].store[d.id].log, d.ask).Open?)
            && !(d.id in cs[k + 1].queue.parked && cs[k + 1].queue.parked[d.id] == d.ask)
            && (d.id in cs[k].queue.parked && cs[k].queue.parked[d.id] == d.ask ==> d.id in cs[k + 1].queue.runs)
  {
    hide Acted;
    hide Enabled;
    hide Apply;
    hide At;
    hide AskStateOf;
    hide Ended;
    var p, d := actions[i].p, actions[i].serving;
    assert StepAt(cs, actions, i) && StepAt(cs, actions, j) && StepAt(cs, actions, k);
    DeliverActs(cs[i], actions[i]);
    Waits(cs, actions, p, i, j);
    AnswerStep(cs[j], d.id, d.ask, d.answer, actions[j]);
    Moves(cs[j], actions[j], p);
    LogsOnlyGrow(cs, actions, i, j);
    AnswerOpensNone(cs[j].store[d.id].log, d.answer, d.ask);
    Waits(cs, actions, p, j, k);
    WakeStep(cs[k], d.id, d.ask, actions[k]);
    Moves(cs[k], actions[k], p);
  }

  lemma DeliverActs(c: Cluster, a: Action)
    requires Enabled(c, a) && a.Serves? && a.serving.Deliver?
    ensures var d := a.serving;
            && AnsweredBy(d.answer) == Some(d.ask)
            && (StillWaits(c.store, d.id, d.ask) ==> Acted(c, a).next == Answering(d.id, d.ask, d.answer))
  {
    DeliverReads(c, a.serving.id, a.serving.ask, a.serving.answer, a.serving.close);
  }

  // ---------------------------------------------------------------------------
  // Replies and stops
  // ---------------------------------------------------------------------------

  lemma ReplyActs(c: Cluster, a: Action)
    requires Enabled(c, a) && a.Serves? && a.serving.Reply?
    ensures var id := a.serving.id;
            && id in c.store && !Ended(c.store[id].log) && Harness(c.store[id].spec, c.store[id].log).WaitingForMessage?
            && (var ask := Harness(c.store[id].spec, c.store[id].log).messageId;
                && IsUserQuestion(c.store, id, ask)
                && Acted(c, a).next == Replying(id, ask, |c.store[id].log|, a.serving.text))
  {
    hide Harness;
    hide Ended;
  }

  lemma PutReplyStep(c: Cluster, id: RunId, ask: MessageId, length: nat, text: string, a: Action)
    requires At(c, a.p) == Replying(id, ask, length, text) && Enabled(c, a) && !IsCrash(a)
    ensures var (s', taken) := AppendTo(c.store, id, Some(length), [UserAnswered(ask, text)]);
            Acted(c, a).store == s' && Acted(c, a).next == (if taken.Appended? then Waking(id, ask) else Free)
  {
    hide AppendTo;
  }

  /** A log that has grown no longer is the log it was. */
  lemma SameLength(s: Store, s': Store, id: RunId)
    requires id in s && Grows(s, s') && |s'[id].log| == |s[id].log|
    ensures s'[id].log == s[id].log
  {
  }

  /**
    A user's reply is appended only onto the very log it read its question from: the run still waits on
    that question, the reply answers it, and its wake comes. On any other log nothing is appended, and
    nobody is woken.
    */
  lemma ReplyRecords(cs: seq<Cluster>, actions: seq<Action>, i: nat, j: nat)
    requires Runs(cs, actions) && i < |actions| && actions[i].Serves? && actions[i].serving.Reply?
    requires NextOwn(actions, actions[i].p, i, j) && !IsCrash(actions[j])
    ensures var p, r := actions[i].p, actions[i].serving;
            && r.id in cs[i].store && r.id in cs[j].store
            && (var spec, read := cs[i].store[r.id].spec, cs[i].store[r.id].log;
                && Harness(spec, read).WaitingForMessage?
                && (var ask := Harness(spec, read).messageId;
                    IsUserQuestion(cs[i].store, r.id, ask) &&
                    if cs[j].store[r.id].log == read
                    then cs[j + 1].store == cs[j].store[r.id := Stored(spec, read + [UserAnswered(ask, r.text)])]
                         && At(cs[j + 1], p) == Waking(r.id, ask)
                         && !WaitsOn(Harness(spec, read + [UserAnswered(ask, r.text)]), ask)
                    else cs[j + 1].store == cs[j].store && At(cs[j + 1], p) == Free))
  {
    hide Acted;
    hide Enabled;
    hide Apply;
    hide At;
    hide Ended;
    hide Harness;
    hide IsUserQuestion;
    var p, r := actions[i].p, actions[i].serving;
    assert StepAt(cs, actions, i) && StepAt(cs, actions, j);
    ReplyActs(cs[i], actions[i]);
    Waits(cs, actions, p, i, j);
    var spec, read := cs[i].store[r.id].spec, cs[i].store[r.id].log;
    var ask := Harness(spec, read).messageId;
    PutReplyStep(cs[j], r.id, ask, |read|, r.text, actions[j]);
    Moves(cs[j], actions[j], p);
    LogsOnlyGrow(cs, actions, i, j);
    if |cs[j].store[r.id].log| == |read| {
      SameLength(cs[i].store, cs[j].store, r.id);
      ReplyLeavesWait(spec, read, UserAnswered(ask, r.text));
    }
  }

  lemma ReplyLeavesWait(spec: RunSpec, log: Log, reply: Event)
    requires reply.UserAnswered? && WaitsOn(Harness(spec, log), reply.messageId)
    ensures !WaitsOn(Harness(spec, log + [reply]), reply.messageId)
  {
    FoldSnoc(spec, log, reply);
    WaitMoves(spec, Harness(spec, log), reply);
  }

  lemma StopActs(c: Cluster, a: Action)
    requires Enabled(c, a) && a.Serves? && a.serving.Stop?
    ensures var id := a.serving.id;
            && id in c.store && !Ended(c.store[id].log)
            && Acted(c, a).next == Cancelling(id, |c.store[id].log|, a.serving.parkedOn)
            && (a.serving.parkedOn.Some? || Dispatch(c.store[id].log).Created? || Dispatch(c.store[id].log).Queued?)
  {
    hide Dispatch;
    hide Ended;
  }

  lemma CancelStep(c: Cluster, id: RunId, length: nat, parkedOn: Option<MessageId>, a: Action)
    requires At(c, a.p) == Cancelling(id, length, parkedOn) && Enabled(c, a) && !IsCrash(a)
    ensures var (s', taken) := AppendTo(c.store, id, Some(length), [RunCancelled]);
            && Acted(c, a).store == s'
            && Acted(c, a).next == (if taken.Appended? && parkedOn.Some? then Waking(id, parkedOn.value) else Free)
  {
    hide AppendTo;
  }

  /** So a stop cancels a run only as it found it, parked or not yet scheduled, and then wakes it from the ask it was parked on. */
  lemma StopRecords(cs: seq<Cluster>, actions: seq<Action>, i: nat, j: nat)
    requires Runs(cs, actions) && i < |actions| && actions[i].Serves? && actions[i].serving.Stop?
    requires NextOwn(actions, actions[i].p, i, j) && !IsCrash(actions[j])
    ensures var p, r := actions[i].p, actions[i].serving;
            && r.id in cs[i].store && r.id in cs[j].store
            && (var spec, read := cs[i].store[r.id].spec, cs[i].store[r.id].log;
                (r.parkedOn.Some? || Dispatch(read).Created? || Dispatch(read).Queued?) &&
                if cs[j].store[r.id].log == read
                then cs[j + 1].store == cs[j].store[r.id := Stored(spec, read + [RunCancelled])]
                     && At(cs[j + 1], p) == (if r.parkedOn.Some? then Waking(r.id, r.parkedOn.value) else Free)
                else cs[j + 1].store == cs[j].store && At(cs[j + 1], p) == Free)
  {
    hide Acted;
    hide Enabled;
    hide Apply;
    hide At;
    hide Ended;
    hide Dispatch;
    var p, r := actions[i].p, actions[i].serving;
    assert StepAt(cs, actions, i) && StepAt(cs, actions, j);
    StopActs(cs[i], actions[i]);
    Waits(cs, actions, p, i, j);
    var read := cs[i].store[r.id].log;
    CancelStep(cs[j], r.id, |read|, r.parkedOn, actions[j]);
    Moves(cs[j], actions[j], p);
    LogsOnlyGrow(cs, actions, i, j);
    if |cs[j].store[r.id].log| == |read| {
      SameLength(cs[i].store, cs[j].store, r.id);
    }
  }

  // ---------------------------------------------------------------------------
  // The ask sweep, step by step
  // ---------------------------------------------------------------------------

  /** One more step of a process that serves. */
  lemma Goes(c: Cluster, c': Cluster, p: nat, a: Serving) returns (next: Cluster)
    requires Alone(c, c', p) && MayServe(c', At(c', p), a)
    ensures Alone(c, next, p) && next == After(c', p, Serve(c', At(c', p), a))
  {
    hide Alone;
    hide Serve;
    hide MayServe;
    next := Apply(c', Serves(p, a));
    AloneStep(c, c', Serves(p, a));
  }

  /** The pass over due asks delivers each as the deployment's deliverer does when nothing comes between its steps. */
  lemma DeliverIsSteps(c: Cluster, p: nat, d: DueAsk) returns (c': Cluster)
    requires At(c, p).Free? && AnsweredBy(d.answer) == Some(d.ask)
    ensures Alone(c, c', p) && At(c', p).Free?
    ensures (c'.store, c'.queue) == DeliverOne(c.store, c.queue, d)
  {
    hide Alone;
    hide AskStateOf;
    hide Ended;
    hide Queue.Wake;
    AloneHere(c, p);
    c' := Goes(c, c, p, Deliver(d.asker, d.ask, d.answer, true));
    if StillWaits(c.store, d.asker, d.ask) {
      c' := Goes(c, c', p, Answer);
    }
    c' := Goes(c, c', p, Serving.Wake);
  }

  /** And the pass over parked runs looks at each, delivers what it is due, and wakes it, as that process does. */
  lemma ParkedIsSteps(c: Cluster, p: nat, f: AskSweep, id: RunId, ask: MessageId) returns (c': Cluster)
    requires At(c, p).Free? && (f.due(ask).Some? ==> AnsweredBy(f.due(ask).value) == Some(ask))
    ensures Alone(c, c', p) && At(c', p).Free?
    ensures (c'.store, c'.queue) == WakeOne(f, c.store, c.queue, id, ask)
  {
    hide Alone;
    hide AskStateOf;
    hide Ended;
    hide IsUserQuestion;
    hide Queue.Wake;
    var due := DueTo(f, c.store, id, ask);
    if due.Some? {
      c' := DeliverIsSteps(c, p, DueAsk(id, ask, due.value));
    } else {
      AloneHere(c, p);
      c' := Goes(c, c, p, SweepAsk(id, ask, IsUserQuestion(c.store, id, ask) && f.stopped(id)));
      LooksAsWoken(c.store, id, ask);
      if Woken(f, c.store, id, ask) {
        c' := Goes(c, c', p, Serving.Wake);
      }
    }
  }

  lemma LooksAsWoken(s: Store, id: RunId, ask: MessageId)
    ensures StillWaits(s, id, ask) <==> !Ended(LogOf(s, id)) && AskStateOf(LogOf(s, id), ask).Open?
  {
  }
}
