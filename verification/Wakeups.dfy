/**
  No wakeup is lost: while no process dies, a run parked on an ask that its log already answers still
  has a recheck or a wake coming. After deaths, one pass of the ask sweep takes it off parked.
  */
module Wakeups {
  import opened Protocol
  import opened Asks
  import opened Queue
  import opened RunQueues
  import opened RunLog
  import opened Stores
  import opened Cluster
  import opened Serializing
  import opened Deployments

  /** A process that is about to look at the run again, or to wake it. */
  predicate Wakes(proc: Proc, id: RunId, ask: MessageId) {
    proc == Rechecking(id, ask) || proc == Waking(id, ask)
  }

  predicate ParkedAnswered(s: Store, q: QueueState, id: RunId) {
    id in q.parked && id in s && AskStateOf(s[id].log, q.parked[id]).Answered?
  }

  ghost predicate WakeOwed(c: Cluster) {
    forall id :: ParkedAnswered(c.store, c.queue, id) ==>
      exists p <- c.procs :: Wakes(c.procs[p], id, c.queue.parked[id])
  }

  predicate IsCrash(a: Action) {
    a.Serves? && a.serving.Crash?
  }

  predicate ParkedBefore(q: QueueState, o: Outcome, id: RunId) {
    id in o.queue.parked ==>
      || (id in q.parked && q.parked[id] == o.queue.parked[id])
      || o.next == Rechecking(id, o.queue.parked[id])
  }

  lemma LaborParks(c: Cluster, proc: Proc, a: Laboring, id: RunId)
    requires MayLabor(c, proc, a)
    ensures ParkedBefore(c.queue, Labor(c, proc, a), id)
  {
    hide RemoveFirst;
    hide AppendTo;
    hide Began;
    hide Turned;
    hide AskStateOf;
  }

  lemma ServeParks(c: Cluster, proc: Proc, a: Serving, id: RunId)
    requires MayServe(c, proc, a)
    ensures ParkedBefore(c.queue, Serve(c, proc, a), id)
  {
    hide AppendTo;
    hide AskStateOf;
    hide OpenQuestion;
    hide Queue.Reap;
    ReapPlaces(c.queue, id);
  }

  lemma ProduceParks(c: Cluster, proc: Proc, a: Producing, id: RunId)
    requires MayProduce(c, proc, a)
    ensures ParkedBefore(c.queue, Produce(c, proc, a), id)
  {
  }

  /** Only a park puts a run on parked, and its worker looks again. */
  lemma ParkedMoves(c: Cluster, a: Action, id: RunId)
    requires Enabled(c, a)
    ensures ParkedBefore(c.queue, Acted(c, a), id)
  {
    hide Produce;
    hide Labor;
    hide Serve;
    hide MayProduce;
    hide MayLabor;
    hide MayServe;
    match a {
      case Produces(p, producing) => ProduceParks(c, At(c, p), producing, id);
      case Labors(p, laboring) => LaborParks(c, At(c, p), laboring, id);
      case Serves(p, serving) => ServeParks(c, At(c, p), serving, id);
    }
  }

  /** A recheck or a wake is dropped only once it has nothing to wake. */
  lemma WakerMoves(c: Cluster, a: Action, id: RunId, ask: MessageId)
    requires Enabled(c, a) && !IsCrash(a) && Wakes(At(c, a.p), id, ask)
    ensures var o := Acted(c, a);
            || Wakes(o.next, id, ask)
            || !(id in o.queue.parked && o.queue.parked[id] == ask)
            || !AskStateOf(LogOf(o.store, id), ask).Answered?
  {
    hide AskStateOf;
  }

  /** An ask turned answered in this step has its wake coming from the process that answered it. */
  lemma NewlyAnswered(s: Store, s': Store, next: Proc, id: RunId, ask: MessageId)
    requires Serial(s, s', next) && id in s' && AskStateOf(s'[id].log, ask).Answered?
    ensures (id in s && AskStateOf(s[id].log, ask).Answered?) || next == Waking(id, ask)
  {
    hide Works;
    if id !in s {
      QueuedAsksNothing(s'[id].spec, ask);
      assert false;
    } else {
      var was, now := s[id].log, s'[id].log;
      if now != was {
        if Works(s[id].spec, was, now) {
          WorksAnswerless(s[id].spec, was, now);
          AnswerlessKeeps(was, now, ask);
        }
      }
    }
  }

  lemma QueuedAsksNothing(spec: RunSpec, ask: MessageId)
    ensures !AskStateOf(QueuedEvents(spec), ask).Answered?
  {
    if AskStateOf(QueuedEvents(spec), ask).Answered? {
      AnswerlessKeeps([], QueuedEvents(spec), ask);
    }
  }

  lemma StepOwes(c: Cluster, a: Action)
    requires LogInv(c) && WakeOwed(c) && Enabled(c, a) && !IsCrash(a)
    ensures WakeOwed(Apply(c, a))
  {
    hide LogInv;
    hide Acted;
    hide Enabled;
    hide Serial;
    hide AskStateOf;
    StepLogs(c, a);
    var o, c' := Acted(c, a), Apply(c, a);
    forall id | ParkedAnswered(c'.store, c'.queue, id)
      ensures exists p <- c'.procs :: Wakes(c'.procs[p], id, c'.queue.parked[id])
    {
      var ask := c'.queue.parked[id];
      ParkedMoves(c, a, id);
      NewlyAnswered(c.store, c'.store, o.next, id, ask);
      if Wakes(o.next, id, ask) {
        assert c'.procs[a.p] == o.next;
      } else {
        assert ParkedAnswered(c.store, c.queue, id);
        var p :| p in c.procs && Wakes(c.procs[p], id, ask);
        if p == a.p {
          WakerMoves(c, a, id, ask);
          assert false;
        }
        assert c'.procs[p] == c.procs[p];
      }
    }
  }

  lemma InitialOwes(c: Cluster)
    requires Initial(c)
    ensures WakeOwed(c)
  {
  }

  /** In every crash-free interleaving of parks, rechecks, answers and wakes, no wakeup is lost. */
  lemma {:induction false} NoLostWakeup(cs: seq<Cluster>, actions: seq<Action>, n: nat)
    requires Runs(cs, actions) && n < |cs| && forall a <- actions :: !IsCrash(a)
    ensures WakeOwed(cs[n])
  {
    hide Apply;
    hide Enabled;
    hide WakeOwed;
    if n == 0 {
      InitialOwes(cs[0]);
      return;
    }
    NoLostWakeup(cs, actions, n - 1);
    RunLogs(cs, actions, n - 1);
    assert actions[n - 1] in actions;
    assert StepAt(cs, actions, n - 1);
    StepOwes(cs[n - 1], actions[n - 1]);
  }

  // ---------------------------------------------------------------------------
  // The ask sweep: parked runs
  // ---------------------------------------------------------------------------

  /** What the ask sweep finds outside the logs: which runs a stop covers, and what an ask is due. */
  datatype AskSweep = AskSweep(stopped: RunId -> bool, due: MessageId -> Option<Event>)

  /** Whether the log still waits on the ask its run is parked on. */
  predicate StillWaits(s: Store, id: RunId, ask: MessageId) {
    id in s && AskStateOf(s[id].log, ask).Open? && !Ended(s[id].log)
  }

  predicate IsUserQuestion(s: Store, id: RunId, ask: MessageId) {
    id in s && exists e <- s[id].log :: e.UserAsked? && e.messageId == ask
  }

  /** The answer the sweep delivers to a run that still waits. */
  function DueTo(f: AskSweep, s: Store, id: RunId, ask: MessageId): Option<Event> {
    if StillWaits(s, id, ask) && !IsUserQuestion(s, id, ask) then f.due(ask) else None
  }

  predicate Woken(f: AskSweep, s: Store, id: RunId, ask: MessageId) {
    !StillWaits(s, id, ask) || (IsUserQuestion(s, id, ask) && f.stopped(id)) || DueTo(f, s, id, ask).Some?
  }

  /** The sweep of one parked run: an answer it is due is appended, then it is woken. */
  function WakeOne(f: AskSweep, s: Store, q: QueueState, id: RunId, ask: MessageId): (Store, QueueState) {
    var due := DueTo(f, s, id, ask);
    (if due.Some? then AppendTo(s, id, None, [due.value]).0 else s,
     if Woken(f, s, id, ask) then Queue.Wake(q, id, ask).0 else q)
  }

  function WakeAll(f: AskSweep, s: Store, q: QueueState, listed: seq<(RunId, MessageId)>): (Store, QueueState)
    decreases |listed|
  {
    if listed == [] then (s, q)
    else
      var (s', q') := WakeOne(f, s, q, listed[0].0, listed[0].1);
      WakeAll(f, s', q', listed[1..])
  }

  /** The runs of a list that a pass wakes, in order. */
  function WokenOf(f: AskSweep, s: Store, listed: seq<(RunId, MessageId)>): seq<RunId> {
    if listed == [] then []
    else
      var (id, ask) := listed[|listed| - 1];
      WokenOf(f, s, listed[..|listed| - 1]) + (if Woken(f, s, id, ask) then [id] else [])
  }

  /** Parked runs, each listed once with its ask. */
  predicate Lists(listed: seq<(RunId, MessageId)>, parked: map<RunId, MessageId>) {
    && (forall i :: 0 <= i < |listed| ==> listed[i].0 in parked && parked[listed[i].0] == listed[i].1)
    && (forall i, j :: 0 <= i < j < |listed| ==> listed[i].0 != listed[j].0)
  }

  /** One pass over the parked runs, as the queue listed them. */
  method SweepParked(queue: RunQueue, s: Store, listed: seq<(RunId, MessageId)>, f: AskSweep) returns (s': Store, swept: seq<RunId>)
    requires Lists(listed, queue.parked)
    modifies queue`parked, queue`runs
    ensures (s', queue.State()) == WakeAll(f, s, old(queue.State()), listed)
    ensures swept == WokenOf(f, s, listed)
  {
    hide AskStateOf;
    hide IsUserQuestion;
    hide Ended;
    s', swept := s, [];
    for i := 0 to |listed|
      invariant WakeAll(f, s', queue.State(), listed[i..]) == WakeAll(f, s, old(queue.State()), listed)
      invariant swept == WokenOf(f, s, listed[..i])
      invariant forall j :: i <= j < |listed| ==> Same(s, s', listed[j].0)
    {
      var (id, ask) := listed[i];
      assert listed[i..][0] == (id, ask) && listed[i..][1..] == listed[i + 1..];
      assert listed[..i + 1][..i] == listed[..i];
      SameRun(f, s, s', id, ask);
      if !StillWaits(s', id, ask) {
        var _ := queue.Wake(id, ask);
        swept := swept + [id];
      } else if IsUserQuestion(s', id, ask) {
        if f.stopped(id) {
          var _ := queue.Wake(id, ask);
          swept := swept + [id];
        }
      } else {
        var due := f.due(ask);
        if due.Some? {
          s' := AppendTo(s', id, None, [due.value]).0;
          var _ := queue.Wake(id, ask);
          swept := swept + [id];
        }
      }
    }
    assert listed[..|listed|] == listed;
  }

  /** A run is the same in two stores. */
  predicate Same(s: Store, s': Store, id: RunId) {
    (id in s' <==> id in s) && (id in s ==> s'[id] == s[id])
  }

  lemma SameRun(f: AskSweep, s: Store, s1: Store, id: RunId, ask: MessageId)
    requires Same(s, s1, id)
    ensures Woken(f, s1, id, ask) == Woken(f, s, id, ask) && DueTo(f, s1, id, ask) == DueTo(f, s, id, ask)
    ensures StillWaits(s1, id, ask) == StillWaits(s, id, ask) && IsUserQuestion(s1, id, ask) == IsUserQuestion(s, id, ask)
  {
  }

  /** What a pass leaves in the log of a run it lists. */
  predicate Swept(f: AskSweep, s: Store, s': Store, id: RunId, ask: MessageId) {
    if DueTo(f, s, id, ask).Some?
    then id in s && id in s' && s'[id] == s[id].(log := s[id].log + [DueTo(f, s, id, ask).value])
    else Same(s, s', id)
  }

  /** And where it leaves the run. */
  predicate SweptOff(f: AskSweep, s: Store, q': QueueState, id: RunId, ask: MessageId) {
    if Woken(f, s, id, ask) then id !in q'.parked && id in q'.runs else id in q'.parked && q'.parked[id] == ask
  }

  lemma SweptOne(f: AskSweep, s: Store, q: QueueState, id: RunId, ask: MessageId)
    requires id in q.parked && q.parked[id] == ask
    ensures var (s', q') := WakeOne(f, s, q, id, ask);
            && Swept(f, s, s', id, ask) && SweptOff(f, s, q', id, ask)
            && (forall other :: other != id ==> (other in q'.parked <==> other in q.parked))
            && (forall other <- q'.parked :: other in q.parked && q'.parked[other] == q.parked[other])
            && (forall other :: other != id ==> Same(s, s', other))
            && (forall other <- q.runs :: other in q'.runs)
  {
    hide AskStateOf;
    hide IsUserQuestion;
  }

  /**
    What the sweep of one parked run comes to: one whose log waits no more is woken as it is; one that
    waits for its user is woken only under a stop; any other is given the answer it is due, if there is
    one, and woken for it.
    */
  lemma SweepRules(f: AskSweep, s: Store, q: QueueState, id: RunId, ask: MessageId)
    requires id in q.parked && q.parked[id] == ask
    ensures var (s', q') := WakeOne(f, s, q, id, ask);
            var left := s' == s && q' == q;
            var woken := id !in q'.parked && id in q'.runs;
            if id !in s || Ended(s[id].log) || !AskStateOf(s[id].log, ask).Open? then s' == s && woken
            else if exists e <- s[id].log :: e.UserAsked? && e.messageId == ask
            then if f.stopped(id) then s' == s && woken else left
            else match f.due(ask)
              case Some(answer) => woken && s' == s[id := Stored(s[id].spec, s[id].log + [answer])]
              case None => left
  {
    hide AskStateOf;
    hide Ended;
  }

  lemma RestListed(listed: seq<(RunId, MessageId)>, q: QueueState, q1: QueueState)
    requires Lists(listed, q.parked) && listed != []
    requires forall other :: other != listed[0].0 ==> (other in q1.parked <==> other in q.parked)
    requires forall other <- q1.parked :: other in q.parked && q1.parked[other] == q.parked[other]
    ensures Lists(listed[1..], q1.parked)
    ensures forall i :: 0 <= i < |listed[1..]| ==> listed[1..][i].0 != listed[0].0
  {
  }

  /** What a pass does to one run it lists. */
  lemma {:induction false} SweepsListed(f: AskSweep, s: Store, q: QueueState, listed: seq<(RunId, MessageId)>, i: nat)
    requires Lists(listed, q.parked) && i < |listed|
    ensures var (s', q') := WakeAll(f, s, q, listed);
            Swept(f, s, s', listed[i].0, listed[i].1) && SweptOff(f, s, q', listed[i].0, listed[i].1)
    decreases |listed|
  {
    hide AskStateOf;
    hide IsUserQuestion;
    hide WakeOne;
    hide Woken;
    hide DueTo;
    var (id, ask) := listed[0];
    var rest := listed[1..];
    var (s1, q1) := WakeOne(f, s, q, id, ask);
    SweptOne(f, s, q, id, ask);
    RestListed(listed, q, q1);
    if i == 0 {
      SweepsOthers(f, s1, q1, rest, id);
    } else {
      assert listed[i] == rest[i - 1] && listed[i].0 != id;
      SweepsListed(f, s1, q1, rest, i - 1);
      SameRun(f, s, s1, listed[i].0, listed[i].1);
    }
  }

  /** A pass leaves alone every run it does not list. */
  lemma {:induction false} SweepsOthers(f: AskSweep, s: Store, q: QueueState, listed: seq<(RunId, MessageId)>, other: RunId)
    requires Lists(listed, q.parked) && forall i :: 0 <= i < |listed| ==> listed[i].0 != other
    ensures var (s', q') := WakeAll(f, s, q, listed);
            && (other in q'.parked <==> other in q.parked) && (other in q.parked ==> q'.parked[other] == q.parked[other])
            && Same(s, s', other)
            && (other in q.runs ==> other in q'.runs)
    decreases |listed|
  {
    hide AskStateOf;
    hide IsUserQuestion;
    hide WakeOne;
    hide Woken;
    hide DueTo;
    if listed != [] {
      var (s1, q1) := WakeOne(f, s, q, listed[0].0, listed[0].1);
      SweptOne(f, s, q, listed[0].0, listed[0].1);
      RestListed(listed, q, q1);
      assert listed[0].0 != other && Same(s, s1, other);
      SweepsOthers(f, s1, q1, listed[1..], other);
    }
  }

  /**
    A pass takes off parked, and lists again, exactly the runs whose log no longer waits on their ask,
    those it had an answer for, and the stopped ones that wait for their user. The others stay as they are.
    */
  lemma SweepsExactly(f: AskSweep, s: Store, q: QueueState, listed: seq<(RunId, MessageId)>)
    requires Lists(listed, q.parked)
    ensures var (s', q') := WakeAll(f, s, q, listed);
            && (forall i :: 0 <= i < |listed| ==>
                  Swept(f, s, s', listed[i].0, listed[i].1) && SweptOff(f, s, q', listed[i].0, listed[i].1))
            && (forall id <- q'.parked :: id in q.parked && q'.parked[id] == q.parked[id])
  {
    hide WakeAll;
    hide Swept;
    hide Woken;
    var (s', q') := WakeAll(f, s, q, listed);
    forall i | 0 <= i < |listed|
      ensures Swept(f, s, s', listed[i].0, listed[i].1) && SweptOff(f, s, q', listed[i].0, listed[i].1)
    {
      SweepsListed(f, s, q, listed, i);
    }
    forall id | id in q'.parked ensures id in q.parked && q'.parked[id] == q.parked[id] {
      if forall i :: 0 <= i < |listed| ==> listed[i].0 != id {
        SweepsOthers(f, s, q, listed, id);
      } else {
        var i :| 0 <= i < |listed| && listed[i].0 == id;
        assert SweptOff(f, s, q', listed[i].0, listed[i].1);
      }
    }
  }

  /** Every parked run is listed. */
  predicate Covers(listed: seq<(RunId, MessageId)>, parked: map<RunId, MessageId>) {
    Lists(listed, parked) && forall id <- parked :: (id, parked[id]) in listed
  }

  /** After a pass over all of them, every run still parked waits on the ask it is parked on. */
  lemma SweptWaits(f: AskSweep, s: Store, q: QueueState, listed: seq<(RunId, MessageId)>)
    requires Covers(listed, q.parked)
    ensures var (s', q') := WakeAll(f, s, q, listed); forall id <- q'.parked :: StillWaits(s', id, q'.parked[id])
  {
    hide WakeAll;
    hide AskStateOf;
    hide IsUserQuestion;
    hide Ended;
    SweepsExactly(f, s, q, listed);
    var (s', q') := WakeAll(f, s, q, listed);
    forall id | id in q'.parked ensures StillWaits(s', id, q'.parked[id]) {
      var i :| 0 <= i < |listed| && listed[i] == (id, q.parked[id]);
      assert Swept(f, s, s', listed[i].0, listed[i].1) && SweptOff(f, s, q', listed[i].0, listed[i].1);
    }
  }

  /**
    So whatever deaths a deployment has been through, one pass over what is parked leaves no run parked
    on an ask that its log answers, or that its log ended on.
    */
  lemma SweepFindsAnswered(cs: seq<Cluster>, actions: seq<Action>, n: nat, f: AskSweep, listed: seq<(RunId, MessageId)>)
    requires Runs(cs, actions) && n < |cs| && Covers(listed, cs[n].queue.parked)
    ensures var (s', q') := WakeAll(f, cs[n].store, cs[n].queue, listed);
            forall id :: !ParkedAnswered(s', q', id) && (id in q'.parked ==> !Ended(LogOf(s', id)))
  {
    hide WakeAll;
    hide Runs;
    SweptWaits(f, cs[n].store, cs[n].queue, listed);
  }

  // ---------------------------------------------------------------------------
  // The ask sweep: asks past their deadline
  // ---------------------------------------------------------------------------

  /** An open ask past its deadline: the run that asked, the ask, and its task's end or the timeout. */
  datatype DueAsk = DueAsk(asker: RunId, ask: MessageId, answer: Event)

  /** Delivers an answer while the ask is open in its asker's log, then wakes the asker; an ask never logged is closed. */
  function DeliverOne(s: Store, q: QueueState, d: DueAsk): (Store, QueueState) {
    (if StillWaits(s, d.asker, d.ask) then AppendTo(s, d.asker, None, [d.answer]).0 else s,
     Queue.Wake(q, d.asker, d.ask).0)
  }

  function DeliverAll(s: Store, q: QueueState, due: seq<DueAsk>): (Store, QueueState)
    decreases |due|
  {
    if due == [] then (s, q)
    else
      var (s', q') := DeliverOne(s, q, due[0]);
      DeliverAll(s', q', due[1..])
  }

  /** One pass over the asks past their deadline, and the runs it answered. */
  method SweepDue(queue: RunQueue, s: Store, due: seq<DueAsk>) returns (s': Store, swept: seq<RunId>)
    modifies queue`parked, queue`runs
    ensures (s', queue.State()) == DeliverAll(s, old(queue.State()), due)
    ensures |swept| == |due| && forall i :: 0 <= i < |due| ==> swept[i] == due[i].asker
  {
    hide AskStateOf;
    hide Ended;
    s', swept := s, [];
    for i := 0 to |due|
      invariant DeliverAll(s', queue.State(), due[i..]) == DeliverAll(s, old(queue.State()), due)
      invariant |swept| == i && forall j :: 0 <= j < i ==> swept[j] == due[j].asker
    {
      assert due[i..][0] == due[i] && due[i..][1..] == due[i + 1..];
      if StillWaits(s', due[i].asker, due[i].ask) {
        s' := AppendTo(s', due[i].asker, None, [due[i].answer]).0;
      }
      var _ := queue.Wake(due[i].asker, due[i].ask);
      swept := swept + [due[i].asker];
    }
  }

  /** Nothing waits on the ask any more: not the log, and not a park. */
  predicate Settled(s: Store, q: QueueState, d: DueAsk) {
    !StillWaits(s, d.asker, d.ask) && !(d.asker in q.parked && q.parked[d.asker] == d.ask)
  }

  /** An answer opens no ask. */
  lemma AnswerOpensNone(log: Log, answer: Event, ask: MessageId)
    requires AnsweredBy(answer).Some?
    ensures AskStateOf(log + [answer], ask).Open? ==> AskStateOf(log, ask).Open? && AnsweredBy(answer) != Some(ask)
  {
    assert Front(log + [answer]) == log;
  }

  lemma DeliverSettles(s: Store, q: QueueState, d: DueAsk, other: DueAsk)
    requires AnsweredBy(d.answer) == Some(d.ask)
    ensures var (s', q') := DeliverOne(s, q, d);
            Settled(s', q', d) && (Settled(s, q, other) ==> Settled(s', q', other))
  {
    hide AskStateOf;
    hide Ended;
    if StillWaits(s, d.asker, d.ask) {
      var log := s[d.asker].log;
      AnswerOpensNone(log, d.answer, d.ask);
      AnswerOpensNone(log, d.answer, other.ask);
      EndedSnoc(log, d.answer);
    }
  }

  lemma {:induction false} StaysSettled(s: Store, q: QueueState, due: seq<DueAsk>, other: DueAsk)
    requires forall d <- due :: AnsweredBy(d.answer) == Some(d.ask)
    requires Settled(s, q, other)
    ensures var (s', q') := DeliverAll(s, q, due); Settled(s', q', other)
    decreases |due|
  {
    hide Settled;
    hide DeliverOne;
    if due != [] {
      var (s1, q1) := DeliverOne(s, q, due[0]);
      DeliverSettles(s, q, due[0], other);
      StaysSettled(s1, q1, due[1..], other);
    }
  }

  /** After the pass over due asks, none of them is open in its asker's log or parked on. */
  lemma {:induction false} DueSettled(s: Store, q: QueueState, due: seq<DueAsk>, i: nat)
    requires i < |due| && forall d <- due :: AnsweredBy(d.answer) == Some(d.ask)
    ensures var (s', q') := DeliverAll(s, q, due); Settled(s', q', due[i])
    decreases |due|
  {
    hide Settled;
    hide DeliverOne;
    var (s1, q1) := DeliverOne(s, q, due[0]);
    DeliverSettles(s, q, due[0], due[0]);
    if i == 0 {
      StaysSettled(s1, q1, due[1..], due[0]);
    } else {
      DueSettled(s1, q1, due[1..], i - 1);
    }
  }
}
