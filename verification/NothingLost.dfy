/**
  What every step of every process keeps of the queue: no open run is lost, as long as no run is
  forgotten between its producer's store and its push.
  */
module NothingLost {
  import opened Protocol
  import opened Reducer
  import opened Folding
  import opened Driving
  import opened Asks
  import opened Queue
  import opened RunLog
  import opened Stores
  import opened Cluster
  import opened Serializing

  // ---------------------------------------------------------------------------
  // The invariant
  // ---------------------------------------------------------------------------

  predicate Open(s: Store, id: RunId) {
    id in s && !Ended(s[id].log)
  }

  /** A stored run that ended, or that a list, a claim or a park will bring back. */
  predicate Safe(s: Store, q: QueueState, id: RunId) {
    id in s && (Ended(s[id].log) || q.Placed(id))
  }

  ghost predicate QueueOk(s: Store, q: QueueState) {
    && (forall id :: q.Placed(id) ==> id in s)
    && (forall id :: Open(s, id) ==> q.Placed(id) || (id in q.pending && StillWaiting(s[id].log)))
    && (forall id <- q.lease :: id in s && (Open(s, id) ==> id in q.processing))
  }

  /** What a process counts on of its run's place. */
  predicate PlaceOk(s: Store, q: QueueState, proc: Proc) {
    match proc
    case Free => true
    case Pended(spec, _) => spec.runId in s || spec.runId in q.pending
    case Pushing(id, _) => id in s
    case Ending(_, _) => true
    case Existing(id) => id in s
    case Looking(id) => id in s
    case Unpending(id) => Safe(s, q, id)
    case Settling(id) => id in s
    case Gated(id) => id in s
    case PushingOnce(id) => id in s
    case Holding(id) => id in s
    case Forgetting(_) => true
    case Acking(id, _) => id in s && Ended(s[id].log)
    case Rechecking(_, _) => true
    case Waking(_, _) => true
    case Cancelling(id, _, _) => id in s
    case _ => Safe(s, q, proc.id)
  }

  ghost predicate Inv(c: Cluster) {
    && LogInv(c)
    && QueueOk(c.store, c.queue)
    && forall p <- c.procs :: PlaceOk(c.store, c.queue, c.procs[p])
  }

  // ---------------------------------------------------------------------------
  // What no step takes away
  // ---------------------------------------------------------------------------

  ghost predicate Kept(s: Store, q: QueueState, s': Store, q': QueueState) {
    && Grows(s, s')
    && (forall id :: Safe(s, q, id) ==> Safe(s', q', id))
    && (forall id <- q.pending :: id in s' || id in q'.pending)
  }

  /** What a process counts on stays true whatever the others do. */
  lemma PlaceKept(s: Store, q: QueueState, s': Store, q': QueueState, proc: Proc)
    requires PlaceOk(s, q, proc) && Kept(s, q, s', q')
    ensures PlaceOk(s', q', proc)
  {
    hide Ended;
    if proc.Acking? {
      EndedPrefix(s[proc.id].log, s'[proc.id].log);
    }
  }

  lemma Rejoin(c: Cluster, p: nat, o: Outcome)
    requires Inv(c) && QueueGood(c, o) && LogInv(After(c, p, o))
    ensures Inv(After(c, p, o))
  {
    hide PlaceOk;
    hide Kept;
    hide LogInv;
    hide QueueOk;
    var c' := After(c, p, o);
    forall k | k in c'.procs ensures PlaceOk(c'.store, c'.queue, c'.procs[k]) {
      if k != p {
        PlaceKept(c.store, c.queue, o.store, o.queue, c.procs[k]);
      }
    }
  }

  ghost predicate QueueGood(c: Cluster, o: Outcome) {
    && QueueOk(o.store, o.queue)
    && Kept(c.store, c.queue, o.store, o.queue)
    && PlaceOk(o.store, o.queue, o.next)
  }

  // ---------------------------------------------------------------------------
  // Each script
  // ---------------------------------------------------------------------------

  ghost predicate QueueKept(s: Store, q: QueueState, q': QueueState) {
    QueueOk(s, q') && Kept(s, q, s, q')
  }

  lemma PendKept(s: Store, q: QueueState, id: RunId, time: int)
    requires QueueOk(s, q)
    ensures QueueKept(s, q, Queue.Pend(q, id, time)) && id in Queue.Pend(q, id, time).pending
  {
  }

  lemma UnpendKept(s: Store, q: QueueState, id: RunId)
    requires QueueOk(s, q) && Safe(s, q, id)
    ensures QueueKept(s, q, Queue.Unpend(q, id))
  {
  }

  lemma PushKept(s: Store, q: QueueState, id: RunId)
    requires QueueOk(s, q) && id in s
    ensures QueueKept(s, q, Queue.Push(q, id))
  {
  }

  lemma PushOnceKept(s: Store, q: QueueState, id: RunId)
    requires QueueOk(s, q) && id in s
    ensures QueueKept(s, q, Queue.PushOnce(q, id).0)
  {
    if q.Queued(id) {
      UnpendKept(s, q, id);
    } else {
      PushKept(s, q, id);
    }
  }

  lemma ClaimPlaces(q: QueueState, token: Token, id: RunId)
    ensures var (q', claimed) := Queue.Claim(q, token);
            && (id in q'.runs ==> id in q.runs)
            && (id in q'.processing ==> q.Queued(id))
            && (id in q.processing ==> id in q'.processing)
            && (q.Queued(id) ==> q'.Queued(id) || (claimed.None? && id in q.lease))
            && (claimed == Some(id) ==> id in q'.processing && id in q.runs)
            && q'.parked == q.parked && q'.pending == q.pending
            && (id in q'.lease ==> id in q.lease || claimed == Some(id))
  {
    if q.runs != [] {
      var head := q.runs[|q.runs| - 1];
      assert q.runs == q.runs[..|q.runs| - 1] + [head];
      assert ([head] + q.processing)[1..] == q.processing;
    }
  }

  lemma ClaimKept(s: Store, q: QueueState, token: Token)
    requires QueueOk(s, q)
    ensures var (q', claimed) := Queue.Claim(q, token);
            QueueKept(s, q, q') && (claimed.Some? ==> Safe(s, q', claimed.value))
  {
    hide Queue.Claim;
    forall id { ClaimPlaces(q, token, id); }
    var claimed := Queue.Claim(q, token).1;
    if claimed.Some? {
      ClaimPlaces(q, token, claimed.value);
      assert q.Placed(claimed.value);
    }
  }

  lemma StartKept(s: Store, q: QueueState, id: RunId)
    requires QueueOk(s, q)
    ensures QueueKept(s, q, Queue.Start(q, id).0)
  {
  }

  lemma RemovedOthers(list: seq<RunId>, id: RunId)
    ensures forall other :: other != id ==> (other in RemoveFirst(list, id) <==> other in list)
    ensures id in RemoveFirst(list, id) ==> id in list
  {
    forall other | other != id ensures other in RemoveFirst(list, id) <==> other in list {
      RemoveFirstKeeps(list, id, other);
    }
    if id in RemoveFirst(list, id) {
      RemoveFirstWithin(list, id, id);
    }
  }

  lemma ReleaseKept(s: Store, q: QueueState, id: RunId, token: Token)
    requires QueueOk(s, q) && id in s
    ensures QueueKept(s, q, Queue.Release(q, id, token))
  {
    hide RemoveFirst;
    RemovedOthers(q.processing, id);
  }

  lemma ParkKept(s: Store, q: QueueState, id: RunId, token: Token, ask: MessageId)
    requires QueueOk(s, q) && id in s
    ensures QueueKept(s, q, Queue.Park(q, id, token, ask).0)
  {
    hide RemoveFirst;
    RemovedOthers(q.processing, id);
  }

  lemma WakeKept(s: Store, q: QueueState, id: RunId, ask: MessageId)
    requires QueueOk(s, q)
    ensures QueueKept(s, q, Queue.Wake(q, id, ask).0)
  {
  }

  lemma AckKept(s: Store, q: QueueState, id: RunId, token: Token)
    requires QueueOk(s, q) && id in s && Ended(s[id].log)
    ensures QueueKept(s, q, Queue.Ack(q, id, token))
  {
    hide RemoveFirst;
    RemovedOthers(q.processing, id);
  }

  lemma ExpireKept(s: Store, q: QueueState, id: RunId)
    requires QueueOk(s, q)
    ensures QueueKept(s, q, Queue.Expire(q, id))
  {
  }

  lemma ReapKept(s: Store, q: QueueState)
    requires QueueOk(s, q)
    ensures QueueKept(s, q, Queue.Reap(q))
  {
    hide Queue.Reap;
    forall id { ReapPlaces(q, id); }
  }

  // ---------------------------------------------------------------------------
  // Each store call
  // ---------------------------------------------------------------------------

  lemma Unchanged(s: Store, q: QueueState)
    ensures Kept(s, q, s, q)
  {
  }

  lemma PutKept(s: Store, q: QueueState, spec: RunSpec)
    requires QueueOk(s, q) && (spec.runId in s || spec.runId in q.pending)
    ensures var s' := PutRun(s, spec); QueueOk(s', q) && Kept(s, q, s', q) && spec.runId in s'
  {
    hide Ended;
    hide Written;
    QueuedWaits(spec);
  }

  /** Appending to a run that is safe, or ending any stored run. */
  lemma AppendKept(s: Store, q: QueueState, id: RunId, batch: Log)
    requires QueueOk(s, q) && id in s && !Ended(s[id].log)
    requires Safe(s, q, id) || Ended(s[id].log + batch)
    ensures var s' := s[id := s[id].(log := s[id].log + batch)]; QueueOk(s', q) && Kept(s, q, s', q)
  {
    hide Ended;
  }

  lemma EndKept(s: Store, q: QueueState, id: RunId, seen: Option<nat>, end: Event)
    requires QueueOk(s, q) && IsRunEnd(end)
    ensures var (s', answer) := AppendTo(s, id, seen, [end]);
            && QueueOk(s', q) && Kept(s, q, s', q)
            && (answer.Appended? || answer.Terminal? ==> id in s' && Ended(s'[id].log))
            && (id in s && seen.None? ==> answer.Appended? || answer.Terminal?)
  {
    hide Ended;
    hide QueueOk;
    hide Kept;
    Unchanged(s, q);
    if id in s && !Ended(s[id].log) {
      EndedSnoc(s[id].log, end);
      AppendKept(s, q, id, [end]);
    }
  }

  lemma SafeAppendKept(s: Store, q: QueueState, id: RunId, seen: Option<nat>, batch: Log)
    requires QueueOk(s, q) && Safe(s, q, id)
    ensures var s' := AppendTo(s, id, seen, batch).0; QueueOk(s', q) && Kept(s, q, s', q)
  {
    hide Ended;
    hide QueueOk;
    hide Kept;
    Unchanged(s, q);
    if !Ended(s[id].log) {
      AppendKept(s, q, id, batch);
    }
  }

  // ---------------------------------------------------------------------------
  // Each step of a producer
  // ---------------------------------------------------------------------------

  /** A stored run that is past waiting is safe. */
  lemma PastWaitingSafe(s: Store, q: QueueState, id: RunId)
    requires QueueOk(s, q) && id in s && !StillWaiting(s[id].log)
    ensures Safe(s, q, id)
  {
  }

  lemma ProduceKeeps(c: Cluster, proc: Proc, a: Producing)
    requires QueueOk(c.store, c.queue) && PlaceOk(c.store, c.queue, proc) && MayProduce(c, proc, a) && !a.Forget?
    ensures QueueGood(c, Produce(c, proc, a))
  {
    hide QueueOk;
    hide Kept;
    hide Ended;
    hide StillWaiting;
    hide PutRun;
    hide AppendTo;
    hide Queue.Pend;
    hide Queue.Push;
    hide Queue.PushOnce;
    hide Queue.Unpend;
    var s, q := c.store, c.queue;
    Unchanged(s, q);
    match a {
      case Pend(spec, _, time) => PendKept(s, q, spec.runId, time);
      case Put => PutKept(s, q, proc.spec);
      case PutFails(_) => PutKept(s, q, proc.spec);
      case Push => PushKept(s, q, proc.id);
      case PushFails =>
      case End => EndKept(s, q, proc.id, None, Undelivered(proc.why));
      case ReadExisting =>
        if !StillWaiting(s[proc.id].log) { PastWaitingSafe(s, q, proc.id); }
      case CheckQueued =>
      case Unpend => UnpendKept(s, q, proc.id);
      case ReadFired =>
        if !StillWaiting(s[proc.id].log) { PastWaitingSafe(s, q, proc.id); }
      case Gate(_) =>
      case PushOnce => PushOnceKept(s, q, proc.id);
      case Hold => EndKept(s, q, proc.id, None, RunCancelled);
      case Sweep(id, _, _) =>
        if id in s && !StillWaiting(s[id].log) { PastWaitingSafe(s, q, id); }
    }
  }

  // ---------------------------------------------------------------------------
  // Forgetting
  // ---------------------------------------------------------------------------

  /** A run its producer stored and has not pushed: waiting, and on no list. */
  predicate StoredUnpushed(c: Cluster, id: RunId) {
    id in c.store && StillWaiting(c.store[id].log) && !c.queue.Placed(id)
  }

  /** No producer is between marking the run pending and storing it, and none is between storing and pushing it. */
  predicate ForgetSafe(c: Cluster, id: RunId) {
    !StoredUnpushed(c, id) && (PutInFlight(c, id) ==> id in c.store)
  }

  function Forgot(c: Cluster, p: nat, id: RunId): Cluster {
    After(c, p, Outcome(c.store, Queue.Unpend(c.queue, id), Free))
  }

  lemma ForgetQueueOk(s: Store, q: QueueState, id: RunId)
    requires QueueOk(s, q) && !(id in s && StillWaiting(s[id].log) && !q.Placed(id))
    ensures QueueOk(s, Queue.Unpend(q, id))
    ensures forall other :: Safe(s, q, other) <==> Safe(s, Queue.Unpend(q, id), other)
  {
    hide Ended;
    hide StillWaiting;
  }

  lemma ForgetKeeps(c: Cluster, p: nat, id: RunId)
    requires Inv(c) && At(c, p) == Forgetting(id) && ForgetSafe(c, id)
    ensures Inv(Forgot(c, p, id))
  {
    hide StillWaiting;
    hide QueueOk;
    hide LogOk;
    hide StoreOk;
    hide Safe;
    var c' := Forgot(c, p, id);
    ForgetQueueOk(c.store, c.queue, id);
    forall k | k in c'.procs ensures PlaceOk(c'.store, c'.queue, c'.procs[k]) && LogOk(c'.store, c'.procs[k]) {
      FreeLogs(c'.store);
      if k != p {
        assert PlaceOk(c.store, c.queue, c.procs[k]) && LogOk(c.store, c.procs[k]);
      }
    }
  }

  lemma FreeLogs(s: Store)
    ensures LogOk(s, Free)
  {
  }

  /**
    Whenever a sweep that found a run unstored takes it off pending, that keeps the invariant if and
    only if no producer is about to store the run and none stored it and has not pushed it.
    */
  lemma ForgetSafeIff(c: Cluster, p: nat, id: RunId)
    requires Inv(c) && At(c, p) == Forgetting(id) && id in c.queue.pending
    ensures Inv(Forgot(c, p, id)) <==> ForgetSafe(c, id)
  {
    hide LogInv;
    var c' := Forgot(c, p, id);
    if ForgetSafe(c, id) {
      ForgetKeeps(c, p, id);
    } else if StoredUnpushed(c, id) {
      WaitingIsOpen(c.store[id].log);
      assert Open(c'.store, id) && !c'.queue.Placed(id);
    } else {
      var k :| k in c.procs && c.procs[k].Pended? && c.procs[k].spec.runId == id;
      assert k != p && c'.procs[k] == c.procs[k];
      assert !PlaceOk(c'.store, c'.queue, c'.procs[k]);
    }
  }

  lemma WaitingIsOpen(log: Log)
    requires StillWaiting(log)
    ensures !Ended(log)
  {
    forall i | 0 <= i < |log| ensures !IsRunEnd(log[i]) {
      assert log[i] in log;
    }
  }

  // ---------------------------------------------------------------------------
  // Each step of a worker
  // ---------------------------------------------------------------------------

  lemma FinishKeeps(c: Cluster, proc: Proc)
    requires QueueOk(c.store, c.queue) && LogOk(c.store, proc) && PlaceOk(c.store, c.queue, proc) && MayLabor(c, proc, Finish)
    ensures QueueGood(c, Labor(c, proc, Finish))
  {
    hide Written;
    hide Works;
    hide QueueOk;
    hide Kept;
    hide Ended;
    hide Harness;
    Unchanged(c.store, c.queue);
    assert SeenBy(proc) == proc.mine;
    if Ended(proc.mine) {
      EndedPrefix(proc.mine, c.store[proc.id].log);
    }
  }

  lemma StoreKeeps(c: Cluster, proc: Proc)
    requires QueueOk(c.store, c.queue) && LogOk(c.store, proc) && PlaceOk(c.store, c.queue, proc) && MayLabor(c, proc, Store)
    ensures QueueGood(c, Labor(c, proc, Store))
  {
    hide Follows;
    hide Works;
    hide QueueOk;
    hide Kept;
    hide Ended;
    hide AppendTo;
    var s, q := c.store, c.queue;
    FollowsWrites(s, proc);
    TakenExactly(s, proc);
    SafeAppendKept(s, q, proc.id, Some(proc.seen), proc.mine[proc.seen..]);
    SafeStays(s, q, AppendTo(s, proc.id, Some(proc.seen), proc.mine[proc.seen..]).0, proc.id);
  }

  lemma SafeStays(s: Store, q: QueueState, s': Store, id: RunId)
    requires Kept(s, q, s', q) && Safe(s, q, id)
    ensures Safe(s', q, id)
  {
  }

  /** Steps over the queue, and the one that ends a run delivered too often. */
  predicate AtQueue(a: Laboring) {
    a.Claim? || a.Start? || a.Ack? || a.Release? || a.Park? || a.Fail?
  }

  lemma QueueLaborKeeps(c: Cluster, proc: Proc, a: Laboring)
    requires QueueOk(c.store, c.queue) && PlaceOk(c.store, c.queue, proc) && MayLabor(c, proc, a) && AtQueue(a)
    ensures QueueGood(c, Labor(c, proc, a))
  {
    hide AskStateOf;
    hide Harness;
    hide Turned;
    hide Began;
    hide QueueOk;
    hide Kept;
    hide Ended;
    hide AppendTo;
    hide Queue.Claim;
    hide Queue.Start;
    hide Queue.Ack;
    hide Queue.Release;
    hide Queue.Park;
    var s, q := c.store, c.queue;
    Unchanged(s, q);
    match a {
      case Claim(token) => ClaimKept(s, q, token);
      case Start =>
        StartKept(s, q, proc.id);
        StartSafe(s, q, proc.id);
      case Fail => EndKept(s, q, proc.id, None, RunFailed(Infrastructure, "started without ending"));
      case Ack => AckKept(s, q, proc.id, proc.token);
      case Release => ReleaseKept(s, q, proc.id, proc.token);
      case Park => ParkKept(s, q, proc.id, proc.token, proc.ask);
    }
  }

  /** Steps that touch neither the store nor the queue. */
  lemma QuietLaborKeeps(c: Cluster, proc: Proc, a: Laboring)
    requires QueueOk(c.store, c.queue) && PlaceOk(c.store, c.queue, proc) && MayLabor(c, proc, a)
    requires !AtQueue(a) && !a.Store? && !a.Finish?
    ensures QueueGood(c, Labor(c, proc, a))
  {
    hide Queue.Park;
    hide Queue.Release;
    hide Queue.Ack;
    hide Queue.Start;
    hide Queue.Claim;
    hide Harness;
    hide Dispatch;
    hide Resume;
    hide OneTurn;
    hide AppendTo;
    hide QueueOk;
    hide Kept;
    hide Ended;
    hide AskStateOf;
    Unchanged(c.store, c.queue);
  }

  lemma LaborKeeps(c: Cluster, proc: Proc, a: Laboring)
    requires QueueOk(c.store, c.queue) && LogOk(c.store, proc) && PlaceOk(c.store, c.queue, proc) && MayLabor(c, proc, a)
    ensures QueueGood(c, Labor(c, proc, a))
  {
    hide QueueOk;
    hide LogOk;
    hide PlaceOk;
    hide MayLabor;
    hide Labor;
    hide QueueGood;
    if AtQueue(a) {
      QueueLaborKeeps(c, proc, a);
    } else if a.Store? {
      StoreKeeps(c, proc);
    } else if a.Finish? {
      FinishKeeps(c, proc);
    } else {
      QuietLaborKeeps(c, proc, a);
    }
  }

  lemma StartSafe(s: Store, q: QueueState, id: RunId)
    ensures Safe(s, Queue.Start(q, id).0, id) <==> Safe(s, q, id)
  {
  }

  // ---------------------------------------------------------------------------
  // Each step of an answer, a stop, the reaper and time
  // ---------------------------------------------------------------------------

  lemma DeliverKeeps(c: Cluster, id: RunId, ask: MessageId, answer: Event, close: bool)
    requires StoreOk(c.store) && QueueOk(c.store, c.queue) && AnsweredBy(answer) == Some(ask)
    ensures QueueGood(c, Serve(c, Free, Deliver(id, ask, answer, close)))
  {
    hide QueueOk;
    hide Kept;
    hide Ended;
    hide Written;
    hide StillWaiting;
    hide AskStateOf;
    var s, q := c.store, c.queue;
    Unchanged(s, q);
    if id in s && !Ended(s[id].log) && AskStateOf(s[id].log, ask).Open? {
      AskedStarted(s[id].spec, s[id].log, ask);
      PastWaitingSafe(s, q, id);
    }
  }

  lemma ReplyKeeps(c: Cluster, id: RunId, text: string)
    requires QueueOk(c.store, c.queue) && MayServe(c, Free, Reply(id, text))
    ensures QueueGood(c, Serve(c, Free, Reply(id, text)))
  {
    hide QueueOk;
    hide Kept;
    hide Ended;
    hide StillWaiting;
    hide Harness;
    var s, q := c.store, c.queue;
    Unchanged(s, q);
    WaitingStarted(s[id].spec, s[id].log);
    PastWaitingSafe(s, q, id);
  }

  lemma ServeKeeps(c: Cluster, proc: Proc, a: Serving)
    requires StoreOk(c.store) && QueueOk(c.store, c.queue) && PlaceOk(c.store, c.queue, proc) && MayServe(c, proc, a)
    ensures QueueGood(c, Serve(c, proc, a))
  {
    hide Dispatch;
    hide QueueOk;
    hide StoreOk;
    hide OpenQuestion;
    hide Kept;
    hide Ended;
    hide AppendTo;
    hide Harness;
    hide StillWaiting;
    hide AskStateOf;
    hide Queue.Wake;
    hide Queue.Reap;
    hide Queue.Expire;
    var s, q := c.store, c.queue;
    Unchanged(s, q);
    match a {
      case Deliver(id, ask, answer, close) => DeliverKeeps(c, id, ask, answer, close);
      case Answer => SafeAppendKept(s, q, proc.id, None, [proc.answer]);
      case Reply(id, text) => ReplyKeeps(c, id, text);
      case PutReply => SafeAppendKept(s, q, proc.id, Some(proc.length), [UserAnswered(proc.ask, proc.text)]);
      case Stop(_, _) =>
      case Cancel => EndKept(s, q, proc.id, Some(proc.length), RunCancelled);
      case SweepAsk(_, _, _) =>
      case Wake => WakeKept(s, q, proc.id, proc.ask);
      case Reap => ReapKept(s, q);
      case Expire(id) => ExpireKept(s, q, id);
      case Crash =>
    }
  }

  // ---------------------------------------------------------------------------
  // Every step
  // ---------------------------------------------------------------------------

  /** The step forgets no run that a producer stored, or is about to store, and has not pushed. */
  predicate ForgetsSafely(c: Cluster, a: Action) {
    a.Produces? && a.producing.Forget? && At(c, a.p).Forgetting? ==> ForgetSafe(c, At(c, a.p).id)
  }

  lemma PlacedOk(c: Cluster, p: nat)
    requires Inv(c)
    ensures PlaceOk(c.store, c.queue, At(c, p))
  {
  }

  lemma ActedQueue(c: Cluster, a: Action)
    requires Inv(c) && Enabled(c, a) && !(a.Produces? && a.producing.Forget?)
    ensures QueueGood(c, Acted(c, a))
  {
    hide QueueGood;
    hide PlaceOk;
    hide LogOk;
    hide StoreOk;
    hide QueueOk;
    hide Produce;
    hide Labor;
    hide Serve;
    hide MayProduce;
    hide MayLabor;
    hide MayServe;
    PlacedOk(c, a.p);
    KnownOk(c, a.p);
    match a {
      case Produces(p, producing) => ProduceKeeps(c, At(c, p), producing);
      case Labors(p, laboring) => LaborKeeps(c, At(c, p), laboring);
      case Serves(p, serving) => ServeKeeps(c, At(c, p), serving);
    }
  }

  lemma ForgetIs(c: Cluster, a: Action)
    requires Enabled(c, a) && a.Produces? && a.producing.Forget?
    ensures At(c, a.p).Forgetting? && Apply(c, a) == Forgot(c, a.p, At(c, a.p).id)
  {
  }

  /** Every step of every process keeps every open run in its place, but for an unsafe forgetting. */
  lemma StepKeeps(c: Cluster, a: Action)
    requires Inv(c) && Enabled(c, a) && ForgetsSafely(c, a)
    ensures Inv(Apply(c, a))
  {
    hide Inv;
    hide LogInv;
    hide Acted;
    hide Enabled;
    hide Forgot;
    hide ForgetSafe;
    InvLogs(c);
    StepLogs(c, a);
    if a.Produces? && a.producing.Forget? {
      ForgetIs(c, a);
      assert At(c, a.p) == Forgetting(At(c, a.p).id);
      ForgetKeeps(c, a.p, At(c, a.p).id);
    } else {
      ActedQueue(c, a);
      Rejoin(c, a.p, Acted(c, a));
    }
  }

  lemma InvLogs(c: Cluster)
    requires Inv(c)
    ensures LogInv(c)
  {
  }
}
