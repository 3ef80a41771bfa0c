/**
  The sweep of pending runs: what a producer left between its store and its push is pushed, settled
  past its gate, or taken off pending.
  */
module Sweeps {
  import opened Protocol
  import opened Queue
  import opened RunQueues
  import opened Stores
  import opened Cluster
  import opened Serializing
  import opened NothingLost
  import opened Deployments

  /** What a fire's gate says of its stored, waiting run. */
  datatype GateSays = Pass | Stop | Unknown

  /** What the sweep finds: runs pending past `forget_after`, runs a trigger fired, and what their gates say. */
  datatype PendingSweep = PendingSweep(forgotten: RunId -> bool, fired: RunId -> bool, gate: RunId -> GateSays)

  predicate Waits(s: Store, id: RunId) {
    id in s && StillWaiting(s[id].log)
  }

  /** The sweep of one pending run. */
  function SettleOne(f: PendingSweep, s: Store, q: QueueState, id: RunId): (Store, QueueState) {
    if Waits(s, id) && f.fired(id) then
      match f.gate(id)
      case Pass => (s, Queue.PushOnce(q, id).0)
      case Stop => (AppendTo(s, id, None, [RunCancelled]).0, Queue.Unpend(q, id))
      case Unknown => (s, q)
    else if Waits(s, id) then (s, Queue.Push(q, id))
    else if id !in s && !f.forgotten(id) then (s, q)
    else (s, Queue.Unpend(q, id))
  }

  function SettleAll(f: PendingSweep, s: Store, q: QueueState, listed: seq<RunId>): (Store, QueueState)
    decreases |listed|
  {
    if listed == [] then (s, q)
    else
      var (s', q') := SettleOne(f, s, q, listed[0]);
      SettleAll(f, s', q', listed[1..])
  }

  /** Whether the sweep of one run puts it on the runs list. */
  predicate Queues(f: PendingSweep, s: Store, q: QueueState, id: RunId) {
    Waits(s, id) && (f.fired(id) ==> f.gate(id).Pass? && !q.Queued(id))
  }

  /** The runs of a list that a pass queues, in order. */
  function QueuedBy(f: PendingSweep, s: Store, q: QueueState, listed: seq<RunId>): seq<RunId>
    decreases |listed|
  {
    if listed == [] then []
    else
      var (s', q') := SettleOne(f, s, q, listed[0]);
      (if Queues(f, s, q, listed[0]) then [listed[0]] else []) + QueuedBy(f, s', q', listed[1..])
  }

  /** The sweep of one pending run, and whether it queued it. */
  method SettleRun(queue: RunQueue, s: Store, id: RunId, f: PendingSweep) returns (s': Store, queued: bool)
    modifies queue`runs, queue`pending
    ensures (s', queue.State()) == SettleOne(f, s, old(queue.State()), id)
    ensures queued == Queues(f, s, old(queue.State()), id)
  {
    hide StillWaiting;
    hide AppendTo;
    s', queued := s, false;
    if id in s && StillWaiting(s[id].log) {
      if f.fired(id) {
        match f.gate(id) {
          case Pass =>
            queued := queue.PushOnce(id);
          case Stop =>
            s' := AppendTo(s, id, None, [RunCancelled]).0;
            queue.Unpend(id);
          case Unknown =>
        }
      } else {
        queue.Push(id);
        queued := true;
      }
    } else if id in s || f.forgotten(id) {
      queue.Unpend(id);
    }
  }

  /** One pass over the runs the queue lists as pending long enough, and the runs it queued. */
  method Sweep(queue: RunQueue, s: Store, listed: seq<RunId>, f: PendingSweep) returns (s': Store, pushed: seq<RunId>)
    modifies queue`runs, queue`pending
    ensures (s', queue.State()) == SettleAll(f, s, old(queue.State()), listed)
    ensures pushed == QueuedBy(f, s, old(queue.State()), listed)
  {
    hide SettleOne;
    hide Queues;
    hide SettleAll;
    hide QueuedBy;
    s', pushed := s, [];
    assert listed[0..] == listed && [] + QueuedBy(f, s, queue.State(), listed) == QueuedBy(f, s, queue.State(), listed);
    for i := 0 to |listed|
      invariant SettleAll(f, s', queue.State(), listed[i..]) == SettleAll(f, s, old(queue.State()), listed)
      invariant pushed + QueuedBy(f, s', queue.State(), listed[i..]) == QueuedBy(f, s, old(queue.State()), listed)
    {
      ghost var before := pushed;
      PassOne(f, s', queue.State(), listed, i);
      var queued: bool;
      s', queued := SettleRun(queue, s', listed[i], f);
      if queued {
        pushed := pushed + [listed[i]];
      }
      ghost var rest := QueuedBy(f, s', queue.State(), listed[i + 1..]);
      assert before + ((if queued then [listed[i]] else []) + rest) == pushed + rest;
    }
    PassEnds(f, s', queue.State(), listed);
    assert pushed + [] == pushed;
  }

  lemma PassEnds(f: PendingSweep, s: Store, q: QueueState, listed: seq<RunId>)
    ensures SettleAll(f, s, q, listed[|listed|..]) == (s, q) && QueuedBy(f, s, q, listed[|listed|..]) == []
  {
  }

  /** A pass over the rest of a list settles its first run, then the rest of it. */
  lemma PassOne(f: PendingSweep, s: Store, q: QueueState, listed: seq<RunId>, i: nat)
    requires i < |listed|
    ensures var (s', q') := SettleOne(f, s, q, listed[i]);
            && SettleAll(f, s, q, listed[i..]) == SettleAll(f, s', q', listed[i + 1..])
            && QueuedBy(f, s, q, listed[i..])
            == (if Queues(f, s, q, listed[i]) then [listed[i]] else []) + QueuedBy(f, s', q', listed[i + 1..])
  {
    hide SettleOne;
    hide Queues;
    assert listed[i..][0] == listed[i] && listed[i..][1..] == listed[i + 1..];
  }

  /**
    What the sweep of one run settles: a waiting run is queued, or ended if its gate was shut, or left
    pending if its gate could not tell; any other stored run is off pending; an unstored one stays
    pending until it is forgotten.
    */
  predicate Settled(f: PendingSweep, s: Store, q: QueueState, s': Store, q': QueueState, id: RunId) {
    if id !in s then if f.forgotten(id) then id !in q'.pending else id in q.pending ==> id in q'.pending
    else if !Waits(s, id) then id !in q'.pending
    else if f.fired(id) && f.gate(id).Unknown? then id in q.pending ==> id in q'.pending
    else if f.fired(id) && f.gate(id).Stop? then id !in q'.pending && id in s' && Ended(s'[id].log)
    else id !in q'.pending && q'.Queued(id)
  }

  lemma SettlesOne(f: PendingSweep, s: Store, q: QueueState, id: RunId)
    ensures var (s', q') := SettleOne(f, s, q, id);
            && Settled(f, s, q, s', q', id)
            && (forall other :: other != id ==> (other in q'.pending <==> other in q.pending))
  {
    hide StillWaiting;
    if Waits(s, id) {
      WaitingIsOpen(s[id].log);
      EndedSnoc(s[id].log, RunCancelled);
    }
  }

  /** Sweeping one run loses none: every open stored run is still pending, listed, claimed or parked. */
  lemma SettleOneKeeps(f: PendingSweep, s: Store, q: QueueState, id: RunId)
    requires StoreOk(s) && QueueOk(s, q)
    ensures var (s', q') := SettleOne(f, s, q, id);
            && StoreOk(s') && QueueOk(s', q') && Grows(s, s')
            && (forall other :: Safe(s, q, other) ==> Safe(s', q', other))
  {
    hide StoreOk;
    hide QueueOk;
    hide StillWaiting;
    hide AppendTo;
    hide Queue.Push;
    hide Queue.PushOnce;
    hide Queue.Unpend;
    hide Ended;
    hide Serial;
    Unchanged(s, q);
    if Waits(s, id) && f.fired(id) && f.gate(id).Pass? {
      PushOnceKept(s, q, id);
    } else if Waits(s, id) && f.fired(id) && f.gate(id).Stop? {
      EndKept(s, q, id, None, RunCancelled);
      EndLogs(s, id, None, RunCancelled);
      UnpendKept(AppendTo(s, id, None, [RunCancelled]).0, q, id);
    } else if Waits(s, id) && !f.fired(id) {
      PushKept(s, q, id);
    } else if id in s && !Waits(s, id) {
      PastWaitingSafe(s, q, id);
      UnpendKept(s, q, id);
    } else if id !in s {
      ForgottenKept(s, q, id);
    }
  }

  lemma ForgottenKept(s: Store, q: QueueState, id: RunId)
    requires QueueOk(s, q) && id !in s
    ensures QueueOk(s, Queue.Unpend(q, id)) && forall other :: Safe(s, q, other) ==> Safe(s, Queue.Unpend(q, id), other)
  {
    hide Ended;
    hide StillWaiting;
  }

  lemma {:induction false} SweepKeeps(f: PendingSweep, s: Store, q: QueueState, listed: seq<RunId>)
    requires StoreOk(s) && QueueOk(s, q)
    ensures var (s', q') := SettleAll(f, s, q, listed);
            && StoreOk(s') && QueueOk(s', q') && Grows(s, s')
            && (forall other :: Safe(s, q, other) ==> Safe(s', q', other))
    decreases |listed|
  {
    hide StoreOk;
    hide QueueOk;
    hide Safe;
    hide SettleOne;
    if listed != [] {
      var (s1, q1) := SettleOne(f, s, q, listed[0]);
      SettleOneKeeps(f, s, q, listed[0]);
      SweepKeeps(f, s1, q1, listed[1..]);
    }
  }

  // ---------------------------------------------------------------------------
  // The same pass, step by step
  // ---------------------------------------------------------------------------

  /** One more step of a producing or sweeping process. */
  lemma Goes(c: Cluster, c': Cluster, p: nat, a: Producing) returns (next: Cluster)
    requires Alone(c, c', p) && MayProduce(c', At(c', p), a)
    ensures Alone(c, next, p) && next == After(c', p, Produce(c', At(c', p), a))
  {
    hide Alone;
    hide Produce;
    hide MayProduce;
    next := Apply(c', Produces(p, a));
    AloneStep(c, c', Produces(p, a));
  }

  /** The steps a sweep takes over one run it finds unstored, past waiting, or waiting with no trigger to ask. */
  lemma PlainSteps(c: Cluster, p: nat, f: PendingSweep, id: RunId) returns (c': Cluster)
    requires At(c, p).Free? && !(Waits(c.store, id) && f.fired(id))
    ensures Alone(c, c', p) && At(c', p).Free?
    ensures (c'.store, c'.queue) == SettleOne(f, c.store, c.queue, id)
  {
    hide Alone;
    hide StillWaiting;
    hide AppendTo;
    AloneHere(c, p);
    c' := Goes(c, c, p, Producing.Sweep(id, f.fired(id), f.forgotten(id)));
    if id in c.store && Waits(c.store, id) {
      c' := Goes(c, c', p, Producing.Push);
    } else if id in c.store {
      c' := Goes(c, c', p, Producing.Unpend);
    } else if f.forgotten(id) {
      c' := Goes(c, c', p, Forget);
    }
  }

  /** The steps a sweep takes over a waiting run of a trigger, up to what the gate said. */
  lemma GatedSteps(c: Cluster, p: nat, f: PendingSweep, id: RunId) returns (c': Cluster)
    requires At(c, p).Free? && Waits(c.store, id) && f.fired(id)
    ensures Alone(c, c', p)
    ensures c' == c.(procs := c.procs[p := if f.gate(id).Pass? then PushingOnce(id) else Holding(id)])
  {
    hide Alone;
    hide StillWaiting;
    AloneHere(c, p);
    c' := Goes(c, c, p, Producing.Sweep(id, f.fired(id), f.forgotten(id)));
    c' := Goes(c, c', p, ReadFired);
    c' := Goes(c, c', p, Gate(f.gate(id).Pass?));
  }

  /** And past it; a gate that cannot tell is where the sweep of the run gives up. */
  lemma FiredSteps(c: Cluster, p: nat, f: PendingSweep, id: RunId) returns (c': Cluster)
    requires At(c, p).Free? && Waits(c.store, id) && f.fired(id) && !f.gate(id).Unknown?
    ensures Alone(c, c', p) && At(c', p).Free?
    ensures (c'.store, c'.queue) == SettleOne(f, c.store, c.queue, id)
  {
    hide Alone;
    hide StillWaiting;
    hide Ended;
    hide Queue.PushOnce;
    c' := GatedSteps(c, p, f, id);
    if f.gate(id).Pass? {
      c' := Goes(c, c', p, Producing.PushOnce);
    } else {
      c' := Goes(c, c', p, Hold);
      c' := Goes(c, c', p, Producing.Unpend);
    }
  }

  /** What a pass does to one run is what the deployment's sweeping process does when no other comes between its steps. */
  lemma SweepIsSteps(c: Cluster, p: nat, f: PendingSweep, id: RunId) returns (c': Cluster)
    requires At(c, p).Free?
    ensures Alone(c, c', p) && At(c', p).Free?
    ensures (c'.store, c'.queue) == SettleOne(f, c.store, c.queue, id)
  {
    hide Alone;
    if !(Waits(c.store, id) && f.fired(id)) {
      c' := PlainSteps(c, p, f, id);
    } else if !f.gate(id).Unknown? {
      c' := FiredSteps(c, p, f, id);
    } else {
      AloneHere(c, p);
      c' := c;
    }
  }
}
