/**
  How a producer asks for a run: marked pending, stored with its queued events, and pushed, with what a
  run already stored, a store or push that fails, and a trigger's gate make of it.
  */
module Enqueues {
  import opened Protocol
  import opened Queue
  import opened RunLog
  import opened Stores
  import opened Cluster
  import opened Deployments
  import opened Sweeps

  /** What fails on the way, if anything: the put, which may have been committed all the same, or the push. */
  datatype Fault = NoFault | PutFault(committed: bool) | PushFault

  /** Ends a run that could not be handed over, if it is stored and open. */
  function GivenUp(s: Store, id: RunId, why: string): Store {
    if id in s && !Ended(s[id].log) then s[id := Stored(s[id].spec, s[id].log + [RunFailed(Infrastructure, why)])] else s
  }

  function StoredIn(s: Store, spec: RunSpec): Store {
    if spec.runId in s then s else s[spec.runId := Stored(spec, [RunCreated, RunQueued, UserMessage(spec.input)])]
  }

  /** What asking for a run leaves, when nothing else comes between. */
  function Enqueued(s: Store, q: QueueState, spec: RunSpec, kind: Kind, now: int, fault: Fault, gate: GateSays): (Store, QueueState) {
    var id := spec.runId;
    var asked := Queue.Pend(q, id, now);
    var stored := StoredIn(s, spec);
    if fault.PutFault? then
      var left := if fault.committed then stored else s;
      (if kind.Fire? then left else GivenUp(left, id, "store unavailable"), asked)
    else match kind
      case Fire => SettleOne(PendingSweep(_ => false, _ => true, _ => gate), stored, asked, id)
      case Create =>
        if id in s then (s, asked)
        else if fault.PushFault? then (GivenUp(stored, id, "queue push failed"), asked)
        else (stored, Queue.Push(asked, id))
      case Child =>
        if id !in s then (stored, if fault.PushFault? then asked else Queue.Push(asked, id))
        else if StillWaiting(s[id].log) && !q.Queued(id) then (s, asked)
        else (s, Queue.Unpend(asked, id))
  }

  /** The mark, and what a put that fails leaves. */
  lemma PutFaultSteps(c: Cluster, p: nat, spec: RunSpec, kind: Kind, now: int, committed: bool, gate: GateSays)
      returns (c': Cluster)
    requires At(c, p).Free?
    ensures Alone(c, c', p) && At(c', p).Free?
    ensures (c'.store, c'.queue)
         == Enqueued(c.store, c.queue, spec, kind, now, PutFault(committed), gate)
  {
    hide Alone;
    hide Ended;
    hide SettleOne;
    c' := Marks(c, p, spec, kind, now);
    c' := Goes(c, c', p, PutFails(committed));
    if !kind.Fire? {
      c' := Goes(c, c', p, End);
    }
  }

  lemma Marks(c: Cluster, p: nat, spec: RunSpec, kind: Kind, now: int) returns (c': Cluster)
    requires At(c, p).Free?
    ensures Alone(c, c', p)
    ensures c' == c.(queue := Queue.Pend(c.queue, spec.runId, now), procs := c.procs[p := Pended(spec, kind)])
  {
    hide Alone;
    AloneHere(c, p);
    c' := Goes(c, c, p, Producing.Pend(spec, kind, now));
  }

  /** A client's run, or a parent's, that is new. */
  lemma NewSteps(c: Cluster, p: nat, spec: RunSpec, kind: Kind, now: int, pushed: bool, gate: GateSays)
      returns (c': Cluster)
    requires At(c, p).Free? && !kind.Fire? && spec.runId !in c.store
    ensures Alone(c, c', p) && At(c', p).Free?
    ensures (c'.store, c'.queue)
         == Enqueued(c.store, c.queue, spec, kind, now, if pushed then NoFault else PushFault, gate)
  {
    hide Alone;
    hide SettleOne;
    hide Queue.Push;
    hide Ended;
    c' := Marks(c, p, spec, kind, now);
    c' := Goes(c, c', p, Put);
    if pushed {
      c' := Goes(c, c', p, Producing.Push);
    } else {
      c' := Goes(c, c', p, PushFails);
      if kind.Create? {
        c' := Goes(c, c', p, End);
      }
    }
  }

  /** One that is stored already is not pushed again; a parent's takes it off pending unless it was never pushed. */
  lemma ExistingSteps(c: Cluster, p: nat, spec: RunSpec, kind: Kind, now: int, fault: Fault, gate: GateSays)
      returns (c': Cluster)
    requires At(c, p).Free? && !kind.Fire? && spec.runId in c.store && !fault.PutFault?
    ensures Alone(c, c', p) && At(c', p).Free?
    ensures (c'.store, c'.queue)
         == Enqueued(c.store, c.queue, spec, kind, now, fault, gate)
  {
    hide Alone;
    hide SettleOne;
    hide StillWaiting;
    hide Queue.Unpend;
    hide StoredIn;
    hide GivenUp;
    c' := Marks(c, p, spec, kind, now);
    c' := Goes(c, c', p, Put);
    if kind.Child? {
      var c1 := c';
      c' := SettlesExisting(c1, p, spec.runId);
      AloneOn(c, c1, c', p);
    }
  }

  lemma SettlesExisting(c: Cluster, p: nat, id: RunId) returns (c': Cluster)
    requires At(c, p) == Existing(id) && id in c.store
    ensures Alone(c, c', p) && At(c', p).Free? && c'.store == c.store
    ensures c'.queue == if StillWaiting(c.store[id].log) && !c.queue.Queued(id) then c.queue else Queue.Unpend(c.queue, id)
  {
    hide Alone;
    hide StillWaiting;
    hide Queue.Unpend;
    AloneHere(c, p);
    c' := Goes(c, c, p, ReadExisting);
    if StillWaiting(c.store[id].log) {
      c' := Goes(c, c', p, CheckQueued);
    }
    if At(c', p).Unpending? {
      c' := Goes(c, c', p, Producing.Unpend);
    }
  }

  /** A trigger's run, up to what its log says; one whose gate cannot tell is given up there. */
  lemma FireReads(c: Cluster, p: nat, spec: RunSpec, now: int) returns (c': Cluster)
    requires At(c, p).Free?
    ensures Alone(c, c', p)
    ensures var stored := StoredIn(c.store, spec);
            && c'.store == stored && c'.queue == Queue.Pend(c.queue, spec.runId, now)
            && At(c', p)
            == (if StillWaiting(stored[spec.runId].log) then Gated(spec.runId) else Unpending(spec.runId))
  {
    hide Alone;
    hide StillWaiting;
    c' := Marks(c, p, spec, Fire, now);
    c' := Goes(c, c', p, Put);
    c' := Goes(c, c', p, ReadFired);
  }

  lemma FireSteps(c: Cluster, p: nat, spec: RunSpec, now: int, gate: GateSays)
      returns (c': Cluster)
    requires At(c, p).Free?
    ensures Alone(c, c', p) && At(c', p).Free?
    ensures (c'.store, c'.queue)
         == SettleOne(PendingSweep(_ => false, _ => true, _ => gate),
                      StoredIn(c.store, spec), Queue.Pend(c.queue, spec.runId, now), spec.runId)
  {
    hide Alone;
    hide StillWaiting;
    hide AppendTo;
    hide Queue.PushOnce;
    hide Queue.Pend;
    hide StoredIn;
    c' := FireReads(c, p, spec, now);
    StoredThere(c.store, spec);
    var at := At(c', p);
    if at.Unpending? {
      c' := Goes(c, c', p, Producing.Unpend);
    } else if gate.Unknown? {
      AloneStep(c, c', Serves(p, Crash));
      c' := Apply(c', Serves(p, Crash));
    } else {
      var c1 := c';
      if gate.Pass? {
        c' := Passes(c1, p, spec.runId);
      } else {
        c' := Holds(c1, p, spec.runId);
      }
      AloneOn(c, c1, c', p);
    }
  }

  lemma StoredThere(s: Store, spec: RunSpec)
    ensures spec.runId in StoredIn(s, spec)
  {
  }

  /** A run let through its gate is pushed, unless it is queued. */
  lemma Passes(c: Cluster, p: nat, id: RunId) returns (c': Cluster)
    requires At(c, p) == Gated(id)
    ensures Alone(c, c', p) && At(c', p).Free?
    ensures c'.store == c.store && c'.queue == Queue.PushOnce(c.queue, id).0
  {
    hide Alone;
    hide Queue.PushOnce;
    AloneHere(c, p);
    c' := Goes(c, c, p, Gate(true));
    c' := Goes(c, c', p, Producing.PushOnce);
  }

  /** A stored run held at its gate is cancelled, and off pending. */
  lemma Holds(c: Cluster, p: nat, id: RunId) returns (c': Cluster)
    requires At(c, p) == Gated(id) && id in c.store
    ensures Alone(c, c', p) && At(c', p).Free?
    ensures c'.store == AppendTo(c.store, id, None, [RunCancelled]).0 && c'.queue == Queue.Unpend(c.queue, id)
  {
    hide Alone;
    hide Ended;
    AloneHere(c, p);
    c' := Goes(c, c, p, Gate(false));
    c' := Goes(c, c', p, Hold);
    c' := Goes(c, c', p, Producing.Unpend);
  }

  /**
    What asking for a run comes to, over the producer's own steps, for a client's run, a parent's and a
    trigger's: new, already stored, or failing on the way.
    */
  lemma EnqueueIsSteps(c: Cluster, p: nat, spec: RunSpec, kind: Kind, now: int, fault: Fault, gate: GateSays)
      returns (c': Cluster)
    requires At(c, p).Free? && (kind.Fire? ==> !fault.PushFault?)
    ensures Alone(c, c', p) && At(c', p).Free?
    ensures (c'.store, c'.queue) == Enqueued(c.store, c.queue, spec, kind, now, fault, gate)
  {
    hide Alone;
    hide SettleOne;
    if fault.PutFault? {
      c' := PutFaultSteps(c, p, spec, kind, now, fault.committed, gate);
    } else if kind.Fire? {
      c' := FireSteps(c, p, spec, now, gate);
    } else if spec.runId in c.store {
      c' := ExistingSteps(c, p, spec, kind, now, fault, gate);
    } else {
      c' := NewSteps(c, p, spec, kind, now, fault.NoFault?, gate);
    }
  }

  /**
    A put that fails ends what its id then names, unless a fire asked for it: the run it committed, and
    just as well an open run that an earlier request stored.
    */
  lemma FailedPutEnds(s: Store, q: QueueState, spec: RunSpec, kind: Kind, now: int, committed: bool, gate: GateSays)
    ensures var s' := Enqueued(s, q, spec, kind, now, PutFault(committed), gate).0;
            var id := spec.runId;
            && (id in s' <==> id in s || committed)
            && (id in s' && !(id in s && Ended(s[id].log)) ==> (Ended(s'[id].log) <==> !kind.Fire?))
            && (forall other <- s :: other in s' && (other != id || kind.Fire? ==> s'[other] == s[other]))
  {
    hide SettleOne;
    var id, queued := spec.runId, QueuedEvents(spec);
    QueuedDispatch(spec);
    EndedSnoc(queued, RunFailed(Infrastructure, "store unavailable"));
    if id in s {
      EndedSnoc(s[id].log, RunFailed(Infrastructure, "store unavailable"));
    }
  }
}
