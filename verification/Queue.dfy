/**
  The run queue: the Redis lists, hashes and leases, and each script as one step over them. A list
  is a sequence whose head is its left end. Lease times are not modelled: a lease expires at any
  moment (`Expire`).
  */
module Queue {
  import opened Protocol

  type Token = nat

  datatype QueueState = QueueState(
    runs: seq<RunId>,
    processing: seq<RunId>,
    lease: map<RunId, Token>,
    deliveries: map<RunId, nat>,
    pending: map<RunId, int>,
    parked: map<RunId, MessageId>)
  {
    predicate Queued(id: RunId) {
      id in runs || id in processing
    }

    /** Where a run that was pushed and has not ended must be found. */
    predicate Placed(id: RunId) {
      id in runs || id in processing || id in parked
    }
  }

  /** LREM with count 1: drops the first occurrence, from the head. */
  function RemoveFirst<T(==)>(list: seq<T>, x: T): seq<T> {
    if list == [] then [] else if list[0] == x then list[1..] else [list[0]] + RemoveFirst(list[1..], x)
  }

  lemma {:induction false} RemoveFirstKeeps<T>(list: seq<T>, x: T, y: T)
    requires y != x
    ensures y in RemoveFirst(list, x) <==> y in list
  {
    if list != [] && list[0] != x {
      RemoveFirstKeeps(list[1..], x, y);
      assert list == [list[0]] + list[1..];
    } else if list != [] {
      assert list == [x] + list[1..];
    }
  }

  lemma {:induction false} RemoveFirstWithin<T>(list: seq<T>, x: T, y: T)
    requires y in RemoveFirst(list, x)
    ensures y in list
  {
    if list[0] != x && y != list[0] {
      RemoveFirstWithin(list[1..], x, y);
    }
  }

  function Pend(q: QueueState, id: RunId, now: int): QueueState {
    if id in q.pending then q else q.(pending := q.pending[id := now])
  }

  function Unpend(q: QueueState, id: RunId): QueueState {
    q.(pending := q.pending - {id})
  }

  function Push(q: QueueState, id: RunId): QueueState {
    q.(runs := [id] + q.runs, pending := q.pending - {id})
  }

  function PushOnce(q: QueueState, id: RunId): (QueueState, bool) {
    if q.Queued(id) then (Unpend(q, id), false) else (Push(q, id), true)
  }

  function Claim(q: QueueState, token: Token): (QueueState, Option<RunId>) {
    if q.runs == [] then (q, None)
    else
      var id := q.runs[|q.runs| - 1];
      var moved := q.(runs := q.runs[..|q.runs| - 1], processing := [id] + q.processing);
      if id in q.lease then (moved.(processing := RemoveFirst(moved.processing, id)), None)
      else (moved.(lease := q.lease[id := token]), Some(id))
  }

  function Starts(q: QueueState, id: RunId): nat {
    if id in q.deliveries then q.deliveries[id] else 0
  }

  function Start(q: QueueState, id: RunId): (QueueState, nat) {
    (q.(deliveries := q.deliveries[id := Starts(q, id) + 1]), Starts(q, id) + 1)
  }

  predicate Holds(q: QueueState, id: RunId, token: Token) {
    id in q.lease && q.lease[id] == token
  }

  function Release(q: QueueState, id: RunId, token: Token): QueueState {
    if !Holds(q, id, token) then q
    else q.(processing := RemoveFirst(q.processing, id), runs := [id] + q.runs, lease := q.lease - {id})
  }

  function Park(q: QueueState, id: RunId, token: Token, ask: MessageId): (QueueState, bool) {
    if !Holds(q, id, token) then (q, false)
    else (q.(processing := RemoveFirst(q.processing, id), parked := q.parked[id := ask],
             lease := q.lease - {id}, deliveries := q.deliveries - {id}), true)
  }

  function Wake(q: QueueState, id: RunId, ask: MessageId): (QueueState, bool) {
    if !(id in q.parked && q.parked[id] == ask) then (q, false)
    else (q.(parked := q.parked - {id}, runs := [id] + q.runs), true)
  }

  function Ack(q: QueueState, id: RunId, token: Token): QueueState {
    q.(processing := RemoveFirst(q.processing, id), deliveries := q.deliveries - {id},
       lease := if Holds(q, id, token) then q.lease - {id} else q.lease)
  }

  function Expire(q: QueueState, id: RunId): QueueState {
    q.(lease := q.lease - {id})
  }

  /** The reaper's pass over a snapshot of the processing list. */
  function ReapFrom(q: QueueState, snapshot: seq<RunId>): QueueState
    decreases |snapshot|
  {
    if snapshot == [] then q
    else
      var id := snapshot[0];
      ReapFrom(if id in q.lease then q
               else q.(processing := RemoveFirst(q.processing, id), runs := q.runs + [id]), snapshot[1..])
  }

  function Reap(q: QueueState): QueueState {
    ReapFrom(q, q.processing)
  }

  // ---------------------------------------------------------------------------
  // What the reaper does, said without its loop
  // ---------------------------------------------------------------------------

  function Leased(ids: seq<RunId>, lease: map<RunId, Token>): seq<RunId> {
    if ids == [] then []
    else (if ids[0] in lease then [ids[0]] else []) + Leased(ids[1..], lease)
  }

  function Unleased(ids: seq<RunId>, lease: map<RunId, Token>): seq<RunId> {
    if ids == [] then []
    else (if ids[0] !in lease then [ids[0]] else []) + Unleased(ids[1..], lease)
  }

  lemma {:induction false} RemoveAfter(kept: seq<RunId>, id: RunId, rest: seq<RunId>)
    requires id !in kept
    ensures RemoveFirst(kept + [id] + rest, id) == kept + rest
  {
    var list := kept + [id] + rest;
    if kept == [] {
      assert list == [id] + rest && kept + rest == rest;
    } else {
      RemoveAfter(kept[1..], id, rest);
      assert list[1..] == kept[1..] + [id] + rest;
      assert kept + rest == [kept[0]] + (kept[1..] + rest);
    }
  }

  lemma {:induction false} ReapFromExactly(q: QueueState, kept: seq<RunId>, snapshot: seq<RunId>)
    requires q.processing == kept + snapshot && forall id <- kept :: id in q.lease
    ensures ReapFrom(q, snapshot)
         == q.(processing := kept + Leased(snapshot, q.lease), runs := q.runs + Unleased(snapshot, q.lease))
    decreases |snapshot|
  {
    hide RemoveFirst;
    if snapshot == [] {
      assert kept + snapshot == kept;
      assert q.runs + [] == q.runs;
      return;
    }
    var id, rest := snapshot[0], snapshot[1..];
    assert snapshot == [id] + rest;
    if id in q.lease {
      ReapFromExactly(q, kept + [id], rest);
      assert kept + [id] + Leased(rest, q.lease) == kept + ([id] + Leased(rest, q.lease));
      assert [] + Unleased(rest, q.lease) == Unleased(rest, q.lease);
    } else {
      RemoveAfter(kept, id, rest);
      assert q.processing == kept + [id] + rest;
      ReapFromExactly(q.(processing := kept + rest, runs := q.runs + [id]), kept, rest);
      assert q.runs + [id] + Unleased(rest, q.lease) == q.runs + ([id] + Unleased(rest, q.lease));
      assert [] + Leased(rest, q.lease) == Leased(rest, q.lease);
    }
  }

  /**
    The reaper hands back every claimed run whose lease is gone, in order and to the end claims take
    from, and touches nothing else, however often a run is listed.
    */
  lemma ReapExactly(q: QueueState)
    ensures Reap(q) == q.(processing := Leased(q.processing, q.lease), runs := q.runs + Unleased(q.processing, q.lease))
  {
    assert [] + q.processing == q.processing;
    ReapFromExactly(q, [], q.processing);
    assert [] + Leased(q.processing, q.lease) == Leased(q.processing, q.lease);
  }

  lemma {:induction false} LeasedMembers(ids: seq<RunId>, lease: map<RunId, Token>, id: RunId)
    ensures id in Leased(ids, lease) <==> id in ids && id in lease
    ensures id in Unleased(ids, lease) <==> id in ids && id !in lease
  {
    if ids != [] {
      LeasedMembers(ids[1..], lease, id);
      assert ids == [ids[0]] + ids[1..];
    }
  }

  /** Which runs a reap places where. */
  lemma ReapPlaces(q: QueueState, id: RunId)
    ensures var r := Reap(q);
            && (id in r.processing <==> id in q.processing && id in q.lease)
            && (id in r.runs <==> id in q.runs || (id in q.processing && id !in q.lease))
            && r.lease == q.lease && r.parked == q.parked && r.pending == q.pending
  {
    ReapExactly(q);
    LeasedMembers(q.processing, q.lease, id);
  }

  /** A wake for another ask, or a second one for the same, changes nothing. */
  lemma WakeOnlyItsAsk(q: QueueState, id: RunId, parkedOn: MessageId, ask: MessageId)
    requires id in q.parked && q.parked[id] == parkedOn
    ensures ask != parkedOn ==> Wake(q, id, ask) == (q, false)
    ensures var woken := Wake(q, id, parkedOn).0;
            id !in woken.parked && id in woken.runs && Wake(woken, id, ask) == (woken, false)
  {
  }

  /** Runs are claimed in the order they were pushed: a push, a release or a wake waits behind what is listed. */
  lemma FirstInFirstOut(q: QueueState, id: RunId, token: Token, held: Token, ask: MessageId)
    requires q.runs != [] && id != q.runs[|q.runs| - 1]
    ensures Claim(Push(q, id), token).1 == Claim(q, token).1
    ensures Claim(Release(q, id, held), token).1 == Claim(q, token).1
    ensures Claim(Wake(q, id, ask).0, token).1 == Claim(q, token).1
  {
  }

  /** A claim leases its run to its claimant alone: the run is in processing, and no second claim of it succeeds. */
  lemma ClaimIsExclusive(q: QueueState, token: Token, second: Token)
    requires Claim(q, token).1.Some?
    ensures var (q', claimed) := Claim(q, token);
            && Holds(q', claimed.value, token) && claimed.value in q'.processing
            && Claim(q', second).1 != claimed
  {
  }

  /** Starts are counted one by one; acknowledging or parking a run starts its count again. */
  lemma StartsCount(q: QueueState, id: RunId, token: Token, ask: MessageId)
    ensures Start(q, id).1 == Starts(q, id) + 1 && Starts(Start(q, id).0, id) == Starts(q, id) + 1
    ensures Starts(Ack(q, id, token), id) == 0
    ensures Holds(q, id, token) ==> Starts(Park(q, id, token, ask).0, id) == 0
    ensures forall other :: other != id ==> Starts(Start(q, id).0, other) == Starts(q, other)
    ensures Starts(Release(q, id, token), id) == Starts(q, id) == Starts(Reap(q), id)
  {
    ReapExactly(q);
  }

  /** Where a run stands in the queue. */
  datatype Standing = Standing(
    listed: bool, claimed: bool, lease: Option<Token>, starts: nat, since: Option<int>, parkedOn: Option<MessageId>)

  function StandingOf(q: QueueState, id: RunId): Standing {
    Standing(id in q.runs, id in q.processing, if id in q.lease then Some(q.lease[id]) else None, Starts(q, id),
             if id in q.pending then Some(q.pending[id]) else None, if id in q.parked then Some(q.parked[id]) else None)
  }

  /** A script over one run changes where that run stands and no other. */
  lemma OthersUntouched(q: QueueState, id: RunId, other: RunId, ask: MessageId, now: int)
    requires other != id
    ensures StandingOf(Pend(q, id, now), other) == StandingOf(q, other)
    ensures StandingOf(Unpend(q, id), other) == StandingOf(q, other)
    ensures StandingOf(Push(q, id), other) == StandingOf(q, other)
    ensures StandingOf(PushOnce(q, id).0, other) == StandingOf(q, other)
    ensures StandingOf(Start(q, id).0, other) == StandingOf(q, other)
    ensures StandingOf(Wake(q, id, ask).0, other) == StandingOf(q, other)
    ensures StandingOf(Expire(q, id), other) == StandingOf(q, other)
  {
  }

  /** So do the scripts that end a claim. */
  lemma OtherClaimsUntouched(q: QueueState, id: RunId, other: RunId, token: Token, ask: MessageId)
    requires other != id
    ensures StandingOf(Release(q, id, token), other) == StandingOf(q, other)
    ensures StandingOf(Park(q, id, token, ask).0, other) == StandingOf(q, other)
    ensures StandingOf(Ack(q, id, token), other) == StandingOf(q, other)
  {
    hide RemoveFirst;
    RemoveFirstKeeps(q.processing, id, other);
  }

  /** Asking for a run again does not put off its sweep; taking it off pending, or pushing it, ends that. */
  lemma PendKeepsTime(q: QueueState, id: RunId, first: int, again: int)
    requires id !in q.pending
    ensures StandingOf(Pend(q, id, first), id) == StandingOf(q, id).(since := Some(first))
    ensures Pend(Pend(q, id, first), id, again) == Pend(q, id, first)
    ensures StandingOf(Unpend(Pend(q, id, first), id), id) == StandingOf(q, id)
    ensures StandingOf(Push(Pend(q, id, first), id), id) == StandingOf(q, id).(listed := true)
    ensures StandingOf(PushOnce(Pend(q, id, first), id).0, id) == StandingOf(q, id).(listed := q.Queued(id) ==> id in q.runs)
  {
  }

  /** A token that does not hold the lease releases, parks and takes away nothing; the one that does gives it up. */
  lemma LeaseIsItsHolders(q: QueueState, id: RunId, token: Token, ask: MessageId)
    ensures !Holds(q, id, token) ==> Release(q, id, token) == q && Park(q, id, token, ask) == (q, false)
    ensures !Holds(q, id, token) ==> Ack(q, id, token).lease == q.lease
    ensures Holds(q, id, token) ==>
              id !in Release(q, id, token).lease && id !in Park(q, id, token, ask).0.lease && id !in Ack(q, id, token).lease
    ensures Holds(q, id, token) ==> id in Release(q, id, token).runs && Park(q, id, token, ask).0.parked == q.parked[id := ask]
  {
  }
}
