/**
  The run queue as the object every process shares: each script is a method, and does to the fields
  what the function of the same name in `Queue` says.
  */
module RunQueues {
  import opened Protocol
  import opened Queue

  class RunQueue {
    var runs: seq<RunId>
    var processing: seq<RunId>
    var lease: map<RunId, Token>
    var deliveries: map<RunId, nat>
    var pending: map<RunId, int>
    var parked: map<RunId, MessageId>

    function State(): QueueState
      reads this
    {
      QueueState(runs, processing, lease, deliveries, pending, parked)
    }

    constructor ()
      ensures State() == QueueState([], [], map[], map[], map[], map[])
    {
      runs, processing, lease, deliveries, pending, parked := [], [], map[], map[], map[], map[];
    }

    method Pend(id: RunId, now: int)
      modifies this`pending
      ensures State() == Queue.Pend(old(State()), id, now)
    {
      if id !in pending {
        pending := pending[id := now];
      }
    }

    method Unpend(id: RunId)
      modifies this`pending
      ensures State() == Queue.Unpend(old(State()), id)
    {
      pending := pending - {id};
    }

    method Push(id: RunId)
      modifies this`runs, this`pending
      ensures State() == Queue.Push(old(State()), id)
    {
      runs := [id] + runs;
      pending := pending - {id};
    }

    method PushOnce(id: RunId) returns (pushed: bool)
      modifies this`runs, this`pending
      ensures (State(), pushed) == Queue.PushOnce(old(State()), id)
    {
      pending := pending - {id};
      if id in runs || id in processing {
        return false;
      }
      runs := [id] + runs;
      return true;
    }

    method Claim(token: Token) returns (claimed: Option<RunId>)
      modifies this`runs, this`processing, this`lease
      ensures (State(), claimed) == Queue.Claim(old(State()), token)
    {
      if runs == [] {
        return None;
      }
      var id := runs[|runs| - 1];
      runs := runs[..|runs| - 1];
      processing := [id] + processing;
      if id in lease {
        processing := RemoveFirst(processing, id);
        return None;
      }
      lease := lease[id := token];
      return Some(id);
    }

    method Start(id: RunId) returns (starts: nat)
      modifies this`deliveries
      ensures (State(), starts) == Queue.Start(old(State()), id)
    {
      starts := (if id in deliveries then deliveries[id] else 0) + 1;
      deliveries := deliveries[id := starts];
    }

    method Release(id: RunId, token: Token)
      modifies this`runs, this`processing, this`lease
      ensures State() == Queue.Release(old(State()), id, token)
    {
      if id in lease && lease[id] == token {
        processing := RemoveFirst(processing, id);
        runs := [id] + runs;
        lease := lease - {id};
      }
    }

    method Park(id: RunId, token: Token, ask: MessageId) returns (done: bool)
      modifies this`processing, this`parked, this`lease, this`deliveries
      ensures (State(), done) == Queue.Park(old(State()), id, token, ask)
    {
      if !(id in lease && lease[id] == token) {
        return false;
      }
      processing := RemoveFirst(processing, id);
      parked := parked[id := ask];
      lease := lease - {id};
      deliveries := deliveries - {id};
      return true;
    }

    method Wake(id: RunId, ask: MessageId) returns (woken: bool)
      modifies this`parked, this`runs
      ensures (State(), woken) == Queue.Wake(old(State()), id, ask)
    {
      if !(id in parked && parked[id] == ask) {
        return false;
      }
      parked := parked - {id};
      runs := [id] + runs;
      return true;
    }

    method Ack(id: RunId, token: Token)
      modifies this`processing, this`deliveries, this`lease
      ensures State() == Queue.Ack(old(State()), id, token)
    {
      processing := RemoveFirst(processing, id);
      deliveries := deliveries - {id};
      if id in lease && lease[id] == token {
        lease := lease - {id};
      }
    }

    method Reap() returns (moved: seq<RunId>)
      modifies this`processing, this`runs
      ensures State() == Queue.Reap(old(State()))
      ensures moved == Unleased(old(processing), lease)
    {
      var snapshot := processing;
      moved := [];
      for i := 0 to |snapshot|
        invariant ReapFrom(State(), snapshot[i..]) == Queue.Reap(old(State()))
        invariant moved + Unleased(snapshot[i..], lease) == Unleased(snapshot, lease)
        invariant lease == old(lease)
      {
        var id := snapshot[i];
        assert snapshot[i..][0] == id && snapshot[i..][1..] == snapshot[i + 1..];
        if id !in lease {
          processing := RemoveFirst(processing, id);
          runs := runs + [id];
          moved := moved + [id];
        }
      }
    }
  }
}
