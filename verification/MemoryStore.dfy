/**
  The in-memory store: runs, the outbox that numbers their events, and the stops, updated in place.
  Each method is one critical section of the store; the time of a write comes from the caller.
  */
module MemoryStores {
  import opened Protocol
  import opened Stores
  import opened Outbox
  import opened Stops

  datatype PutRun = Inserted | Existed

  /** A batch of events ends at its terminal event, if it has one. */
  method CheckOneTerminal(events: Log) returns (ok: bool)
    ensures ok <==> EndsOnce(events)
  {
    for i := 0 to |events|
      invariant forall j :: 0 <= j < i ==> !IsRunEnd(events[j])
    {
      if IsRunEnd(events[i]) {
        return i + 1 >= |events|;
      }
    }
    return true;
  }

  class InMemoryStore {
    var runs: Store
    var counts: map<Principal, nat>
    var rows: seq<Row>
    var pruned: map<Principal, nat>
    var stops: seq<StopEntry>
    var numbers: map<RunId, nat>
    var order: nat

    function OutboxTable(): OutboxState
      reads this
    {
      OutboxState(counts, rows, pruned)
    }

    function StopTable(): StopState
      reads this
    {
      StopState(stops, numbers, order)
    }

    ghost predicate Valid()
      reads this
    {
      OutboxOk(OutboxTable(), runs) && StopsOk(runs, StopTable()) && forall id <- runs :: EndsOnce(runs[id].log)
    }

    constructor ()
      ensures Valid() && runs == map[] && OutboxTable() == OutboxState(map[], [], map[]) && StopTable() == StopState([], map[], 0)
    {
      runs, counts, rows, pruned := map[], map[], [], map[];
      stops, numbers, order := [], map[], 0;
    }

    /** Numbers `count` events stored in a run's log after its first `stored`, in its owner's outbox. */
    method Number(owner: Owner, run: RunId, stored: nat, count: nat, now: int)
      modifies this`rows, this`counts
      ensures OutboxTable() == Outbox.Number(old(OutboxTable()), PrincipalOf(owner), run, stored, count, now)
    {
      var principal := PrincipalOf(owner);
      var first := (if principal in counts then counts[principal] else 0) + 1;
      for n := 0 to count
        invariant rows == old(rows) + NewRows(principal, first, run, stored, n, now)
        invariant counts == old(counts)
      {
        rows := rows + [Row(principal, first + n, run, stored + n + 1, now)];
      }
      counts := counts[principal := first + count - 1];
    }

    /** Stores a run and its first events, unless one is stored under its id. */
    method PutRun(run: Stored, now: int) returns (r: Option<PutRun>)
      requires Valid()
      modifies this`runs, this`rows, this`counts, this`numbers, this`order
      ensures Valid()
      ensures r.Some? <==> EndsOnce(run.log)
      ensures r == Some(Inserted) ==>
                && run.spec.runId !in old(runs) && runs == old(runs)[run.spec.runId := run]
                && OutboxTable() == Outbox.Number(old(OutboxTable()), PrincipalOf(run.spec.owner), run.spec.runId, 0, |run.log|, now)
                && StopTable() == PutNumber(old(StopTable()), run.spec.runId)
      ensures r != Some(Inserted) ==> runs == old(runs) && OutboxTable() == old(OutboxTable()) && StopTable() == old(StopTable())
      ensures r == Some(Existed) ==> run.spec.runId in runs
      ensures old(Rooted(runs)) && HopFits(old(runs), run.spec) ==> Rooted(runs)
    {
      hide Rooted;
      hide HopFits;
      hide OutboxOk;
      hide StopsOk;
      var ok := CheckOneTerminal(run.log);
      if !ok {
        return None;
      }
      var id := run.spec.runId;
      if id in runs {
        return Some(Existed);
      }
      NumberKeeps(OutboxTable(), runs, id, run, 0, now);
      PutRunLater(runs, StopTable(), run);
      if Rooted(runs) && HopFits(runs, run.spec) {
        PutRunRooted(runs, run);
      }
      Number(run.spec.owner, id, 0, |run.log|, now);
      order := order + 1;
      numbers := numbers[id := order];
      runs := runs[id := run];
      return Some(Inserted);
    }

    /** `append_events`, and with `seen` also refused unless the log is `seen` events long. */
    method AppendChecked(id: RunId, seen: Option<nat>, events: Log, now: int) returns (r: Option<Append>)
      requires Valid()
      modifies this`runs, this`rows, this`counts
      ensures Valid()
      ensures r.Some? <==> EndsOnce(events)
      ensures r.Some? ==> (runs, r.value) == AppendTo(old(runs), id, seen, events)
      ensures r.None? ==> runs == old(runs)
      ensures if r == Some(Appended) then OutboxTable() == Outbox.Number(old(OutboxTable()), PrincipalOf(old(runs)[id].spec.owner),
                                                                    id, |old(runs)[id].log|, |events|, now)
              else OutboxTable() == old(OutboxTable())
    {
      hide OutboxOk;
      hide StopsOk;
      var ok := CheckOneTerminal(events);
      if !ok {
        return None;
      }
      if id !in runs {
        return Some(Missing);
      }
      var stored := runs[id];
      var ended := HasEnded(stored.log);
      if ended {
        return Some(Terminal);
      }
      if seen.Some? && seen.value != |stored.log| {
        return Some(Moved);
      }
      var grown := stored.(log := stored.log + events);
      NumberKeeps(OutboxTable(), runs, id, grown, |stored.log|, now);
      AppendLater(runs, StopTable(), id, grown.log);
      GrownEndsOnce(stored.log, events);
      Number(stored.spec.owner, id, |stored.log|, |events|, now);
      runs := runs[id := grown];
      return Some(Appended);
    }

    /** Drops each principal's rows up to the last one stored before `before`. */
    method PruneOutbox(before: int) returns (dropped: nat)
      requires Valid()
      modifies this`rows, this`pruned
      ensures Valid()
      ensures OutboxTable() == Prune(old(OutboxTable()), before)
      ensures dropped == |old(rows)| - |rows|
    {
      hide OutboxOk;
      hide StopsOk;
      hide Prune;
      PruneKeeps(OutboxTable(), runs, before);
      PruneIs(OutboxTable(), before);
      var through := ThroughOf(rows, before);
      var kept := RetainedOf(rows, through);
      dropped := |rows| - |kept|;
      rows := kept;
      pruned := MergePruned(pruned, through);
    }

    /** Records a stop, now. */
    method PutStop(owner: Owner, scope: StopScope)
      requires Valid()
      modifies this`stops, this`order
      ensures Valid()
      ensures StopTable() == Stops.PutStop(old(StopTable()), PrincipalOf(owner), scope)
    {
      hide OutboxOk;
      hide StopsOk;
      PutStopLater(runs, StopTable(), PrincipalOf(owner), scope);
      var key := PrincipalOf(owner);
      var kept: seq<StopEntry> := [];
      for i := 0 to |stops|
        invariant kept == Without(stops[..i], key, scope)
      {
        assert stops[..i + 1][..i] == stops[..i];
        if !(stops[i].principal == key && stops[i].scope == scope) {
          kept := kept + [stops[i]];
        }
      }
      assert stops[..|stops|] == stops;
      order := order + 1;
      stops := kept + [StopEntry(key, scope, order)];
    }

    /** A page of an owner's outbox; every entry's event is stored. */
    method OutboxAfter(owner: Owner, after: nat, limit: nat) returns (page: Page)
      requires Valid()
      ensures page == Outbox.OutboxAfter(OutboxTable(), PrincipalOf(owner), after, limit)
      ensures forall row <- page.entries :: Names(runs, row)
    {
      var p := PrincipalOf(owner);
      var entries: seq<Row> := [];
      for i := 0 to |rows|
        invariant entries == Take(Past(RowsOf(rows[..i], p), after), limit)
        invariant forall row <- entries :: Names(runs, row)
      {
        var row := rows[i];
        PageSnoc(rows, i, p, after, limit);
        if row.principal == p && row.number > after && |entries| < limit {
          entries := entries + [row];
        }
      }
      assert rows[..|rows|] == rows;
      page := Page(entries, if p in pruned then pruned[p] else 0, if p in counts then counts[p] else 0);
    }
  }

  lemma PruneIs(o: OutboxState, before: int)
    ensures Prune(o, before)
         == OutboxState(o.counts, Retained(o.rows, Through(o.rows, before)), PrunedTo(o.pruned, Through(o.rows, before)))
  {
  }

  method ThroughOf(rows: seq<Row>, before: int) returns (through: map<Principal, nat>)
    ensures through == Through(rows, before)
  {
    through := map[];
    for i := 0 to |rows|
      invariant through == Through(rows[..i], before)
    {
      var row := rows[i];
      assert rows[..i + 1][..i] == rows[..i];
      if row.storedMs < before {
        var last := if row.principal in through then through[row.principal] else 0;
        through := through[row.principal := Max(last, row.number)];
      }
    }
    assert rows[..|rows|] == rows;
  }

  method RetainedOf(rows: seq<Row>, through: map<Principal, nat>) returns (kept: seq<Row>)
    ensures kept == Retained(rows, through) && |kept| <= |rows|
  {
    kept := [];
    for i := 0 to |rows|
      invariant kept == Retained(rows[..i], through) && |kept| <= i
    {
      assert rows[..i + 1][..i] == rows[..i];
      if Retains(through, rows[i]) {
        kept := kept + [rows[i]];
      }
    }
    assert rows[..|rows|] == rows;
  }

  method MergePruned(pruned: map<Principal, nat>, through: map<Principal, nat>) returns (merged: map<Principal, nat>)
    ensures merged == PrunedTo(pruned, through)
  {
    merged := pruned;
    var left := through.Keys;
    while left != {}
      invariant left <= through.Keys
      invariant merged.Keys == pruned.Keys + (through.Keys - left)
      invariant forall p <- merged ::
                  merged[p] == if p in through && p !in left then Max(Of(pruned, p), through[p]) else pruned[p]
      decreases left
    {
      var p :| p in left;
      merged := merged[p := Max(if p in merged then merged[p] else 0, through[p])];
      left := left - {p};
    }
  }

  lemma PastSnoc(rows: seq<Row>, after: nat, row: Row)
    ensures Past(rows + [row], after) == Past(rows, after) + (if row.number > after then [row] else [])
  {
  }

  /** One more row adds to a page if it is the principal's, past the cursor, and the page has room. */
  lemma PageSnoc(rows: seq<Row>, i: nat, p: Principal, after: nat, limit: nat)
    requires i < |rows|
    ensures var row, page := rows[i], Take(Past(RowsOf(rows[..i], p), after), limit);
            Take(Past(RowsOf(rows[..i + 1], p), after), limit) ==
              if row.principal == p && row.number > after && |page| < limit then page + [row] else page
  {
    var mine := RowsOf(rows[..i], p);
    assert rows[..i + 1][..i] == rows[..i];
    if rows[i].principal == p {
      PastSnoc(mine, after, rows[i]);
    } else {
      assert mine + [] == mine;
    }
  }

  lemma GrownEndsOnce(log: Log, events: Log)
    requires !Ended(log) && EndsOnce(events)
    ensures EndsOnce(log + events)
  {
  }
}
