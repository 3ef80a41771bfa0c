/**
  The outbox: each principal's events, numbered in the order they were stored, with old numbers
  pruned. A number is never used twice and none is left out.
  */
module Outbox {
  import opened Protocol
  import opened Stores

  /** Issuer and subject; the tenant is not part of who the caller is. */
  type Principal = (string, string)

  function PrincipalOf(owner: Owner): Principal {
    (owner.issuer, owner.subject)
  }

  /** Numbers the event at `place` (counted from 1) of a run's log. */
  datatype Row = Row(principal: Principal, number: nat, runId: RunId, place: nat, storedMs: int)

  datatype OutboxState = OutboxState(counts: map<Principal, nat>, rows: seq<Row>, pruned: map<Principal, nat>)

  function Of(m: map<Principal, nat>, p: Principal): nat {
    if p in m then m[p] else 0
  }

  function NewRow(p: Principal, first: nat, run: RunId, stored: nat, n: nat, ms: int): Row {
    Row(p, first + n, run, stored + n + 1, ms)
  }

  /** Rows for `count` events stored after the first `stored` of a run's log. */
  function NewRows(p: Principal, first: nat, run: RunId, stored: nat, count: nat, ms: int): (rows: seq<Row>)
    ensures |rows| == count
    ensures forall n :: 0 <= n < count ==> rows[n] == NewRow(p, first, run, stored, n, ms)
  {
    if count == 0 then []
    else NewRows(p, first, run, stored, count - 1, ms) + [NewRow(p, first, run, stored, count - 1, ms)]
  }

  function Number(o: OutboxState, p: Principal, run: RunId, stored: nat, count: nat, ms: int): OutboxState {
    o.(rows := o.rows + NewRows(p, Of(o.counts, p) + 1, run, stored, count, ms),
       counts := o.counts[p := Of(o.counts, p) + count])
  }

  // ---------------------------------------------------------------------------
  // Pruning
  // ---------------------------------------------------------------------------

  function Max(a: nat, b: nat): nat {
    if a < b then b else a
  }

  /** For each principal with a row stored before `before`, the highest number of such a row. */
  function Through(rows: seq<Row>, before: int): map<Principal, nat> {
    if rows == [] then map[]
    else
      var sofar, row := Through(rows[..|rows| - 1], before), rows[|rows| - 1];
      if row.storedMs < before then sofar[row.principal := Max(Of(sofar, row.principal), row.number)] else sofar
  }

  predicate Retains(through: map<Principal, nat>, row: Row) {
    row.principal !in through || row.number > through[row.principal]
  }

  function Retained(rows: seq<Row>, through: map<Principal, nat>): seq<Row> {
    if rows == [] then []
    else Retained(rows[..|rows| - 1], through) +
         (if Retains(through, rows[|rows| - 1]) then [rows[|rows| - 1]] else [])
  }

  function PrunedTo(pruned: map<Principal, nat>, through: map<Principal, nat>): map<Principal, nat> {
    map p | p in pruned.Keys + through.Keys :: if p in through then Max(Of(pruned, p), through[p]) else pruned[p]
  }

  function Prune(o: OutboxState, before: int): OutboxState {
    var through := Through(o.rows, before);
    o.(rows := Retained(o.rows, through), pruned := PrunedTo(o.pruned, through))
  }

  // ---------------------------------------------------------------------------
  // The invariant
  // ---------------------------------------------------------------------------

  function RowsOf(rows: seq<Row>, p: Principal): seq<Row> {
    if rows == [] then []
    else RowsOf(rows[..|rows| - 1], p) + (if rows[|rows| - 1].principal == p then [rows[|rows| - 1]] else [])
  }

  predicate Consecutive(rows: seq<Row>, after: nat) {
    forall i :: 0 <= i < |rows| ==> rows[i].number == after + 1 + i
  }

  /** A principal's rows are the numbers after what was pruned up to its count, each once and in order. */
  predicate NumberedFor(o: OutboxState, p: Principal) {
    && Consecutive(RowsOf(o.rows, p), Of(o.pruned, p))
    && Of(o.pruned, p) + |RowsOf(o.rows, p)| == Of(o.counts, p)
  }

  ghost predicate Numbered(o: OutboxState) {
    forall p :: NumberedFor(o, p)
  }

  /** A row names a stored event of its principal's. */
  predicate Names(s: Store, row: Row) {
    row.runId in s && 1 <= row.place <= |s[row.runId].log| && PrincipalOf(s[row.runId].spec.owner) == row.principal
  }

  predicate NamesEach(o: OutboxState, s: Store) {
    && (forall i :: 0 <= i < |o.rows| ==> Names(s, o.rows[i]))
    && (forall i, j :: 0 <= i < j < |o.rows| ==> (o.rows[i].runId, o.rows[i].place) != (o.rows[j].runId, o.rows[j].place))
  }

  /** How many events a run adds to a principal's outbox. */
  function Share(run: Stored, p: Principal): nat {
    if PrincipalOf(run.spec.owner) == p then |run.log| else 0
  }

  /** The events stored in all of a principal's runs. */
  ghost function Total(s: Store, p: Principal): nat
    decreases |s|
  {
    if s == map[] then 0
    else
      var id :| id in s;
      Share(s[id], p) + Total(s - {id}, p)
  }

  ghost predicate Conserved(o: OutboxState, s: Store) {
    forall p :: Of(o.counts, p) == Total(s, p)
  }

  ghost predicate OutboxOk(o: OutboxState, s: Store) {
    Numbered(o) && NamesEach(o, s) && Conserved(o, s)
  }

  // ---------------------------------------------------------------------------
  // Sums over runs
  // ---------------------------------------------------------------------------

  /** The sum does not depend on the order its runs are taken in. */
  lemma {:induction false} TotalWithout(s: Store, p: Principal, id: RunId)
    requires id in s
    ensures Total(s, p) == Share(s[id], p) + Total(s - {id}, p)
    decreases |s|
  {
    var first :| first in s && Total(s, p) == Share(s[first], p) + Total(s - {first}, p);
    if first != id {
      TotalWithout(s - {first}, p, id);
      TotalWithout(s - {id}, p, first);
      assert s - {first} - {id} == s - {id} - {first};
    }
  }

  lemma TotalUpdate(s: Store, p: Principal, id: RunId, run: Stored)
    ensures Total(s[id := run], p) + (if id in s then Share(s[id], p) else 0) == Total(s, p) + Share(run, p)
  {
    TotalWithout(s[id := run], p, id);
    assert s[id := run] - {id} == s - {id};
    if id in s {
      TotalWithout(s, p, id);
    } else {
      assert s - {id} == s;
    }
  }

  // ---------------------------------------------------------------------------
  // Numbering keeps the invariant
  // ---------------------------------------------------------------------------

  lemma {:induction false} RowsOfNew(rows: seq<Row>, p: Principal, q: Principal, first: nat, run: RunId, stored: nat, count: nat, ms: int)
    ensures var added := NewRows(q, first, run, stored, count, ms);
            RowsOf(rows + added, p) == RowsOf(rows, p) + (if p == q then added else [])
  {
    var added := NewRows(q, first, run, stored, count, ms);
    if count == 0 {
      assert rows + added == rows;
    } else {
      RowsOfNew(rows, p, q, first, run, stored, count - 1, ms);
      var front := NewRows(q, first, run, stored, count - 1, ms);
      var all := rows + added;
      assert all[..|all| - 1] == rows + front && all[|all| - 1] == added[count - 1];
    }
  }

  lemma NumberKeepsFor(o: OutboxState, p: Principal, q: Principal, run: RunId, stored: nat, count: nat, ms: int)
    requires NumberedFor(o, p) && NumberedFor(o, q)
    ensures NumberedFor(Number(o, q, run, stored, count, ms), p)
  {
    hide RowsOf;
    var added := NewRows(q, Of(o.counts, q) + 1, run, stored, count, ms);
    hide NewRows;
    RowsOfNew(o.rows, p, q, Of(o.counts, q) + 1, run, stored, count, ms);
    var mine := RowsOf(o.rows, p);
    if p == q {
      var all := mine + added;
      forall i | 0 <= i < |all| ensures all[i].number == Of(o.pruned, p) + 1 + i {
        if i >= |mine| {
          assert added[i - |mine|] == NewRow(q, Of(o.counts, q) + 1, run, stored, i - |mine|, ms);
        }
      }
    } else {
      assert mine + [] == mine;
    }
  }

  lemma NamesKept(o: OutboxState, s: Store, id: RunId, run: Stored, stored: nat, ms: int)
    requires NamesEach(o, s) && stored == (if id in s then |s[id].log| else 0)
    requires id in s ==> s[id].spec == run.spec && s[id].log <= run.log
    ensures NamesEach(Number(o, PrincipalOf(run.spec.owner), id, stored, |run.log| - stored, ms), s[id := run])
  {
  }

  /** Storing more events of a run, numbered as they are stored, keeps the outbox in order. */
  lemma NumberKeeps(o: OutboxState, s: Store, id: RunId, run: Stored, stored: nat, ms: int)
    requires OutboxOk(o, s) && stored == (if id in s then |s[id].log| else 0)
    requires id in s ==> s[id].spec == run.spec && s[id].log <= run.log
    ensures OutboxOk(Number(o, PrincipalOf(run.spec.owner), id, stored, |run.log| - stored, ms), s[id := run])
  {
    hide NumberedFor;
    hide NamesEach;
    hide NewRows;
    var q := PrincipalOf(run.spec.owner);
    var s', o' := s[id := run], Number(o, q, id, stored, |run.log| - stored, ms);
    NamesKept(o, s, id, run, stored, ms);
    forall p ensures NumberedFor(o', p) {
      NumberKeepsFor(o, p, q, id, stored, |run.log| - stored, ms);
    }
    forall p ensures Of(o'.counts, p) == Total(s', p) {
      assert Of(o.counts, p) == Total(s, p);
      TotalUpdate(s, p, id, run);
    }
  }

  // ---------------------------------------------------------------------------
  // Pruning keeps the invariant
  // ---------------------------------------------------------------------------

  /** What is pruned through is a number the principal still had, whatever the stored times. */
  lemma {:induction false} ThroughIsNumbered(rows: seq<Row>, before: int, p: Principal, after: nat)
    requires Consecutive(RowsOf(rows, p), after)
    ensures p in Through(rows, before) ==> after < Through(rows, before)[p] <= after + |RowsOf(rows, p)|
  {
    if rows != [] {
      var front, row := rows[..|rows| - 1], rows[|rows| - 1];
      var mine := RowsOf(rows, p);
      assert forall i :: 0 <= i < |RowsOf(front, p)| ==> RowsOf(front, p)[i] == mine[i];
      ThroughIsNumbered(front, before, p, after);
      if row.principal == p {
        assert mine[|mine| - 1] == row;
      }
    }
  }

  lemma RetainedSnoc(rows: seq<Row>, through: map<Principal, nat>, p: Principal)
    requires rows != []
    ensures var front, row := rows[..|rows| - 1], rows[|rows| - 1];
            && RowsOf(rows, p) == RowsOf(front, p) + (if row.principal == p then [row] else [])
            && RowsOf(Retained(rows, through), p)
            == RowsOf(Retained(front, through), p) + (if Retains(through, row) && row.principal == p then [row] else [])
  {
    var front, row := rows[..|rows| - 1], rows[|rows| - 1];
    var kept := Retained(front, through);
    if Retains(through, row) {
      assert (kept + [row])[..|kept|] == kept;
    } else {
      assert kept + [] == kept;
    }
  }

  lemma DroppedSnoc(mine: seq<Row>, row: Row, through: map<Principal, nat>, p: Principal, after: nat)
    requires row.principal == p && row.number == after + |mine| + 1
    ensures Dropped(mine + [row], through, p, after)
         == Dropped(mine, through, p, after) + (if Retains(through, row) then [row] else [])
  {
  }

  /** Retaining drops a head of each principal's rows. */
  lemma {:induction false} RetainedRows(rows: seq<Row>, through: map<Principal, nat>, p: Principal, after: nat)
    requires Consecutive(RowsOf(rows, p), after)
    ensures RowsOf(Retained(rows, through), p) == Dropped(RowsOf(rows, p), through, p, after)
  {
    if rows == [] {
      return;
    }
    hide RowsOf;
    hide Retained;
    hide Dropped;
    hide Retains;
    var front, row := rows[..|rows| - 1], rows[|rows| - 1];
    var before := RowsOf(front, p);
    RetainedSnoc(rows, through, p);
    ConsecutiveFront(before, if row.principal == p then [row] else [], after);
    RetainedRows(front, through, p, after);
    if row.principal == p {
      assert (before + [row])[|before|] == row;
      DroppedSnoc(before, row, through, p, after);
    } else {
      assert before + [] == before;
      assert RowsOf(Retained(front, through), p) + [] == RowsOf(Retained(front, through), p);
    }
  }

  lemma ConsecutiveFront(rows: seq<Row>, more: seq<Row>, after: nat)
    requires Consecutive(rows + more, after)
    ensures Consecutive(rows, after)
  {
    assert forall i :: 0 <= i < |rows| ==> (rows + more)[i] == rows[i];
  }

  /** Rows numbered from `after` on, without those up to what a principal is pruned through. */
  function Dropped(mine: seq<Row>, through: map<Principal, nat>, p: Principal, after: nat): seq<Row> {
    var cut := if p in through then SaturatingSub(through[p], after) else 0;
    if cut <= |mine| then mine[cut..] else []
  }

  lemma PruneKeepsFor(o: OutboxState, before: int, p: Principal)
    requires NumberedFor(o, p)
    ensures NumberedFor(Prune(o, before), p)
  {
    hide RowsOf;
    hide Retained;
    hide Through;
    var through := Through(o.rows, before);
    ThroughIsNumbered(o.rows, before, p, Of(o.pruned, p));
    RetainedRows(o.rows, through, p, Of(o.pruned, p));
  }

  /** Each retained row was a row, and the order is kept. */
  lemma {:induction false} RetainedFrom(rows: seq<Row>, through: map<Principal, nat>) returns (at: seq<nat>)
    ensures |at| == |Retained(rows, through)|
    ensures forall i :: 0 <= i < |at| ==> at[i] < |rows| && Retained(rows, through)[i] == rows[at[i]]
    ensures forall i, j :: 0 <= i < j < |at| ==> at[i] < at[j]
  {
    if rows == [] {
      return [];
    }
    at := RetainedFrom(rows[..|rows| - 1], through);
    if Retains(through, rows[|rows| - 1]) {
      at := at + [|rows| - 1];
    }
  }

  /** Pruning removes old rows and nothing else: what remains is still numbered through without a gap. */
  lemma PruneKeeps(o: OutboxState, s: Store, before: int)
    requires OutboxOk(o, s)
    ensures OutboxOk(Prune(o, before), s)
  {
    hide NumberedFor;
    hide RowsOf;
    hide Retained;
    hide Through;
    forall p ensures NumberedFor(Prune(o, before), p) {
      PruneKeepsFor(o, before, p);
    }
    var at := RetainedFrom(o.rows, Through(o.rows, before));
  }

  // ---------------------------------------------------------------------------
  // What a prune drops, said by the stored times
  // ---------------------------------------------------------------------------

  /** A row of the principal's that was stored before a time. */
  predicate Aged(row: Row, p: Principal, before: int) {
    row.principal == p && row.storedMs < before
  }

  predicate AnyAged(rows: seq<Row>, p: Principal, before: int) {
    exists row :: row in rows && Aged(row, p, before)
  }

  /** A principal is pruned through its highest aged number, and only if it has one. */
  lemma {:induction false} ThroughIsHighest(rows: seq<Row>, before: int, p: Principal)
    ensures p in Through(rows, before) <==> AnyAged(rows, p, before)
    ensures p in Through(rows, before) ==>
              && (forall row <- rows :: Aged(row, p, before) ==> row.number <= Through(rows, before)[p])
              && (exists row :: row in rows && Aged(row, p, before) && row.number == Through(rows, before)[p])
  {
    if rows != [] {
      var front, last := rows[..|rows| - 1], rows[|rows| - 1];
      ThroughIsHighest(front, before, p);
      assert rows == front + [last];
      assert last in rows;
      if AnyAged(front, p, before) {
        var row :| row in front && Aged(row, p, before);
        assert row in rows;
      }
    }
  }

  lemma {:induction false} RetainedIff(rows: seq<Row>, through: map<Principal, nat>, row: Row)
    ensures row in Retained(rows, through) <==> row in rows && Retains(through, row)
  {
    if rows != [] {
      RetainedIff(rows[..|rows| - 1], through, row);
      assert rows == rows[..|rows| - 1] + [rows[|rows| - 1]];
    }
  }

  /** A row is dropped exactly when it, or a row of its principal's numbered after it, was stored before the time. */
  lemma PruneDrops(o: OutboxState, before: int, row: Row)
    ensures row in Prune(o, before).rows <==>
              row in o.rows && forall other <- o.rows :: Aged(other, row.principal, before) ==> other.number < row.number
  {
    hide Through;
    hide Retained;
    ThroughIsHighest(o.rows, before, row.principal);
    RetainedIff(o.rows, Through(o.rows, before), row);
  }

  /** What is pruned moves to the highest aged number, or stays; the counts are untouched. */
  lemma PrunedMark(o: OutboxState, before: int, p: Principal)
    requires NumberedFor(o, p)
    ensures var mark := Of(Prune(o, before).pruned, p);
            && Prune(o, before).counts == o.counts
            && (forall row <- o.rows :: Aged(row, p, before) ==> row.number <= mark)
            && (AnyAged(o.rows, p, before) ==> exists row :: row in o.rows && Aged(row, p, before) && row.number == mark)
            && (!AnyAged(o.rows, p, before) ==> mark == Of(o.pruned, p))
  {
    hide Through;
    hide Retained;
    hide RowsOf;
    ThroughIsHighest(o.rows, before, p);
    ThroughIsNumbered(o.rows, before, p, Of(o.pruned, p));
  }

  /** The rows that storing events adds are numbered on from the count, name those events in order, and carry the time. */
  lemma NumberAdds(o: OutboxState, p: Principal, run: RunId, stored: nat, count: nat, ms: int)
    ensures var o' := Number(o, p, run, stored, count, ms);
            && o.rows <= o'.rows && |o'.rows| == |o.rows| + count && o'.pruned == o.pruned
            && (forall j :: |o.rows| <= j < |o'.rows| ==>
                  var i := j - |o.rows|; o'.rows[j] == Row(p, Of(o.counts, p) + 1 + i, run, stored + 1 + i, ms))
            && (forall other :: Of(o'.counts, other) == Of(o.counts, other) + (if other == p then count else 0))
  {
    var added := NewRows(p, Of(o.counts, p) + 1, run, stored, count, ms);
    hide NewRows;
    assert forall i :: 0 <= i < count ==> added[i] == NewRow(p, Of(o.counts, p) + 1, run, stored, i, ms);
  }

  // ---------------------------------------------------------------------------
  // Reading a page
  // ---------------------------------------------------------------------------

  datatype Page = Page(entries: seq<Row>, prunedThrough: nat, last: nat)

  /** The rows numbered past `after`. */
  function Past(rows: seq<Row>, after: nat): seq<Row> {
    if rows == [] then []
    else Past(rows[..|rows| - 1], after) + (if rows[|rows| - 1].number > after then [rows[|rows| - 1]] else [])
  }

  function Take(rows: seq<Row>, limit: nat): seq<Row> {
    if |rows| <= limit then rows else rows[..limit]
  }

  function OutboxAfter(o: OutboxState, p: Principal, after: nat, limit: nat): Page {
    Page(Take(Past(RowsOf(o.rows, p), after), limit), Of(o.pruned, p), Of(o.counts, p))
  }

  lemma {:induction false} PastIsSuffix(rows: seq<Row>, pruned: nat, after: nat)
    requires Consecutive(rows, pruned) && pruned <= after
    ensures Past(rows, after) == if after - pruned <= |rows| then rows[after - pruned..] else []
  {
    if rows != [] {
      var front := rows[..|rows| - 1];
      PastIsSuffix(front, pruned, after);
      assert rows == front + [rows[|rows| - 1]];
    }
  }

  /** A page from a cursor that was not pruned is the next numbers, without a gap, up to the last or the limit. */
  lemma PageIsNext(o: OutboxState, p: Principal, after: nat, limit: nat)
    requires NumberedFor(o, p) && Of(o.pruned, p) <= after
    ensures var page := OutboxAfter(o, p, after, limit);
            && Consecutive(page.entries, after)
            && |page.entries| <= limit
            && (|page.entries| == limit || after + |page.entries| >= page.last)
            && (page.entries != [] ==> after + |page.entries| <= page.last)
            && (forall row <- page.entries :: row in o.rows && row.principal == p)
  {
    var mine := RowsOf(o.rows, p);
    PastIsSuffix(mine, Of(o.pruned, p), after);
    var page := OutboxAfter(o, p, after, limit);
    forall row | row in page.entries ensures row in o.rows && row.principal == p {
      assert row in mine;
      RowsOfWithin(o.rows, p, row);
    }
  }

  lemma {:induction false} RowsOfWithin(rows: seq<Row>, p: Principal, row: Row)
    requires row in RowsOf(rows, p)
    ensures row in rows && row.principal == p
  {
    if row != rows[|rows| - 1] || rows[|rows| - 1].principal != p {
      RowsOfWithin(rows[..|rows| - 1], p, row);
    }
  }
}
