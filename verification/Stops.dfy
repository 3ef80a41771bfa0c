/**
  Stops: what a stop covers, in the store's own order, and how a run inherits it from the runs above
  it.
  */
module Stops {
  import opened Protocol
  import opened Stores
  import opened Outbox

  datatype StopScope = OfRun(id: RunId) | OfThread(thread: string) | OfOwner

  datatype StopEntry = StopEntry(principal: Principal, scope: StopScope, number: nat)

  /** The stops kept, each run's number in the store's order, and the last number taken. */
  datatype StopState = StopState(stops: seq<StopEntry>, numbers: map<RunId, nat>, order: nat)

  /** The session a run belongs to; a blank one is none. */
  function ThreadOf(spec: RunSpec): Option<string> {
    if SESSION_ID in spec.metadata && spec.metadata[SESSION_ID] != "" then Some(spec.metadata[SESSION_ID]) else None
  }

  /** Whether a stop numbered `stop` covers a run numbered `stored` itself, not the runs under it. */
  predicate StopNames(scope: StopScope, stop: nat, spec: RunSpec, stored: nat) {
    match scope
    case OfRun(id) => id == spec.runId
    case OfThread(thread) => stop > stored && ThreadOf(spec) == Some(thread)
    case OfOwner => stop > stored
  }

  function NumberOf(st: StopState, id: RunId): nat {
    if id in st.numbers then st.numbers[id] else 0
  }

  predicate EntryNames(st: StopState, entry: StopEntry, spec: RunSpec) {
    entry.principal == PrincipalOf(spec.owner) && StopNames(entry.scope, entry.number, spec, NumberOf(st, spec.runId))
  }

  /** Whether a stop by its principal names a stored run. */
  predicate Named(s: Store, st: StopState, id: RunId) {
    id in s && exists i :: 0 <= i < |st.stops| && EntryNames(st, st.stops[i], s[id].spec)
  }

  /** A way up the lineage, through stored runs. */
  predicate Path(s: Store, path: seq<RunId>) {
    && path != []
    && (forall i :: 0 <= i < |path| ==> path[i] in s)
    && (forall i :: 0 <= i < |path| - 1 ==> s[path[i]].spec.lineage.parent == Some(path[i + 1]))
  }

  ghost predicate CoveredBy(s: Store, st: StopState, id: RunId, path: seq<RunId>) {
    Path(s, path) && path[0] == id && Named(s, st, path[|path| - 1])
  }

  /** Some run at or above `id`, reached through stored runs, is named by its principal's stop. */
  ghost predicate Covered(s: Store, st: StopState, id: RunId) {
    exists path :: CoveredBy(s, st, id, path)
  }

  /** A run's hop is past that of the run above it, if that one is stored. */
  predicate Below(s: Store, spec: RunSpec) {
    spec.lineage.parent.Some? && spec.lineage.parent.value in s ==>
      s[spec.lineage.parent.value].spec.lineage.hop < spec.lineage.hop
  }

  /** Every stored run is further from its root than the run it was started under, so no way up comes back. */
  predicate Rooted(s: Store) {
    forall id <- s :: Below(s, s[id].spec)
  }

  /** Numbers are taken in order. */
  predicate StopsOk(s: Store, st: StopState) {
    && st.numbers.Keys == s.Keys
    && (forall id <- s :: s[id].spec.runId == id && st.numbers[id] <= st.order)
    && (forall i :: 0 <= i < |st.stops| ==> st.stops[i].number <= st.order)
  }

  // ---------------------------------------------------------------------------
  // What the store does
  // ---------------------------------------------------------------------------

  function Without(stops: seq<StopEntry>, p: Principal, scope: StopScope): seq<StopEntry> {
    if stops == [] then []
    else Without(stops[..|stops| - 1], p, scope) +
         (if stops[|stops| - 1].principal == p && stops[|stops| - 1].scope == scope then [] else [stops[|stops| - 1]])
  }

  /** Records a stop, in place of the principal's earlier one of the same scope. */
  function PutStop(st: StopState, p: Principal, scope: StopScope): StopState {
    st.(stops := Without(st.stops, p, scope) + [StopEntry(p, scope, st.order + 1)], order := st.order + 1)
  }

  function PutNumber(st: StopState, id: RunId): StopState {
    st.(numbers := st.numbers[id := st.order + 1], order := st.order + 1)
  }

  /** Walks up the lineage until a run is named, or no stored run is left above. */
  method Stopped(s: Store, st: StopState, run: RunId) returns (stopped: bool)
    requires Rooted(s)
    ensures stopped <==> Covered(s, st, run)
  {
    var next := Some(run);
    ghost var path: seq<RunId> := [];
    while next.Some?
      invariant forall i :: 0 <= i < |path| ==> path[i] in s && !Named(s, st, path[i])
      invariant forall i :: 0 <= i < |path| - 1 ==> s[path[i]].spec.lineage.parent == Some(path[i + 1])
      invariant path == [] ==> next == Some(run)
      invariant path != [] ==> path[0] == run && s[path[|path| - 1]].spec.lineage.parent == next
      decreases if next.None? then 0 else if next.value !in s then 1 else 2 + s[next.value].spec.lineage.hop
    {
      var id := next.value;
      if id !in s {
        break;
      }
      var named := AnyNames(st, s[id].spec);
      if named {
        assert CoveredBy(s, st, run, path + [id]);
        return true;
      }
      path := path + [id];
      next := s[id].spec.lineage.parent;
    }
    NotCovered(s, st, run, path);
    return false;
  }

  method AnyNames(st: StopState, spec: RunSpec) returns (named: bool)
    ensures named <==> exists i :: 0 <= i < |st.stops| && EntryNames(st, st.stops[i], spec)
  {
    for i := 0 to |st.stops|
      invariant forall j :: 0 <= j < i ==> !EntryNames(st, st.stops[j], spec)
    {
      if EntryNames(st, st.stops[i], spec) {
        return true;
      }
    }
    return false;
  }

  /** A walk that went all the way up and found nothing leaves no other way up. */
  lemma NotCovered(s: Store, st: StopState, run: RunId, path: seq<RunId>)
    requires forall i :: 0 <= i < |path| ==> path[i] in s && !Named(s, st, path[i])
    requires forall i :: 0 <= i < |path| - 1 ==> s[path[i]].spec.lineage.parent == Some(path[i + 1])
    requires if path == [] then run !in s
             else path[0] == run && (s[path[|path| - 1]].spec.lineage.parent.Some? ==>
                                     s[path[|path| - 1]].spec.lineage.parent.value !in s)
    ensures !Covered(s, st, run)
  {
    if Covered(s, st, run) {
      var other :| CoveredBy(s, st, run, other);
      SamePath(s, path, other, |other| - 1);
      assert false;
    }
  }

  lemma {:induction false} SamePath(s: Store, path: seq<RunId>, other: seq<RunId>, n: nat)
    requires Path(s, other) && n < |other|
    requires forall i :: 0 <= i < |path| ==> path[i] in s
    requires forall i :: 0 <= i < |path| - 1 ==> s[path[i]].spec.lineage.parent == Some(path[i + 1])
    requires path != [] ==> path[0] == other[0] && (s[path[|path| - 1]].spec.lineage.parent.Some? ==>
                            s[path[|path| - 1]].spec.lineage.parent.value !in s)
    requires path == [] ==> other[0] !in s
    ensures n < |path| && path[n] == other[n]
  {
    if n > 0 {
      SamePath(s, path, other, n - 1);
      assert s[other[n - 1]].spec.lineage.parent == Some(other[n]);
    }
  }

  // ---------------------------------------------------------------------------
  // Once stopped, stopped
  // ---------------------------------------------------------------------------

  /** Later states of the store: runs keep their specs and numbers, stops are only replaced by later ones. */
  ghost predicate Later(s: Store, st: StopState, s': Store, st': StopState) {
    && (forall id <- s :: id in s' && s'[id].spec == s[id].spec && NumberOf(st', id) == NumberOf(st, id))
    && (forall i :: 0 <= i < |st.stops| ==> Superseded(st', st.stops[i]))
  }

  predicate Supersedes(a: StopEntry, b: StopEntry) {
    a.principal == b.principal && a.scope == b.scope && a.number >= b.number
  }

  predicate Superseded(st': StopState, e: StopEntry) {
    exists j :: 0 <= j < |st'.stops| && Supersedes(st'.stops[j], e)
  }

  lemma NamedLater(s: Store, st: StopState, s': Store, st': StopState, id: RunId)
    requires Later(s, st, s', st') && Named(s, st, id) && s[id].spec.runId == id
    ensures Named(s', st', id)
  {
  }

  /** A run once covered by a stop stays covered, whatever the store does next. */
  lemma CoveredLater(s: Store, st: StopState, s': Store, st': StopState, id: RunId)
    requires StopsOk(s, st) && Later(s, st, s', st') && Covered(s, st, id)
    ensures Covered(s', st', id)
  {
    var path :| CoveredBy(s, st, id, path);
    NamedLater(s, st, s', st', path[|path| - 1]);
    assert CoveredBy(s', st', id, path);
  }

  lemma {:induction false} WithoutMembers(stops: seq<StopEntry>, p: Principal, scope: StopScope, e: StopEntry)
    ensures e in Without(stops, p, scope) <==> e in stops && !(e.principal == p && e.scope == scope)
  {
    if stops != [] {
      WithoutMembers(stops[..|stops| - 1], p, scope, e);
      assert stops == stops[..|stops| - 1] + [stops[|stops| - 1]];
    }
  }

  /** Replacing a stop of the same scope keeps what it covered. */
  lemma PutStopLater(s: Store, st: StopState, p: Principal, scope: StopScope)
    requires StopsOk(s, st)
    ensures StopsOk(s, PutStop(st, p, scope)) && Later(s, st, s, PutStop(st, p, scope))
  {
    hide Without;
    var st' := PutStop(st, p, scope);
    forall i | 0 <= i < |st.stops| ensures Superseded(st', st.stops[i]) {
      var e := st.stops[i];
      WithoutMembers(st.stops, p, scope, e);
      if e.principal == p && e.scope == scope {
        assert Supersedes(st'.stops[|st'.stops| - 1], e);
      } else {
        var j :| 0 <= j < |Without(st.stops, p, scope)| && Without(st.stops, p, scope)[j] == e;
        assert Supersedes(st'.stops[j], e);
      }
    }
    forall j | 0 <= j < |st'.stops| ensures st'.stops[j].number <= st'.order {
      if j < |st'.stops| - 1 {
        WithoutMembers(st.stops, p, scope, st'.stops[j]);
        assert st'.stops[j] in Without(st.stops, p, scope);
      }
    }
  }

  /** A new run's hop fits the runs stored above and below it. */
  predicate HopFits(s: Store, spec: RunSpec) {
    && Below(s, spec)
    && spec.lineage.parent != Some(spec.runId)
    && (forall id <- s :: s[id].spec.lineage.parent == Some(spec.runId) ==> spec.lineage.hop < s[id].spec.lineage.hop)
  }

  lemma PutRunLater(s: Store, st: StopState, run: Stored)
    requires StopsOk(s, st) && run.spec.runId !in s
    ensures var s' := s[run.spec.runId := run];
            StopsOk(s', PutNumber(st, run.spec.runId)) && Later(s, st, s', PutNumber(st, run.spec.runId))
  {
    var st' := PutNumber(st, run.spec.runId);
    forall i | 0 <= i < |st.stops| ensures Superseded(st', st.stops[i]) {
      assert Supersedes(st'.stops[i], st.stops[i]);
    }
  }

  /** Storing runs whose hops fit keeps every way up finite. */
  lemma PutRunRooted(s: Store, run: Stored)
    requires Rooted(s) && run.spec.runId !in s && HopFits(s, run.spec)
    ensures Rooted(s[run.spec.runId := run])
  {
  }

  lemma AppendLater(s: Store, st: StopState, id: RunId, log: Log)
    requires StopsOk(s, st) && id in s
    ensures var s' := s[id := s[id].(log := log)]; StopsOk(s', st) && Later(s, st, s', st)
  {
  }

  // ---------------------------------------------------------------------------
  // Who a stop covers
  // ---------------------------------------------------------------------------

  /** The runs under a covered run are covered, whenever they are stored. */
  lemma Inherits(s: Store, st: StopState, id: RunId, path: seq<RunId>)
    requires id in s && Path(s, path) && s[id].spec.lineage.parent == Some(path[0])
    requires Named(s, st, path[|path| - 1])
    ensures Covered(s, st, id)
  {
    hide Named;
    var longer := [id] + path;
    forall i | 0 <= i < |longer| - 1 ensures longer[i] in s && s[longer[i]].spec.lineage.parent == Some(longer[i + 1]) {
      if i > 0 {
        assert longer[i] == path[i - 1] && longer[i + 1] == path[i];
      }
    }
    assert CoveredBy(s, st, id, longer);
  }

  lemma PathTail(s: Store, path: seq<RunId>)
    requires Path(s, path) && |path| > 1
    ensures Path(s, path[1..]) && s[path[0]].spec.lineage.parent == Some(path[1])
  {
  }

  /** A stored run is covered when it is named itself, or the run above it is covered, and only then. */
  lemma CoveredByParent(s: Store, st: StopState, id: RunId)
    requires StopsOk(s, st) && id in s
    ensures Covered(s, st, id) <==>
              Named(s, st, id) || (s[id].spec.lineage.parent.Some? && Covered(s, st, s[id].spec.lineage.parent.value))
  {
    hide Named;
    hide StopsOk;
    var parent := s[id].spec.lineage.parent;
    if Named(s, st, id) {
      assert CoveredBy(s, st, id, [id]);
    }
    if parent.Some? && Covered(s, st, parent.value) {
      var path :| CoveredBy(s, st, parent.value, path);
      Inherits(s, st, id, path);
    }
    if Covered(s, st, id) && !Named(s, st, id) {
      var path :| CoveredBy(s, st, id, path);
      PathTail(s, path);
      assert CoveredBy(s, st, parent.value, path[1..]);
    }
  }

  /**
    A run stored after the stops: no thread or owner stop names it. It is covered if a stop names its
    own id, or if the run above it was covered, and only then.
    */
  lemma StoredAfterStops(s: Store, st: StopState, run: Stored)
    requires StopsOk(s, st) && Rooted(s) && run.spec.runId !in s && HopFits(s, run.spec)
    ensures var id := run.spec.runId;
            var s', st' := s[id := run], PutNumber(st, id);
            Covered(s', st', id) <==>
              || (exists i :: 0 <= i < |st.stops| && st.stops[i].scope == OfRun(id) &&
                              st.stops[i].principal == PrincipalOf(run.spec.owner))
              || (run.spec.lineage.parent.Some? && Covered(s, st, run.spec.lineage.parent.value))
  {
    hide Covered;
    hide StopsOk;
    var id, parent := run.spec.runId, run.spec.lineage.parent;
    var s', st' := s[id := run], PutNumber(st, id);
    PutRunLater(s, st, run);
    CoveredByParent(s', st', id);
    forall i | 0 <= i < |st.stops|
      ensures EntryNames(st', st'.stops[i], run.spec) <==>
              st.stops[i].scope == OfRun(id) && st.stops[i].principal == PrincipalOf(run.spec.owner)
    {
    }
    if parent.Some? {
      if Covered(s, st, parent.value) {
        CoveredLater(s, st, s', st', parent.value);
      }
      if Covered(s', st', parent.value) {
        CoveredStored(s', st', parent.value);
        CoveredBefore(s, st, run, parent.value);
      }
    }
  }

  lemma CoveredStored(s: Store, st: StopState, id: RunId)
    requires Covered(s, st, id)
    ensures id in s
  {
  }

  /** Storing a run covers no run above it that was not covered before. */
  lemma CoveredBefore(s: Store, st: StopState, run: Stored, id: RunId)
    requires StopsOk(s, st) && Rooted(s) && run.spec.runId !in s && HopFits(s, run.spec)
    requires id in s && s[id].spec.lineage.hop < run.spec.lineage.hop
    requires Covered(s[run.spec.runId := run], PutNumber(st, run.spec.runId), id)
    ensures Covered(s, st, id)
  {
    var s', st' := s[run.spec.runId := run], PutNumber(st, run.spec.runId);
    var path :| CoveredBy(s', st', id, path);
    StaysAbove(s, st, run, path, |path| - 1);
    var top := path[|path| - 1];
    var i :| 0 <= i < |st'.stops| && EntryNames(st', st'.stops[i], s'[top].spec);
    assert EntryNames(st, st.stops[i], s[top].spec);
    assert CoveredBy(s, st, id, path);
  }

  /** A way up from a run nearer the root than the new one never comes by it. */
  lemma {:induction false} StaysAbove(s: Store, st: StopState, run: Stored, path: seq<RunId>, n: nat)
    requires StopsOk(s, st) && Rooted(s) && run.spec.runId !in s && Path(s[run.spec.runId := run], path)
    requires path[0] in s && s[path[0]].spec.lineage.hop < run.spec.lineage.hop && n < |path| && HopFits(s, run.spec)
    ensures forall i :: 0 <= i <= n ==> path[i] in s && s[path[i]].spec.lineage.hop < run.spec.lineage.hop
  {
    if n > 0 {
      StaysAbove(s, st, run, path, n - 1);
      var below := path[n - 1];
      assert s[run.spec.runId := run][below].spec.lineage.parent == Some(path[n]);
      assert Below(s, s[below].spec);
    }
  }

  /** What a new stop names: exactly the runs of its scope that are stored, of its principal, and what was named before. */
  lemma PutStopNames(s: Store, st: StopState, p: Principal, scope: StopScope, id: RunId)
    requires StopsOk(s, st) && id in s
    ensures var spec := s[id].spec;
            Named(s, PutStop(st, p, scope), id) <==>
              || Named(s, st, id)
              || (PrincipalOf(spec.owner) == p &&
                  match scope
                  case OfRun(run) => run == id
                  case OfThread(thread) => thread != "" && SESSION_ID in spec.metadata && spec.metadata[SESSION_ID] == thread
                  case OfOwner => true)
  {
    hide Without;
    var st' := PutStop(st, p, scope);
    PutStopLater(s, st, p, scope);
    if Named(s, st, id) {
      NamedLater(s, st, s, st', id);
    }
    var added := st'.stops[|st'.stops| - 1];
    assert EntryNames(st', added, s[id].spec) ==> Named(s, st', id);
    if Named(s, st', id) && !EntryNames(st', added, s[id].spec) {
      var i :| 0 <= i < |st'.stops| && EntryNames(st', st'.stops[i], s[id].spec);
      assert st'.stops[i] in Without(st.stops, p, scope);
      WithoutMembers(st.stops, p, scope, st'.stops[i]);
      var j :| 0 <= j < |st.stops| && st.stops[j] == st'.stops[i];
      assert EntryNames(st, st.stops[j], s[id].spec);
    }
  }
}
