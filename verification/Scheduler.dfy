/**
  Finding a schedule's next tick through daylight-saving changes. The zone's offset from UTC and the
  pattern's matching of a wall-clock time are given; times are Unix milliseconds.
  */
module Scheduler {
  import opened Protocol

  const MINUTE: int := 60_000
  const STEP: int := 60 * MINUTE
  const MAX_CANDIDATES: nat := 1000

  /** What instants a wall-clock time stands for: none, one, or two, the earlier first. */
  datatype Local = Never | Single(at: int) | Ambiguous(first: int, second: int)

  /** A time zone's offset at each instant, the instants of each wall-clock time, and the times the pattern names. */
  datatype Clock = Clock(offset: int -> int, local: int -> Local, names: int -> bool)

  // ---------------------------------------------------------------------------
  // What is looked for
  // ---------------------------------------------------------------------------

  /** Offsets change on whole minutes only. */
  ghost predicate Aligned(c: Clock) {
    forall a, b :: a / MINUTE == b / MINUTE ==> c.offset(a) == c.offset(b)
  }

  ghost predicate ChangesAt(c: Clock, from: int, to: int, t: int) {
    && from < t <= to
    && (forall x :: from <= x < t ==> c.offset(x) == c.offset(from))
    && (forall x :: t <= x <= to ==> c.offset(x) == c.offset(to))
  }

  /** The offset changes at most once in a window. */
  ghost predicate ChangesOnce(c: Clock, from: int, to: int) {
    exists t :: ChangesAt(c, from, to, t)
  }

  function Min(a: int, b: int): int {
    if a < b then a else b
  }

  function WindowStart(after: int, k: nat): int {
    after + k * STEP
  }

  /** The offset changes at most once in each hour the search scans. */
  ghost predicate ChangesOncePerWindow(c: Clock, after: int, before: int) {
    forall k: nat :: WindowStart(after, k) < before ==>
      ChangesOnce(c, WindowStart(after, k), Min(WindowStart(after, k) + STEP, before))
  }

  /** One of the wall-clock minutes from `from` on, before `to`, is named. */
  ghost predicate NamesOneOf(c: Clock, from: int, to: int) {
    exists k: nat :: from + k * MINUTE < to && c.names(from + k * MINUTE)
  }

  /** The clocks jump forward at `t`, over a wall-clock minute the pattern names. */
  ghost predicate GapAt(c: Clock, t: int) {
    c.offset(t - 1) < c.offset(t) && NamesOneOf(c, t + c.offset(t - 1), t + c.offset(t))
  }

  ghost predicate FirstGap(c: Clock, after: int, before: int, t: int) {
    after < t < before && GapAt(c, t) && forall u :: after < u < t ==> !GapAt(c, u)
  }

  // ---------------------------------------------------------------------------
  // The search
  // ---------------------------------------------------------------------------

  /**
    The earliest instant strictly between `after` and `before` where the clocks jump forward over a
    wall-clock minute the pattern names; none exactly when there is no such instant.
    */
  method GapTick(c: Clock, after: int, before: int) returns (found: Option<int>)
    requires Aligned(c) && ChangesOncePerWindow(c, after, before)
    ensures found.Some? ==> FirstGap(c, after, before, found.value)
    ensures found.None? ==> forall t :: after < t < before ==> !GapAt(c, t)
  {
    hide GapAt;
    hide Aligned;
    hide ChangesOnce;
    hide NamesOneOf;
    var from := after;
    ghost var k: nat := 0;
    while from < before
      invariant from == Min(WindowStart(after, k), before) || (k == 0 && from == after)
      invariant forall t :: after < t <= from && t < before ==> !GapAt(c, t)
      decreases before - from
    {
      var to := Min(from + STEP, before);
      assert from == WindowStart(after, k);
      var was, now := c.offset(from), c.offset(to);
      if now > was {
        var resume := Resumes(c, from, to);
        OnlyGapAt(c, from, to, resume);
        if resume > after && resume < before {
          var named := Skips(c, resume + was, resume + now);
          if named {
            return Some(resume);
          }
        }
      } else {
        NoGap(c, from, to);
      }
      from := to;
      k := k + 1;
    }
    found := None;
  }

  /** Halves a window in which the clocks go forward down to a minute, and takes the minute they resume at. */
  method Resumes(c: Clock, from: int, to: int) returns (resume: int)
    requires from < to && Aligned(c) && ChangesOnce(c, from, to) && c.offset(from) < c.offset(to)
    ensures ChangesAt(c, from, to, resume)
  {
    ghost var t :| ChangesAt(c, from, to, t);
    var was := c.offset(from);
    var low, high := from, to;
    while high - low > MINUTE
      invariant from <= low < t <= high <= to
      decreases high - low
    {
      var middle := low + (high - low) / 2;
      if c.offset(middle) > was {
        high := middle;
      } else {
        low := middle;
      }
    }
    OnTheMinute(c, from, to, t);
    MinuteBelow(low, high, t);
    resume := high - high % MINUTE;
    resume := if c.offset(resume) > was then resume else resume + MINUTE;
  }

  /** A change is on a whole minute. */
  lemma OnTheMinute(c: Clock, from: int, to: int, t: int)
    requires Aligned(c) && ChangesAt(c, from, to, t) && c.offset(from) != c.offset(to)
    ensures t % MINUTE == 0
  {
    assert c.offset(t - 1) == c.offset(from) && c.offset(t) == c.offset(to);
    assert (t - 1) / MINUTE == t / MINUTE ==> c.offset(t - 1) == c.offset(t);
  }

  lemma MinuteBelow(low: int, high: int, t: int)
    requires low < t <= high <= low + MINUTE && t % MINUTE == 0
    ensures t == high - high % MINUTE
  {
  }

  /** Whether a wall-clock minute from `from` on, before `end`, is named. */
  method Skips(c: Clock, from: int, end: int) returns (named: bool)
    ensures named <==> NamesOneOf(c, from, end)
  {
    var skipped := from;
    ghost var n: nat := 0;
    while skipped < end
      invariant skipped == from + n * MINUTE
      invariant forall k :: 0 <= k < n ==> !c.names(from + k * MINUTE)
      decreases end - skipped
    {
      if c.names(skipped) {
        return true;
      }
      skipped := skipped + MINUTE;
      n := n + 1;
    }
    return false;
  }

  /** In a window where the offset changes at `t`, no other instant is a gap's end. */
  lemma OnlyGapAt(c: Clock, from: int, to: int, t: int)
    requires ChangesAt(c, from, to, t)
    ensures GapAt(c, t) <==> c.offset(from) < c.offset(to) && NamesOneOf(c, t + c.offset(from), t + c.offset(to))
    ensures forall u :: from < u <= to && u != t ==> !GapAt(c, u)
  {
  }

  lemma NoGap(c: Clock, from: int, to: int)
    requires ChangesOnce(c, from, to) && c.offset(to) <= c.offset(from)
    ensures forall u :: from < u <= to ==> !GapAt(c, u)
  {
  }

  // ---------------------------------------------------------------------------
  // Which candidate is a tick
  // ---------------------------------------------------------------------------

  /** The minutes just before a candidate that are looked through for a skipped one. */
  const MAX_GAP: nat := 180

  function Wall(c: Clock, t: int): int {
    t + c.offset(t)
  }

  /** Some instant has this wall-clock time. */
  ghost predicate Happens(c: Clock, wall: int) {
    exists t :: Wall(c, t) == wall
  }

  /** An earlier instant has the same wall-clock time: the clocks went back over it. */
  ghost predicate Repeats(c: Clock, t: int) {
    exists u :: u < t && Wall(c, u) == Wall(c, t)
  }

  /** The zone's reading of a wall-clock time is what its offsets say. */
  ghost predicate LocalOk(c: Clock) {
    forall t ::
      match c.local(Wall(c, t))
      case Never => false
      case Single(at) => at == t
      case Ambiguous(first, second) => first < second && (t == first || t == second)
  }

  ghost predicate LocalSound(c: Clock) {
    forall wall ::
      match c.local(wall)
      case Never => true
      case Single(at) => Wall(c, at) == wall
      case Ambiguous(first, second) => Wall(c, first) == wall && Wall(c, second) == wall
  }

  /** The wall-clock time `k` minutes before never happens, nor does any in between, and the pattern names it. */
  ghost predicate SkippedAt(c: Clock, wall: int, k: nat) {
    c.names(wall - k * MINUTE) && forall j :: 1 <= j <= k ==> !Happens(c, wall - j * MINUTE)
  }

  /**
    A candidate is a tick when its wall-clock time is there for the first time, and is named by the
    pattern or comes right after a gap that skipped a time the pattern names.
    */
  ghost predicate IsTickAt(c: Clock, t: int) {
    && !Repeats(c, t)
    && (c.names(Wall(c, t)) || exists k :: 1 <= k <= MAX_GAP && SkippedAt(c, Wall(c, t), k))
  }

  lemma LocalTells(c: Clock, t: int)
    requires LocalOk(c) && LocalSound(c)
    ensures var l := c.local(Wall(c, t)); Repeats(c, t) <==> l.Ambiguous? && l.first != t
  {
    var l := c.local(Wall(c, t));
    if l.Ambiguous? && l.first != t {
      assert Wall(c, l.first) == Wall(c, t);
    }
    if Repeats(c, t) {
      var u :| u < t && Wall(c, u) == Wall(c, t);
      assert c.local(Wall(c, u)) == l;
    }
  }

  lemma NeverTells(c: Clock, wall: int)
    requires LocalOk(c) && LocalSound(c)
    ensures c.local(wall).Never? <==> !Happens(c, wall)
  {
    if Happens(c, wall) {
      var t :| Wall(c, t) == wall;
      assert !c.local(Wall(c, t)).Never?;
    }
    match c.local(wall) {
      case Never =>
      case Single(at) => assert Wall(c, at) == wall;
      case Ambiguous(first, _) => assert Wall(c, first) == wall;
    }
  }

  /** Whether a candidate is a tick. */
  method IsTick(c: Clock, t: int) returns (tick: bool)
    requires LocalOk(c) && LocalSound(c)
    ensures tick <==> IsTickAt(c, t)
  {
    hide LocalOk;
    hide LocalSound;
    hide Happens;
    hide Repeats;
    var wall := Wall(c, t);
    LocalTells(c, t);
    if c.local(wall).Ambiguous? && c.local(wall).first != t {
      return false;
    }
    if c.names(wall) {
      return true;
    }
    var skipped := wall - MINUTE;
    for i := 0 to MAX_GAP
      invariant skipped == wall - (i + 1) * MINUTE
      invariant forall j :: 1 <= j <= i ==> !Happens(c, wall - j * MINUTE)
      invariant forall k :: 1 <= k <= i ==> !SkippedAt(c, wall, k)
    {
      NeverTells(c, skipped);
      if !c.local(skipped).Never? {
        assert forall k :: i + 1 <= k <= MAX_GAP ==> !SkippedAt(c, wall, k) by {
          assert Happens(c, wall - (i + 1) * MINUTE);
        }
        return false;
      }
      if c.names(skipped) {
        assert SkippedAt(c, wall, i + 1);
        return true;
      }
      assert !SkippedAt(c, wall, i + 1);
      skipped := skipped - MINUTE;
    }
    return false;
  }

  // ---------------------------------------------------------------------------
  // The next tick
  // ---------------------------------------------------------------------------

  /** The cron library's `n`-th occurrence after `after`, each found from the one before. */
  function Candidate(find: int -> Option<int>, after: int, n: nat): Option<int> {
    if n == 0 then Some(after)
    else match Candidate(find, after, n - 1)
      case None => None
      case Some(x) => find(x)
  }

  ghost predicate TickAt(c: Clock, find: int -> Option<int>, after: int, n: nat) {
    Candidate(find, after, n).Some? && IsTickAt(c, Candidate(find, after, n).value)
  }

  ghost predicate FirstTick(c: Clock, find: int -> Option<int>, after: int, n: nat) {
    1 <= n <= MAX_CANDIDATES && TickAt(c, find, after, n) && forall m :: 1 <= m < n ==> !TickAt(c, find, after, m)
  }

  /** The tick a candidate gives: the end of a gap before it that skipped a named time, or itself. */
  ghost predicate TickOf(c: Clock, after: int, candidate: int, tick: int) {
    FirstGap(c, after, candidate, tick) || (tick == candidate && forall t :: after < t < candidate ==> !GapAt(c, t))
  }

  /**
    The first tick strictly after `after`: the first candidate that is one, or the first gap before it
    that skipped a named time. It fails exactly when no candidate in reach is a tick.
    */
  method NextTick(c: Clock, find: int -> Option<int>, after: int) returns (r: Option<int>)
    requires forall x :: find(x).Some? ==> x < find(x).value
    requires LocalOk(c) && LocalSound(c)
    requires Aligned(c) && forall before :: ChangesOncePerWindow(c, after, before)
    ensures r.Some? ==> after < r.value
    ensures r.Some? ==> IsNext(c, find, after, r.value)
    ensures r.None? ==> forall n :: !FirstTick(c, find, after, n)
  {
    hide GapAt;
    hide Aligned;
    hide ChangesOncePerWindow;
    hide LocalOk;
    hide LocalSound;
    hide IsTickAt;
    var at := after;
    for i := 0 to MAX_CANDIDATES
      invariant Candidate(find, after, i) == Some(at) && after <= at
      invariant forall m :: 1 <= m <= i ==> !TickAt(c, find, after, m)
    {
      var candidate := find(at);
      assert Candidate(find, after, i + 1) == candidate;
      if candidate.None? {
        NoneAfter(find, after, i + 1);
        return None;
      }
      var tick := IsTick(c, candidate.value);
      if tick {
        var gap := GapTick(c, after, candidate.value);
        assert FirstTick(c, find, after, i + 1);
        return Some(if gap.Some? then gap.value else candidate.value);
      }
      at := candidate.value;
    }
    r := None;
  }

  /** Once the library finds nothing more, there is nothing more. */
  lemma NoneAfter(find: int -> Option<int>, after: int, n: nat)
    requires Candidate(find, after, n).None?
    ensures forall m :: n <= m ==> Candidate(find, after, m).None?
  {
    forall m | n <= m ensures Candidate(find, after, m).None? {
      NoneAt(find, after, n, m);
    }
  }

  lemma {:induction false} NoneAt(find: int -> Option<int>, after: int, n: nat, m: nat)
    requires Candidate(find, after, n).None? && n <= m
    ensures Candidate(find, after, m).None?
  {
    if n < m {
      NoneAt(find, after, n, m - 1);
    }
  }

  // ---------------------------------------------------------------------------
  // A tick stays the next one until it comes
  // ---------------------------------------------------------------------------

  /** The cron library finds the same occurrence from every time up to it. */
  ghost predicate Steady(find: int -> Option<int>) {
    && (forall x :: find(x).Some? ==> x < find(x).value)
    && (forall a, b :: find(a).Some? && a <= b < find(a).value ==> find(b) == find(a))
  }

  /** What `NextTick` answers with. */
  ghost predicate IsNext(c: Clock, find: int -> Option<int>, after: int, tick: int) {
    exists n :: FirstTick(c, find, after, n) && TickOf(c, after, Candidate(find, after, n).value, tick)
  }

  lemma {:induction false} CandidatesRise(find: int -> Option<int>, after: int, m: nat, n: nat)
    requires Steady(find) && m < n && Candidate(find, after, n).Some?
    ensures Candidate(find, after, m).Some? && Candidate(find, after, m).value < Candidate(find, after, n).value
  {
    if m < n - 1 {
      CandidatesRise(find, after, m, n - 1);
    }
  }

  /** From a time between two candidates, the candidates are the ones that are left. */
  lemma {:induction false} CandidatesFrom(find: int -> Option<int>, a: int, b: int, k: nat, n: nat)
    requires Steady(find) && Candidate(find, a, k + 1).Some?
    requires Candidate(find, a, k).Some? && Candidate(find, a, k).value <= b < Candidate(find, a, k + 1).value
    ensures Candidate(find, b, n + 1) == Candidate(find, a, k + n + 1)
  {
    if n > 0 {
      CandidatesFrom(find, a, b, k, n - 1);
    }
  }

  /** Which candidates a time falls between. */
  lemma {:induction false} FallsBetween(find: int -> Option<int>, a: int, b: int, n: nat) returns (k: nat)
    requires Steady(find) && Candidate(find, a, n).Some? && a <= b < Candidate(find, a, n).value
    ensures k < n && Candidate(find, a, k).Some? && Candidate(find, a, k + 1).Some?
    ensures Candidate(find, a, k).value <= b < Candidate(find, a, k + 1).value
  {
    CandidatesRise(find, a, n - 1, n);
    if Candidate(find, a, n - 1).value <= b {
      return n - 1;
    }
    k := FallsBetween(find, a, b, n - 1);
  }

  lemma FirstTickFrom(c: Clock, find: int -> Option<int>, a: int, b: int, n: nat) returns (m: nat)
    requires Steady(find) && FirstTick(c, find, a, n) && a <= b < Candidate(find, a, n).value
    ensures FirstTick(c, find, b, m) && Candidate(find, b, m) == Candidate(find, a, n)
  {
    hide IsTickAt;
    hide Steady;
    hide Candidate;
    var k := FallsBetween(find, a, b, n);
    m := n - k;
    CandidatesFrom(find, a, b, k, m - 1);
    forall l | 1 <= l < m ensures !TickAt(c, find, b, l) {
      CandidatesFrom(find, a, b, k, l - 1);
      assert !TickAt(c, find, a, k + l);
    }
  }

  /** The next tick from a time is the next tick from every later time before it. */
  lemma NextStays(c: Clock, find: int -> Option<int>, a: int, b: int, tick: int)
    requires Steady(find) && IsNext(c, find, a, tick) && a <= b < tick
    ensures IsNext(c, find, b, tick)
  {
    hide GapAt;
    hide IsTickAt;
    hide Steady;
    hide Candidate;
    var n :| FirstTick(c, find, a, n) && TickOf(c, a, Candidate(find, a, n).value, tick);
    var m := FirstTickFrom(c, find, a, b, n);
    assert TickOf(c, b, Candidate(find, b, m).value, tick);
  }

  /** There is one next tick. */
  lemma NextIsOne(c: Clock, find: int -> Option<int>, after: int, x: int, y: int)
    requires IsNext(c, find, after, x) && IsNext(c, find, after, y)
    ensures x == y
  {
    hide GapAt;
    hide IsTickAt;
    hide Candidate;
    var n :| FirstTick(c, find, after, n) && TickOf(c, after, Candidate(find, after, n).value, x);
    var m :| FirstTick(c, find, after, m) && TickOf(c, after, Candidate(find, after, m).value, y);
    assert n == m;
  }
}
