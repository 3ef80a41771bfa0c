/**
  The two streams a client reads: a principal's outbox, and one run's log. Each loop reads the store
  as it stands, sends what is past its cursor, and reads again. What the store held at each read is a
  view; a client that goes away stops taking messages.
  */
module Streams {
  import opened Protocol
  import opened Outbox

  const PAGE: nat := 500

  /** What a client is sent: an outbox entry, or that it must reload. */
  datatype Message = Entry(row: Row) | Reset(prunedThrough: nat)

  predicate AllEntries(sent: seq<Message>) {
    forall i :: 0 <= i < |sent| ==> sent[i].Entry?
  }

  /** Entries with consecutive numbers, the first one past `after`. */
  predicate Gapless(sent: seq<Message>, after: nat) {
    AllEntries(sent) && forall i :: 0 <= i < |sent| ==> sent[i].row.number == after + 1 + i
  }

  /** How a stream came to its end: still open after its last read, reset, or left by its client. */
  datatype StreamEnd = Open | WasReset | Gone

  /**
    Where the stream counts from: the client's cursor, or, without one, the last number at its first
    read.
    */
  function Origin(views: seq<OutboxState>, p: Principal, resume: Option<nat>): nat {
    match resume
    case Some(n) => n
    case None => if views == [] then 0 else Of(views[0].counts, p)
  }

  /**
    Streams a principal's outbox over the views it gets to read; the client takes `patience` messages.
    Whatever was appended or pruned between two reads, what it sends is the numbers after its cursor,
    one after another, then at most one reset.
    */
  method OutboxStream(views: seq<OutboxState>, p: Principal, resume: Option<nat>, patience: nat)
      returns (sent: seq<Message>, end: StreamEnd, ghost marks: seq<nat>)
    requires forall i :: 0 <= i < |views| ==> NumberedFor(views[i], p)
    ensures end.WasReset? ==>
              sent != [] && sent[|sent| - 1].Reset? && Gapless(sent[..|sent| - 1], Origin(views, p, resume))
    ensures end.WasReset? ==>
              exists i :: 0 <= i < |views| && sent[|sent| - 1] == Reset(Of(views[i].pruned, p)) &&
                          Origin(views, p, resume) + |sent| - 1 < Of(views[i].pruned, p)
    ensures !end.WasReset? ==> Gapless(sent, Origin(views, p, resume))
    ensures forall m <- sent :: m.Entry? ==> exists i :: 0 <= i < |views| && m.row in views[i].rows
    ensures end.Gone? ==> |sent| == patience
    ensures end.Open? ==> |marks| == |views| && (marks != [] ==> marks[|marks| - 1] == |sent|)
    ensures end.Open? ==> forall i :: 0 <= i < |views| && (resume.Some? || i > 0) ==>
              KeepsUp(marks, i, Of(views[i].counts, p), Origin(views, p, resume))
  {
    hide RowsOf;
    hide OutboxAfter;
    sent, marks := [], [];
    var cursor := resume;
    ghost var origin := Origin(views, p, resume);
    for i := 0 to |views|
      invariant cursor.None? <==> resume.None? && i == 0
      invariant cursor.Some? ==> cursor.value == origin + |sent|
      invariant cursor.None? ==> sent == []
      invariant Gapless(sent, origin)
      invariant forall m <- sent :: exists j :: 0 <= j < |views| && m.row in views[j].rows
      invariant |marks| == i && MarkedBefore(marks, i) == |sent|
      invariant forall j :: 0 <= j < i && (resume.Some? || j > 0) ==> KeepsUp(marks, j, Of(views[j].counts, p), origin)
    {
      if cursor.None? {
        cursor := Some(Of(views[i].counts, p));
        marks := [0];
        continue;
      }
      var page := OutboxAfter(views[i], p, cursor.value, PAGE);
      PageMarks(views[i], p, cursor.value, PAGE);
      if cursor.value < page.prunedThrough {
        if |sent| == patience {
          return sent, Gone, marks;
        }
        ghost var before := sent;
        sent := sent + [Reset(page.prunedThrough)];
        assert sent[..|sent| - 1] == before;
        return sent, WasReset, marks;
      }
      PageIsNext(views[i], p, cursor.value, PAGE);
      ghost var from := cursor.value;
      for k := 0 to |page.entries|
        invariant cursor == Some(from + k) && from + k == origin + |sent|
        invariant Gapless(sent, origin)
        invariant forall m <- sent :: exists j :: 0 <= j < |views| && m.row in views[j].rows
      {
        if |sent| == patience {
          return sent, Gone, marks;
        }
        assert page.entries[k] in page.entries;
        sent := sent + [Entry(page.entries[k])];
        cursor := Some(page.entries[k].number);
      }
      ghost var was := marks;
      marks := marks + [|sent|];
      assert forall j :: 0 <= j < i ==> marks[j] == was[j] && MarkedBefore(marks, j) == MarkedBefore(was, j);
      assert MarkedBefore(marks, i) == from - origin;
    }
    end := Open;
  }

  /** How many messages had been sent before read `i`. */
  function MarkedBefore(marks: seq<nat>, i: nat): nat
    requires i <= |marks|
  {
    if i == 0 then 0 else marks[i - 1]
  }

  /** Read `i` left its client with everything there was, or sent it a full page. */
  predicate KeepsUp(marks: seq<nat>, i: nat, count: nat, origin: nat) {
    i < |marks| && (count <= origin + marks[i] || marks[i] == MarkedBefore(marks, i) + PAGE)
  }

  lemma PageMarks(o: OutboxState, p: Principal, after: nat, limit: nat)
    ensures var page := OutboxAfter(o, p, after, limit);
            page.prunedThrough == Of(o.pruned, p) && page.last == Of(o.counts, p)
  {
  }

  // ---------------------------------------------------------------------------
  // One run's log
  // ---------------------------------------------------------------------------

  /** How a run's stream came to its end: past the terminal event, still open, or left by its client. */
  datatype LogEnd = Finished | StillOpen | Left

  predicate SentFrom(sent: seq<(nat, Event)>, log: Log, resume: nat) {
    && (sent != [] ==> resume + |sent| <= |log|)
    && forall i :: 0 <= i < |sent| ==> sent[i] == (resume + 1 + i, log[resume + i])
  }

  /** A page of a log: at most `limit` events after the first `after`. */
  function RunPage(log: Log, after: nat, limit: nat): Log {
    if |log| <= after then []
    else if |log| - after <= limit then log[after..]
    else log[after..after + limit]
  }

  /**
    Streams a run's log over the views it gets to read, each the log as stored then. It sends exactly
    the log from its cursor on, each event with its place, and nothing past the terminal event.
    */
  method RunStream(views: seq<Log>, resume: nat, patience: nat)
      returns (sent: seq<(nat, Event)>, end: LogEnd, ghost marks: seq<nat>)
    requires forall i :: 0 <= i < |views| ==> EndsOnce(views[i])
    requires forall i, j :: 0 <= i < j < |views| ==> views[i] <= views[j]
    ensures views == [] ==> sent == []
    ensures views != [] ==> SentFrom(sent, views[|views| - 1], resume)
    ensures end.Finished? ==>
              && views != [] && 0 < resume + |sent| == |views[|views| - 1]|
              && IsRunEnd(views[|views| - 1][resume + |sent| - 1])
    ensures !end.Finished? ==> forall i :: 0 <= i < |sent| ==> !IsRunEnd(sent[i].1)
    ensures end.Left? ==> |sent| == patience
    ensures end.StillOpen? ==> |marks| == |views| && (marks != [] ==> marks[|marks| - 1] == |sent|)
    ensures end.StillOpen? ==> forall i :: 0 <= i < |views| ==> KeepsUp(marks, i, |views[i]|, resume)
  {
    hide SentFrom;
    hide RunPage;
    hide EndsOnce;
    sent, marks := [], [];
    NothingSent(resume);
    for i := 0 to |views|
      invariant i == 0 ==> sent == []
      invariant i > 0 ==> SentFrom(sent, views[i - 1], resume)
      invariant forall j :: 0 <= j < |sent| ==> !IsRunEnd(sent[j].1)
      invariant |marks| == i && MarkedBefore(marks, i) == |sent|
      invariant forall j :: 0 <= j < i ==> KeepsUp(marks, j, |views[j]|, resume)
    {
      var log := views[i];
      ghost var last := views[|views| - 1];
      assert log <= last && (i > 0 ==> views[i - 1] <= log);
      if i > 0 {
        SentOfLonger(sent, views[i - 1], log, resume);
      }
      ghost var before := |sent|;
      var stop: Option<LogEnd>;
      sent, stop := ReadOnce(log, resume, sent, patience);
      if stop.Some? {
        SentOfLonger(sent, log, last, resume);
        if stop.value.Finished? {
          EndIsLast(log, last, resume + |sent| - 1);
        }
        return sent, stop.value, marks;
      }
      ghost var was := marks;
      marks := marks + [|sent|];
      assert forall j :: 0 <= j < i ==> marks[j] == was[j] && MarkedBefore(marks, j) == MarkedBefore(was, j);
      assert MarkedBefore(marks, i) == before;
    }
    end := StillOpen;
  }

  lemma NothingSent(resume: nat)
    ensures forall log :: SentFrom([], log, resume)
  {
  }

  /** One read: one event before the cursor too, to see whether the log already ended there, then a page. */
  method ReadOnce(log: Log, resume: nat, before: seq<(nat, Event)>, patience: nat)
      returns (sent: seq<(nat, Event)>, stop: Option<LogEnd>)
    requires SentFrom(before, log, resume) && forall j :: 0 <= j < |before| ==> !IsRunEnd(before[j].1)
    ensures SentFrom(sent, log, resume)
    ensures stop != Some(Finished) ==> forall j :: 0 <= j < |sent| ==> !IsRunEnd(sent[j].1)
    ensures stop == Some(Finished) ==> 0 < resume + |sent| <= |log| && IsRunEnd(log[resume + |sent| - 1])
    ensures stop == Some(Left) ==> |sent| == patience
    ensures stop != Some(StillOpen)
    ensures stop.None? ==> |log| <= resume + |sent| || |sent| == |before| + PAGE
  {
    hide SentFrom;
    hide RunPage;
    var cursor := resume + |before|;
    var events := RunPage(log, if cursor > 0 then cursor - 1 else 0, PAGE + 1);
    if cursor > 0 && events != [] {
      PageHead(log, cursor);
      if IsRunEnd(events[0]) {
        return before, Some(Finished);
      }
      events := events[1..];
    }
    var page := if |events| <= PAGE then events else events[..PAGE];
    PageFollows(log, cursor, page);
    sent, stop := SendPage(log, page, resume, before, patience);
  }

  lemma SentOfLonger(sent: seq<(nat, Event)>, log: Log, longer: Log, resume: nat)
    requires SentFrom(sent, log, resume) && log <= longer
    ensures SentFrom(sent, longer, resume)
  {
  }

  lemma PageHead(log: Log, cursor: nat)
    requires cursor > 0 && RunPage(log, cursor - 1, PAGE + 1) != []
    ensures cursor <= |log| && RunPage(log, cursor - 1, PAGE + 1)[0] == log[cursor - 1]
  {
  }

  /** What a read finds past the cursor: the next events of the log, a page of them at most. */
  lemma PageFollows(log: Log, cursor: nat, page: Log)
    requires var events := RunPage(log, if cursor > 0 then cursor - 1 else 0, PAGE + 1);
             var rest := if cursor > 0 && events != [] then events[1..] else events;
             page == if |rest| <= PAGE then rest else rest[..PAGE]
    ensures |page| <= PAGE && (|page| == PAGE || cursor + |page| >= |log|)
    ensures page != [] ==> cursor + |page| <= |log|
    ensures forall k :: 0 <= k < |page| ==> page[k] == log[cursor + k]
  {
  }

  /** Sends a page, up to the terminal event, while the client takes it. */
  method SendPage(log: Log, page: Log, resume: nat, before: seq<(nat, Event)>, patience: nat)
      returns (sent: seq<(nat, Event)>, stop: Option<LogEnd>)
    requires SentFrom(before, log, resume) && forall j :: 0 <= j < |before| ==> !IsRunEnd(before[j].1)
    requires page != [] ==> resume + |before| + |page| <= |log|
    requires forall k :: 0 <= k < |page| ==> page[k] == log[resume + |before| + k]
    ensures SentFrom(sent, log, resume) && |before| <= |sent|
    ensures stop.None? ==> |sent| == |before| + |page|
    ensures stop != Some(Finished) ==> forall j :: 0 <= j < |sent| ==> !IsRunEnd(sent[j].1)
    ensures stop == Some(Finished) ==> sent != [] && IsRunEnd(log[resume + |sent| - 1])
    ensures stop == Some(Left) ==> |sent| == patience
    ensures stop != Some(StillOpen)
  {
    sent := before;
    for k := 0 to |page|
      invariant |sent| == |before| + k
      invariant SentFrom(sent, log, resume)
      invariant forall j :: 0 <= j < |sent| ==> !IsRunEnd(sent[j].1)
    {
      if |sent| == patience {
        return sent, Some(Left);
      }
      var e := page[k];
      sent := sent + [(resume + |sent| + 1, e)];
      if IsRunEnd(e) {
        return sent, Some(Finished);
      }
    }
    stop := None;
  }

  /** A terminal event is the last, now and later. */
  lemma EndIsLast(log: Log, later: Log, at: nat)
    requires log <= later && EndsOnce(later) && at < |log| && IsRunEnd(log[at])
    ensures at == |later| - 1
  {
  }
}
