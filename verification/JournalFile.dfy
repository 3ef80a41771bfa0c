/**
  The journal over its file: opened, appended to and rolled back in place. A write may stop after any
  number of bytes, with an error or because the process was killed.
  */
module JournalFiles {
  import opened Protocol
  import opened Journal

  /** How a write went: all of it, or an error after so many bytes, and whether those could be taken back. */
  datatype Write = All | FailsAfter(bytes: nat, takenBack: bool)

  /** The bytes of a frame that a write left in the file. */
  function Written(frame: Bytes, n: nat): Bytes {
    if n <= |frame| then frame[..n] else frame
  }

  /** What a write of a frame leaves in the file, once it is rolled back if it can be. */
  function Left(frame: Bytes, write: Write): Bytes {
    match write
    case All => frame
    case FailsAfter(n, takenBack) => if takenBack then [] else Written(frame, n)
  }

  method DecodeBytes(c: Codec, bytes: Bytes) returns (r: Result<Decoded, Error>)
    ensures r == Decode(c, bytes)
  {
    hide NextFrame;
    hide StartFrame;
    var start := StartFrame(c);
    if |bytes| < |start| && bytes <= start {
      return Ok(Decoded([], 0));
    }
    if !(start <= bytes) {
      return Err(InvalidData("not a gol-journal v1 file"));
    }
    var records: seq<Record>, whole := [], |start|;
    ContinuedNone(Frames(c, bytes[whole..]));
    while true
      invariant |start| <= whole <= |bytes|
      invariant Frames(c, bytes[|start|..])
             == Continued(records, whole - |start|, Frames(c, bytes[whole..]))
      decreases |bytes| - whole
    {
      match NextFrame(c, bytes[whole..]) {
        case Err(e) => return Err(e);
        case Ok(None) =>
          assert records + [] == records;
          return Ok(Decoded(records, whole));
        case Ok(Some((record, size))) =>
          assert bytes[whole..][size..] == bytes[whole + size..];
          ContinuedOne(records, whole - |start|, record, size, Frames(c, bytes[whole + size..]));
          records := records + [record];
          whole := whole + size;
      }
    }
  }

  /** What decoding gives once `records`, `whole` bytes long, came first. */
  function Continued(records: seq<Record>, whole: nat, rest: Result<Decoded, Error>): Result<Decoded, Error> {
    match rest
    case Err(e) => Err(e)
    case Ok(d) => Ok(Decoded(records + d.records, whole + d.whole))
  }

  lemma ContinuedNone(rest: Result<Decoded, Error>)
    ensures Continued([], 0, rest) == rest
  {
    if rest.Ok? {
      assert [] + rest.value.records == rest.value.records;
    }
  }

  lemma ContinuedOne(records: seq<Record>, whole: nat, record: Record, size: nat, rest: Result<Decoded, Error>)
    ensures Continued(records, whole, Continued([record], size, rest)) == Continued(records + [record], whole + size, rest)
  {
    if rest.Ok? {
      assert records + ([record] + rest.value.records) == records + [record] + rest.value.records;
    }
  }

  class JournalFile {
    const codec: Codec
    var file: Bytes

    constructor (codec: Codec, file: Bytes)
      ensures this.codec == codec && this.file == file
    {
      this.codec, this.file := codec, file;
    }

    /** Appends in one write. A write that fails part way is rolled back, unless the file cannot be cut either. */
    method Append(frame: Bytes, write: Write) returns (r: Result<(), Error>)
      modifies this`file
      ensures r.Ok? <==> write.All?
      ensures file == old(file) + Left(frame, write)
    {
      var end := |file|;
      match write {
        case All =>
          file := file + frame;
          return Ok(());
        case FailsAfter(n, takenBack) =>
          file := file + Written(frame, n);
          if |file| != end && takenBack {
            file := file[..end];
          }
          return Err(WriteFailed);
      }
    }

    /** Cuts a torn tail off, and starts an empty journal. A file that does not read as frames is left as it is. */
    method Open(write: Write) returns (r: Result<(), Error>)
      modifies this`file
      ensures r.Err? && Decode(codec, old(file)).Err? ==> file == old(file)
      ensures r.Ok? ==>
                && Decode(codec, old(file)).Ok?
                && AllFit(codec, Decode(codec, old(file)).value.records)
                && file == FileOf(codec, Decode(codec, old(file)).value.records)
      ensures Decode(codec, old(file)).Ok? && write.All? ==> r.Ok?
      ensures r.Err? && Decode(codec, old(file)).Ok? ==>
                Decode(codec, old(file)).value.whole == 0 && file == Left(StartFrame(codec), write)
    {
      hide StartFrame;
      hide Frames;
      hide Fits;
      var decoded := DecodeBytes(codec, file);
      match decoded {
        case Err(e) => return Err(e);
        case Ok(d) =>
          JournalInverse(codec, file);
          var whole := d.whole;
          if whole < |file| {
            file := file[..whole];
          }
          assert whole == 0 ==> FileOf(codec, []) == StartFrame(codec) + [] == StartFrame(codec);
          assert file == old(file)[..whole];
          if whole == 0 {
            r := Append(StartFrame(codec), write);
          } else {
            r := Ok(());
          }
      }
    }

    /** Commits one record: its frame, or nothing. */
    method Commit(record: Record, write: Write) returns (r: Result<(), Error>)
      modifies this`file
      ensures r.Ok? <==> Frame(codec, record).Ok? && write.All?
      ensures file == old(file) + (if Frame(codec, record).Ok? then Left(Frame(codec, record).value, write) else [])
    {
      match Frame(codec, record) {
        case Err(e) =>
          assert file + [] == file;
          return Err(e);
        case Ok(frame) => r := Append(frame, write);
      }
    }

    method History() returns (r: Result<seq<Record>, Error>)
      ensures r.Ok? <==> Decode(codec, file).Ok?
      ensures r.Ok? ==> r.value == Decode(codec, file).value.records
    {
      var decoded := DecodeBytes(codec, file);
      match decoded {
        case Err(e) => return Err(e);
        case Ok(d) => return Ok(d.records);
      }
    }
  }

  /** Whatever a commit left, the journal reads as the records before it, or with it if all of its frame is there. */
  lemma CommitLeaves(c: Codec, records: seq<Record>, r: Record, write: Write)
    requires AllFit(c, records) && Fits(c, r)
    ensures var left := if |Left(FrameOf(c, r), write)| == |FrameOf(c, r)| then records + [r] else records;
            && AllFit(c, left)
            && Decode(c, FileOf(c, records) + Left(FrameOf(c, r), write)) == Ok(Decoded(left, |FileOf(c, left)|))
  {
    hide Decode;
    hide FileOf;
    hide Fits;
    hide FrameOf;
    var n := |Left(FrameOf(c, r), write)|;
    assert Left(FrameOf(c, r), write) == FrameOf(c, r)[..n];
    KilledCommit(c, records, r, n);
  }

  /** A committed record is the journal's next. */
  lemma CommitAppends(c: Codec, records: seq<Record>, r: Record)
    requires AllFit(c, records) && Fits(c, r)
    ensures AllFit(c, records + [r]) && FileOf(c, records + [r]) == FileOf(c, records) + FrameOf(c, r)
  {
    hide StartFrame;
    hide Fits;
    EncodedAppend(c, records, r);
  }

  /** How many whole frames a commit that was killed after `n` bytes leaves. */
  lemma {:induction false} KilledCount(c: Codec, records: seq<Record>, r: Record, n: nat)
    requires AllFit(c, records) && Fits(c, r) && n <= |FrameOf(c, r)| && AllFit(c, records + [r])
    ensures WholeFrames(c, records + [r], |Encoded(c, records)| + n)
         == |records| + (if n == |FrameOf(c, r)| then 1 else 0)
    decreases |records|
  {
    hide Fits;
    hide FrameOf;
    if records == [] {
      assert records + [r] == [r] && [r][1..] == [];
    } else {
      assert (records + [r])[1..] == records[1..] + [r];
      KilledCount(c, records[1..], r, n);
    }
  }

  /**
    A commit killed after any number of its bytes: the journal then reads as the records before it, or
    with it if its frame was whole, and opening it leaves exactly their file.
    */
  lemma KilledCommit(c: Codec, records: seq<Record>, r: Record, n: nat)
    requires AllFit(c, records) && Fits(c, r) && n <= |FrameOf(c, r)|
    ensures var left := if n == |FrameOf(c, r)| then records + [r] else records;
            && AllFit(c, left)
            && Decode(c, FileOf(c, records) + FrameOf(c, r)[..n]) == Ok(Decoded(left, |FileOf(c, left)|))
  {
    hide StartFrame;
    hide Decode;
    hide Fits;
    hide FrameOf;
    hide WholeFrames;
    CommitAppends(c, records, r);
    var all := records + [r];
    var cut := |FileOf(c, records)| + n;
    JournalCut(c, all, cut);
    KilledCount(c, records, r, n);
    assert FileOf(c, all)[..cut] == FileOf(c, records) + FrameOf(c, r)[..n];
    assert all[..|records|] == records && all[..|all|] == all;
  }

  /** Opening a journal after such a commit, and committing another record, gives what was whole and then that record. */
  lemma ReopenThenCommit(c: Codec, records: seq<Record>, r: Record, n: nat, next: Record)
    requires AllFit(c, records) && Fits(c, r) && Fits(c, next) && n <= |FrameOf(c, r)|
    ensures var torn := FileOf(c, records) + FrameOf(c, r)[..n];
            && Decode(c, torn).Ok? && AllFit(c, Decode(c, torn).value.records)
            && var left := Decode(c, torn).value.records;
               && left == (if n == |FrameOf(c, r)| then records + [r] else records)
               && AllFit(c, left + [next])
               && Decode(c, FileOf(c, left) + FrameOf(c, next)) == Ok(Decoded(left + [next], |FileOf(c, left + [next])|))
  {
    hide StartFrame;
    hide Decode;
    hide Fits;
    hide FrameOf;
    KilledCommit(c, records, r, n);
    var left := if n == |FrameOf(c, r)| then records + [r] else records;
    CommitAppends(c, left, next);
    JournalRoundTrip(c, left + [next]);
  }
}
