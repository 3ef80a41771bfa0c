/**
  A run's journal: length-prefixed, checksummed frames after a `Start` frame. A frame is
  `[len u32][kind u8][payload][crc32]`, little-endian; `len` counts the kind byte and the payload.

  CRC-32 and UTF-8 validity are parameters of the codec: nothing here depends on what they are.
  A text is its bytes.
  */
module Journal {
  import opened Protocol

  type byte = x: int | 0 <= x < 256

  type Bytes = seq<byte>

  datatype Codec = Codec(crc: Bytes -> u32, utf8: Bytes -> bool)

  datatype Record = Tool(name: Bytes, output: Bytes) | AgentSpawned(agent: Bytes)

  datatype Error = InvalidData(why: string) | InvalidInput(why: string) | WriteFailed

  /** "gol-journal", and the format's version. */
  const MAGIC: Bytes := [103, 111, 108, 45, 106, 111, 117, 114, 110, 97, 108]
  const VERSION: u32 := 1

  const START: byte := 0
  const TOOL_RESULT: byte := 1
  const AGENT_SPAWNED: byte := 2

  const MAX_LEN: u32 := 0x100_0000

  // ---------------------------------------------------------------------------
  // Encoding
  // ---------------------------------------------------------------------------

  function LittleEndian(n: u32): (bytes: Bytes)
    ensures |bytes| == 4
  {
    [n % 256, n / 256 % 256, n / 65536 % 256, n / 16777216]
  }

  function PutString(text: Bytes): Result<Bytes, Error> {
    if |text| > U32_MAX then Err(InvalidInput("record longer than a frame holds")) else Ok(LittleEndian(|text|) + text)
  }

  function Payload(r: Record): Result<Bytes, Error> {
    match r
    case Tool(name, output) =>
      (match PutString(name)
       case Err(e) => Err(e)
       case Ok(first) => match PutString(output) case Err(e) => Err(e) case Ok(second) => Ok(first + second))
    case AgentSpawned(agent) => PutString(agent)
  }

  function Kind(r: Record): byte {
    if r.Tool? then TOOL_RESULT else AGENT_SPAWNED
  }

  /** The bytes a frame's checksum covers. */
  function Body(kind: byte, payload: Bytes): Bytes
    requires |payload| < MAX_LEN
  {
    LittleEndian(1 + |payload|) + [kind] + payload
  }

  function Framed(c: Codec, kind: byte, payload: Bytes): Bytes
    requires |payload| < MAX_LEN
  {
    Body(kind, payload) + LittleEndian(c.crc(Body(kind, payload)))
  }

  function Frame(c: Codec, r: Record): Result<Bytes, Error> {
    match Payload(r)
    case Err(e) => Err(e)
    case Ok(payload) =>
      if 1 + |payload| > MAX_LEN then Err(InvalidInput("record longer than a frame holds"))
      else Ok(Framed(c, Kind(r), payload))
  }

  function StartFrame(c: Codec): Bytes {
    Framed(c, START, MAGIC + LittleEndian(VERSION))
  }

  // ---------------------------------------------------------------------------
  // Decoding
  // ---------------------------------------------------------------------------

  function FromLittleEndian(b: Bytes): u32
    requires |b| == 4
  {
    var (b0: int, b1: int, b2: int, b3: int) := (b[0], b[1], b[2], b[3]);
    b0 + 256 * b1 + 65536 * b2 + 16777216 * b3
  }

  function TakeU32(bytes: Bytes): Option<(u32, Bytes)> {
    if |bytes| < 4 then None else Some((FromLittleEndian(bytes[..4]), bytes[4..]))
  }

  function TakeString(c: Codec, bytes: Bytes): Result<(Bytes, Bytes), Error> {
    match TakeU32(bytes)
    case None => Err(InvalidData("record payload"))
    case Some((len, rest)) =>
      if |rest| < len then Err(InvalidData("record payload"))
      else if !c.utf8(rest[..len]) then Err(InvalidData("record payload"))
      else Ok((rest[..len], rest[len..]))
  }

  function RecordOf(c: Codec, kind: byte, payload: Bytes): Result<Record, Error> {
    if kind == TOOL_RESULT then
      match TakeString(c, payload)
      case Err(e) => Err(e)
      case Ok((name, rest)) =>
        match TakeString(c, rest)
        case Err(e) => Err(e)
        case Ok((output, rest)) => if rest != [] then Err(InvalidData("record payload")) else Ok(Record.Tool(name, output))
    else if kind == AGENT_SPAWNED then
      match TakeString(c, payload)
      case Err(e) => Err(e)
      case Ok((agent, rest)) => if rest != [] then Err(InvalidData("record payload")) else Ok(AgentSpawned(agent))
    else Err(InvalidData("record kind"))
  }

  /** The record in the first frame and the frame's size, or `None` when the bytes are cut short. */
  function NextFrame(c: Codec, bytes: Bytes): (r: Result<Option<(Record, nat)>, Error>)
    ensures r.Ok? && r.value.Some? ==> 0 < r.value.value.1 <= |bytes|
  {
    match TakeU32(bytes)
    case None => Ok(None)
    case Some((len, _)) =>
      if len == 0 || len > MAX_LEN then Err(InvalidData("record length"))
      else if |bytes| < 4 + len then Ok(None)
      else
        var body, rest := bytes[..4 + len], bytes[4 + len..];
        match TakeU32(rest)
        case None => Ok(None)
        case Some((crc, _)) =>
          if c.crc(body) != crc then Err(InvalidData("record checksum"))
          else match RecordOf(c, body[4], body[5..])
            case Err(e) => Err(e)
            case Ok(record) => Ok(Some((record, |body| + 4)))
  }

  datatype Decoded = Decoded(records: seq<Record>, whole: nat)

  /** The records of the whole frames at the head of `bytes`, and how many bytes those take. */
  function Frames(c: Codec, bytes: Bytes): Result<Decoded, Error>
    decreases |bytes|
  {
    match NextFrame(c, bytes)
    case Err(e) => Err(e)
    case Ok(None) => Ok(Decoded([], 0))
    case Ok(Some((record, size))) =>
      match Frames(c, bytes[size..])
      case Err(e) => Err(e)
      case Ok(d) => Ok(Decoded([record] + d.records, size + d.whole))
  }

  function Decode(c: Codec, bytes: Bytes): Result<Decoded, Error> {
    var start := StartFrame(c);
    if |bytes| < |start| && bytes <= start then Ok(Decoded([], 0))
    else if !(start <= bytes) then Err(InvalidData("not a gol-journal v1 file"))
    else match Frames(c, bytes[|start|..])
      case Err(e) => Err(e)
      case Ok(d) => Ok(d.(whole := |start| + d.whole))
  }

  // ---------------------------------------------------------------------------
  // Both directions of each piece
  // ---------------------------------------------------------------------------

  lemma LittleEndianBack(n: u32)
    ensures FromLittleEndian(LittleEndian(n)) == n
  {
    var m: int := n;
    var high := m / 256;
    var higher := high / 256;
    assert m == m % 256 + 256 * high && high == high % 256 + 256 * higher;
    assert m / 65536 == higher && m / 16777216 == higher / 256;
  }

  lemma LittleEndianThere(b: Bytes)
    requires |b| == 4
    ensures LittleEndian(FromLittleEndian(b)) == b
  {
    var (b0: int, b1: int, b2: int, b3: int) := (b[0], b[1], b[2], b[3]);
    var n: int := FromLittleEndian(b);
    assert n / 256 == b1 + 256 * b2 + 65536 * b3;
    assert n / 65536 == b2 + 256 * b3;
    assert n / 16777216 == b3;
  }

  lemma StringRoundTrip(c: Codec, text: Bytes, rest: Bytes)
    requires |text| <= U32_MAX && c.utf8(text)
    ensures TakeString(c, PutString(text).value + rest) == Ok((text, rest))
  {
    LittleEndianBack(|text|);
    var bytes := LittleEndian(|text|) + text + rest;
    assert bytes[..4] == LittleEndian(|text|);
    assert bytes[4..] == text + rest;
  }

  lemma StringInverse(c: Codec, bytes: Bytes)
    requires TakeString(c, bytes).Ok?
    ensures var (text, rest) := TakeString(c, bytes).value;
            c.utf8(text) && |text| <= U32_MAX && bytes == PutString(text).value + rest
  {
    LittleEndianThere(bytes[..4]);
    var (text, rest) := TakeString(c, bytes).value;
    assert bytes == bytes[..4] + (text + rest);
  }

  /** The texts of a record are texts. */
  predicate Text(c: Codec, r: Record) {
    match r
    case Tool(name, output) => c.utf8(name) && c.utf8(output)
    case AgentSpawned(agent) => c.utf8(agent)
  }

  lemma RecordRoundTrip(c: Codec, r: Record)
    requires Text(c, r) && Payload(r).Ok?
    ensures RecordOf(c, Kind(r), Payload(r).value) == Ok(r)
  {
    match r {
      case Tool(name, output) =>
        var second := PutString(output).value;
        StringRoundTrip(c, name, second);
        StringRoundTrip(c, output, []);
        assert second + [] == second;
      case AgentSpawned(agent) =>
        StringRoundTrip(c, agent, []);
        assert PutString(agent).value + [] == PutString(agent).value;
    }
  }

  lemma RecordInverse(c: Codec, kind: byte, payload: Bytes)
    requires RecordOf(c, kind, payload).Ok?
    ensures var r := RecordOf(c, kind, payload).value; Text(c, r) && Kind(r) == kind && Payload(r) == Ok(payload)
  {
    StringInverse(c, payload);
    var (first, rest) := TakeString(c, payload).value;
    if kind == TOOL_RESULT {
      StringInverse(c, rest);
      var second := PutString(TakeString(c, rest).value.0).value;
      assert second + [] == second;
    } else {
      assert PutString(first).value + [] == PutString(first).value;
    }
  }

  // ---------------------------------------------------------------------------
  // One frame
  // ---------------------------------------------------------------------------

  predicate Fits(c: Codec, r: Record) {
    Text(c, r) && Frame(c, r).Ok?
  }

  /** The frame of a record that fits one. */
  function FrameOf(c: Codec, r: Record): Bytes
    requires Fits(c, r)
  {
    Frame(c, r).value
  }

  /** How a frame is laid out, and what its length field says. */
  lemma FrameLayout(c: Codec, kind: byte, payload: Bytes, rest: Bytes)
    requires |payload| < MAX_LEN
    ensures var f, body := Framed(c, kind, payload), Body(kind, payload);
            && |f| == |payload| + 9 && |body| == |payload| + 5
            && TakeU32(f + rest) == Some((1 + |payload|, (f + rest)[4..]))
            && (f + rest)[..|body|] == body && body[4] == kind && body[5..] == payload
            && TakeU32((f + rest)[|body|..]) == Some((c.crc(body), rest))
  {
    var f, body := Framed(c, kind, payload), Body(kind, payload);
    LittleEndianBack(1 + |payload|);
    LittleEndianBack(c.crc(body));
    assert (f + rest)[..4] == LittleEndian(1 + |payload|);
    var tail := (f + rest)[|body|..];
    assert tail == LittleEndian(c.crc(body)) + rest;
    assert tail[..4] == LittleEndian(c.crc(body)) && tail[4..] == rest;
  }

  /** A frame reads back as its record, whatever follows it. */
  lemma FrameRoundTrip(c: Codec, r: Record, rest: Bytes)
    requires Fits(c, r)
    ensures NextFrame(c, FrameOf(c, r) + rest) == Ok(Some((r, |FrameOf(c, r)|)))
  {
    hide RecordOf;
    hide FromLittleEndian;
    hide LittleEndian;
    FrameLayout(c, Kind(r), Payload(r).value, rest);
    RecordRoundTrip(c, r);
  }

  /** A frame cut short reads as nothing, and as no error. */
  lemma CutFrame(c: Codec, r: Record, cut: nat)
    requires Fits(c, r) && cut < |FrameOf(c, r)|
    ensures NextFrame(c, FrameOf(c, r)[..cut]) == Ok(None)
  {
    hide FromLittleEndian;
    hide LittleEndian;
    var payload := Payload(r).value;
    var f := Frame(c, r).value;
    FrameLayout(c, Kind(r), payload, []);
    assert f + [] == f;
    if 4 <= cut {
      assert f[..cut][..4] == f[..4];
    }
  }

  /** Whatever reads as a record is that record's frame, byte for byte. */
  lemma FrameInverse(c: Codec, bytes: Bytes)
    requires NextFrame(c, bytes).Ok? && NextFrame(c, bytes).value.Some?
    ensures var (r, size) := NextFrame(c, bytes).value.value;
            Fits(c, r) && FrameOf(c, r) == bytes[..size]
  {
    hide RecordOf;
    hide Payload;
    var (len, _) := TakeU32(bytes).value;
    var body, rest := bytes[..4 + len], bytes[4 + len..];
    var payload := body[5..];
    LittleEndianThere(bytes[..4]);
    LittleEndianThere(rest[..4]);
    RecordInverse(c, body[4], payload);
    assert body == bytes[..4] + [body[4]] + payload;
    assert body == Body(body[4], payload);
    assert bytes[..4 + len + 4] == body + rest[..4];
  }

  // ---------------------------------------------------------------------------
  // A whole journal
  // ---------------------------------------------------------------------------

  predicate AllFit(c: Codec, records: seq<Record>) {
    forall i :: 0 <= i < |records| ==> Fits(c, records[i])
  }

  function Encoded(c: Codec, records: seq<Record>): Bytes
    requires AllFit(c, records)
  {
    if records == [] then [] else FrameOf(c, records[0]) + Encoded(c, records[1..])
  }

  /** The file that holds `records`. */
  function FileOf(c: Codec, records: seq<Record>): Bytes
    requires AllFit(c, records)
  {
    StartFrame(c) + Encoded(c, records)
  }

  lemma {:induction false} EncodedAppend(c: Codec, records: seq<Record>, r: Record)
    requires AllFit(c, records) && Fits(c, r)
    ensures Encoded(c, records + [r]) == Encoded(c, records) + FrameOf(c, r)
  {
    hide FrameOf;
    hide Fits;
    if records == [] {
      assert records + [r] == [r];
      assert [r][1..] == [];
      assert FrameOf(c, r) + [] == FrameOf(c, r) == [] + FrameOf(c, r);
    } else {
      EncodedAppend(c, records[1..], r);
      assert (records + [r])[1..] == records[1..] + [r];
    }
  }

  /** How many of the records' frames fit in the first `cut` bytes of their encoding. */
  function WholeFrames(c: Codec, records: seq<Record>, cut: nat): (n: nat)
    requires AllFit(c, records)
    ensures n <= |records|
    decreases |records|
  {
    if records == [] || cut < |FrameOf(c, records[0])| then 0
    else 1 + WholeFrames(c, records[1..], cut - |FrameOf(c, records[0])|)
  }

  /** `WholeFrames` is the count of frames that end at or before the cut. */
  lemma {:induction false} WholeFramesCounts(c: Codec, records: seq<Record>, cut: nat)
    requires AllFit(c, records)
    ensures var n := WholeFrames(c, records, cut);
            && |Encoded(c, records[..n])| <= cut
            && (n < |records| ==> cut < |Encoded(c, records[..n + 1])|)
    decreases |records|
  {
    hide FrameOf;
    hide Fits;
    if records == [] {
      return;
    }
    var size := |FrameOf(c, records[0])|;
    var n := WholeFrames(c, records, cut);
    if cut < size {
      assert records[..1] == [records[0]] && [records[0]][1..] == [];
    } else {
      WholeFramesCounts(c, records[1..], cut - size);
      assert records[..n][1..] == records[1..][..n - 1];
      if n < |records| {
        assert records[..n + 1][1..] == records[1..][..n];
      }
    }
  }

  /** The encoding cut anywhere reads as the records whose frames are whole. */
  lemma {:induction false} FramesCut(c: Codec, records: seq<Record>, cut: nat)
    requires AllFit(c, records) && cut <= |Encoded(c, records)|
    ensures var n := WholeFrames(c, records, cut);
            Frames(c, Encoded(c, records)[..cut]) == Ok(Decoded(records[..n], |Encoded(c, records[..n])|))
    decreases |records|
  {
    hide NextFrame;
    hide FrameOf;
    hide Fits;
    if records == [] {
      CutShort(c);
      assert Encoded(c, records)[..cut] == [];
      return;
    }
    var f, rest := FrameOf(c, records[0]), records[1..];
    var bytes := Encoded(c, records)[..cut];
    if cut < |f| {
      CutFrame(c, records[0], cut);
      assert bytes == f[..cut];
    } else {
      var tail := Encoded(c, rest)[..cut - |f|];
      assert bytes == f + tail;
      FrameRoundTrip(c, records[0], tail);
      assert bytes[|f|..] == tail;
      FramesCut(c, rest, cut - |f|);
      var n := WholeFrames(c, rest, cut - |f|);
      assert records[..n + 1][0] == records[0] && records[..n + 1][1..] == rest[..n];
      assert [records[0]] + rest[..n] == records[..n + 1];
    }
  }

  lemma CutShort(c: Codec)
    ensures NextFrame(c, []) == Ok(None)
  {
  }

  /** Whatever decodes is the encoding of what it decodes to, followed by bytes that read as cut short. */
  lemma {:induction false} FramesInverse(c: Codec, bytes: Bytes)
    requires Frames(c, bytes).Ok?
    ensures var d := Frames(c, bytes).value;
            && AllFit(c, d.records) && d.whole <= |bytes|
            && bytes[..d.whole] == Encoded(c, d.records)
            && NextFrame(c, bytes[d.whole..]) == Ok(None)
    decreases |bytes|
  {
    hide FrameOf;
    hide Fits;
    hide NextFrame;
    var next := NextFrame(c, bytes).value;
    if next.None? {
      assert bytes[0..] == bytes;
      return;
    }
    var (record, size) := next.value;
    FrameInverse(c, bytes);
    FramesInverse(c, bytes[size..]);
    var d, rest := Frames(c, bytes).value, Frames(c, bytes[size..]).value;
    assert d.records == [record] + rest.records && d.whole == size + rest.whole;
    assert d.records[1..] == rest.records;
    assert bytes[..d.whole] == bytes[..size] + bytes[size..][..rest.whole];
    assert bytes[d.whole..] == bytes[size..][rest.whole..];
  }

  lemma {:induction false} EncodedMonotone(c: Codec, records: seq<Record>, n: nat)
    requires AllFit(c, records) && n <= |records|
    ensures |Encoded(c, records[..n])| <= |Encoded(c, records)|
    decreases n
  {
    hide FrameOf;
    hide Fits;
    if n > 0 {
      EncodedMonotone(c, records[1..], n - 1);
      assert records[..n][1..] == records[1..][..n - 1];
    }
  }

  /** What is left of a journal cut at `cut`. A cut inside the `Start` frame leaves an empty one. */
  function CutAt(c: Codec, records: seq<Record>, cut: nat): Decoded
    requires AllFit(c, records)
  {
    if cut < |StartFrame(c)| then Decoded([], 0)
    else
      var n := WholeFrames(c, records, cut - |StartFrame(c)|);
      Decoded(records[..n], |FileOf(c, records[..n])|)
  }

  /** For every cut of a valid journal, decoding returns exactly the records of the whole frames before the cut. */
  lemma JournalCut(c: Codec, records: seq<Record>, cut: nat)
    requires AllFit(c, records) && cut <= |FileOf(c, records)|
    ensures Decode(c, FileOf(c, records)[..cut]) == Ok(CutAt(c, records, cut))
  {
    hide StartFrame;
    hide Fits;
    hide Frames;
    var start, bytes := StartFrame(c), FileOf(c, records)[..cut];
    if cut < |start| {
      assert bytes == start[..cut];
    } else {
      assert bytes[|start|..] == Encoded(c, records)[..cut - |start|];
      assert start <= bytes;
      FramesCut(c, records, cut - |start|);
    }
  }

  /** Encoding any records and decoding the file gives them back, and leaves no tail. */
  lemma JournalRoundTrip(c: Codec, records: seq<Record>)
    requires AllFit(c, records)
    ensures Decode(c, FileOf(c, records)) == Ok(Decoded(records, |FileOf(c, records)|))
  {
    hide StartFrame;
    hide Decode;
    hide Fits;
    var file := FileOf(c, records);
    JournalCut(c, records, |file|);
    AllWhole(c, records);
    assert records[..|records|] == records;
    assert file[..|file|] == file;
  }

  lemma AllWhole(c: Codec, records: seq<Record>)
    requires AllFit(c, records)
    ensures WholeFrames(c, records, |Encoded(c, records)|) == |records|
  {
  }

  /** Decoding then encoding again reproduces the whole-frame bytes. */
  lemma JournalInverse(c: Codec, bytes: Bytes)
    requires Decode(c, bytes).Ok?
    ensures var d := Decode(c, bytes).value;
            && AllFit(c, d.records) && d.whole <= |bytes|
            && (if d.whole == 0 then d.records == [] && bytes <= StartFrame(c) && bytes != StartFrame(c)
                else bytes[..d.whole] == FileOf(c, d.records))
  {
    hide StartFrame;
    hide Frames;
    var start := StartFrame(c);
    StartIsLong(c);
    if start <= bytes {
      FramesInverse(c, bytes[|start|..]);
      var d := Decode(c, bytes).value;
      assert bytes == start + bytes[|start|..];
      assert bytes[..d.whole] == start + bytes[|start|..][..d.whole - |start|];
    }
  }

  lemma StartIsLong(c: Codec)
    ensures |StartFrame(c)| == 24
  {
  }
}
