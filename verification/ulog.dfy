/** A ULog file of one topic, `fc_trace`: written message by message, parsed by a loop over
    length-prefixed messages (PX4 ULog file format: Header, Definitions and Data sections). */
module Ulog {
  import opened Options
  import opened Bytes
  import opened Clock

  const MAGIC: seq<Byte> := [0x55, 0x4c, 0x6f, 0x67, 0x01, 0x12, 0x35]
  const VERSION: Byte := 0
  const HEADER: nat := 16

  const MSG_FORMAT: Byte := 0x46
  const MSG_ADD: Byte := 0x41
  const MSG_DATA: Byte := 0x44

  const FC_TRACE_DATA: nat := 48
  const LONG_MAX: nat := 0xffff_ffff_ffff_ffff

  // "fc_trace" and "vehicle_status"
  const FC_TRACE: seq<Byte> := [0x66, 0x63, 0x5f, 0x74, 0x72, 0x61, 0x63, 0x65]
  const VEHICLE_STATUS: seq<Byte> := [0x76, 0x65, 0x68, 0x69, 0x63, 0x6c, 0x65, 0x5f, 0x73, 0x74, 0x61, 0x74, 0x75,
                                     0x73]

  /** A logged sample; floats other than the time are the bits of their encoding. */
  datatype Sample = Sample(
    t: real, armed: bool, actuators: bool, failsafe: bool, epoch: Word, heartbeatAge: Word,
    command: Option<(Word, Word, Word)>, altitude: Word, commandAge: Word, estimatorMs: Long)

  // ---- what a file keeps of a sample ----

  /** Microseconds, cut off below zero and at the top of the range. */
  function Micros(t: real): Long {
    var us := if t > 0.0 then (t * 1000000.0).Floor else 0;
    if us > LONG_MAX then LONG_MAX else us
  }

  function EstimatorMicros(ms: Long): Long { if ms * 1000 > LONG_MAX then LONG_MAX else ms * 1000 }

  function Seconds(us: nat): real { us as real / 1000000.0 }

  /** Time quantised to a microsecond, the estimator stamp cut at its saturation, all else as it was. */
  function Kept(s: Sample): Sample {
    s.(t := Seconds(Micros(s.t)), estimatorMs := EstimatorMicros(s.estimatorMs) / 1000)
  }

  function KeptAll(xs: seq<Sample>): seq<Sample> { seq(|xs|, i requires 0 <= i < |xs| => Kept(xs[i])) }

  /** The estimator stamp survives exactly when it does not saturate in microseconds. */
  lemma EstimatorKeptIff(s: Sample)
    ensures Kept(s).estimatorMs == s.estimatorMs <==> s.estimatorMs <= 18446744073709551
  {
  }

  /** A time survives exactly when it is a whole number of microseconds within range. */
  lemma TimeKeptIff(s: Sample)
    ensures Kept(s).t == s.t <==> exists us: nat :: us <= LONG_MAX && s.t == Seconds(us)
  {
    if exists us: nat :: us <= LONG_MAX && s.t == Seconds(us) {
      var us: nat :| us <= LONG_MAX && s.t == Seconds(us);
      WholeMicros(us);
    } else {
      assert Kept(s).t == Seconds(Micros(s.t));
    }
  }

  lemma WholeMicros(us: nat)
    requires us <= LONG_MAX
    ensures Micros(Seconds(us)) == us
  {
  }

  // ---- chunks ----

  function Joined(cs: seq<seq<Byte>>): seq<Byte> {
    if |cs| == 0 then [] else Joined(cs[..|cs| - 1]) + cs[|cs| - 1]
  }

  lemma JoinedSnoc(cs: seq<seq<Byte>>, c: seq<Byte>)
    ensures Joined(cs + [c]) == Joined(cs) + c
  {
  }

  lemma {:induction false} JoinedGrows(cs: seq<seq<Byte>>, k: nat)
    requires k <= |cs|
    ensures Joined(cs[..k]) <= Joined(cs)
    decreases |cs| - k
  {
    if k < |cs| {
      JoinedGrows(cs, k + 1);
      assert cs[..k + 1][..k] == cs[..k];
    } else {
      assert cs[..k] == cs;
    }
  }

  /** Chunk k sits where the chunks before it end. */
  lemma ChunkAt(cs: seq<seq<Byte>>, k: nat, from: nat)
    requires k < |cs| && from == |Joined(cs[..k])|
    ensures from + |cs[k]| == |Joined(cs[..k + 1])| <= |Joined(cs)|
    ensures Joined(cs)[from..from + |cs[k]|] == cs[k]
  {
    assert cs[..k + 1][..k] == cs[..k];
    JoinedGrows(cs, k + 1);
    var here := Joined(cs[..k + 1]);
    assert here[from..] == cs[k];
    assert Joined(cs)[..|here|] == here;
    assert Joined(cs)[from..|here|] == Joined(cs)[..|here|][from..];
  }

  // ---- one data message ----

  function CommandBits(s: Sample): (Word, Word, Word) {
    match s.command
    case None => (0, 0, 0)
    case Some(c) => c
  }

  function Chunks(s: Sample): seq<seq<Byte>> {
    [Le(Micros(s.t), 8)] + [[Flag(s.armed)]] + [[Flag(s.actuators)]] + [[Flag(s.failsafe)]]
    + [Le(s.epoch, 4)] + [Le(s.heartbeatAge, 4)] + [Le(s.commandAge, 4)] + [Le(EstimatorMicros(s.estimatorMs), 8)]
    + [Le(CommandBits(s).0, 4)] + [Le(CommandBits(s).1, 4)] + [Le(CommandBits(s).2, 4)]
    + [[Flag(s.command.Some?)]] + [Le(s.altitude, 4)]
  }

  function DataOf(s: Sample): seq<Byte> { [0, 0] + Joined(Chunks(s)) }

  function ParseFcTrace(data: seq<Byte>): Option<Sample> {
    if |data| < FC_TRACE_DATA then None
    else
      var command := if data[43] != 0 then Some((Word32(data[31..35]), Word32(data[35..39]), Word32(data[39..43])))
        else None;
      Some(Sample(Seconds(Long64(data[0..8])), data[8] != 0, data[9] != 0, data[10] != 0, Word32(data[11..15]),
                  Word32(data[15..19]), command, Word32(data[44..48]), Word32(data[19..23]),
                  Long64(data[23..31]) / 1000))
  }

  method EncodeSample(s: Sample) returns (data: seq<Byte>)
    ensures data == DataOf(s)
  {
    ghost var cs: seq<seq<Byte>> := [];
    var body: seq<Byte> := [];
    body, cs := Push(body, cs, Le(Micros(s.t), 8));
    assert cs == [Le(Micros(s.t), 8)];
    body, cs := Push(body, cs, [Flag(s.armed)]);
    body, cs := Push(body, cs, [Flag(s.actuators)]);
    body, cs := Push(body, cs, [Flag(s.failsafe)]);
    body, cs := Push(body, cs, Le(s.epoch, 4));
    body, cs := Push(body, cs, Le(s.heartbeatAge, 4));
    body, cs := Push(body, cs, Le(s.commandAge, 4));
    body, cs := Push(body, cs, Le(EstimatorMicros(s.estimatorMs), 8));
    var cmd := CommandBits(s);
    body, cs := Push(body, cs, Le(cmd.0, 4));
    body, cs := Push(body, cs, Le(cmd.1, 4));
    body, cs := Push(body, cs, Le(cmd.2, 4));
    body, cs := Push(body, cs, [Flag(s.command.Some?)]);
    body, cs := Push(body, cs, Le(s.altitude, 4));
    data := [0, 0] + body;
  }

  method Push(body: seq<Byte>, ghost cs: seq<seq<Byte>>, c: seq<Byte>) returns (r: seq<Byte>, ghost rs: seq<seq<Byte>>)
    requires body == Joined(cs)
    ensures r == body + c == Joined(rs) && rs == cs + [c]
  {
    JoinedSnoc(cs, c);
    r := body + c;
    rs := cs + [c];
  }

  predicate Thirteen(cs: seq<seq<Byte>>) {
    && |cs| == 13
    && |cs[0]| == 8 && |cs[1]| == |cs[2]| == |cs[3]| == 1 && |cs[4]| == |cs[5]| == |cs[6]| == 4 && |cs[7]| == 8
    && |cs[8]| == |cs[9]| == |cs[10]| == 4 && |cs[11]| == 1 && |cs[12]| == 4
  }

  lemma Offsets(cs: seq<seq<Byte>>)
    requires Thirteen(cs)
    ensures var d := Joined(cs);
            && |d| == FC_TRACE_DATA
            && d[0..8] == cs[0] && d[8..9] == cs[1] && d[9..10] == cs[2] && d[10..11] == cs[3]
            && d[11..15] == cs[4] && d[15..19] == cs[5] && d[19..23] == cs[6] && d[23..31] == cs[7]
            && d[31..35] == cs[8] && d[35..39] == cs[9] && d[39..43] == cs[10] && d[43..44] == cs[11]
            && d[44..48] == cs[12]
  {
    assert cs[..0] == [];
    ChunkAt(cs, 0, 0);
    ChunkAt(cs, 1, 8);
    ChunkAt(cs, 2, 9);
    ChunkAt(cs, 3, 10);
    ChunkAt(cs, 4, 11);
    ChunkAt(cs, 5, 15);
    ChunkAt(cs, 6, 19);
    ChunkAt(cs, 7, 23);
    ChunkAt(cs, 8, 31);
    ChunkAt(cs, 9, 35);
    ChunkAt(cs, 10, 39);
    ChunkAt(cs, 11, 43);
    ChunkAt(cs, 12, 44);
    assert cs[..13] == cs;
  }

  lemma ChunksAre(s: Sample)
    ensures var cs := Chunks(s);
            && Thirteen(cs)
            && cs[0] == Le(Micros(s.t), 8) && cs[1] == [Flag(s.armed)] && cs[2] == [Flag(s.actuators)]
            && cs[3] == [Flag(s.failsafe)]
            && cs[4] == Le(s.epoch, 4) && cs[5] == Le(s.heartbeatAge, 4) && cs[6] == Le(s.commandAge, 4)
            && cs[7] == Le(EstimatorMicros(s.estimatorMs), 8)
            && cs[8] == Le(CommandBits(s).0, 4) && cs[9] == Le(CommandBits(s).1, 4) && cs[10] == Le(CommandBits(s).2, 4)
            && cs[11] == [Flag(s.command.Some?)] && cs[12] == Le(s.altitude, 4)
  {
  }

  lemma Flags(d: seq<Byte>, s: Sample)
    requires |d| == FC_TRACE_DATA && d[8..9] == [Flag(s.armed)] && d[9..10] == [Flag(s.actuators)]
    requires d[10..11] == [Flag(s.failsafe)] && d[43..44] == [Flag(s.command.Some?)]
    ensures (d[8] != 0) == s.armed && (d[9] != 0) == s.actuators && (d[10] != 0) == s.failsafe
    ensures (d[43] != 0) == s.command.Some?
  {
    assert d[8] == d[8..9][0] && d[9] == d[9..10][0] && d[10] == d[10..11][0] && d[43] == d[43..44][0];
  }

  /** A sample encoded and parsed is what the file keeps of it. */
  lemma DataRoundTrip(s: Sample)
    ensures |DataOf(s)| == 2 + FC_TRACE_DATA && DataOf(s)[..2] == [0, 0]
    ensures ParseFcTrace(DataOf(s)[2..]) == Some(Kept(s))
  {
    var d := Joined(Chunks(s));
    ChunksAre(s);
    Offsets(Chunks(s));
    Flags(d, s);
    NumbersRoundTrip();
    assert ParseFcTrace(d) == Some(Kept(s));
    assert DataOf(s)[2..] == Joined(Chunks(s));
  }

  // ---- messages ----

  /** Size, type, payload.  A size that does not fit is written as the largest one. */
  function Msg(ty: Byte, payload: seq<Byte>): seq<Byte> {
    Le(if |payload| < 0x1_0000 then |payload| else 0xffff, 2) + [ty] + payload
  }

  method WriteMsg(out: seq<Byte>, ty: Byte, payload: seq<Byte>) returns (r: seq<Byte>)
    ensures r == out + Msg(ty, payload)
  {
    var size := if |payload| < 0x1_0000 then |payload| else 0xffff;
    r := out + Le(size, 2);
    r := r + [ty];
    r := r + payload;
  }

  datatype Message = Message(ty: Byte, payload: seq<Byte>)

  predicate Sized(m: Message) { |m.payload| < 0x1_0000 }

  function Wire(m: Message): seq<Byte> { Msg(m.ty, m.payload) }

  function Stream(ms: seq<Message>): seq<Byte> {
    if |ms| == 0 then [] else Stream(ms[..|ms| - 1]) + Wire(ms[|ms| - 1])
  }

  // ---- parsing ----

  datatype Error = NotUlog | Truncated | FormatNotUtf8 | AddTooShort | DataTooShort | NoSamples

  datatype Result<T> = Ok(value: T) | Err(error: Error)

  /** What has been gathered so far: format strings, logged topics by id, and samples. */
  datatype Log = Log(formats: seq<seq<Byte>>, ids: seq<(Half, seq<Byte>)>, fc: seq<Sample>, status: seq<Sample>)

  const EMPTY: Log := Log([], [], [], [])

  /** The outside world of the parser: which bytes are UTF-8, and how a `vehicle_status` record
      reads under the formats seen so far. */
  datatype Reader = Reader(utf8: seq<Byte> -> bool, status: (seq<Byte>, seq<seq<Byte>>) -> Option<Sample>)

  ghost predicate AsciiIsUtf8(r: Reader) {
    forall s: seq<Byte> :: (forall b :: b in s ==> b < 128) ==> r.utf8(s)
  }

  function TrimFront(s: seq<Byte>): seq<Byte> { if |s| > 0 && s[0] == 0 then TrimFront(s[1..]) else s }

  function TrimBack(s: seq<Byte>): seq<Byte> { if |s| > 0 && s[|s| - 1] == 0 then TrimBack(s[..|s| - 1]) else s }

  function NameOf(r: Reader, s: seq<Byte>): seq<Byte> { if r.utf8(s) then TrimBack(TrimFront(s)) else [] }

  /** The topic first logged under an id. */
  function Topic(ids: seq<(Half, seq<Byte>)>, id: Half): Option<seq<Byte>> {
    if |ids| == 0 then None else if ids[0].0 == id then Some(ids[0].1) else Topic(ids[1..], id)
  }

  function Handled(r: Reader, log: Log, m: Message): Result<Log> {
    if m.ty == MSG_FORMAT then
      if !r.utf8(m.payload) then Err(FormatNotUtf8)
      else if 0x3a in m.payload then Ok(log.(formats := log.formats + [m.payload]))
      else Ok(log)
    else if m.ty == MSG_ADD then
      if |m.payload| < 3 then Err(AddTooShort)
      else Ok(log.(ids := log.ids + [(Half16(m.payload[1..3]), NameOf(r, m.payload[3..]))]))
    else if m.ty == MSG_DATA then
      if |m.payload| < 2 then Err(DataTooShort)
      else Ok(Recorded(r, log, Topic(log.ids, Half16(m.payload[..2])), m.payload[2..]))
    else Ok(log)
  }

  function Recorded(r: Reader, log: Log, topic: Option<seq<Byte>>, data: seq<Byte>): Log {
    if topic == Some(FC_TRACE) then
      match ParseFcTrace(data)
      case None => log
      case Some(x) => log.(fc := log.fc + [x])
    else if topic == Some(VEHICLE_STATUS) then
      match r.status(data, log.formats)
      case None => log
      case Some(x) => log.(status := log.status + [x])
    else log
  }

  /** The loop: whole messages from i on; fewer than three bytes at the end are ignored. */
  function Scan(r: Reader, bytes: seq<Byte>, i: nat, log: Log): Result<Log>
    requires i <= |bytes|
    decreases |bytes| - i
  {
    if i + 3 > |bytes| then Ok(log)
    else
      var end := i + 3 + Half16(bytes[i..i + 2]);
      if end > |bytes| then Err(Truncated)
      else
        match Handled(r, log, Message(bytes[i + 2], bytes[i + 3..end]))
        case Err(e) => Err(e)
        case Ok(next) => Scan(r, bytes, end, next)
  }

  predicate IsUlog(bytes: seq<Byte>) { |bytes| >= HEADER && bytes[..7] == MAGIC }

  function Parsed(r: Reader, bytes: seq<Byte>): Result<seq<Sample>> {
    if !IsUlog(bytes) then Err(NotUlog)
    else
      match Scan(r, bytes, HEADER, EMPTY)
      case Err(e) => Err(e)
      case Ok(log) =>
        if |log.fc| > 0 then Ok(log.fc) else if |log.status| == 0 then Err(NoSamples) else Ok(Stamped(log.status))
  }

  method ParseUlog(r: Reader, bytes: seq<Byte>) returns (res: Result<seq<Sample>>)
    ensures res == Parsed(r, bytes)
  {
    if |bytes| < HEADER || bytes[..7] != MAGIC {
      return Err(NotUlog);
    }
    var i := HEADER;
    var formats: seq<seq<Byte>>, ids: seq<(Half, seq<Byte>)> := [], [];
    var fc: seq<Sample>, status: seq<Sample> := [], [];
    while i + 3 <= |bytes|
      invariant HEADER <= i <= |bytes|
      invariant Scan(r, bytes, HEADER, EMPTY) == Scan(r, bytes, i, Log(formats, ids, fc, status))
      decreases |bytes| - i
    {
      var size, ty := Half16(bytes[i..i + 2]), bytes[i + 2];
      var start := i + 3;
      var end := start + size;
      if end > |bytes| {
        return Err(Truncated);
      }
      var payload := bytes[start..end];
      var next := Handled(r, Log(formats, ids, fc, status), Message(ty, payload));
      if next.Err? {
        return Err(next.error);
      }
      formats, ids, fc, status := next.value.formats, next.value.ids, next.value.fc, next.value.status;
      i := end;
    }
    if |fc| > 0 {
      return Ok(fc);
    }
    if |status| == 0 {
      return Err(NoSamples);
    }
    var stamped := new Sample[|status|](k requires 0 <= k < |status| => status[k]);
    assert stamped[..] == status;
    StampStatusEpochs(stamped);
    res := Ok(stamped[..]);
  }

  // ---- epochs of a status stream ----

  /** Rising edges of the failsafe flag among the first n samples. */
  function Rises(xs: seq<Sample>, n: nat): nat
    requires n <= |xs|
  {
    if n == 0 then 0
    else Rises(xs, n - 1) + (if xs[n - 1].failsafe && (n == 1 || !xs[n - 2].failsafe) then 1 else 0)
  }

  /** A sample's epoch is the number of failsafes entered up to and including it. */
  function StampedAt(xs: seq<Sample>, i: nat): Sample
    requires i < |xs|
  {
    WithEpoch(xs[i], Capped(Rises(xs, i + 1)))
  }

  function Stamped(xs: seq<Sample>): seq<Sample> { seq(|xs|, i requires 0 <= i < |xs| => StampedAt(xs, i)) }

  method StampStatusEpochs(samples: array<Sample>)
    modifies samples
    ensures samples[..] == Stamped(old(samples[..]))
  {
    ghost var was := samples[..];
    var epoch: Word, prev := 0, false;
    var i := 0;
    while i < samples.Length
      invariant 0 <= i <= samples.Length == |was|
      invariant epoch == Capped(Rises(was, i)) && prev == (i > 0 && was[i - 1].failsafe)
      invariant forall k :: 0 <= k < i ==> samples[k] == StampedAt(was, k)
      invariant forall k :: i <= k < samples.Length ==> samples[k] == was[k]
    {
      if samples[i].failsafe && !prev {
        epoch := if epoch < 0xffff_ffff then epoch + 1 else epoch;
      }
      prev := samples[i].failsafe;
      samples[i] := WithEpoch(samples[i], epoch);
      i := i + 1;
    }
  }

  function WithEpoch(s: Sample, epoch: Word): Sample { s.(epoch := epoch) }

  /** Stamping keeps everything but the epoch, which never falls, and rises - by one - exactly on entry into
      failsafe below its maximum. */
  lemma StampedEpochs(xs: seq<Sample>, i: nat)
    requires i + 1 < |xs|
    ensures var ys := Stamped(xs);
            && WithEpoch(ys[i + 1], 0) == WithEpoch(xs[i + 1], 0)
            && ys[i].epoch <= ys[i + 1].epoch <= ys[i].epoch + 1
            && (ys[i + 1].epoch > ys[i].epoch <==> xs[i + 1].failsafe && !xs[i].failsafe && ys[i].epoch < 0xffff_ffff)
  {
    assert Rises(xs, i + 2) == Rises(xs, i + 1) + if xs[i + 1].failsafe && !xs[i].failsafe then 1 else 0;
  }

  // ---- a whole file ----

  const FC_TRACE_FORMAT: string :=
    "fc_trace:" + "uint64_t timestamp;" + "uint8_t armed;" + "uint8_t actuators;" + "uint8_t failsafe;"
    + "uint32_t epoch;" + "uint32_t heartbeat_age_ms;" + "uint32_t command_age_ms;" + "uint64_t estimator_ts_us;"
    + "float cmd0;" + "float cmd1;" + "float cmd2;" + "uint8_t has_cmd;" + "float altitude_m;"

  predicate Plain(s: seq<Byte>) { forall b :: b in s ==> b < 128 }

  /** A format string as the bytes of its message. */
  function Ascii(s: string): seq<Byte> { seq(|s|, i requires 0 <= i < |s| => s[i] as int % 128) }

  lemma AsciiIsPlain(s: string)
    ensures Plain(Ascii(s)) && |Ascii(s)| == |s|
  {
  }

  function StartTime(xs: seq<Sample>): Long { if |xs| == 0 then 0 else Micros(xs[0].t) }

  function Header(t0: Long): seq<Byte> { MAGIC + [VERSION] + Le(t0, 8) }

  function AddPayload(): seq<Byte> { [0, 0, 0] + FC_TRACE }

  function DataMessages(xs: seq<Sample>): seq<Message> {
    seq(|xs|, i requires 0 <= i < |xs| => Message(MSG_DATA, DataOf(xs[i])))
  }

  function Messages(format: seq<Byte>, xs: seq<Sample>): seq<Message> {
    [Message(MSG_FORMAT, format), Message(MSG_ADD, AddPayload())] + DataMessages(xs)
  }

  function FileFrom(t0: Long, format: seq<Byte>,
                    xs: seq<Sample>): seq<Byte> { Header(t0) + Stream(Messages(format, xs)) }

  function File(format: seq<Byte>, xs: seq<Sample>): seq<Byte> { FileFrom(StartTime(xs), format, xs) }

  lemma StreamSnoc(ms: seq<Message>, m: Message)
    ensures Stream(ms + [m]) == Stream(ms) + Wire(m)
  {
  }

  lemma MessagesSnoc(format: seq<Byte>, xs: seq<Sample>, x: Sample)
    ensures Messages(format, xs + [x]) == Messages(format, xs) + [Message(MSG_DATA, DataOf(x))]
  {
  }

  lemma FileGrows(t0: Long, format: seq<Byte>, xs: seq<Sample>, x: Sample)
    ensures FileFrom(t0, format, xs + [x]) == FileFrom(t0, format, xs) + Msg(MSG_DATA, DataOf(x))
  {
    MessagesSnoc(format, xs, x);
    StreamSnoc(Messages(format, xs), Message(MSG_DATA, DataOf(x)));
  }

  lemma MessagesOfNone(format: seq<Byte>, f: Message, a: Message)
    requires f == Message(MSG_FORMAT, format) && a == Message(MSG_ADD, AddPayload())
    ensures Messages(format, []) == [] + [f] + [a]
  {
  }

  lemma StreamOfTwo(f: Message, a: Message)
    ensures Stream([] + [f] + [a]) == Wire(f) + Wire(a)
  {
    StreamSnoc([] + [f], a);
    StreamSnoc([], f);
  }

  lemma PreambleStream(format: seq<Byte>)
    ensures Stream(Messages(format, [])) == Msg(MSG_FORMAT, format) + Msg(MSG_ADD, AddPayload())
  {
    var f, a := Message(MSG_FORMAT, format), Message(MSG_ADD, AddPayload());
    MessagesOfNone(format, f, a);
    StreamOfTwo(f, a);
  }

  method WritePreamble(t0: Long, format: seq<Byte>) returns (out: seq<Byte>)
    ensures out == FileFrom(t0, format, [])
  {
    out := MAGIC;
    out := out + [VERSION];
    out := out + Le(t0, 8);
    out := WriteMsg(out, MSG_FORMAT, format);
    var add: seq<Byte> := [0];
    add := add + [0, 0];
    add := add + FC_TRACE;
    assert add == AddPayload();
    out := WriteMsg(out, MSG_ADD, add);
    PreambleStream(format);
  }

  lemma PrefixNext<T>(s: seq<T>, i: nat)
    requires i < |s|
    ensures s[..i + 1] == s[..i] + [s[i]]
  {
  }

  method WriteUlog(format: seq<Byte>, samples: seq<Sample>) returns (out: seq<Byte>)
    ensures out == File(format, samples)
  {
    var t0 := if |samples| > 0 then Micros(samples[0].t) else 0;
    out := WritePreamble(t0, format);
    for i := 0 to |samples|
      invariant out == FileFrom(t0, format, samples[..i])
    {
      var data := EncodeSample(samples[i]);
      PrefixNext(samples, i);
      FileGrows(t0, format, samples[..i], samples[i]);
      out := WriteMsg(out, MSG_DATA, data);
    }
    assert samples[..|samples|] == samples;
  }

  // ---- scanning what was written ----

  function Continued(r: Reader, bytes: seq<Byte>, i: nat, res: Result<Log>): Result<Log>
    requires i <= |bytes|
  {
    match res
    case Err(e) => Err(e)
    case Ok(log) => Scan(r, bytes, i, log)
  }

  lemma SizeField(m: Message)
    requires Sized(m)
    ensures |Wire(m)| == 3 + |m.payload| && Half16(Wire(m)[..2]) == |m.payload| && Wire(m)[2] == m.ty
    ensures Wire(m)[3..] == m.payload
  {
    NumbersRoundTrip();
    assert Wire(m)[..2] == Le(|m.payload|, 2);
  }

  /** One whole message is handled and stepped over. */
  lemma ScanOne(r: Reader, bytes: seq<Byte>, i: nat, log: Log, m: Message, end: nat)
    requires Sized(m) && end == i + |Wire(m)| <= |bytes| && bytes[i..end] == Wire(m)
    ensures Scan(r, bytes, i, log) == Continued(r, bytes, end, Handled(r, log, m))
  {
    SizeField(m);
    var w := Wire(m);
    assert bytes[i..i + 2] == bytes[i..end][..2];
    assert bytes[i + 2] == bytes[i..end][2];
    assert bytes[i + 3..end] == bytes[i..end][3..];
    assert Message(bytes[i + 2], bytes[i + 3..end]) == m;
  }

  function HandledAll(r: Reader, log: Log, ms: seq<Message>): Result<Log> {
    if |ms| == 0 then Ok(log)
    else
      match HandledAll(r, log, ms[..|ms| - 1])
      case Err(e) => Err(e)
      case Ok(next) => Handled(r, next, ms[|ms| - 1])
  }

  lemma Halves(s: seq<Byte>, i: nat, mid: nat, end: nat, a: seq<Byte>, b: seq<Byte>)
    requires i <= mid <= end <= |s| && mid - i == |a| && s[i..end] == a + b
    ensures s[i..mid] == a && s[mid..end] == b
  {
    assert s[i..mid] == s[i..end][..|a|];
    assert s[mid..end] == s[i..end][|a|..];
  }

  lemma ScanOnward(r: Reader, bytes: seq<Byte>, i: nat, end: nat, res: Result<Log>, m: Message)
    requires Sized(m) && end == i + |Wire(m)| <= |bytes| && bytes[i..end] == Wire(m)
    ensures Continued(r, bytes, i, res)
         == Continued(r, bytes, end, if res.Ok? then Handled(r, res.value, m) else res)
  {
    if res.Ok? {
      ScanOne(r, bytes, i, res.value, m, end);
    }
  }

  lemma {:induction false} ScanStream(r: Reader, bytes: seq<Byte>, i: nat, log: Log, ms: seq<Message>)
    requires forall m :: m in ms ==> Sized(m)
    requires i + |Stream(ms)| <= |bytes| && bytes[i..i + |Stream(ms)|] == Stream(ms)
    ensures Scan(r, bytes, i, log) == Continued(r, bytes, i + |Stream(ms)|, HandledAll(r, log, ms))
  {
    if |ms| > 0 {
      var front, last := ms[..|ms| - 1], ms[|ms| - 1];
      var mid, end := i + |Stream(front)|, i + |Stream(ms)|;
      Halves(bytes, i, mid, end, Stream(front), Wire(last));
      ScanStream(r, bytes, i, log, front);
      ScanOnward(r, bytes, mid, end, HandledAll(r, log, front), last);
    }
  }

  /** A cut message at the end: unnoticed below three bytes, an error from there on. */
  lemma ScanCut(r: Reader, bytes: seq<Byte>, i: nat, log: Log, m: Message)
    requires Sized(m) && i <= |bytes| && |bytes| - i < |Wire(m)| && bytes[i..] == Wire(m)[..|bytes| - i]
    ensures Scan(r, bytes, i, log) == if |bytes| - i < 3 then Ok(log) else Err(Truncated)
  {
    if |bytes| - i >= 3 {
      SizeField(m);
      assert bytes[i..i + 2] == bytes[i..][..2] == Wire(m)[..2];
    }
  }

  // ---- what the messages of a file add up to ----

  lemma TopicIsFcTrace(r: Reader, log: Log)
    requires AsciiIsUtf8(r)
    ensures Handled(r, log, Message(MSG_ADD, AddPayload())) == Ok(log.(ids := log.ids + [(0, FC_TRACE)]))
  {
    var p := AddPayload();
    assert p[3..] == FC_TRACE;
    assert p[1..3] == [0, 0];
    assert Half16([0, 0]) == 0 by {
      NumbersRoundTrip();
      assert Le(0, 2) == [0, 0] by {
        assert Le(0, 1) == [0] + Le(0, 0);
      }
    }
    assert Plain(FC_TRACE);
    assert NameOf(r, FC_TRACE) == FC_TRACE;
  }

  function Logged(format: seq<Byte>, xs: seq<Sample>): Log {
    Log(Formats(format), [(0, FC_TRACE)], KeptAll(xs), [])
  }

  lemma DataIsKept(r: Reader, format: seq<Byte>, xs: seq<Sample>, x: Sample)
    ensures Handled(r, Logged(format, xs), Message(MSG_DATA, DataOf(x))) == Ok(Logged(format, xs + [x]))
  {
    DataRoundTrip(x);
    var p := DataOf(x);
    assert Half16(p[..2]) == 0 by {
      NumbersRoundTrip();
      assert Le(0, 2) == [0, 0] by {
        assert Le(0, 1) == [0] + Le(0, 0);
      }
    }
    assert KeptAll(xs + [x]) == KeptAll(xs) + [Kept(x)];
  }

  lemma HandledSnoc(r: Reader, log: Log, ms: seq<Message>, m: Message)
    ensures HandledAll(r, log, ms + [m]) ==
              match HandledAll(r, log, ms)
              case Err(e) => Err(e)
              case Ok(next) => Handled(r, next, m)
  {
  }

  function Formats(format: seq<Byte>): seq<seq<Byte>> { if 0x3a in format then [format] else [] }

  lemma FormatIsKept(r: Reader, format: seq<Byte>)
    requires AsciiIsUtf8(r) && Plain(format)
    ensures Handled(r, EMPTY, Message(MSG_FORMAT, format)) == Ok(Log(Formats(format), [], [], []))
  {
    var none: seq<seq<Byte>> := [];
    assert none + [format] == [format];
  }

  lemma PreambleAddsUp(r: Reader, format: seq<Byte>)
    requires AsciiIsUtf8(r) && Plain(format)
    ensures HandledAll(r, EMPTY, Messages(format, [])) == Ok(Logged(format, []))
  {
    var f, a := Message(MSG_FORMAT, format), Message(MSG_ADD, AddPayload());
    assert Messages(format, []) == ([] + [f]) + [a];
    HandledSnoc(r, EMPTY, [], f);
    HandledSnoc(r, EMPTY, [] + [f], a);
    FormatIsKept(r, format);
    TopicIsFcTrace(r, Log(Formats(format), [], [], []));
    var none: seq<(Half, seq<Byte>)> := [];
    assert none + [(0, FC_TRACE)] == [(0, FC_TRACE)] && KeptAll([]) == [];
  }

  lemma {:induction false} MessagesAddUp(r: Reader, format: seq<Byte>, xs: seq<Sample>)
    requires AsciiIsUtf8(r) && Plain(format)
    ensures HandledAll(r, EMPTY, Messages(format, xs)) == Ok(Logged(format, xs))
  {
    if |xs| == 0 {
      PreambleAddsUp(r, format);
    } else {
      var front, last := xs[..|xs| - 1], xs[|xs| - 1];
      assert front + [last] == xs;
      MessagesAddUp(r, format, front);
      MessagesSnoc(format, front, last);
      HandledSnoc(r, EMPTY, Messages(format, front), Message(MSG_DATA, DataOf(last)));
      DataIsKept(r, format, front, last);
    }
  }

  lemma MessagesAreSized(format: seq<Byte>, xs: seq<Sample>)
    requires |format| < 0x1_0000
    ensures forall m :: m in Messages(format, xs) ==> Sized(m)
  {
    forall x: Sample ensures |DataOf(x)| == 2 + FC_TRACE_DATA { DataRoundTrip(x); }
  }

  lemma HeaderIsUlog(t0: Long, rest: seq<Byte>)
    ensures |Header(t0)| == HEADER && IsUlog(Header(t0) + rest)
  {
  }

  /** Every non-empty list of samples written and parsed is the list of what the file keeps of
      them, in order; an empty list parses as having none. */
  lemma RoundTrip(r: Reader, format: seq<Byte>, xs: seq<Sample>)
    requires AsciiIsUtf8(r) && Plain(format) && |format| < 0x1_0000
    ensures Parsed(r, File(format, xs)) == if |xs| > 0 then Ok(KeptAll(xs)) else Err(NoSamples)
  {
    var ms := Messages(format, xs);
    MessagesAreSized(format, xs);
    MessagesAddUp(r, format, xs);
    WholeStream(r, StartTime(xs), ms, Logged(format, xs));
  }

  lemma WholeStream(r: Reader, t0: Long, ms: seq<Message>, log: Log)
    requires (forall m :: m in ms ==> Sized(m)) && HandledAll(r, EMPTY, ms) == Ok(log)
    ensures IsUlog(Header(t0) + Stream(ms)) && |Header(t0)| == HEADER
    ensures Scan(r, Header(t0) + Stream(ms), HEADER, EMPTY) == Ok(log)
  {
    var bytes := Header(t0) + Stream(ms);
    HeaderIsUlog(t0, Stream(ms));
    assert bytes[HEADER..HEADER + |Stream(ms)|] == Stream(ms);
    ScanStream(r, bytes, HEADER, EMPTY, ms);
  }

  lemma FormatFits()
    ensures |FC_TRACE_FORMAT| < 0x1_0000
  {
  }

  /** In particular under the one format the writer declares. */
  lemma TraceRoundTrip(r: Reader, xs: seq<Sample>)
    requires AsciiIsUtf8(r) && |xs| > 0
    ensures Parsed(r, File(Ascii(FC_TRACE_FORMAT), xs)) == Ok(KeptAll(xs))
  {
    FormatFits();
    AsciiIsPlain(FC_TRACE_FORMAT);
    RoundTrip(r, Ascii(FC_TRACE_FORMAT), xs);
  }

  // ---- cut files ----

  /** How many whole messages fit in the first n bytes of a stream. */
  lemma {:induction false} WholeMessages(ms: seq<Message>, n: nat) returns (k: nat)
    requires n <= |Stream(ms)|
    ensures k <= |ms| && |Stream(ms[..k])| <= n
    ensures if k == |ms| then n == |Stream(ms)| else n < |Stream(ms[..k + 1])|
  {
    if n == |Stream(ms)| {
      k := |ms|;
      assert ms[..k] == ms;
    } else {
      var front := ms[..|ms| - 1];
      if n < |Stream(front)| {
        k := WholeMessages(front, n);
        assert front[..k] == ms[..k];
        if k < |front| {
          assert front[..k + 1] == ms[..k + 1];
        }
      } else {
        k := |ms| - 1;
        assert ms[..k + 1] == ms;
      }
    }
  }

  lemma {:induction false} StreamGrows(ms: seq<Message>, k: nat)
    requires k <= |ms|
    ensures Stream(ms[..k]) <= Stream(ms)
    decreases |ms| - k
  {
    if k < |ms| {
      StreamGrows(ms, k + 1);
      assert ms[..k + 1][..k] == ms[..k];
    } else {
      assert ms[..k] == ms;
    }
  }

  lemma CutParts(head: seq<Byte>, whole: seq<Byte>, stream: seq<Byte>, n: nat)
    requires whole <= stream && |whole| <= n <= |stream|
    ensures var bytes, at := head + stream[..n], |head| + |whole|;
            at <= |bytes| && bytes[|head|..at] == whole && bytes[at..] == stream[|whole|..n]
  {
    assert stream[..n] == whole + stream[|whole|..n];
  }

  /** Whole messages and then a cut one. */
  lemma ScanThenCut(r: Reader, bytes: seq<Byte>, i: nat, at: nat, front: seq<Message>, m: Message, log: Log)
    requires (forall x :: x in front ==> Sized(x)) && HandledAll(r, EMPTY, front) == Ok(log)
    requires i + |Stream(front)| == at <= |bytes| && bytes[i..at] == Stream(front)
    requires Sized(m) && |bytes| - at < |Wire(m)| && bytes[at..] == Wire(m)[..|bytes| - at]
    ensures Scan(r, bytes, i, EMPTY) == if |bytes| - at >= 3 then Err(Truncated) else Ok(log)
  {
    ScanStream(r, bytes, i, EMPTY, front);
    ScanCut(r, bytes, at, log, m);
  }

  lemma ScanThenStop(r: Reader, bytes: seq<Byte>, i: nat, front: seq<Message>, log: Log)
    requires (forall x :: x in front ==> Sized(x)) && HandledAll(r, EMPTY, front) == Ok(log)
    requires i + |Stream(front)| == |bytes| && bytes[i..] == Stream(front)
    ensures Scan(r, bytes, i, EMPTY) == Ok(log)
  {
    assert bytes[i..] == bytes[i..|bytes|];
    ScanStream(r, bytes, i, EMPTY, front);
  }

  /** A stream cut after n bytes, k messages of it whole. */
  lemma ScanCutStream(r: Reader, head: seq<Byte>, ms: seq<Message>, n: nat, k: nat, log: Log)
    requires (forall m :: m in ms ==> Sized(m)) && n <= |Stream(ms)| && k <= |ms| && |Stream(ms[..k])| <= n
    requires if k == |ms| then n == |Stream(ms)| else n < |Stream(ms[..k + 1])|
    requires HandledAll(r, EMPTY, ms[..k]) == Ok(log)
    ensures Scan(r, head + Stream(ms)[..n], |head|, EMPTY)
         == if n - |Stream(ms[..k])| >= 3 then Err(Truncated) else Ok(log)
  {
    var whole, bytes := Stream(ms[..k]), head + Stream(ms)[..n];
    StreamGrows(ms, k);
    CutParts(head, whole, Stream(ms), n);
    if k < |ms| {
      CutMessage(ms, k, n);
      ScanThenCut(r, bytes, |head|, |head| + |whole|, ms[..k], ms[k], log);
    } else {
      assert ms[..k] == ms;
      ScanThenStop(r, bytes, |head|, ms, log);
    }
  }

  lemma CutHeader(t0: Long, stream: seq<Byte>, n: nat)
    requires HEADER <= n <= HEADER + |stream|
    ensures |Header(t0)| == HEADER && (Header(t0) + stream)[..n] == Header(t0) + stream[..n - HEADER]
  {
  }

  /** What a file cut `left` bytes after its k-th whole message parses to. */
  function CutVerdict(xs: seq<Sample>, k: nat, left: nat): Result<seq<Sample>>
    requires k <= |xs| + 2
  {
    if left >= 3 then Err(Truncated) else if k <= 2 then Err(NoSamples) else Ok(KeptAll(xs[..k - 2]))
  }

  lemma ParsedFromScan(r: Reader, bytes: seq<Byte>, xs: seq<Sample>, k: nat, left: nat, log: Log)
    requires IsUlog(bytes) && k <= |xs| + 2
    requires Scan(r, bytes, HEADER, EMPTY) == if left >= 3 then Err(Truncated) else Ok(log)
    requires |log.status| == 0 && log.fc == if k <= 2 then [] else KeptAll(xs[..k - 2])
    ensures Parsed(r, bytes) == CutVerdict(xs, k, left)
  {
  }

  lemma ParsedCut(r: Reader, t0: Long, ms: seq<Message>, xs: seq<Sample>, n: nat, k: nat, log: Log)
    requires (forall m :: m in ms ==> Sized(m)) && n <= |Stream(ms)| && |ms| == |xs| + 2
    requires k <= |ms| && |Stream(ms[..k])| <= n && (if k == |ms| then n == |Stream(ms)| else n < |Stream(ms[..k + 1])|)
    requires HandledAll(r, EMPTY, ms[..k]) == Ok(log)
    requires |log.status| == 0 && log.fc == if k <= 2 then [] else KeptAll(xs[..k - 2])
    ensures Parsed(r, Header(t0) + Stream(ms)[..n]) == CutVerdict(xs, k, n - |Stream(ms[..k])|)
  {
    HeaderIsUlog(t0, Stream(ms)[..n]);
    ScanCutStream(r, Header(t0), ms, n, k, log);
    ParsedFromScan(r, Header(t0) + Stream(ms)[..n], xs, k, n - |Stream(ms[..k])|, log);
  }

  /** Cutting a file anywhere at or after its header leaves an error or a prefix of the list:
      the whole messages count, and a cut of three or more bytes into the next one is noticed. */
  lemma CutFile(r: Reader, format: seq<Byte>, xs: seq<Sample>, n: nat) returns (k: nat, left: nat)
    requires AsciiIsUtf8(r) && Plain(format) && |format| < 0x1_0000
    requires HEADER <= n <= |File(format, xs)|
    ensures k <= |xs| + 2 && HEADER + |Stream(Messages(format, xs)[..k])| + left == n
    ensures k < |xs| + 2 ==> n < HEADER + |Stream(Messages(format, xs)[..k + 1])|
    ensures Parsed(r, File(format, xs)[..n]) == CutVerdict(xs, k, left)
  {
    var ms, t0 := Messages(format, xs), StartTime(xs);
    HeaderIsUlog(t0, []);
    k := WholeMessages(ms, n - HEADER);
    left := n - HEADER - |Stream(ms[..k])|;
    var log := FirstMessages(r, format, xs, ms, k);
    MessagesAreSized(format, xs);
    CutAfter(r, xs, t0, ms, n, k, log);
  }

  lemma CutAfter(r: Reader, xs: seq<Sample>, t0: Long, ms: seq<Message>, n: nat, k: nat, log: Log)
    requires (forall m :: m in ms ==> Sized(m)) && |ms| == |xs| + 2 && HEADER <= n <= HEADER + |Stream(ms)|
    requires k <= |ms| && |Stream(ms[..k])| <= n - HEADER && HandledAll(r, EMPTY, ms[..k]) == Ok(log)
    requires if k == |ms| then n - HEADER == |Stream(ms)| else n - HEADER < |Stream(ms[..k + 1])|
    requires |log.status| == 0 && log.fc == if k <= 2 then [] else KeptAll(xs[..k - 2])
    ensures Parsed(r, (Header(t0) + Stream(ms))[..n]) == CutVerdict(xs, k, n - HEADER - |Stream(ms[..k])|)
  {
    ParsedCut(r, t0, ms, xs, n - HEADER, k, log);
    CutHeader(t0, Stream(ms), n);
  }

  /** The bytes after k whole messages begin message k. */
  lemma CutMessage(ms: seq<Message>, k: nat, n: nat)
    requires k < |ms| && |Stream(ms[..k])| <= n < |Stream(ms[..k + 1])|
    ensures n <= |Stream(ms)| && n - |Stream(ms[..k])| < |Wire(ms[k])|
    ensures Stream(ms)[|Stream(ms[..k])|..n] == Wire(ms[k])[..n - |Stream(ms[..k])|]
  {
    StreamGrows(ms, k + 1);
    assert ms[..k + 1][..k] == ms[..k];
    var here, from := Stream(ms[..k + 1]), |Stream(ms[..k])|;
    assert here == Stream(ms[..k]) + Wire(ms[k]);
    assert Stream(ms)[from..n] == here[from..n];
  }

  lemma FirstMessages(r: Reader, format: seq<Byte>, xs: seq<Sample>, ms: seq<Message>, k: nat) returns (log: Log)
    requires AsciiIsUtf8(r) && Plain(format) && k <= |xs| + 2 && ms == Messages(format, xs)
    ensures |ms| == |xs| + 2 && HandledAll(r, EMPTY, ms[..k]) == Ok(log)
    ensures |log.status| == 0 && log.fc == if k <= 2 then [] else KeptAll(xs[..k - 2])
  {
    if k >= 2 {
      assert ms[..k] == Messages(format, xs[..k - 2]);
      MessagesAddUp(r, format, xs[..k - 2]);
      log := Logged(format, xs[..k - 2]);
    } else if k == 1 {
      assert ms[..1] == [Message(MSG_FORMAT, format)] && ms[..1][..0] == [];
      FormatIsKept(r, format);
      log := Log(Formats(format), [], [], []);
    } else {
      log := EMPTY;
    }
  }
}
