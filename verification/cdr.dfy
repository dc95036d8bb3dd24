/** CDR payloads with alignment, as PX4's DDS messages carry them: little-endian encapsulation,
    then fields aligned to their own size from the start of the payload (OMG DDSI-RTPS, section 10). */
module Cdr {
  import opened Options
  import opened Bytes

  const ENCAPSULATION_LE: seq<Byte> := [0x00, 0x01, 0x00, 0x00]

  /** A float is the four bytes of its encoding. */
  datatype Field = U64(v: Long) | F32(bits: Word) | Bool(b: bool)

  datatype Kind = KU64 | KF32 | KBool

  function KindOf(f: Field): Kind {
    match f
    case U64(_) => KU64
    case F32(_) => KF32
    case Bool(_) => KBool
  }

  function Width(k: Kind): nat {
    match k
    case KU64 => 8
    case KF32 => 4
    case KBool => 1
  }

  /** Bytes to the next multiple of n. */
  function Padding(pos: nat, n: nat): nat
    requires n > 0
  {
    if pos % n == 0 then 0 else n - pos % n
  }

  function Zeros(n: nat): seq<Byte> { seq(n, i => 0) }

  function Encoded(f: Field): (r: seq<Byte>)
    ensures |r| == Width(KindOf(f))
  {
    match f
    case U64(v) => Le(v, 8)
    case F32(bits) => Le(bits, 4)
    case Bool(b) => [Flag(b)]
  }

  function Put(payload: seq<Byte>, f: Field): seq<Byte> {
    payload + Zeros(Padding(|payload|, Width(KindOf(f)))) + Encoded(f)
  }

  function Written(fields: seq<Field>): seq<Byte> {
    if |fields| == 0 then [] else Put(Written(fields[..|fields| - 1]), fields[|fields| - 1])
  }

  function Decoded(k: Kind, s: seq<Byte>): Field
    requires |s| == Width(k)
  {
    match k
    case KU64 => U64(Long64(s))
    case KF32 => F32(Word32(s))
    case KBool => Bool(s[0] != 0)
  }

  /** The next field of a kind and the position after it; alignment bytes are skipped unread. */
  function Get(payload: seq<Byte>, pos: nat, k: Kind): Option<(Field, nat)> {
    var start := pos + Padding(pos, Width(k));
    var end := start + Width(k);
    if end > |payload| then None else Some((Decoded(k, payload[start..end]), end))
  }

  function GetAll(payload: seq<Byte>, pos: nat, kinds: seq<Kind>): Option<(seq<Field>, nat)>
    decreases |kinds|
  {
    if |kinds| == 0 then Some(([], pos))
    else
      match Get(payload, pos, kinds[0])
      case None => None
      case Some((f, next)) =>
        match GetAll(payload, next, kinds[1..])
        case None => None
        case Some((fs, end)) => Some(([f] + fs, end))
  }

  // ---- writer and reader as they are written ----

  lemma WrittenSnoc(fields: seq<Field>, f: Field)
    ensures Written(fields + [f]) == Put(Written(fields), f)
  {
  }

  class CdrWriter {
    var payload: seq<Byte>
    ghost var fields: seq<Field>

    ghost predicate Valid()
      reads this
    {
      payload == Written(fields)
    }

    constructor ()
      ensures Valid() && fields == []
    {
      payload := [];
      fields := [];
    }

    method Align(n: nat)
      requires n > 0
      modifies this`payload
      ensures payload == old(payload) + Zeros(Padding(|old(payload)|, n))
    {
      var rem := |payload| % n;
      if rem != 0 {
        payload := payload + Zeros(n - rem);
      }
    }

    method PutU64(v: Long)
      requires Valid()
      modifies this
      ensures Valid() && fields == old(fields) + [U64(v)]
    {
      Align(8);
      payload := payload + Le(v, 8);
      WrittenSnoc(fields, U64(v));
      fields := fields + [U64(v)];
    }

    method PutF32(bits: Word)
      requires Valid()
      modifies this
      ensures Valid() && fields == old(fields) + [F32(bits)]
    {
      Align(4);
      payload := payload + Le(bits, 4);
      WrittenSnoc(fields, F32(bits));
      fields := fields + [F32(bits)];
    }

    method PutF32s(v: Bits3)
      requires Valid()
      modifies this
      ensures Valid() && fields == old(fields) + Axes(v)
    {
      PutF32(v.x);
      PutF32(v.y);
      PutF32(v.z);
    }

    method PutBool(b: bool)
      requires Valid()
      modifies this
      ensures Valid() && fields == old(fields) + [Bool(b)]
    {
      payload := payload + [Flag(b)];
      WrittenSnoc(fields, Bool(b));
      fields := fields + [Bool(b)];
    }

    method Finish() returns (out: seq<Byte>)
      requires Valid()
      ensures out == Message(fields)
    {
      out := ENCAPSULATION_LE + payload;
    }
  }

  /** Reading `kinds` from the start comes to what has been read so far, then what reading the
      rest of them from `pos` brings. */
  ghost predicate Resumes(payload: seq<Byte>, kinds: seq<Kind>, done: seq<Field>, pos: nat, left: seq<Kind>) {
    GetAll(payload, 0, kinds) ==
      match GetAll(payload, pos, left)
      case None => None
      case Some((fs, end)) => Some((done + fs, end))
  }

  lemma ResumesAtStart(payload: seq<Byte>, kinds: seq<Kind>)
    ensures Resumes(payload, kinds, [], 0, kinds)
  {
    var g := GetAll(payload, 0, kinds);
    if g.Some? {
      assert [] + g.value.0 == g.value.0;
    }
  }

  lemma ResumesAtEnd(payload: seq<Byte>, kinds: seq<Kind>, done: seq<Field>, pos: nat, left: seq<Kind>)
    requires Resumes(payload, kinds, done, pos, left) && |left| == 0
    ensures GetAll(payload, 0, kinds) == Some((done, pos))
  {
    assert done + [] == done;
  }

  lemma ResumeNext(payload: seq<Byte>, kinds: seq<Kind>, done: seq<Field>, pos: nat, k: Kind, left: seq<Kind>)
    requires Resumes(payload, kinds, done, pos, [k] + left)
    ensures var g := Get(payload, pos, k);
            if g.None? then GetAll(payload, 0, kinds) == None
            else Resumes(payload, kinds, done + [g.value.0], g.value.1, left)
  {
    assert ([k] + left)[1..] == left;
    var g := Get(payload, pos, k);
    if g.Some? {
      var rest := GetAll(payload, g.value.1, left);
      if rest.Some? {
        assert done + ([g.value.0] + rest.value.0) == (done + [g.value.0]) + rest.value.0;
      }
    }
  }

  class CdrReader {
    const payload: seq<Byte>
    var pos: nat
    ghost const kinds: seq<Kind>
    ghost var done: seq<Field>
    ghost var left: seq<Kind>

    ghost predicate Valid()
      reads this
    {
      Resumes(payload, kinds, done, pos, left)
    }

    /** A reader over bytes that start with the encapsulation header, about to read `kinds`. */
    constructor (bytes: seq<Byte>, ghost kinds: seq<Kind>)
      requires HeaderOk(bytes)
      ensures Valid() && payload == bytes[4..] && this.kinds == kinds && done == [] && left == kinds
    {
      payload := bytes[4..];
      pos := 0;
      this.kinds := kinds;
      done := [];
      left := kinds;
      new;
      ResumesAtStart(payload, kinds);
    }

    /** Nothing to read without the header. */
    static method Open(bytes: seq<Byte>, ghost kinds: seq<Kind>) returns (r: CdrReader?)
      ensures r == null <==> !HeaderOk(bytes)
      ensures r != null ==> fresh(r) && r.Valid() && r.payload == bytes[4..] && r.kinds == kinds
      ensures r != null ==> r.done == [] && r.left == kinds
    {
      if |bytes| < 4 || bytes[..4] != ENCAPSULATION_LE {
        return null;
      }
      r := new CdrReader(bytes, kinds);
    }

    method Align(n: nat)
      requires n > 0
      modifies this`pos
      ensures pos == old(pos) + Padding(old(pos), n)
    {
      var rem := pos % n;
      if rem != 0 {
        pos := pos + (n - rem);
      }
    }

    method GetU64() returns (r: Option<Long>)
      requires Valid() && |left| > 0 && left[0] == KU64
      modifies this
      ensures if r.None? then GetAll(payload, 0, kinds) == None
              else Valid() && done == old(done) + [U64(r.value)] && left == old(left)[1..]
    {
      assert left == [KU64] + left[1..];
      ResumeNext(payload, kinds, done, pos, KU64, left[1..]);
      Align(8);
      var end := pos + 8;
      if end > |payload| {
        return None;
      }
      var slice := payload[pos..end];
      pos := end;
      r := Some(Long64(slice));
      done, left := done + [U64(r.value)], left[1..];
    }

    method GetF32() returns (r: Option<Word>)
      requires Valid() && |left| > 0 && left[0] == KF32
      modifies this
      ensures if r.None? then GetAll(payload, 0, kinds) == None
              else Valid() && done == old(done) + [F32(r.value)] && left == old(left)[1..]
    {
      assert left == [KF32] + left[1..];
      ResumeNext(payload, kinds, done, pos, KF32, left[1..]);
      Align(4);
      var end := pos + 4;
      if end > |payload| {
        return None;
      }
      var slice := payload[pos..end];
      pos := end;
      r := Some(Word32(slice));
      done, left := done + [F32(r.value)], left[1..];
    }

    method GetF32s() returns (r: Option<Bits3>)
      requires Valid() && |left| >= 3 && left[0] == left[1] == left[2] == KF32
      modifies this
      ensures if r.None? then GetAll(payload, 0, kinds) == None
              else Valid() && done == old(done) + Axes(r.value) && left == old(left)[3..]
    {
      var x := GetF32();
      if x.None? { return None; }
      var y := GetF32();
      if y.None? { return None; }
      var z := GetF32();
      if z.None? { return None; }
      r := Some(Bits3(x.value, y.value, z.value));
    }

    method GetBool() returns (r: Option<bool>)
      requires Valid() && |left| > 0 && left[0] == KBool
      modifies this
      ensures if r.None? then GetAll(payload, 0, kinds) == None
              else Valid() && done == old(done) + [Bool(r.value)] && left == old(left)[1..]
    {
      assert left == [KBool] + left[1..];
      ResumeNext(payload, kinds, done, pos, KBool, left[1..]);
      if pos >= |payload| {
        return None;
      }
      var b := payload[pos];
      pos := pos + 1;
      r := Some(b != 0);
      done, left := done + [Bool(r.value)], left[1..];
    }
  }

  // ---- round trip ----

  lemma DecodedEncoded(f: Field)
    ensures Decoded(KindOf(f), Encoded(f)) == f
  {
    NumbersRoundTrip();
  }

  /** Reading a field back where it was put, whatever comes after it. */
  lemma GetPut(front: seq<Byte>, f: Field, rest: seq<Byte>)
    ensures Get(Put(front, f) + rest, |front|, KindOf(f)) == Some((f, |Put(front, f)|))
  {
    var start := |front| + Padding(|front|, Width(KindOf(f)));
    var end := start + Width(KindOf(f));
    assert (Put(front, f) + rest)[start..end] == Encoded(f);
    DecodedEncoded(f);
  }

  function Kinds(fields: seq<Field>): seq<Kind> { seq(|fields|, i requires 0 <= i < |fields| => KindOf(fields[i])) }

  lemma {:induction false} WrittenGrows(fields: seq<Field>, k: nat)
    requires k <= |fields|
    ensures Written(fields[..k]) <= Written(fields)
    decreases |fields| - k
  {
    if k < |fields| {
      WrittenGrows(fields, k + 1);
      assert fields[..k + 1][..k] == fields[..k];
    } else {
      assert fields[..k] == fields;
    }
  }

  lemma GetAllStep(payload: seq<Byte>, pos: nat, kinds: seq<Kind>, f: Field, next: nat, fs: seq<Field>, end: nat)
    requires |kinds| > 0 && Get(payload, pos, kinds[0]) == Some((f, next))
    requires GetAll(payload, next, kinds[1..]) == Some((fs, end))
    ensures GetAll(payload, pos, kinds) == Some(([f] + fs, end))
  {
  }

  /** A field is read back from any payload that begins with the bytes up to and including it. */
  lemma ReadsOneBack(front: seq<Byte>, f: Field, payload: seq<Byte>)
    requires Put(front, f) <= payload
    ensures Get(payload, |front|, KindOf(f)) == Some((f, |Put(front, f)|))
  {
    assert payload == Put(front, f) + payload[|Put(front, f)|..];
    GetPut(front, f, payload[|Put(front, f)|..]);
  }

  lemma WrittenNext(fields: seq<Field>, k: nat)
    requires k < |fields|
    ensures Written(fields[..k + 1]) == Put(Written(fields[..k]), fields[k])
  {
    assert fields[..k + 1][..k] == fields[..k];
  }

  lemma KindsNext(fields: seq<Field>, k: nat)
    requires k < |fields|
    ensures |Kinds(fields[k..])| > 0 && Kinds(fields[k..])[0] == KindOf(fields[k])
    ensures Kinds(fields[k..])[1..] == Kinds(fields[k + 1..]) && [fields[k]] + fields[k + 1..] == fields[k..]
  {
  }

  predicate ReadsTo(payload: seq<Byte>, pos: nat, fields: seq<Field>, end: nat) {
    GetAll(payload, pos, Kinds(fields)) == Some((fields, end))
  }

  lemma ReadsToNext(payload: seq<Byte>, pos: nat, fields: seq<Field>, k: nat, next: nat, end: nat)
    requires k < |fields| && Get(payload, pos, KindOf(fields[k])) == Some((fields[k], next))
    requires ReadsTo(payload, next, fields[k + 1..], end)
    ensures ReadsTo(payload, pos, fields[k..], end)
  {
    KindsNext(fields, k);
    GetAllStep(payload, pos, Kinds(fields[k..]), fields[k], next, fields[k + 1..], end);
  }

  /** From the writer's length after k fields the reader returns the remaining fields in order
      and ends exactly at the writer's final length. */
  lemma {:induction false} ReadsBack(fields: seq<Field>, k: nat, payload: seq<Byte>)
    requires k <= |fields| && Written(fields) <= payload
    ensures ReadsTo(payload, |Written(fields[..k])|, fields[k..], |Written(fields)|)
    decreases |fields| - k
  {
    if k == |fields| {
      assert fields[..k] == fields;
    } else {
      WrittenGrows(fields, k + 1);
      WrittenNext(fields, k);
      ReadsOneBack(Written(fields[..k]), fields[k], payload);
      ReadsBack(fields, k + 1, payload);
      ReadsToNext(payload, |Written(fields[..k])|, fields, k, |Written(fields[..k + 1])|, |Written(fields)|);
    }
  }

  /** Every sequence of fields survives, with trailing bytes ignored. */
  lemma RoundTrip(fields: seq<Field>, rest: seq<Byte>)
    ensures ReadsTo(Written(fields) + rest, 0, fields, |Written(fields)|)
  {
    ReadsBack(fields, 0, Written(fields) + rest);
    assert fields[..0] == [] && fields[0..] == fields;
  }

  /** Where a run of reads ends depends on the kinds alone. */
  function EndOf(pos: nat, kinds: seq<Kind>): nat
    decreases |kinds|
  {
    if |kinds| == 0 then pos else EndOf(pos + Padding(pos, Width(kinds[0])) + Width(kinds[0]), kinds[1..])
  }

  lemma {:induction false} EndIsAhead(pos: nat, kinds: seq<Kind>)
    ensures pos <= EndOf(pos, kinds)
    decreases |kinds|
  {
    if |kinds| > 0 {
      EndIsAhead(pos + Padding(pos, Width(kinds[0])) + Width(kinds[0]), kinds[1..]);
    }
  }

  /** Reads succeed exactly when the payload is long enough for all of them. */
  lemma {:induction false} ReadsIffLongEnough(payload: seq<Byte>, pos: nat, kinds: seq<Kind>)
    requires pos <= |payload|
    ensures GetAll(payload, pos, kinds).Some? <==> EndOf(pos, kinds) <= |payload|
    ensures GetAll(payload, pos, kinds).Some? ==> |GetAll(payload, pos, kinds).value.0| == |kinds|
    decreases |kinds|
  {
    if |kinds| > 0 {
      var next := pos + Padding(pos, Width(kinds[0])) + Width(kinds[0]);
      EndIsAhead(next, kinds[1..]);
      if next <= |payload| {
        ReadsIffLongEnough(payload, next, kinds[1..]);
      }
    }
  }

  // ---- the two messages ----

  datatype OffboardControlMode = OffboardControlMode(
    timestamp: Long, position: bool, velocity: bool, acceleration: bool, attitude: bool, bodyRate: bool,
    thrustAndTorque: bool, directActuator: bool)

  datatype Bits3 = Bits3(x: Word, y: Word, z: Word)

  datatype TrajectorySetpoint = TrajectorySetpoint(
    timestamp: Long, position: Bits3, velocity: Bits3, acceleration: Bits3, jerk: Bits3, yaw: Word, yawspeed: Word)

  function ModeFields(m: OffboardControlMode): seq<Field> {
    [U64(m.timestamp)] + [Bool(m.position)] + [Bool(m.velocity)] + [Bool(m.acceleration)] + [Bool(m.attitude)]
    + [Bool(m.bodyRate)] + [Bool(m.thrustAndTorque)] + [Bool(m.directActuator)]
  }

  function Bools(n: nat): seq<Kind> { seq(n, i => KBool) }

  function Floats(n: nat): seq<Kind> { seq(n, i => KF32) }

  function ModeKinds(): seq<Kind> { [KU64] + Bools(7) }

  function SetpointKinds(): seq<Kind> { [KU64] + Floats(14) }

  function Axes(v: Bits3): seq<Field> { [F32(v.x), F32(v.y), F32(v.z)] }

  function SetpointFields(s: TrajectorySetpoint): seq<Field> {
    [U64(s.timestamp)] + Axes(s.position) + Axes(s.velocity) + Axes(s.acceleration) + Axes(s.jerk)
    + [F32(s.yaw)] + [F32(s.yawspeed)]
  }

  /** Bytes of a message: the header and its fields. */
  function Message(fields: seq<Field>): seq<Byte> { ENCAPSULATION_LE + Written(fields) }

  predicate HeaderOk(bytes: seq<Byte>) { |bytes| >= 4 && bytes[..4] == ENCAPSULATION_LE }

  method ModeToCdr(m: OffboardControlMode) returns (bytes: seq<Byte>)
    ensures bytes == Message(ModeFields(m))
  {
    var w := new CdrWriter();
    w.PutU64(m.timestamp);
    assert w.fields == [U64(m.timestamp)];
    w.PutBool(m.position);
    w.PutBool(m.velocity);
    w.PutBool(m.acceleration);
    w.PutBool(m.attitude);
    w.PutBool(m.bodyRate);
    w.PutBool(m.thrustAndTorque);
    w.PutBool(m.directActuator);
    bytes := w.Finish();
  }

  method SetpointToCdr(s: TrajectorySetpoint) returns (bytes: seq<Byte>)
    ensures bytes == Message(SetpointFields(s))
  {
    var w := new CdrWriter();
    w.PutU64(s.timestamp);
    assert w.fields == [U64(s.timestamp)];
    w.PutF32s(s.position);
    w.PutF32s(s.velocity);
    w.PutF32s(s.acceleration);
    w.PutF32s(s.jerk);
    w.PutF32(s.yaw);
    w.PutF32(s.yawspeed);
    bytes := w.Finish();
  }

  /** All the fields of a message of these kinds, if it holds them. */
  function Fields(bytes: seq<Byte>, kinds: seq<Kind>): Option<seq<Field>> {
    if !HeaderOk(bytes) then None
    else
      match GetAll(bytes[4..], 0, kinds)
      case None => None
      case Some((fs, _)) => Some(fs)
  }

  method ModeFromCdr(bytes: seq<Byte>) returns (r: Option<OffboardControlMode>)
    ensures var fs := Fields(bytes, ModeKinds());
            if r.None? then fs == None else fs == Some(ModeFields(r.value))
  {
    var reader := CdrReader.Open(bytes, ModeKinds());
    if reader == null { return None; }
    var timestamp := reader.GetU64();
    if timestamp.None? { return None; }
    assert reader.done == [U64(timestamp.value)];
    assert reader.left == Bools(7);
    var position := reader.GetBool();
    if position.None? { return None; }
    assert reader.left == Bools(6);
    var velocity := reader.GetBool();
    if velocity.None? { return None; }
    assert reader.left == Bools(5);
    var acceleration := reader.GetBool();
    if acceleration.None? { return None; }
    assert reader.left == Bools(4);
    var attitude := reader.GetBool();
    if attitude.None? { return None; }
    assert reader.left == Bools(3);
    var bodyRate := reader.GetBool();
    if bodyRate.None? { return None; }
    assert reader.left == Bools(2);
    var thrustAndTorque := reader.GetBool();
    if thrustAndTorque.None? { return None; }
    assert reader.left == Bools(1);
    var directActuator := reader.GetBool();
    if directActuator.None? { return None; }
    ResumesAtEnd(reader.payload, reader.kinds, reader.done, reader.pos, reader.left);
    r := Some(OffboardControlMode(timestamp.value, position.value, velocity.value, acceleration.value, attitude.value,
                                  bodyRate.value, thrustAndTorque.value, directActuator.value));
  }

  method SetpointFromCdr(bytes: seq<Byte>) returns (r: Option<TrajectorySetpoint>)
    ensures var fs := Fields(bytes, SetpointKinds());
            if r.None? then fs == None else fs == Some(SetpointFields(r.value))
  {
    var reader := CdrReader.Open(bytes, SetpointKinds());
    if reader == null { return None; }
    var timestamp := reader.GetU64();
    if timestamp.None? { return None; }
    assert reader.done == [U64(timestamp.value)];
    assert reader.left == Floats(14);
    var position := reader.GetF32s();
    if position.None? { return None; }
    assert reader.left == Floats(11);
    var velocity := reader.GetF32s();
    if velocity.None? { return None; }
    assert reader.left == Floats(8);
    var acceleration := reader.GetF32s();
    if acceleration.None? { return None; }
    assert reader.left == Floats(5);
    var jerk := reader.GetF32s();
    if jerk.None? { return None; }
    assert reader.left == Floats(2);
    var yaw := reader.GetF32();
    if yaw.None? { return None; }
    var yawspeed := reader.GetF32();
    if yawspeed.None? { return None; }
    ResumesAtEnd(reader.payload, reader.kinds, reader.done, reader.pos, reader.left);
    r := Some(TrajectorySetpoint(timestamp.value, position.value, velocity.value, acceleration.value, jerk.value,
                                 yaw.value, yawspeed.value));
  }

  /** A message written and read back, with anything after it, is the message. */
  lemma MessageRoundTrip(fields: seq<Field>, kinds: seq<Kind>, rest: seq<Byte>)
    requires kinds == Kinds(fields)
    ensures Fields(Message(fields) + rest, kinds) == Some(fields)
  {
    var bytes := Message(fields) + rest;
    assert bytes[..4] == ENCAPSULATION_LE && bytes[4..] == Written(fields) + rest;
    RoundTrip(fields, rest);
  }

  lemma OneMoreFlag(fields: seq<Field>, n: nat, b: bool)
    requires Kinds(fields) == [KU64] + Bools(n)
    ensures Kinds(fields + [Bool(b)]) == [KU64] + Bools(n + 1)
  {
    assert Kinds(fields + [Bool(b)]) == Kinds(fields) + [KBool];
    assert Bools(n + 1) == Bools(n) + [KBool];
  }

  lemma KindsOfMode(m: OffboardControlMode)
    ensures Kinds(ModeFields(m)) == ModeKinds()
  {
    var f0 := [U64(m.timestamp)];
    assert Kinds(f0) == [KU64] + Bools(0);
    OneMoreFlag(f0, 0, m.position);
    var f1 := f0 + [Bool(m.position)];
    OneMoreFlag(f1, 1, m.velocity);
    var f2 := f1 + [Bool(m.velocity)];
    OneMoreFlag(f2, 2, m.acceleration);
    var f3 := f2 + [Bool(m.acceleration)];
    OneMoreFlag(f3, 3, m.attitude);
    var f4 := f3 + [Bool(m.attitude)];
    OneMoreFlag(f4, 4, m.bodyRate);
    var f5 := f4 + [Bool(m.bodyRate)];
    OneMoreFlag(f5, 5, m.thrustAndTorque);
    OneMoreFlag(f5 + [Bool(m.thrustAndTorque)], 6, m.directActuator);
  }

  lemma ModeRoundTrip(m: OffboardControlMode, rest: seq<Byte>)
    ensures Fields(Message(ModeFields(m)) + rest, ModeKinds()) == Some(ModeFields(m))
  {
    KindsOfMode(m);
    MessageRoundTrip(ModeFields(m), ModeKinds(), rest);
  }

  lemma SetpointRoundTrip(s: TrajectorySetpoint, rest: seq<Byte>)
    ensures Fields(Message(SetpointFields(s)) + rest, SetpointKinds()) == Some(SetpointFields(s))
  {
    assert SetpointKinds() == Kinds(SetpointFields(s));
    MessageRoundTrip(SetpointFields(s), SetpointKinds(), rest);
  }

  /** The field lists determine the messages, so the round trips are of the messages themselves. */
  lemma FieldsDetermineMessages(m: OffboardControlMode, n: OffboardControlMode, s: TrajectorySetpoint,
                                t: TrajectorySetpoint)
    ensures ModeFields(m) == ModeFields(n) ==> m == n
    ensures SetpointFields(s) == SetpointFields(t) ==> s == t
  {
    var a, b := ModeFields(m), ModeFields(n);
    if a == b {
      assert a[0] == b[0] && a[1] == b[1] && a[2] == b[2] && a[3] == b[3];
      assert a[4] == b[4] && a[5] == b[5] && a[6] == b[6] && a[7] == b[7];
    }
    if SetpointFields(s) == SetpointFields(t) {
      SetpointParts(s);
      SetpointParts(t);
      AxesDetermine(s.position, t.position);
      AxesDetermine(s.velocity, t.velocity);
      AxesDetermine(s.acceleration, t.acceleration);
      AxesDetermine(s.jerk, t.jerk);
    }
  }

  /** The last `|b|` fields of `a + b`, and what comes before them. */
  lemma Parts<T>(a: seq<T>, b: seq<T>)
    ensures (a + b)[..|a|] == a && (a + b)[|a|..] == b
  {
  }

  /** A setpoint's fields by position. */
  lemma SetpointParts(s: TrajectorySetpoint)
    ensures var c := SetpointFields(s);
            && |c| == 15 && c[..1] == [U64(s.timestamp)]
            && c[..4][1..] == Axes(s.position) && c[..7][4..] == Axes(s.velocity)
            && c[..10][7..] == Axes(s.acceleration) && c[..13][10..] == Axes(s.jerk)
            && c[..14][13..] == [F32(s.yaw)] && c[14..] == [F32(s.yawspeed)]
  {
    var c, a := SetpointFields(s), [U64(s.timestamp)];
    var p := a + Axes(s.position);
    var v := p + Axes(s.velocity);
    var w := v + Axes(s.acceleration);
    var j := w + Axes(s.jerk);
    var y := j + [F32(s.yaw)];
    assert c == y + [F32(s.yawspeed)];
    Parts(y, [F32(s.yawspeed)]);
    Parts(j, [F32(s.yaw)]);
    Parts(w, Axes(s.jerk));
    Parts(v, Axes(s.acceleration));
    Parts(p, Axes(s.velocity));
    Parts(a, Axes(s.position));
    assert c[..13] == y[..13] == j && c[..10] == j[..10] == w && c[..7] == w[..7] == v && c[..4] == v[..4] == p;
  }

  lemma AxesDetermine(u: Bits3, v: Bits3)
    ensures Axes(u) == Axes(v) ==> u == v
  {
    assert Axes(u) == Axes(v) ==> Axes(u)[0] == Axes(v)[0] && Axes(u)[1] == Axes(v)[1] && Axes(u)[2] == Axes(v)[2];
  }

  lemma LongEnough(bytes: seq<Byte>, kinds: seq<Kind>, n: nat)
    requires EndOf(0, kinds) == n
    ensures Fields(bytes, kinds).Some? <==> HeaderOk(bytes) && |bytes| >= 4 + n
  {
    if HeaderOk(bytes) {
      ReadsIffLongEnough(bytes[4..], 0, kinds);
    }
  }

  /** A byte string is a mode message exactly when it has the header and 15 bytes more, and a
      setpoint message exactly when it has the header and 64 more; nothing else is checked. */
  lemma MessagesAreLongEnough(bytes: seq<Byte>)
    ensures Fields(bytes, ModeKinds()).Some? <==> HeaderOk(bytes) && |bytes| >= 19
    ensures Fields(bytes, SetpointKinds()).Some? <==> HeaderOk(bytes) && |bytes| >= 68
  {
    ModeEnd();
    SetpointEnd();
    LongEnough(bytes, ModeKinds(), 15);
    LongEnough(bytes, SetpointKinds(), 64);
  }

  lemma EndNext(pos: nat, k: Kind, left: seq<Kind>)
    ensures EndOf(pos, [k] + left) == EndOf(pos + Padding(pos, Width(k)) + Width(k), left)
  {
  }

  lemma {:induction false} EndOfBools(pos: nat, n: nat)
    ensures EndOf(pos, Bools(n)) == pos + n
    decreases n
  {
    if n > 0 {
      assert Bools(n) == [KBool] + Bools(n - 1);
      EndNext(pos, KBool, Bools(n - 1));
      EndOfBools(pos + 1, n - 1);
    }
  }

  lemma {:induction false} EndOfFloats(pos: nat, n: nat)
    requires pos % 4 == 0
    ensures EndOf(pos, Floats(n)) == pos + 4 * n
    decreases n
  {
    if n > 0 {
      var rest := Floats(n - 1);
      assert Floats(n) == [KF32] + rest;
      EndNext(pos, KF32, rest);
      assert Padding(pos, 4) == 0;
      EndOfFloats(pos + 4, n - 1);
    }
  }

  lemma EndAfterTimestamp(left: seq<Kind>)
    ensures EndOf(0, [KU64] + left) == EndOf(8, left)
  {
  }

  lemma ModeEnd()
    ensures EndOf(0, ModeKinds()) == 15
  {
    EndAfterTimestamp(Bools(7));
    EndOfBools(8, 7);
  }

  lemma EndOfStampedFloats(n: nat)
    ensures EndOf(0, [KU64] + Floats(n)) == 8 + 4 * n
  {
    EndAfterTimestamp(Floats(n));
    EndOfFloats(8, n);
  }

  lemma SetpointEnd()
    ensures EndOf(0, SetpointKinds()) == 64
  {
    EndOfStampedFloats(14);
  }

  // ---- writing what was read ----

  /** The next field is as the writer would have put it: zeros before it, and 0 or 1 for a bool. */
  predicate CanonicalAt(payload: seq<Byte>, pos: nat, k: Kind) {
    var start := pos + Padding(pos, Width(k));
    start + Width(k) <= |payload| && payload[pos..start] == Zeros(start - pos) && (k.KBool? ==> payload[start] <= 1)
  }

  predicate Canonical(payload: seq<Byte>, pos: nat, kinds: seq<Kind>)
    decreases |kinds|
  {
    |kinds| > 0 ==>
      && CanonicalAt(payload, pos, kinds[0])
      && Canonical(payload, pos + Padding(pos, Width(kinds[0])) + Width(kinds[0]), kinds[1..])
  }

  lemma EncodedDecoded(k: Kind, s: seq<Byte>)
    requires |s| == Width(k)
    ensures KindOf(Decoded(k, s)) == k
    ensures Encoded(Decoded(k, s)) == s <==> k.KBool? ==> s[0] <= 1
  {
    FromLeRoundTrip(s);
  }

  lemma ThreeParts(payload: seq<Byte>, i: nat, j: nat, end: nat, a: seq<Byte>, b: seq<Byte>, c: seq<Byte>)
    requires i <= j <= end <= |payload| && |a| == i && |b| == j - i && |c| == end - j
    ensures a + b + c == payload[..end] <==> a == payload[..i] && b == payload[i..j] && c == payload[j..end]
  {
    var whole := payload[..end];
    if a + b + c == whole {
      assert a == (a + b + c)[..i] && b == (a + b + c)[i..j] && c == (a + b + c)[j..];
    } else {
      assert payload[..i] + payload[i..j] + payload[j..end] == whole;
    }
  }

  lemma PutDecoded(front: seq<Byte>, k: Kind, s: seq<Byte>)
    requires |s| == Width(k)
    ensures Put(front, Decoded(k, s)) == front + Zeros(Padding(|front|, Width(k))) + Encoded(Decoded(k, s))
    ensures |Encoded(Decoded(k, s))| == Width(k)
  {
    EncodedDecoded(k, s);
  }

  lemma PutMatches(payload: seq<Byte>, pos: nat, k: Kind, front: seq<Byte>)
    requires |front| == pos <= |payload| && Get(payload, pos, k).Some?
    ensures var (f, next) := Get(payload, pos, k).value;
            && next == pos + Padding(pos, Width(k)) + Width(k) == |Put(front, f)| <= |payload|
            && (Put(front, f) == payload[..next] <==> front == payload[..pos] && CanonicalAt(payload, pos, k))
  {
    var pad := Padding(pos, Width(k));
    var start, next := pos + pad, pos + pad + Width(k);
    var s := payload[start..next];
    var code := Encoded(Decoded(k, s));
    EncodedDecoded(k, s);
    PutDecoded(front, k, s);
    ThreeParts(payload, pos, start, next, front, Zeros(pad), code);
  }

  /** More fields after what is already written. */
  function WrittenOn(front: seq<Byte>, fields: seq<Field>): seq<Byte>
    decreases |fields|
  {
    if |fields| == 0 then front else WrittenOn(Put(front, fields[0]), fields[1..])
  }

  lemma {:induction false} WrittenOnRest(fields: seq<Field>, k: nat)
    requires k <= |fields|
    ensures WrittenOn(Written(fields[..k]), fields[k..]) == Written(fields)
    decreases |fields| - k
  {
    if k < |fields| {
      WrittenOnRest(fields, k + 1);
      WrittenNext(fields, k);
      assert fields[k..][1..] == fields[k + 1..];
    } else {
      assert fields[..k] == fields;
    }
  }

  lemma {:induction false} WrittenOnExtends(front: seq<Byte>, fields: seq<Field>)
    ensures front <= WrittenOn(front, fields)
    decreases |fields|
  {
    if |fields| > 0 {
      WrittenOnExtends(Put(front, fields[0]), fields[1..]);
    }
  }

  lemma GetAllParts(payload: seq<Byte>, pos: nat, kinds: seq<Kind>)
    requires |kinds| > 0 && GetAll(payload, pos, kinds).Some?
    ensures Get(payload, pos, kinds[0]).Some?
    ensures var (f, next) := Get(payload, pos, kinds[0]).value;
            && GetAll(payload, next, kinds[1..]).Some?
            && GetAll(payload, pos, kinds).value.0 == [f] + GetAll(payload, next, kinds[1..]).value.0
            && GetAll(payload, pos, kinds).value.1 == GetAll(payload, next, kinds[1..]).value.1
  {
  }

  lemma WrittenOnFirst(front: seq<Byte>, f: Field, rest: seq<Field>)
    ensures WrittenOn(front, [f] + rest) == WrittenOn(Put(front, f), rest)
  {
    assert ([f] + rest)[1..] == rest;
  }

  predicate RewritesTo(payload: seq<Byte>, pos: nat, canonical: bool, front: seq<Byte>, fs: seq<Field>, end: nat)
    requires pos <= |payload| && end <= |payload|
  {
    && |WrittenOn(front, fs)| == end
    && (WrittenOn(front, fs) == payload[..end] <==> front == payload[..pos] && canonical)
  }

  /** One field ahead of a list that rewrites. */
  lemma RewritesAhead(payload: seq<Byte>, pos: nat, front: seq<Byte>, here: bool, next: nat, on: seq<Byte>,
                      fs: seq<Field>, rest: seq<Field>, later: bool, end: nat)
    requires pos <= |payload| && next <= |payload| && end <= |payload|
    requires on == payload[..next] <==> front == payload[..pos] && here
    requires WrittenOn(front, fs) == WrittenOn(on, rest) && RewritesTo(payload, next, later, on, rest, end)
    ensures RewritesTo(payload, pos, here && later, front, fs, end)
  {
  }

  /** Fields read from a payload, written on after anything of the right length, restore it up to the
      position reached if and only if what came before agreed and every field was canonical. */
  lemma {:induction false} RewritesIff(payload: seq<Byte>, pos: nat, kinds: seq<Kind>, front: seq<Byte>)
    requires |front| == pos <= |payload| && GetAll(payload, pos, kinds).Some?
    ensures pos <= GetAll(payload, pos, kinds).value.1 <= |payload|
    ensures RewritesTo(payload, pos, Canonical(payload, pos, kinds), front,
                       GetAll(payload, pos, kinds).value.0, GetAll(payload, pos, kinds).value.1)
    decreases |kinds|
  {
    if |kinds| > 0 {
      GetAllParts(payload, pos, kinds);
      PutMatches(payload, pos, kinds[0], front);
      var (f, next) := Get(payload, pos, kinds[0]).value;
      var on := Put(front, f);
      var (rest, end) := GetAll(payload, next, kinds[1..]).value;
      RewritesIff(payload, next, kinds[1..], on);
      WrittenOnFirst(front, f, rest);
      RewritesAhead(payload, pos, front, CanonicalAt(payload, pos, kinds[0]), next, on, [f] + rest, rest,
                    Canonical(payload, next, kinds[1..]), end);
    }
  }

  /** Re-encoding a readable message restores its bytes if and only if nothing trails it, its padding is
      zero and its bools are 0 or 1. */
  lemma ReencodesIff(bytes: seq<Byte>, kinds: seq<Kind>, end: nat)
    requires Fields(bytes, kinds).Some? && end == EndOf(0, kinds)
    ensures Message(Fields(bytes, kinds).value) == bytes <==> |bytes| == 4 + end && Canonical(bytes[4..], 0, kinds)
  {
    var payload := bytes[4..];
    RewritesIff(payload, 0, kinds, []);
    var (fs, reached) := GetAll(payload, 0, kinds).value;
    ReachesEnd(payload, 0, kinds);
    WrittenOnRest(fs, 0);
    assert fs[..0] == [] && fs[0..] == fs;
    assert bytes == ENCAPSULATION_LE + payload;
    if Message(fs) == bytes {
      assert Written(fs) == Message(fs)[4..] == payload;
      assert payload[..end] == payload;
    } else if |bytes| == 4 + end {
      assert payload[..end] == payload;
    }
  }

  lemma {:induction false} ReachesEnd(payload: seq<Byte>, pos: nat, kinds: seq<Kind>)
    requires GetAll(payload, pos, kinds).Some?
    ensures GetAll(payload, pos, kinds).value.1 == EndOf(pos, kinds)
    decreases |kinds|
  {
    if |kinds| > 0 {
      GetAllParts(payload, pos, kinds);
      ReachesEnd(payload, pos + Padding(pos, Width(kinds[0])) + Width(kinds[0]), kinds[1..]);
    }
  }

  lemma CanonicalNext(payload: seq<Byte>, pos: nat, k: Kind, left: seq<Kind>)
    ensures Canonical(payload, pos, [k] + left)
       <==> CanonicalAt(payload, pos, k) && Canonical(payload, pos + Padding(pos, Width(k)) + Width(k), left)
  {
    assert ([k] + left)[1..] == left;
  }

  lemma {:induction false} CanonicalBools(payload: seq<Byte>, pos: nat, n: nat)
    requires pos + n <= |payload|
    ensures Canonical(payload, pos, Bools(n)) <==> forall i :: pos <= i < pos + n ==> payload[i] <= 1
    decreases n
  {
    if n > 0 {
      var rest := Bools(n - 1);
      assert Bools(n) == [KBool] + rest;
      CanonicalNext(payload, pos, KBool, rest);
      CanonicalBools(payload, pos + 1, n - 1);
      assert payload[pos..pos] == Zeros(0);
    }
  }

  lemma {:induction false} CanonicalFloats(payload: seq<Byte>, pos: nat, n: nat)
    requires pos % 4 == 0 && pos + 4 * n <= |payload|
    ensures Canonical(payload, pos, Floats(n))
    decreases n
  {
    if n > 0 {
      var rest := Floats(n - 1);
      assert Floats(n) == [KF32] + rest;
      CanonicalNext(payload, pos, KF32, rest);
      CanonicalFloats(payload, pos + 4, n - 1);
      assert payload[pos..pos] == Zeros(0);
    }
  }

  lemma CanonicalStamp(payload: seq<Byte>, left: seq<Kind>)
    requires |payload| >= 8
    ensures Canonical(payload, 0, [KU64] + left) <==> Canonical(payload, 8, left)
  {
    CanonicalNext(payload, 0, KU64, left);
    assert payload[0..0] == Zeros(0);
  }

  lemma StampedBoolsReencodeIff(bytes: seq<Byte>, kinds: seq<Kind>, n: nat)
    requires kinds == [KU64] + Bools(n) && EndOf(0, kinds) == 8 + n && |bytes| >= 12 + n && Fields(bytes, kinds).Some?
    ensures Message(Fields(bytes, kinds).value) == bytes
       <==> |bytes| == 12 + n && forall i :: 12 <= i < 12 + n ==> bytes[i] <= 1
  {
    var payload := bytes[4..];
    ReencodesIff(bytes, kinds, 8 + n);
    CanonicalStamp(payload, Bools(n));
    CanonicalBools(payload, 8, n);
    FlagsAfterStamp(bytes, payload, n);
  }

  lemma StampedFloatsReencodeIff(bytes: seq<Byte>, kinds: seq<Kind>, n: nat)
    requires kinds == [KU64] + Floats(n) && EndOf(0, kinds) == 8 + 4 * n && |bytes| >= 12 + 4 * n
    requires Fields(bytes, kinds).Some?
    ensures Message(Fields(bytes, kinds).value) == bytes <==> |bytes| == 12 + 4 * n
  {
    ReencodesIff(bytes, kinds, 8 + 4 * n);
    CanonicalStamp(bytes[4..], Floats(n));
    CanonicalFloats(bytes[4..], 8, n);
  }

  /** Neither message has padding: a readable mode is its own encoding if and only if nothing trails and
      all seven flags are 0 or 1, a readable setpoint if and only if nothing trails. */
  lemma ModeReencodesIff(bytes: seq<Byte>)
    requires Fields(bytes, ModeKinds()).Some?
    ensures Message(Fields(bytes, ModeKinds()).value) == bytes
       <==> |bytes| == 19 && forall i :: 12 <= i < 19 ==> bytes[i] <= 1
  {
    MessagesAreLongEnough(bytes);
    ModeEnd();
    var kinds := ModeKinds();
    StampedBoolsReencodeIff(bytes, kinds, 7);
  }

  lemma SetpointReencodesIff(bytes: seq<Byte>)
    requires Fields(bytes, SetpointKinds()).Some?
    ensures Message(Fields(bytes, SetpointKinds()).value) == bytes <==> |bytes| == 68
  {
    MessagesAreLongEnough(bytes);
    SetpointEnd();
    var kinds := SetpointKinds();
    StampedFloatsReencodeIff(bytes, kinds, 14);
  }

  lemma FlagsAfterStamp(bytes: seq<Byte>, payload: seq<Byte>, n: nat)
    requires |bytes| >= 12 + n && payload == bytes[4..]
    ensures (forall i :: 8 <= i < 8 + n ==> payload[i] <= 1) <==> forall i :: 12 <= i < 12 + n ==> bytes[i] <= 1
  {
    if forall i :: 8 <= i < 8 + n ==> payload[i] <= 1 {
      forall i | 12 <= i < 12 + n ensures bytes[i] <= 1 { assert bytes[i] == payload[i - 4]; }
    }
    if forall i :: 12 <= i < 12 + n ==> bytes[i] <= 1 {
      forall i | 8 <= i < 8 + n ensures payload[i] <= 1 { assert payload[i] == bytes[i + 4]; }
    }
  }

  /** A mode whose first flag byte is 2 reads as one whose first flag is set, which writes it as 1. */
  lemma LargeFlagIsNotKept(rest: seq<Byte>)
    requires |rest| == 6
    ensures var bytes := ENCAPSULATION_LE + Zeros(8) + [2] + rest;
            Fields(bytes, ModeKinds()).Some? && Message(Fields(bytes, ModeKinds()).value) != bytes
  {
    var bytes := ENCAPSULATION_LE + Zeros(8) + [2] + rest;
    assert bytes[..4] == ENCAPSULATION_LE && |bytes| == 19 && bytes[12] == 2;
    MessagesAreLongEnough(bytes);
    ModeReencodesIff(bytes);
  }
}
