/** Where each field of the two messages sits, byte by byte. */
module CdrLayout {
  import opened Bytes
  import opened Cdr

  lemma PutAligned(payload: seq<Byte>, f: Field)
    requires |payload| % Width(KindOf(f)) == 0
    ensures Put(payload, f) == payload + Encoded(f)
  {
    assert Zeros(0) == [];
  }

  /** One more field at the end of what is written, where it needs no padding. */
  lemma Onward(fields: seq<Field>, f: Field, bytes: seq<Byte>, next: seq<Byte>)
    requires Written(fields) == bytes && |bytes| % Width(KindOf(f)) == 0 && next == bytes + Encoded(f)
    ensures Written(fields + [f]) == next
  {
    WrittenSnoc(fields, f);
    PutAligned(bytes, f);
  }

  lemma Stamp(t: Long)
    ensures Written([U64(t)]) == Le(t, 8) && |Le(t, 8)| == 8
  {
    var none: seq<Field>, empty: seq<Byte> := [], [];
    assert |Encoded(U64(t))| == 8;
    assert none + [U64(t)] == [U64(t)] && empty + Encoded(U64(t)) == Le(t, 8);
    Onward(none, U64(t), empty, Le(t, 8));
  }

  lemma FlagOn(fields: seq<Field>, bytes: seq<Byte>, b: bool) returns (fs: seq<Field>, bs: seq<Byte>)
    requires Written(fields) == bytes
    ensures fs == fields + [Bool(b)] && bs == bytes + [Flag(b)] && Written(fs) == bs
  {
    fs, bs := fields + [Bool(b)], bytes + [Flag(b)];
    Onward(fields, Bool(b), bytes, bs);
  }

  /** A mode is 19 bytes: the header, the timestamp, and a byte for each flag in this order. */
  lemma ModeLayout(m: OffboardControlMode)
    ensures Message(ModeFields(m))
         == ENCAPSULATION_LE + (Le(m.timestamp, 8) + [Flag(m.position)] + [Flag(m.velocity)] + [Flag(m.acceleration)]
            + [Flag(m.attitude)] + [Flag(m.bodyRate)] + [Flag(m.thrustAndTorque)] + [Flag(m.directActuator)])
  {
    Stamp(m.timestamp);
    var f1, b1 := FlagOn([U64(m.timestamp)], Le(m.timestamp, 8), m.position);
    var f2, b2 := FlagOn(f1, b1, m.velocity);
    var f3, b3 := FlagOn(f2, b2, m.acceleration);
    var f4, b4 := FlagOn(f3, b3, m.attitude);
    var f5, b5 := FlagOn(f4, b4, m.bodyRate);
    var f6, b6 := FlagOn(f5, b5, m.thrustAndTorque);
    var f7, b7 := FlagOn(f6, b6, m.directActuator);
  }

  function AxisBytes(v: Bits3): seq<Byte> { Le(v.x, 4) + Le(v.y, 4) + Le(v.z, 4) }

  lemma WordOn(fields: seq<Field>, bytes: seq<Byte>, w: Word) returns (fs: seq<Field>, bs: seq<Byte>)
    requires Written(fields) == bytes && |bytes| % 4 == 0
    ensures fs == fields + [F32(w)] && bs == bytes + Le(w, 4) && Written(fs) == bs && |bs| % 4 == 0
  {
    fs, bs := fields + [F32(w)], bytes + Le(w, 4);
    WordFits(bytes, w);
    Onward(fields, F32(w), bytes, bs);
  }

  lemma WordFits(bytes: seq<Byte>, w: Word)
    requires |bytes| % 4 == 0
    ensures Width(KindOf(F32(w))) == 4 && Encoded(F32(w)) == Le(w, 4) && |bytes + Le(w, 4)| % 4 == 0
  {
    assert |Encoded(F32(w))| == 4;
  }

  lemma OneByOne<T>(s: seq<T>, a: T, b: T, c: T, all: seq<T>)
    requires all == [a, b, c]
    ensures s + [a] + [b] + [c] == s + all
  {
  }

  lemma Grouped(s: seq<Byte>, a: seq<Byte>, b: seq<Byte>, c: seq<Byte>, all: seq<Byte>)
    requires all == a + b + c
    ensures s + a + b + c == s + all
  {
  }

  lemma WordsOn(fields: seq<Field>, bytes: seq<Byte>, v: Bits3) returns (fs: seq<Field>, bs: seq<Byte>)
    requires Written(fields) == bytes && |bytes| % 4 == 0
    ensures fs == fields + Axes(v) && bs == bytes + AxisBytes(v) && Written(fs) == bs && |bs| % 4 == 0
  {
    fs, bs := ThreeOn(fields, bytes, v.x, v.y, v.z);
    AxesOn(fields, v);
    Grouped(bytes, Le(v.x, 4), Le(v.y, 4), Le(v.z, 4), AxisBytes(v));
  }

  lemma ThreeOn(fields: seq<Field>, bytes: seq<Byte>, x: Word, y: Word, z: Word)
    returns (fs: seq<Field>, bs: seq<Byte>)
    requires Written(fields) == bytes && |bytes| % 4 == 0
    ensures fs == fields + [F32(x)] + [F32(y)] + [F32(z)] && bs == bytes + Le(x, 4) + Le(y, 4) + Le(z, 4)
    ensures Written(fs) == bs && |bs| % 4 == 0
  {
    var f1, b1 := WordOn(fields, bytes, x);
    var f2, b2 := WordOn(f1, b1, y);
    fs, bs := WordOn(f2, b2, z);
  }

  lemma AxesOn(fields: seq<Field>, v: Bits3)
    ensures fields + [F32(v.x)] + [F32(v.y)] + [F32(v.z)] == fields + Axes(v)
  {
    OneByOne(fields, F32(v.x), F32(v.y), F32(v.z), Axes(v));
  }

  /** A setpoint is 68 bytes: the header, the timestamp, four vectors of three words, yaw and its rate. */
  lemma SetpointLayout(s: TrajectorySetpoint)
    ensures Message(SetpointFields(s))
         == ENCAPSULATION_LE + (Le(s.timestamp, 8) + AxisBytes(s.position) + AxisBytes(s.velocity)
            + AxisBytes(s.acceleration) + AxisBytes(s.jerk) + Le(s.yaw, 4) + Le(s.yawspeed, 4))
  {
    Stamp(s.timestamp);
    var f1, b1 := WordsOn([U64(s.timestamp)], Le(s.timestamp, 8), s.position);
    var f2, b2 := WordsOn(f1, b1, s.velocity);
    var f3, b3 := WordsOn(f2, b2, s.acceleration);
    var f4, b4 := WordsOn(f3, b3, s.jerk);
    var f5, b5 := WordOn(f4, b4, s.yaw);
    var f6, b6 := WordOn(f5, b5, s.yawspeed);
  }
}
