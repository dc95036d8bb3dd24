/** The data messages against the format text that announces them: what each declared column holds, how
    wide it is and where it starts. */
module UlogLayout {
  import opened Options
  import opened Bytes
  import opened Ulog

  /** A column by its declared type and name, and the bytes of a sample in it. */
  datatype Column = Column(kind: string, name: string, bytes: seq<Byte>)

  function Columns(s: Sample): seq<Column> {
    [Column("uint64_t", "timestamp", Le(Micros(s.t), 8))]
    + [Column("uint8_t", "armed", [Flag(s.armed)])]
    + [Column("uint8_t", "actuators", [Flag(s.actuators)])]
    + [Column("uint8_t", "failsafe", [Flag(s.failsafe)])]
    + [Column("uint32_t", "epoch", Le(s.epoch, 4))]
    + [Column("uint32_t", "heartbeat_age_ms", Le(s.heartbeatAge, 4))]
    + [Column("uint32_t", "command_age_ms", Le(s.commandAge, 4))]
    + [Column("uint64_t", "estimator_ts_us", Le(EstimatorMicros(s.estimatorMs), 8))]
    + [Column("float", "cmd0", Le(CommandBits(s).0, 4))]
    + [Column("float", "cmd1", Le(CommandBits(s).1, 4))]
    + [Column("float", "cmd2", Le(CommandBits(s).2, 4))]
    + [Column("uint8_t", "has_cmd", [Flag(s.command.Some?)])]
    + [Column("float", "altitude_m", Le(s.altitude, 4))]
  }

  // ---- the text ----

  function Text(c: Column): string { c.kind + " " + c.name + ";" }

  /** The text that announces these columns, behind its head. */
  function Declared(head: string, cs: seq<Column>): string {
    if |cs| == 0 then head else Declared(head, cs[..|cs| - 1]) + Text(cs[|cs| - 1])
  }

  lemma OneMore(head: string, cs: seq<Column>, text: string, c: Column, more: string)
    requires Declared(head, cs) == text && Text(c) == more
    ensures Declared(head, cs + [c]) == text + more
  {
    assert (cs + [c])[..|cs|] == cs;
  }

  lemma FourMore(head: string, cs: seq<Column>, text: string, c0: Column, c1: Column, c2: Column, c3: Column,
                 m0: string, m1: string, m2: string, m3: string)
    requires Declared(head, cs) == text && Text(c0) == m0 && Text(c1) == m1 && Text(c2) == m2 && Text(c3) == m3
    ensures Declared(head, cs + [c0] + [c1] + [c2] + [c3]) == text + m0 + m1 + m2 + m3
  {
    OneMore(head, cs, text, c0, m0);
    OneMore(head, cs + [c0], text + m0, c1, m1);
    OneMore(head, cs + [c0] + [c1], text + m0 + m1, c2, m2);
    OneMore(head, cs + [c0] + [c1] + [c2], text + m0 + m1 + m2, c3, m3);
  }

  lemma ThirteenMore(head: string, a: Column, b: Column, c: Column, d: Column, e: Column, f: Column, g: Column,
                     h: Column, i: Column, j: Column, k: Column, l: Column, m: Column)
    ensures Declared(head, [a] + [b] + [c] + [d] + [e] + [f] + [g] + [h] + [i] + [j] + [k] + [l] + [m])
         == head + Text(a) + Text(b) + Text(c) + Text(d) + Text(e) + Text(f) + Text(g) + Text(h) + Text(i) + Text(j)
            + Text(k) + Text(l) + Text(m)
  {
    var none: seq<Column> := [];
    assert none + [a] == [a];
    FourMore(head, none, head, a, b, c, d, Text(a), Text(b), Text(c), Text(d));
    var cs, text := [a] + [b] + [c] + [d], head + Text(a) + Text(b) + Text(c) + Text(d);
    FourMore(head, cs, text, e, f, g, h, Text(e), Text(f), Text(g), Text(h));
    cs, text := cs + [e] + [f] + [g] + [h], text + Text(e) + Text(f) + Text(g) + Text(h);
    FourMore(head, cs, text, i, j, k, l, Text(i), Text(j), Text(k), Text(l));
    OneMore(head, cs + [i] + [j] + [k] + [l], text + Text(i) + Text(j) + Text(k) + Text(l), m, Text(m));
  }

  lemma TextOfTime(b: seq<Byte>)
    ensures Text(Column("uint64_t", "timestamp", b)) == "uint64_t timestamp;"
  {
  }

  lemma TextOfEstimate(b: seq<Byte>)
    ensures Text(Column("uint64_t", "estimator_ts_us", b)) == "uint64_t estimator_ts_us;"
  {
  }

  lemma TextOfSwitches(b: seq<Byte>, c: seq<Byte>)
    ensures Text(Column("uint8_t", "armed", b)) == "uint8_t armed;"
    ensures Text(Column("uint8_t", "actuators", c)) == "uint8_t actuators;"
  {
  }

  lemma TextOfMarks(b: seq<Byte>, c: seq<Byte>)
    ensures Text(Column("uint8_t", "failsafe", b)) == "uint8_t failsafe;"
    ensures Text(Column("uint8_t", "has_cmd", c)) == "uint8_t has_cmd;"
  {
  }

  lemma TextOfHeartbeat(b: seq<Byte>)
    ensures Text(Column("uint32_t", "heartbeat_age_ms", b)) == "uint32_t heartbeat_age_ms;"
  {
  }

  lemma TextOfCounts(b: seq<Byte>, c: seq<Byte>)
    ensures Text(Column("uint32_t", "epoch", b)) == "uint32_t epoch;"
    ensures Text(Column("uint32_t", "command_age_ms", c)) == "uint32_t command_age_ms;"
  {
  }

  lemma TextOfFloats(b: seq<Byte>, c: seq<Byte>)
    ensures Text(Column("float", "cmd0", b)) == "float cmd0;"
    ensures Text(Column("float", "cmd1", c)) == "float cmd1;"
  {
  }

  lemma TextOfMoreFloats(b: seq<Byte>, c: seq<Byte>)
    ensures Text(Column("float", "cmd2", b)) == "float cmd2;"
    ensures Text(Column("float", "altitude_m", c)) == "float altitude_m;"
  {
  }

  lemma TextFollows(s: Sample)
    ensures FC_TRACE_FORMAT == Declared("fc_trace:", Columns(s))
  {
    var t, e, cmd := Le(Micros(s.t), 8), Le(EstimatorMicros(s.estimatorMs), 8), CommandBits(s);
    TextOfTime(t);
    TextOfEstimate(e);
    TextOfSwitches([Flag(s.armed)], [Flag(s.actuators)]);
    TextOfMarks([Flag(s.failsafe)], [Flag(s.command.Some?)]);
    TextOfHeartbeat(Le(s.heartbeatAge, 4));
    TextOfCounts(Le(s.epoch, 4), Le(s.commandAge, 4));
    TextOfFloats(Le(cmd.0, 4), Le(cmd.1, 4));
    TextOfMoreFloats(Le(cmd.2, 4), Le(s.altitude, 4));
    ThirteenMore("fc_trace:", Column("uint64_t", "timestamp", t),
                 Column("uint8_t", "armed", [Flag(s.armed)]), Column("uint8_t", "actuators", [Flag(s.actuators)]),
                 Column("uint8_t", "failsafe", [Flag(s.failsafe)]), Column("uint32_t", "epoch", Le(s.epoch, 4)),
                 Column("uint32_t", "heartbeat_age_ms", Le(s.heartbeatAge, 4)),
                 Column("uint32_t", "command_age_ms", Le(s.commandAge, 4)), Column("uint64_t", "estimator_ts_us", e),
                 Column("float", "cmd0", Le(cmd.0, 4)), Column("float", "cmd1", Le(cmd.1, 4)),
                 Column("float", "cmd2", Le(cmd.2, 4)), Column("uint8_t", "has_cmd", [Flag(s.command.Some?)]),
                 Column("float", "altitude_m", Le(s.altitude, 4)));
  }

  // ---- the data ----

  /** Width of a declared type. */
  function WidthOf(kind: string): nat {
    if kind == "uint64_t" then 8 else if kind == "uint32_t" || kind == "float" then 4 else 1
  }

  /** Where a reader that goes by the declared types finds column k. */
  function StartOf(cs: seq<Column>, k: nat): nat
    requires k <= |cs|
  {
    if k == 0 then 0 else StartOf(cs, k - 1) + WidthOf(cs[k - 1].kind)
  }

  lemma Widths()
    ensures WidthOf("uint64_t") == 8 && WidthOf("uint32_t") == 4 && WidthOf("float") == 4 && WidthOf("uint8_t") == 1
  {
    assert "uint32_t"[4] != "uint64_t"[4];
    assert |"float"| == 5 && |"uint8_t"| == 7;
  }

  /** Each column is as wide as its type. */
  predicate Fits(cs: seq<Column>, bytes: seq<seq<Byte>>) {
    |cs| == |bytes| &&
    forall k :: 0 <= k < |cs| ==> cs[k].bytes == bytes[k] && |bytes[k]| == WidthOf(cs[k].kind)
  }

  predicate Wide(c: Column) { |c.bytes| == WidthOf(c.kind) }

  lemma OneFits(cs: seq<Column>, bytes: seq<seq<Byte>>, c: Column)
    requires Fits(cs, bytes) && Wide(c)
    ensures Fits(cs + [c], bytes + [c.bytes])
  {
  }

  lemma FourFit(cs: seq<Column>, bytes: seq<seq<Byte>>, a: Column, b: Column, c: Column, d: Column)
    requires Fits(cs, bytes) && Wide(a) && Wide(b) && Wide(c) && Wide(d)
    ensures Fits(cs + [a] + [b] + [c] + [d], bytes + [a.bytes] + [b.bytes] + [c.bytes] + [d.bytes])
  {
    OneFits(cs, bytes, a);
    OneFits(cs + [a], bytes + [a.bytes], b);
    OneFits(cs + [a] + [b], bytes + [a.bytes] + [b.bytes], c);
    OneFits(cs + [a] + [b] + [c], bytes + [a.bytes] + [b.bytes] + [c.bytes], d);
  }

  lemma ThirteenFit(a: Column, b: Column, c: Column, d: Column, e: Column, f: Column, g: Column,
                    h: Column, i: Column, j: Column, k: Column, l: Column, m: Column)
    requires Wide(a) && Wide(b) && Wide(c) && Wide(d) && Wide(e) && Wide(f) && Wide(g)
    requires Wide(h) && Wide(i) && Wide(j) && Wide(k) && Wide(l) && Wide(m)
    ensures Fits([a] + [b] + [c] + [d] + [e] + [f] + [g] + [h] + [i] + [j] + [k] + [l] + [m],
                 [a.bytes] + [b.bytes] + [c.bytes] + [d.bytes] + [e.bytes] + [f.bytes] + [g.bytes] + [h.bytes]
                 + [i.bytes] + [j.bytes] + [k.bytes] + [l.bytes] + [m.bytes])
  {
    var none: seq<Column>, empty: seq<seq<Byte>> := [], [];
    assert none + [a] == [a] && empty + [a.bytes] == [a.bytes];
    FourFit(none, empty, a, b, c, d);
    var cs, bytes := [a] + [b] + [c] + [d], [a.bytes] + [b.bytes] + [c.bytes] + [d.bytes];
    FourFit(cs, bytes, e, f, g, h);
    cs, bytes := cs + [e] + [f] + [g] + [h], bytes + [e.bytes] + [f.bytes] + [g.bytes] + [h.bytes];
    FourFit(cs, bytes, i, j, k, l);
    OneFits(cs + [i] + [j] + [k] + [l], bytes + [i.bytes] + [j.bytes] + [k.bytes] + [l.bytes], m);
  }

  lemma ColumnsFit(s: Sample)
    ensures Fits(Columns(s), Chunks(s))
  {
    Widths();
    var cmd := CommandBits(s);
    ThirteenFit(Column("uint64_t", "timestamp", Le(Micros(s.t), 8)),
                Column("uint8_t", "armed", [Flag(s.armed)]), Column("uint8_t", "actuators", [Flag(s.actuators)]),
                Column("uint8_t", "failsafe", [Flag(s.failsafe)]), Column("uint32_t", "epoch", Le(s.epoch, 4)),
                Column("uint32_t", "heartbeat_age_ms", Le(s.heartbeatAge, 4)),
                Column("uint32_t", "command_age_ms", Le(s.commandAge, 4)),
                Column("uint64_t", "estimator_ts_us", Le(EstimatorMicros(s.estimatorMs), 8)),
                Column("float", "cmd0", Le(cmd.0, 4)), Column("float", "cmd1", Le(cmd.1, 4)),
                Column("float", "cmd2", Le(cmd.2, 4)), Column("uint8_t", "has_cmd", [Flag(s.command.Some?)]),
                Column("float", "altitude_m", Le(s.altitude, 4)));
  }

  lemma {:induction false} StartIsLength(cs: seq<Column>, bytes: seq<seq<Byte>>, k: nat)
    requires Fits(cs, bytes) && k <= |cs|
    ensures |Joined(bytes[..k])| == StartOf(cs, k)
  {
    if k > 0 {
      StartIsLength(cs, bytes, k - 1);
      assert bytes[..k][..k - 1] == bytes[..k - 1];
    }
  }

  lemma ColumnAt(cs: seq<Column>, bytes: seq<seq<Byte>>, k: nat)
    requires Fits(cs, bytes) && k < |cs|
    ensures var at, w, d := StartOf(cs, k), WidthOf(cs[k].kind), Joined(bytes);
            at + w <= |d| && d[at..at + w] == cs[k].bytes
  {
    StartIsLength(cs, bytes, k);
    ChunkAt(bytes, k, StartOf(cs, k));
  }

  lemma DataIsJoined(s: Sample)
    ensures DataOf(s)[2..] == Joined(Chunks(s))
  {
  }

  /** The text a file declares is true of its data: it lists these columns in this order, and a reader that
      goes by the declared types alone finds each of them where it is. */
  lemma DataFollowsFormat(s: Sample, k: nat)
    requires k < |Columns(s)|
    ensures FC_TRACE_FORMAT == Declared("fc_trace:", Columns(s))
    ensures var at, w, d := StartOf(Columns(s), k), WidthOf(Columns(s)[k].kind), DataOf(s)[2..];
            at + w <= |d| && d[at..at + w] == Columns(s)[k].bytes
  {
    TextFollows(s);
    ColumnsFit(s);
    ColumnAt(Columns(s), Chunks(s), k);
    DataIsJoined(s);
  }
}
