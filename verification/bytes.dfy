/** Little-endian numbers in byte sequences. */
module Bytes {
  type Byte = b: nat | b < 256

  /** 256^n. */
  function Span(n: nat): (r: nat)
    ensures r > 0
  {
    if n == 0 then 1 else 256 * Span(n - 1)
  }

  /** The n low bytes of v, least significant first. */
  function Le(v: nat, n: nat): (r: seq<Byte>)
    ensures |r| == n
  {
    if n == 0 then [] else [v % 256] + Le(v / 256, n - 1)
  }

  function FromLe(s: seq<Byte>): nat {
    if |s| == 0 then 0 else s[0] + 256 * FromLe(s[1..])
  }

  lemma {:induction false} LeRoundTrip(v: nat, n: nat)
    requires v < Span(n)
    ensures FromLe(Le(v, n)) == v
  {
    if n > 0 {
      assert v / 256 < Span(n - 1);
      LeRoundTrip(v / 256, n - 1);
      assert Le(v, n)[1..] == Le(v / 256, n - 1);
    }
  }

  lemma {:induction false} FromLeRoundTrip(s: seq<Byte>)
    ensures FromLe(s) < Span(|s|) && Le(FromLe(s), |s|) == s
  {
    if |s| > 0 {
      FromLeRoundTrip(s[1..]);
      var rest := FromLe(s[1..]);
      assert (s[0] + 256 * rest) % 256 == s[0] && (s[0] + 256 * rest) / 256 == rest;
      assert s == [s[0]] + s[1..];
    }
  }

  lemma Spans()
    ensures Span(1) == 0x100 && Span(2) == 0x1_0000 && Span(4) == 0x1_0000_0000 && Span(8) == 0x1_0000_0000_0000_0000
  {
  }

  type Half = n: nat | n < 0x1_0000
  type Word = n: nat | n < 0x1_0000_0000
  type Long = n: nat | n < 0x1_0000_0000_0000_0000

  function Word32(s: seq<Byte>): Word
    requires |s| == 4
  {
    FromLeRoundTrip(s);
    Spans();
    FromLe(s)
  }

  function Long64(s: seq<Byte>): Long
    requires |s| == 8
  {
    FromLeRoundTrip(s);
    Spans();
    FromLe(s)
  }

  function Half16(s: seq<Byte>): Half
    requires |s| == 2
  {
    FromLeRoundTrip(s);
    Spans();
    FromLe(s)
  }

  lemma NumbersRoundTrip()
    ensures forall v: Half :: Half16(Le(v, 2)) == v
    ensures forall v: Word :: Word32(Le(v, 4)) == v
    ensures forall v: Long :: Long64(Le(v, 8)) == v
  {
    Spans();
    forall v: Half ensures Half16(Le(v, 2)) == v { LeRoundTrip(v, 2); }
    forall v: Word ensures Word32(Le(v, 4)) == v { LeRoundTrip(v, 4); }
    forall v: Long ensures Long64(Le(v, 8)) == v { LeRoundTrip(v, 8); }
  }

  function Flag(b: bool): Byte { if b then 1 else 0 }
}
