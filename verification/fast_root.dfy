/** The bit-shifting square root: halve the biased exponent of the encoding, then take three
    Newton steps.  Encodings are 32-bit words; the Newton steps are exact. */
module FastRoot {
  import opened Roots

  const MANTISSA: nat := 0x80_0000
  const ONE_BITS: nat := 0x3f80_0000
  const INFINITY_BITS: nat := 0x7f80_0000

  // Worst relative square error of the guess (one bit lost by the shift, or 1/8 above),
  // then after one and after two Newton steps.
  const GUESS_LOW: real := 1.0 / 4194304.0
  const AFTER_ONE: real := 0.0034723
  const AFTER_TWO: real := 0.0000030038

  function Pow2(e: int): (r: real)
    ensures r > 0.0
    decreases if e >= 0 then e else -e
  {
    if e == 0 then 1.0 else if e > 0 then 2.0 * Pow2(e - 1) else Pow2(e + 1) / 2.0
  }

  lemma {:induction false} Pow2Square(k: int)
    ensures Pow2(2 * k) == Pow2(k) * Pow2(k)
    decreases if k >= 0 then k else -k
  {
    if k > 0 {
      Pow2Square(k - 1);
      assert Pow2(2 * k) == 2.0 * (2.0 * Pow2(2 * (k - 1)));
    } else if k < 0 {
      Pow2Square(k + 1);
      assert Pow2(2 * k) == Pow2(2 * (k + 1)) / 2.0 / 2.0;
    }
  }

  /** Fraction field as a number in [0, 1). */
  function Fraction(m: nat): real {
    m as real / MANTISSA as real
  }

  /** The number a non-negative finite encoding stands for. */
  function Value(bits: nat): real {
    FieldValue(bits / MANTISSA, bits % MANTISSA)
  }

  function FieldValue(e: nat, m: nat): real {
    if e == 0 then Scaled(Fraction(m), Pow2(-126)) else Scaled(1.0 + Fraction(m), Pow2(e - 127))
  }

  function Scaled(significand: real, power: real): real {
    significand * power
  }

  predicate Normal(bits: nat) {
    MANTISSA <= bits < INFINITY_BITS
  }

  function Guess(bits: nat): nat {
    (bits + ONE_BITS) / 2
  }

  function Newton(x: real, y: real): real
    requires y > 0.0
  {
    0.5 * (y + x / y)
  }

  lemma GuessIsPositive(bits: nat)
    ensures Value(Guess(bits)) > 0.0
  {
  }

  lemma NewtonIsPositive(x: real, y: real)
    requires x >= 0.0 && y > 0.0
    ensures Newton(x, y) > 0.0
  {
  }

  /** Negative numbers, infinities and NaNs all have encodings from `INFINITY_BITS` up. */
  function Sqrtf(bits: nat): real {
    if bits >= INFINITY_BITS || bits == 0 then 0.0
    else
      GuessIsPositive(bits);
      var x, y := Value(bits), Value(Guess(bits));
      assert x >= 0.0 by { ValueIsPositive(bits); }
      NewtonIsPositive(x, y);
      NewtonIsPositive(x, Newton(x, y));
      Newton(x, Newton(x, Newton(x, y)))
  }

  lemma ValueIsPositive(bits: nat)
    requires bits > 0
    ensures Value(bits) > 0.0
  {
  }

  // ---- the guess ----

  /** `half` is f/2 with the bit below the mantissa lost. */
  predicate Shifted(f: real, half: real) {
    0.0 <= f < 1.0 && f / 2.0 - 1.0 / 16777216.0 <= half <= f / 2.0
  }

  /** Squaring with the low bit of the mantissa shifted out. */
  lemma ShiftedMantissa(m: nat)
    requires m < MANTISSA
    ensures Shifted(Fraction(m), Fraction(m / 2))
  {
  }

  lemma EvenMantissa(f: real, half: real)
    requires Shifted(f, half)
    ensures (1.0 - GUESS_LOW) * (1.0 + f) <= (1.0 + half) * (1.0 + half) <= 1.125 * (1.0 + f)
  {
    var full := 1.0 + f / 2.0;
    var lost := f / 2.0 - half;
    assert (1.0 + half) * (1.0 + half) == full * full - 2.0 * full * lost + lost * lost;
    assert 0.0 <= full * lost <= 1.5 * (1.0 / 16777216.0) by { Scale(full, 1.5, lost); ProductSign(full, lost); }
    assert lost * lost <= full * lost;
    assert full * full == 1.0 + f + f * f / 4.0;
    assert 0.0 <= f * f <= f;
  }

  lemma OddMantissa(f: real, half: real)
    requires Shifted(f, half)
    ensures (1.0 - GUESS_LOW) * (2.0 * (1.0 + f)) <= (1.5 + half) * (1.5 + half) <= 1.125 * (2.0 * (1.0 + f))
  {
    var full := 1.5 + f / 2.0;
    var lost := f / 2.0 - half;
    assert (1.5 + half) * (1.5 + half) == full * full - 2.0 * full * lost + lost * lost;
    assert 0.0 <= full * lost <= 2.0 * (1.0 / 16777216.0) by { Scale(full, 2.0, lost); ProductSign(full, lost); }
    assert lost * lost <= full * lost;
    assert full * full == 2.0 * (1.0 + f) + (1.0 - f) * (1.0 - f) / 4.0;
    assert 0.0 <= (1.0 - f) * (1.0 - f);
    assert full * full == 2.25 + 1.5 * f + f * f / 4.0;
    assert f * f <= f;
  }

  predicate CloseGuess(x: real, y: real) {
    (1.0 - GUESS_LOW) * x <= y * y <= 1.125 * x
  }

  lemma ScaledSquare(a: real, c: real, p: real, pp: real)
    requires p > 0.0 && pp == p * p
    requires (1.0 - GUESS_LOW) * c <= a * a <= 1.125 * c
    ensures CloseGuess(c * pp, a * p)
  {
  }

  lemma Encoded(e: nat, m: nat)
    requires m < MANTISSA
    ensures Value(e * MANTISSA + m) == FieldValue(e, m)
  {
    assert (e * MANTISSA + m) / MANTISSA == e;
    assert (e * MANTISSA + m) % MANTISSA == m;
  }

  /** x = (1 + f) p^2 and the guess is (1 + half) p. */
  lemma EvenExponent(f: real, half: real, p: real, pp: real)
    requires Shifted(f, half) && p > 0.0 && pp == p * p
    ensures CloseGuess(Scaled(1.0 + f, pp), Scaled(1.0 + half, p))
  {
    EvenMantissa(f, half);
    ScaledSquare(1.0 + half, 1.0 + f, p, pp);
  }

  /** x = 2 (1 + f) p^2 and the guess is (3/2 + half) p: the low exponent bit falls into the mantissa. */
  lemma OddExponent(f: real, half: real, p: real, pp: real, pp2: real)
    requires Shifted(f, half) && p > 0.0 && pp == p * p && pp2 == 2.0 * pp
    ensures CloseGuess(Scaled(1.0 + f, pp2), Scaled(1.5 + half, p))
  {
    OddMantissa(f, half);
    ScaledSquare(1.5 + half, 2.0 * (1.0 + f), p, pp);
    Doubled(1.0 + f, pp, pp2);
  }

  lemma Doubled(a: real, p: real, q: real)
    requires q == 2.0 * p
    ensures a * q == (2.0 * a) * p
  {
  }

  /** The fields of x and of its guess, for either parity r of the shifted exponent. */
  lemma GuessFields(c: nat, r: nat, m: nat)
    requires c >= 64 && r <= 1 && m < MANTISSA
    ensures CloseGuess(FieldValue(2 * c + r - 127, m), FieldValue(c, GuessMantissa(r, m)))
  {
    if r == 0 {
      GuessEven(c, m);
    } else {
      GuessOdd(c, m);
    }
  }

  /** The power of two under the guess, and its square. */
  lemma Powers(c: nat) returns (p: real, pp: real)
    ensures p > 0.0 && pp == p * p && Pow2(c - 127) == p
    ensures Pow2(2 * c - 127 - 127) == pp && Pow2(2 * c - 126 - 127) == 2.0 * pp
  {
    p, pp := Pow2(c - 127), Pow2(2 * (c - 127));
    Pow2Square(c - 127);
    Pow2Double(c - 127);
  }

  lemma GuessEven(c: nat, m: nat)
    requires c >= 64 && m < MANTISSA
    ensures CloseGuess(FieldValue(2 * c - 127, m), FieldValue(c, m / 2))
  {
    var p, pp := Powers(c);
    ShiftedMantissa(m);
    EvenFields(2 * c - 127, c, m, p, pp);
  }

  lemma GuessOdd(c: nat, m: nat)
    requires c >= 64 && m < MANTISSA
    ensures CloseGuess(FieldValue(2 * c - 126, m), FieldValue(c, MANTISSA / 2 + m / 2))
  {
    var p, pp := Powers(c);
    ShiftedMantissa(m);
    HalfPlus(m / 2);
    OddFields(2 * c - 126, c, m, p, pp);
  }

  lemma EvenFields(e: nat, c: nat, m: nat, p: real, pp: real)
    requires e > 0 && c > 0 && p > 0.0 && pp == p * p && Pow2(e - 127) == pp && Pow2(c - 127) == p
    requires Shifted(Fraction(m), Fraction(m / 2))
    ensures CloseGuess(FieldValue(e, m), FieldValue(c, m / 2))
  {
    EvenExponent(Fraction(m), Fraction(m / 2), p, pp);
  }

  lemma OddFields(e: nat, c: nat, m: nat, p: real, pp: real)
    requires e > 0 && c > 0 && p > 0.0 && pp == p * p && Pow2(e - 127) == 2.0 * pp && Pow2(c - 127) == p
    requires Shifted(Fraction(m), Fraction(m / 2)) && Fraction(MANTISSA / 2 + m / 2) == 0.5 + Fraction(m / 2)
    ensures CloseGuess(FieldValue(e, m), FieldValue(c, MANTISSA / 2 + m / 2))
  {
    OddExponent(Fraction(m), Fraction(m / 2), p, pp, 2.0 * pp);
  }

  function GuessMantissa(r: nat, m: nat): nat {
    if r == 0 then m / 2 else MANTISSA / 2 + m / 2
  }

  lemma GuessEncoding(bits: nat, c: nat, r: nat, m: nat)
    requires r <= 1 && m < MANTISSA && bits + ONE_BITS == (2 * c + r) * MANTISSA + m
    ensures Guess(bits) == c * MANTISSA + GuessMantissa(r, m) && GuessMantissa(r, m) < MANTISSA
  {
  }

  /** The guess has a square within [(1 - 2^-22) x, 1.125 x], whatever the exponent's parity. */
  lemma GuessIsClose(bits: nat)
    requires Normal(bits)
    ensures CloseGuess(Value(bits), Value(Guess(bits)))
  {
    var e, m := bits / MANTISSA, bits % MANTISSA;
    var c, r := (e + 127) / 2, (e + 127) % 2;
    assert bits == e * MANTISSA + m;
    assert e + 127 == 2 * c + r;
    GuessEncoding(bits, c, r, m);
    Encoded(c, GuessMantissa(r, m));
    GuessFields(c, r, m);
  }

  lemma HalfPlus(m: nat)
    ensures Fraction(MANTISSA / 2 + m) == 0.5 + Fraction(m)
  {
  }

  lemma Pow2Double(k: int)
    ensures Pow2(2 * k + 1) == 2.0 * Pow2(2 * k)
  {
  }

  // ---- Newton ----

  function NextError(d: real): real
    requires d > -1.0
  {
    d * d / (4.0 * (1.0 + d))
  }

  /** A Newton step maps the relative square error d to d^2 / (4 (1 + d)). */
  lemma NewtonMapsError(x: real, y: real, d: real)
    requires x > 0.0 && y > 0.0 && d > -1.0 && y * y == x * (1.0 + d)
    ensures var z := Newton(x, y); z > 0.0 && z * z == x * (1.0 + NextError(d))
  {
  }

  lemma NextErrorIsMonotone(d: real, bound: real)
    requires 0.0 <= d <= bound
    ensures 0.0 <= NextError(d) <= NextError(bound)
  {
  }

  lemma QuotientOrder(a: real, b: real, c: real, d: real)
    requires a >= 0.0 && b > 0.0 && d > 0.0 && a * d <= c * b
    ensures 0.0 <= a / (4.0 * b) <= c / (4.0 * d)
  {
  }

  /** The relative square error of the guess is some d in [-2^-22, 1/8], and one Newton step
      takes every such error to [0, AFTER_ONE]. */
  lemma FirstError(d: real)
    requires -GUESS_LOW <= d <= 0.125
    ensures 0.0 <= NextError(d) <= AFTER_ONE
  {
    if d >= 0.0 {
      NextErrorIsMonotone(d, 0.125);
    } else {
      var a := -d;
      assert d * d == a * a;
      assert a * a <= GUESS_LOW * GUESS_LOW by { Scale(a, GUESS_LOW, a); Scale(a, GUESS_LOW, GUESS_LOW); }
      QuotientOrder(d * d, 1.0 + d, GUESS_LOW * GUESS_LOW * 2.0, 1.0);
    }
  }

  lemma ErrorOf(x: real, y: real) returns (d: real)
    requires x > 0.0 && CloseGuess(x, y)
    ensures -GUESS_LOW <= d <= 0.125 && y * y == x * (1.0 + d)
  {
    d := ErrorOfSquare(x, y);
    if d > 0.125 {
      ScaleStrict(1.125, 1.0 + d, x);
    } else if d < -GUESS_LOW {
      ScaleStrict(1.0 + d, 1.0 - GUESS_LOW, x);
    }
  }

  predicate NearRootOf(x: real, y: real) {
    y > 0.0 && x <= y * y <= (1.0 + ROOT_SLACK) * x
  }

  lemma SmallError(x: real, y: real, n: real)
    requires x > 0.0 && y > 0.0 && 0.0 <= n <= ROOT_SLACK && y * y == x * (1.0 + n)
    ensures NearRootOf(x, y)
  {
  }

  /** Three steps from any guess with a square within [(1 - 2^-22) x, 1.125 x]. */
  lemma ThreeSteps(x: real, y0: real, d0: real)
    requires x > 0.0 && y0 > 0.0 && -GUESS_LOW <= d0 <= 0.125 && y0 * y0 == x * (1.0 + d0)
    ensures Newton(x, y0) > 0.0 && Newton(x, Newton(x, y0)) > 0.0
    ensures NearRootOf(x, Newton(x, Newton(x, Newton(x, y0))))
  {
    FirstError(d0);
    NewtonMapsError(x, y0, d0);
    var y1, d1 := Newton(x, y0), NextError(d0);
    NextErrorIsMonotone(d1, AFTER_ONE);
    NewtonMapsError(x, y1, d1);
    assert NextError(AFTER_ONE) <= AFTER_TWO;
    var y2, d2 := Newton(x, y1), NextError(d1);
    NextErrorIsMonotone(d2, AFTER_TWO);
    NewtonMapsError(x, y2, d2);
    assert NextError(AFTER_TWO) <= ROOT_SLACK;
    SmallError(x, Newton(x, y2), NextError(d2));
  }

  /** On every positive normal float the root never undershoots and its square is within
      `ROOT_SLACK` of the argument: the kernels' assumption on their root is met. */
  lemma RootIsNear(bits: nat)
    requires Normal(bits)
    ensures NearRootOf(Value(bits), Sqrtf(bits))
  {
    var x, y0 := Value(bits), Value(Guess(bits));
    ValueIsPositive(bits);
    GuessIsPositive(bits);
    GuessIsClose(bits);
    var d0 := ErrorOf(x, y0);
    ThreeSteps(x, y0, d0);
  }

  lemma StepKeepsHalf(x: real, y: real)
    requires x > 0.0 && y > 0.0
    ensures Newton(x, y) > y / 2.0
  {
  }

  lemma FarOff(x: real, y: real, p: real)
    requires 0.0 < p && y > 0.1875 * p && x == (p * p) * 4.0 / 8388608.0
    ensures y * y > 10000.0 * x
  {
  }

  // ---- below the normal range ----

  // The first subnormal encoding with an accurate root, and relative square errors of the guess
  // on either side of the largest that three Newton steps can mend.
  const ACCURATE_FROM: nat := 0x66_d755
  const MENDED: real := 0.12532441
  const UNMENDED: real := 0.1253244170

  lemma SubnormalPower(p: real)
    requires p == Pow2(-64)
    ensures Pow2(-126) == 4.0 * (p * p)
  {
    Pow2Square(-64);
    assert Pow2(-128) == Pow2(-127) / 2.0 == Pow2(-126) / 2.0 / 2.0;
  }

  lemma SubnormalGuess(bits: nat)
    requires bits < MANTISSA
    ensures Value(Guess(bits)) == (1.5 + Fraction(bits / 2)) * Pow2(-64)
  {
    var m := MANTISSA / 2 + bits / 2;
    assert Guess(bits) == 63 * MANTISSA + m;
    Encoded(63, m);
    HalfPlus(bits / 2);
  }

  /** A subnormal is f * (2p)^2 and its guess (3/2 + half) p, for p = 2^-64. */
  lemma SubnormalFields(bits: nat, p: real)
    requires bits < MANTISSA && p == Pow2(-64)
    ensures Value(bits) == Fraction(bits) * (4.0 * (p * p))
    ensures Value(Guess(bits)) == (1.5 + Fraction(bits / 2)) * p
  {
    SubnormalPower(p);
    SubnormalGuess(bits);
  }

  /** By how much the squared guess exceeds the share 1 + d of the argument, over p^2. */
  function Excess(half: real, f: real, d: real): real {
    (1.5 + half) * (1.5 + half) - 4.0 * (1.0 + d) * f
  }

  lemma ExcessFalls(a: real, b: real, lost: real, d: real)
    requires 0.0 <= a <= b <= 0.5 && d >= 0.0
    ensures Excess(a, 2.0 * a + lost, d) >= Excess(b, 2.0 * b + lost, d)
  {
    assert (1.5 + b) * (1.5 + b) - (1.5 + a) * (1.5 + a) == (b - a) * (3.0 + a + b);
    Scale(3.0 + a + b, 8.0 * (1.0 + d), b - a);
  }

  lemma FractionParts(bits: nat)
    ensures Fraction(bits) == 2.0 * Fraction(bits / 2) + Fraction(bits % 2)
  {
  }

  lemma HalfOrder(a: nat, b: nat)
    requires a <= b < MANTISSA / 2
    ensures 0.0 <= Fraction(a) <= Fraction(b) <= 0.5
  {
  }

  /** The guess is never low, too high to mend up to `ACCURATE_FROM` and mended from there on. */
  lemma SubnormalExcess(bits: nat)
    requires 0 < bits < MANTISSA
    ensures Excess(Fraction(bits / 2), Fraction(bits), 0.0) >= 0.0
    ensures bits < ACCURATE_FROM ==> Excess(Fraction(bits / 2), Fraction(bits), UNMENDED) >= 0.0
    ensures bits >= ACCURATE_FROM ==> Excess(Fraction(bits / 2), Fraction(bits), MENDED) <= 0.0
  {
    var g, lost, last := bits / 2, Fraction(bits % 2), MANTISSA / 2 - 1;
    FractionParts(bits);
    HalfOrder(g, last);
    ExcessFalls(Fraction(g), Fraction(last), lost, 0.0);
    if bits < ACCURATE_FROM {
      var edge := if bits % 2 == 0 then ACCURATE_FROM / 2 else ACCURATE_FROM / 2 - 1;
      HalfOrder(g, edge);
      ExcessFalls(Fraction(g), Fraction(edge), lost, UNMENDED);
    } else {
      var edge := if bits % 2 == 1 then ACCURATE_FROM / 2 else ACCURATE_FROM / 2 + 1;
      HalfOrder(edge, g);
      ExcessFalls(Fraction(edge), Fraction(g), lost, MENDED);
    }
  }

  lemma SquareOfProduct(a: real, p: real, y: real)
    requires y == a * p
    ensures y * y == (a * a) * (p * p)
  {
    assert y * y == y * (a * p) == (y * p) * a;
    assert y * p == a * (p * p);
  }

  lemma ShareOfArgument(f: real, pp: real, e: real, x: real)
    requires x == f * (4.0 * pp)
    ensures x * e == (4.0 * e * f) * pp
  {
  }

  /** The error of a guess leaves no excess. */
  lemma ErrorFromExcess(half: real, f: real, p: real, x: real, y0: real, d0: real)
    requires p > 0.0 && x == f * (4.0 * (p * p)) && y0 == (1.5 + half) * p && y0 * y0 == x * (1.0 + d0)
    ensures Excess(half, f, d0) == 0.0
  {
    var a, b, pp := (1.5 + half) * (1.5 + half), 4.0 * (1.0 + d0) * f, p * p;
    assert a * pp == y0 * y0 by { SquareOfProduct(1.5 + half, p, y0); }
    assert b * pp == x * (1.0 + d0) by { ShareOfArgument(f, pp, 1.0 + d0, x); }
    SquareIsPositive(p, pp);
    SameFactor(a, b, pp);
  }

  lemma SquareIsPositive(p: real, pp: real)
    requires p > 0.0 && pp == p * p
    ensures pp > 0.0
  {
    SquareGrows(p, 0.0);
  }

  lemma SameFactor(a: real, b: real, w: real)
    requires w > 0.0 && a * w == b * w
    ensures a == b
  {
  }

  lemma ExcessOrdersErrors(half: real, f: real, d0: real, d: real)
    requires f > 0.0 && Excess(half, f, d0) == 0.0
    ensures Excess(half, f, d) >= 0.0 ==> d <= d0
    ensures Excess(half, f, d) <= 0.0 ==> d0 <= d
  {
    assert Excess(half, f, d) == 4.0 * ((d0 - d) * f);
    if d > d0 {
      ProductSign(d - d0, f);
    } else if d < d0 {
      ProductSign(d0 - d, f);
    }
  }

  /** What three steps leave of an error. */
  function ThirdError(d: real): (n: real)
    requires d >= 0.0
    ensures n >= 0.0
  {
    NextErrorIsMonotone(0.0, d);
    NextErrorIsMonotone(0.0, NextError(d));
    NextErrorIsMonotone(0.0, NextError(NextError(d)));
    NextError(NextError(NextError(d)))
  }

  lemma ThirdErrorIsMonotone(d: real, bound: real)
    requires 0.0 <= d <= bound
    ensures ThirdError(d) <= ThirdError(bound)
  {
    NextErrorIsMonotone(d, bound);
    NextErrorIsMonotone(NextError(d), NextError(bound));
    NextErrorIsMonotone(NextError(NextError(d)), NextError(NextError(bound)));
  }

  lemma MendedError()
    ensures ThirdError(MENDED) <= ROOT_SLACK
  {
    assert NextError(MENDED) <= 0.003489262208;
    NextErrorIsMonotone(NextError(MENDED), 0.003489262208);
    assert NextError(0.003489262208) <= 0.000003033154219;
    NextErrorIsMonotone(NextError(NextError(MENDED)), 0.000003033154219);
  }

  lemma UnmendedError()
    ensures ThirdError(UNMENDED) > ROOT_SLACK
  {
    assert NextError(UNMENDED) >= 0.003489262576;
    NextErrorIsMonotone(0.003489262576, NextError(UNMENDED));
    assert NextError(0.003489262576) >= 0.000003033154857337;
    NextErrorIsMonotone(0.000003033154857337, NextError(NextError(UNMENDED)));
  }

  /** `z` is a root of x with relative square error n. */
  predicate RootWith(x: real, z: real, n: real) { z > 0.0 && n >= 0.0 && z * z == x * (1.0 + n) }

  lemma OneError(x: real, y: real, d: real)
    requires x > 0.0 && RootWith(x, y, d)
    ensures RootWith(x, Newton(x, y), NextError(d))
  {
    NewtonMapsError(x, y, d);
    NextErrorIsMonotone(0.0, d);
  }

  lemma ThreeErrors(x: real, y0: real, d0: real, y1: real, d1: real, y2: real, d2: real, y: real, n: real)
    requires x > 0.0 && RootWith(x, y0, d0) && y1 == Newton(x, y0) && d1 == NextError(d0)
    requires y1 > 0.0 && d1 >= 0.0 && y2 == Newton(x, y1) && d2 == NextError(d1)
    requires y2 > 0.0 && d2 >= 0.0 && y == Newton(x, y2) && n == NextError(d2)
    ensures RootWith(x, y, n)
  {
    OneError(x, y0, d0);
    OneError(x, y1, d1);
    OneError(x, y2, d2);
  }

  lemma RootError(bits: nat, d0: real)
    requires 0 < bits < INFINITY_BITS && RootWith(Value(bits), Value(Guess(bits)), d0)
    ensures RootWith(Value(bits), Sqrtf(bits), ThirdError(d0))
  {
    var x, y0 := Value(bits), Value(Guess(bits));
    ValueIsPositive(bits);
    NewtonIsPositive(x, y0);
    var y1, d1 := Newton(x, y0), NextError(d0);
    NewtonIsPositive(x, y1);
    NextErrorIsMonotone(0.0, d0);
    var y2, d2 := Newton(x, y1), NextError(d1);
    NextErrorIsMonotone(0.0, d1);
    ThreeErrors(x, y0, d0, y1, d1, y2, d2, Sqrtf(bits), ThirdError(d0));
  }

  lemma NearIffSmall(x: real, y: real, n: real)
    requires x > 0.0 && RootWith(x, y, n)
    ensures NearRootOf(x, y) <==> n <= ROOT_SLACK
  {
    if n <= ROOT_SLACK {
      SmallError(x, y, n);
    } else {
      ScaleStrict(1.0 + ROOT_SLACK, 1.0 + n, x);
    }
  }

  /** Exactly which positive finite floats get an accurate root: all normal ones, and the
      subnormals from `ACCURATE_FROM` up. */
  lemma RootIsNearIff(bits: nat)
    requires 0 < bits < INFINITY_BITS
    ensures NearRootOf(Value(bits), Sqrtf(bits)) <==> bits >= ACCURATE_FROM
  {
    if Normal(bits) {
      RootIsNear(bits);
    } else {
      SubnormalRootIsNearIff(bits);
    }
  }

  lemma SubnormalRootIsNearIff(bits: nat)
    requires 0 < bits < MANTISSA
    ensures NearRootOf(Value(bits), Sqrtf(bits)) <==> bits >= ACCURATE_FROM
  {
    var d0 := SubnormalGuessError(bits);
    ValueIsPositive(bits);
    RootError(bits, d0);
    NearIffSmall(Value(bits), Sqrtf(bits), ThirdError(d0));
    if bits >= ACCURATE_FROM {
      ThirdErrorIsMonotone(d0, MENDED);
      MendedError();
    } else {
      ThirdErrorIsMonotone(UNMENDED, d0);
      UnmendedError();
    }
  }

  lemma SubnormalGuessError(bits: nat) returns (d0: real)
    requires 0 < bits < MANTISSA
    ensures RootWith(Value(bits), Value(Guess(bits)), d0)
    ensures if bits >= ACCURATE_FROM then d0 <= MENDED else UNMENDED <= d0
  {
    var x, y0, p := Value(bits), Value(Guess(bits)), Pow2(-64);
    ValueIsPositive(bits);
    GuessIsPositive(bits);
    SubnormalFields(bits, p);
    d0 := SubnormalError(bits, p, x, y0);
  }

  lemma SubnormalError(bits: nat, p: real, x: real, y0: real) returns (d0: real)
    requires 0 < bits < MANTISSA && p > 0.0 && x > 0.0 && y0 > 0.0
    requires x == Fraction(bits) * (4.0 * (p * p)) && y0 == (1.5 + Fraction(bits / 2)) * p
    ensures RootWith(x, y0, d0)
    ensures if bits >= ACCURATE_FROM then d0 <= MENDED else UNMENDED <= d0
  {
    var half, f := Fraction(bits / 2), Fraction(bits);
    d0 := GuessError(half, f, p, x, y0);
    SubnormalBounds(bits, half, f, d0);
  }

  lemma SubnormalBounds(bits: nat, half: real, f: real, d0: real)
    requires 0 < bits < MANTISSA && half == Fraction(bits / 2) && f == Fraction(bits) && Excess(half, f, d0) == 0.0
    ensures d0 >= 0.0 && if bits >= ACCURATE_FROM then d0 <= MENDED else UNMENDED <= d0
  {
    SubnormalExcess(bits);
    ExcessOrdersErrors(half, f, d0, 0.0);
    ExcessOrdersErrors(half, f, d0, if bits >= ACCURATE_FROM then MENDED else UNMENDED);
  }

  lemma GuessError(half: real, f: real, p: real, x: real, y0: real) returns (d0: real)
    requires p > 0.0 && x > 0.0 && x == f * (4.0 * (p * p)) && y0 == (1.5 + half) * p
    ensures y0 * y0 == x * (1.0 + d0) && Excess(half, f, d0) == 0.0
  {
    d0 := ErrorOfSquare(x, y0);
    ErrorFromExcess(half, f, p, x, y0, d0);
  }

  lemma ErrorOfSquare(x: real, y: real) returns (d: real)
    requires x > 0.0
    ensures y * y == x * (1.0 + d)
  {
    var square := y * y;
    d := square / x - 1.0;
    assert x * (1.0 + d) == square;
  }

  /** Below the normal range the shifted exponent is no guess at all: at the smallest
      subnormal the square of the result is more than ten thousand times the argument. */
  lemma SubnormalRootIsFarOff()
    ensures var x, y := Value(1), Sqrtf(1); y * y > 10000.0 * x
  {
    var x, y0, p := Value(1), Value(Guess(1)), Pow2(-64);
    ValueIsPositive(1);
    SubnormalFields(1, p);
    StepKeepsHalf(x, y0);
    StepKeepsHalf(x, Newton(x, y0));
    StepKeepsHalf(x, Newton(x, Newton(x, y0)));
    FarOff(x, Sqrtf(1), p);
  }
}
