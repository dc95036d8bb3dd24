/** The complementary attitude filter: gyro integration, tilt correction from the
    accelerometer, renormalisation, and the warm-up that makes the result valid. */
module Attitude {
  import opened Clock
  import opened Roots
  import opened Vectors
  import opened Rotation
  import opened Turning

  const KP: real := 0.5
  const WARM_UP: nat := 8
  const DOWN: Vec := Vec(0.0, 0.0, 1.0)

  /** One inertial sample; a reading that is not finite carries no numbers. */
  datatype Reading = Unusable | Reading(gyro: Vec, accel: Vec)

  datatype Filter = Filter(q: Quat, samples: nat, valid: bool)

  const START: Filter := Filter(IDENTITY, 0, false)

  predicate Usable(r: Reading, dt: real) { 0.0 < dt < 1.0 && r.Reading? }

  /** Down as the current attitude sees it from the body. */
  function SeenDown(q: Quat): Vec {
    Vec(2.0 * (q.x * q.z - q.w * q.y), 2.0 * (q.w * q.x + q.y * q.z), q.w * q.w - q.x * q.x - q.y * q.y + q.z * q.z)
  }

  /** The correction is trusted only near one gravity. */
  predicate Trusted(root: real -> real, accel: Vec) { 1.0 < root(Dot(accel, accel)) < 30.0 }

  function MeasuredDown(root: real -> real, accel: Vec): Vec
    requires Trusted(root, accel)
  {
    Over(accel, root(Dot(accel, accel)))
  }

  /** Body rates after the tilt correction. */
  function CorrectedRate(root: real -> real, q: Quat, r: Reading): Vec
    requires r.Reading?
  {
    if !Trusted(root, r.accel) then r.gyro
    else Add(r.gyro, Times(KP, Cross(MeasuredDown(root, r.accel), SeenDown(q))))
  }

  function Normalized(root: real -> real, q: Quat): Quat {
    var n := root(Norm2(q));
    if n < 0.000000000001 then IDENTITY
    else
      var inv := 1.0 / n;
      Quat(q.w * inv, q.x * inv, q.y * inv, q.z * inv)
  }

  function Integrated(q: Quat, rate: Vec, dt: real): Quat { Nudged(q, QuatMul(q, Pure(rate)), 0.5 * dt) }

  function Updated(root: real -> real, f: Filter, r: Reading, dt: real): Filter {
    if !Usable(r, dt) then f.(valid := false)
    else
      var samples := SaturatingNext(f.samples);
      Filter(Normalized(root, Integrated(f.q, CorrectedRate(root, f.q, r), dt)), samples, samples >= WARM_UP)
  }

  class ComplementaryAttitude {
    var q: Quat
    var samples: nat
    var valid: bool
    const root: real -> real

    function State(): Filter
      reads this
    {
      Filter(q, samples, valid)
    }

    constructor (root: real -> real)
      ensures State() == START && this.root == root
    {
      this.root := root;
      q, samples, valid := IDENTITY, 0, false;
    }

    method Invalidate()
      modifies this
      ensures State() == old(State()).(valid := false)
    {
      valid := false;
    }

    method Update(r: Reading, dt: real) returns (ok: bool)
      modifies this
      ensures State() == Updated(root, old(State()), r, dt) && ok == valid
    {
      if !(0.0 < dt < 1.0) || r.Unusable? {
        valid := false;
        return false;
      }
      var g := r.gyro;
      var an := root(Dot(r.accel, r.accel));
      if 1.0 < an < 30.0 {
        var a := Over(r.accel, an);
        var v := SeenDown(q);
        g := Add(g, Times(KP, Cross(a, v)));
      }
      var half := 0.5 * dt;
      var next := Nudged(q, QuatMul(q, Pure(g)), half);
      q := Normalized(root, next);
      samples := if samples < U32_MAX then samples + 1 else samples;
      valid := samples >= WARM_UP;
      ok := valid;
    }
  }

  // ---- unit norm ----

  lemma NormalizedIsUnit(root: real -> real, q: Quat)
    requires ExactRoot(root)
    ensures Unit(Normalized(root, q))
  {
  }

  /** From a unit attitude the vector to be normalised is at least as long as a unit one. */
  lemma FallbackIsUnreachable(root: real -> real, f: Filter, r: Reading, dt: real)
    requires ExactRoot(root) && Unit(f.q) && Usable(r, dt)
    ensures root(Norm2(Integrated(f.q, CorrectedRate(root, f.q, r), dt))) >= 1.0
    ensures Norm2(Integrated(f.q, CorrectedRate(root, f.q, r), dt))
         == 1.0 + 0.5 * dt * (0.5 * dt) * Length2(CorrectedRate(root, f.q, r))
  {
    var rate := CorrectedRate(root, f.q, r);
    NudgeGrows(f.q, rate, 0.5 * dt);
    NudgeFromUnit(f.q, rate, 0.5 * dt);
    RootAboveOne(root, Norm2(Integrated(f.q, rate, dt)));
  }

  // ---- runs ----

  datatype Op = Invalidate | Update(r: Reading, dt: real)

  function Applied(root: real -> real, f: Filter, op: Op): Filter {
    match op
    case Invalidate => f.(valid := false)
    case Update(r, dt) => Updated(root, f, r, dt)
  }

  function RunFrom(root: real -> real, f: Filter, ops: seq<Op>): Filter {
    if |ops| == 0 then f else Applied(root, RunFrom(root, f, ops[..|ops| - 1]), ops[|ops| - 1])
  }

  predicate UsableUpdate(op: Op) { op.Update? && Usable(op.r, op.dt) }

  function UsableCount(ops: seq<Op>): nat {
    if |ops| == 0 then 0 else UsableCount(ops[..|ops| - 1]) + (if UsableUpdate(ops[|ops| - 1]) then 1 else 0)
  }

  /** After any run the attitude is a unit quaternion, and the filter is valid exactly when its
      last operation was a usable update and at least eight usable updates have been seen. */
  lemma {:induction false} RunIsUnitAndValidIff(root: real -> real, ops: seq<Op>)
    requires ExactRoot(root)
    ensures var f := RunFrom(root, START, ops);
            && Unit(f.q)
            && f.samples == Capped(UsableCount(ops))
            && (f.valid <==> |ops| > 0 && UsableUpdate(ops[|ops| - 1]) && UsableCount(ops) >= WARM_UP)
  {
    if |ops| > 0 {
      var before, op := RunFrom(root, START, ops[..|ops| - 1]), ops[|ops| - 1];
      RunIsUnitAndValidIff(root, ops[..|ops| - 1]);
      if UsableUpdate(op) {
        NormalizedIsUnit(root, Integrated(before.q, CorrectedRate(root, before.q, op.r), op.dt));
      }
    }
  }

  // ---- the gyro ----

  /** Body rates of a sample: the gyro, and half the cross product of measured and seen down while the
      accelerometer reads between 1 and 30 m/s^2. */
  lemma RateIs(root: real -> real, q: Quat, r: Reading)
    requires r.Reading?
    ensures var len := root(Dot(r.accel, r.accel));
            CorrectedRate(root, q, r)
              == if 1.0 < len < 30.0 then Add(r.gyro, Times(0.5, Cross(Over(r.accel, len), RotateInv(q, DOWN))))
                 else r.gyro
  {
    SeenDownIsRotated(q);
  }

  /** The gyro law, for any usable sample: every direction d fixed in the world, seen from the body,
      turns by exactly the rotation of half a step at the rates w of the sample - to
      ((1 - |u|^2) d - 2 u x d + 2 (u.d) u) / (1 + |u|^2) for u = w dt / 2. */
  lemma UpdateTurns(root: real -> real, f: Filter, r: Reading, dt: real, d: Vec)
    requires ExactRoot(root) && Unit(f.q) && Usable(r, dt)
    ensures var len := root(Dot(r.accel, r.accel));
            var w := if 1.0 < len < 30.0 then Add(r.gyro, Times(0.5, Cross(Over(r.accel, len), RotateInv(f.q, DOWN))))
                     else r.gyro;
            RotateInv(Updated(root, f, r, dt).q, d) == Turned(Times(0.5 * dt, w), RotateInv(f.q, d))
  {
    var w := CorrectedRate(root, f.q, r);
    var u := Times(0.5 * dt, w);
    var m := QuatMul(f.q, Join(1.0, u));
    RateIs(root, f.q, r);
    IntegratedIsProduct(f.q, w, 0.5 * dt);
    FallbackIsUnreachable(root, f, r, dt);
    NormalizedTurns(root, f.q, u, d);
  }

  lemma NormalizedTurns(root: real -> real, q: Quat, u: Vec, d: Vec)
    requires ExactRoot(root) && Unit(q) && root(Norm2(QuatMul(q, Join(1.0, u)))) >= 1.0
    ensures RotateInv(Normalized(root, QuatMul(q, Join(1.0, u))), d) == Turned(u, RotateInv(q, d))
  {
    var m := QuatMul(q, Join(1.0, u));
    var n := root(Norm2(m));
    var k := 1.0 / n;
    var kk := k * k;
    TurnShare(root, q, u, n, k, kk);
    assert Normalized(root, m) == QuatTimes(k, m);
    TurnNormalized(q, u, k, kk, 1.0 + Length2(u), d);
  }

  // ---- the tilt correction ----

  /** Cosine of the angle between measured and seen down. */
  function Alignment(a: Vec, q: Quat): real { Dot(a, SeenDown(q)) }

  lemma SeenDownIsRotated(q: Quat)
    ensures SeenDown(q) == RotateInv(q, DOWN)
  {
  }

  lemma SeenDownIsUnit(q: Quat)
    requires Unit(q)
    ensures Dot(SeenDown(q), SeenDown(q)) == 1.0
  {
  }

  lemma SeenDownOfProduct(q: Quat, p: Quat)
    ensures SeenDown(QuatMul(q, p)) == RotateInv(p, SeenDown(q))
  {
    SeenDownIsRotated(q);
    SeenDownIsRotated(QuatMul(q, p));
    InverseOfProduct(q, p, DOWN);
  }

  lemma SeenDownScales(q: Quat, k: real, kk: real)
    requires kk == k * k
    ensures SeenDown(QuatTimes(k, q)) == Times(kk, SeenDown(q))
  {
    SeenDownIsRotated(q);
    SeenDownIsRotated(QuatTimes(k, q));
    assert Conj(QuatTimes(k, q)) == QuatTimes(k, Conj(q));
    ScaledRotation(Conj(q), k, DOWN);
  }

  lemma SmallTurn(u: Vec, v: Vec)
    requires Dot(u, v) == 0.0
    ensures RotateInv(Join(1.0, u), v) == Sub(Times(1.0 - Length2(u), v), Times(2.0, Cross(u, v)))
  {
    TurnBack(u, v);
    AddNone(Sub(Times(1.0 - Length2(u), v), Times(2.0, Cross(u, v))), u, 2.0 * Dot(u, v));
  }

  lemma AddNone(a: Vec, u: Vec, k: real)
    requires k == 0.0
    ensures Add(a, Times(k, u)) == a
  {
  }

  lemma CosineIsBounded(a: Vec, v: Vec, c: real)
    requires Dot(a, a) == 1.0 && Dot(v, v) == 1.0 && c == Dot(a, v)
    ensures Length2(Cross(a, v)) == 1.0 - c * c >= 0.0 && -1.0 <= c <= 1.0
  {
    var l := Length2(Cross(a, v));
    CrossLength(a, v);
    DotSelf(Cross(a, v));
    assert l == 1.0 - c * c;
    UnitInterval(c);
  }

  lemma UnitInterval(c: real)
    requires c * c <= 1.0
    ensures -1.0 <= c <= 1.0
  {
    if c > 1.0 {
      SquareGrows(c, 1.0);
    } else if c < -1.0 {
      SquareGrows(-c, 1.0);
    }
  }

  lemma CrossIsPerpendicular(a: Vec, v: Vec)
    ensures Dot(Cross(a, v), v) == 0.0
  {
  }

  /** The double product (a x v) x v of unit vectors is the rejection of a from v, turned round. */
  lemma CrossOfCross(a: Vec, v: Vec, c: real)
    requires Dot(v, v) == 1.0 && c == Dot(a, v)
    ensures Cross(Cross(a, v), v) == Neg(Sub(Times(1.0, a), Times(c, v)))
  {
    CrossSigns(a, v);
    CrossSigns(Cross(v, a), v);
    DoubleCross(v, a);
    DotSymmetric(a, v);
  }

  /** Sine squared between two unit vectors. */
  lemma CrossOfUnits(a: Vec, v: Vec)
    requires Dot(a, a) == 1.0 && Dot(v, v) == 1.0
    ensures var c, e := Dot(a, v), Cross(a, v);
            && Length2(e) == 1.0 - c * c >= 0.0 && -1.0 <= c <= 1.0
            && Dot(e, v) == 0.0 && Dot(a, Cross(e, v)) == -Length2(e)
  {
    var c, e := Dot(a, v), Cross(a, v);
    CosineIsBounded(a, v, c);
    CrossIsPerpendicular(a, v);
    CrossOfCross(a, v, c);
    DotOfRejection(a, v, c);
  }

  lemma DotOfRejection(a: Vec, v: Vec, c: real)
    requires Dot(a, a) == 1.0 && Dot(a, v) == c
    ensures Dot(a, Neg(Sub(Times(1.0, a), Times(c, v)))) == -(1.0 - c * c)
  {
  }

  lemma LengthOfTimes(k: real, e: Vec)
    ensures Length2(Times(k, e)) == Mul(k, Mul(k, Length2(e)))
  {
  }

  function TurnedCosine(l: real, c: real, k: real, s: real): real { (1.0 - l) * c + 2.0 * k * s }

  /** Alignment after the turn 1 + k e and before normalising. */
  lemma TurnAligns(a: Vec, v: Vec, k: real)
    requires Dot(a, a) == 1.0 && Dot(v, v) == 1.0
    ensures var c, e := Dot(a, v), Cross(a, v);
            var l := Length2(Times(k, e));
            && l == Mul(k, Mul(k, Length2(e)))
            && Dot(a, RotateInv(Join(1.0, Times(k, e)), v)) == TurnedCosine(l, c, k, Length2(e))
  {
    var c, e := Dot(a, v), Cross(a, v);
    var u := Times(k, e);
    CrossOfUnits(a, v);
    LengthOfTimes(k, e);
    DotTimes(k, e, v);
    var l := Length2(u);
    SmallTurn(u, v);
    CrossTimes(k, e, v);
    TimesTwice(2.0, k, Cross(e, v));
    DotSub(Times(1.0 - l, v), Times(Mul(2.0, k), Cross(e, v)), a);
    DotTimes(1.0 - l, v, a);
    DotTimes(Mul(2.0, k), Cross(e, v), a);
    DotSymmetric(a, v);
    DotSymmetric(a, Cross(e, v));
    var w := Sub(Times(1.0 - l, v), Times(Mul(2.0, k), Cross(e, v)));
    DotSymmetric(a, w);
    TurnValue(l, c, k, Length2(e));
  }

  lemma TurnValue(l: real, c: real, k: real, s: real)
    ensures Mul(1.0 - l, c) - Mul(Mul(2.0, k), -s) == TurnedCosine(l, c, k, s)
  {
  }

  /** The correction gain per sample. */
  function TurnGain(dt: real): real { Mul(0.5 * dt, KP) }

  lemma NormalizedAlignment(root: real -> real, a: Vec, m: Quat, l: real)
    requires ExactRoot(root) && Norm2(m) == 1.0 + l && root(Norm2(m)) >= 1.0
    ensures Mul(1.0 + l, Alignment(a, Normalized(root, m))) == Alignment(a, m)
  {
    var n := root(Norm2(m));
    var k := 1.0 / n;
    var kk := k * k;
    assert Normalized(root, m) == QuatTimes(k, m);
    SeenDownScales(m, k, kk);
    DotTimes(kk, SeenDown(m), a);
    assert n * k == 1.0;
    assert (n * n) * kk == (n * k) * (n * k);
    DotSymmetric(a, Times(kk, SeenDown(m)));
    DotSymmetric(a, SeenDown(m));
    ScaleBack(1.0 + l, kk, Alignment(a, m));
  }

  lemma ScaleBack(n: real, k: real, x: real)
    requires n * k == 1.0
    ensures Mul(n, Mul(k, x)) == x
  {
  }

  /** Same or opposite directions, by their cosine. */
  predicate Parallel(c: real) { c == 1.0 || c == -1.0 }

  /** The cosine rises from c to d by 2 k s (1 - k c) / (1 + k^2 s), s the squared sine. */
  predicate Gains(k: real, c: real, d: real) {
    var s := 1.0 - c * c;
    (1.0 + k * k * s) * (d - c) == 2.0 * k * s * (1.0 - k * c)
  }

  predicate Rises(c: real, d: real) { -1.0 <= c <= d <= 1.0 && (c == d <==> Parallel(c)) }

  /** With a still gyro and a trusted accelerometer one update turns the seen vertical toward the
      measured one: the cosine between them never falls, rises by a known amount (k a quarter of
      dt), and stays only when the two are parallel. */
  lemma CorrectionAligns(root: real -> real, f: Filter, accel: Vec, dt: real)
    requires ExactRoot(root) && Unit(f.q) && 0.0 < dt < 1.0 && Trusted(root, accel)
    ensures var a := MeasuredDown(root, accel);
            var c, d := Alignment(a, f.q), Alignment(a, Updated(root, f, Reading(ZERO, accel), dt).q);
            Gains(TurnGain(dt), c, d) && Rises(c, d)
  {
    var a, v, h, k := MeasuredDown(root, accel), SeenDown(f.q), 0.5 * dt, TurnGain(dt);
    var e := Cross(a, v);
    UnitOver(accel, root(Dot(accel, accel)));
    SeenDownIsUnit(f.q);
    CrossOfUnits(a, v);
    var r := Reading(ZERO, accel);
    var rate := CorrectedRate(root, f.q, r);
    assert rate == Times(KP, e);
    var m := Integrated(f.q, rate, dt);
    IntegratedIsProduct(f.q, rate, h);
    TimesTwice(h, KP, e);
    var p := Join(1.0, Times(k, e));
    assert m == QuatMul(f.q, p);
    SeenDownOfProduct(f.q, p);
    TurnAligns(a, v, k);
    NormOfProduct(f.q, p);
    NormOfTurn(Times(k, e));
    FallbackIsUnreachable(root, f, r, dt);
    NormalizedAlignment(root, a, m, Length2(Times(k, e)));
    NormalizedIsUnit(root, m);
    AlignmentIsCosine(a, Normalized(root, m));
    GainIsPositive(k, Dot(a, v), Length2(e), Length2(Times(k, e)), Alignment(a, Normalized(root, m)));
  }

  lemma GainIsPositive(k: real, c: real, s: real, l: real, d: real)
    requires 0.0 < k < 1.0 && -1.0 <= c <= 1.0 && s == 1.0 - c * c && s >= 0.0 && l == Mul(k, Mul(k, s))
    requires Mul(1.0 + l, d) == TurnedCosine(l, c, k, s) && d <= 1.0
    ensures Gains(k, c, d) && Rises(c, d)
  {
    assert (1.0 + l) * (d - c) == 2.0 * k * s - 2.0 * (l * c);
    assert l * c == (k * s) * (k * c);
    assert k * c < 1.0 by { Scale(c, 1.0, k); }
    var g := 2.0 * k * s * (1.0 - k * c);
    assert (1.0 + l) * (d - c) == g;
    ProductSign(k, s);
    ProductSign(2.0 * k * s, 1.0 - k * c);
    ProductSign(k * k, s);
    SignOfGain(1.0 + l, c, d, g);
    SineVanishes(c);
  }

  lemma SignOfGain(n: real, c: real, d: real, g: real)
    requires n > 0.0 && n * (d - c) == g >= 0.0
    ensures c <= d && (c == d <==> g == 0.0)
  {
    ProductSign(n, c - d);
    ProductSign(n, d - c);
  }

  lemma SineVanishes(c: real)
    ensures 1.0 - c * c == 0.0 <==> Parallel(c)
  {
    if 1.0 - c != 0.0 && 1.0 + c != 0.0 {
      assert (1.0 - c) * (1.0 + c) == 1.0 - c * c;
    }
  }

  lemma AlignmentIsCosine(a: Vec, q: Quat)
    requires Dot(a, a) == 1.0 && Unit(q)
    ensures -1.0 <= Alignment(a, q) <= 1.0
  {
    SeenDownIsUnit(q);
    CosineIsBounded(a, SeenDown(q), Alignment(a, q));
  }

  lemma CorrectionRises(root: real -> real, f: Filter, accel: Vec, dt: real)
    requires ExactRoot(root) && Unit(f.q) && 0.0 < dt < 1.0 && Trusted(root, accel)
    ensures var a, next := MeasuredDown(root, accel), Updated(root, f, Reading(ZERO, accel), dt);
            Unit(next.q) && Rises(Alignment(a, f.q), Alignment(a, next.q))
  {
    CorrectionAligns(root, f, accel, dt);
    NormalizedIsUnit(root, Integrated(f.q, CorrectedRate(root, f.q, Reading(ZERO, accel)), dt));
  }

  function Samples(accel: Vec, steps: seq<real>): seq<Op> {
    seq(|steps|, i requires 0 <= i < |steps| => Update(Reading(ZERO, accel), steps[i]))
  }

  lemma RestStep(root: real -> real, f: Filter, accel: Vec, steps: seq<real>)
    requires |steps| > 0
    ensures var rest, dt := steps[..|steps| - 1], steps[|steps| - 1];
            RunFrom(root, f, Samples(accel, steps))
              == Updated(root, RunFrom(root, f, Samples(accel, rest)), Reading(ZERO, accel), dt)
  {
    var ops := Samples(accel, steps);
    assert ops[..|ops| - 1] == Samples(accel, steps[..|steps| - 1]);
  }

  /** A vehicle at rest: over any number of samples of one trusted reading the seen vertical only
      ever comes nearer to the measured one, and stays where it was only without samples or parallel. */
  lemma {:induction false} RestAligns(root: real -> real, f: Filter, accel: Vec, steps: seq<real>)
    requires ExactRoot(root) && Unit(f.q) && Trusted(root, accel)
    requires forall i :: 0 <= i < |steps| ==> 0.0 < steps[i] < 1.0
    ensures var a, last := MeasuredDown(root, accel), RunFrom(root, f, Samples(accel, steps));
            var c, d := Alignment(a, f.q), Alignment(a, last.q);
            Unit(last.q) && c <= d && (c == d <==> |steps| == 0 || Parallel(c))
  {
    if |steps| > 0 {
      var rest := steps[..|steps| - 1];
      RestStep(root, f, accel, steps);
      RestAligns(root, f, accel, rest);
      CorrectionRises(root, RunFrom(root, f, Samples(accel, rest)), accel, steps[|steps| - 1]);
    }
  }
}
