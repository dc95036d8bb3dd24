/** Where the tilt correction leads: how fast the seen vertical closes in on the measured one, and
    what that means for an accelerometer that reads specific force. */
module Tilt {
  import opened Roots
  import opened Vectors
  import opened Rotation
  import opened Turning
  import opened Attitude

  // ---- how fast it aligns ----

  /** Share of 1 - cosine left by one sample of gain k, from a cosine of c. */
  function Residue(k: real, c: real): real { Mul(1.0 - k * (1.0 + c), 1.0 - k * (1.0 + c)) }

  function GainScale(k: real, c: real): real { 1.0 + k * k * (1.0 - c * c) }

  /** What is left of 1 - cosine and of 1 + cosine, exactly: the first shrinks and the second grows, so
      the measured direction attracts and its opposite repels. */
  lemma GainsExactly(k: real, c: real, d: real)
    requires Gains(k, c, d)
    ensures Mul(GainScale(k, c), 1.0 - d) == Mul(1.0 - c, Residue(k, c))
    ensures Mul(GainScale(k, c), 1.0 + d) == Mul(1.0 + c, Residue(-k, -c))
  {
    GainsToward(k, c, d);
    GainsMirrored(k, c, d);
    GainsToward(-k, -c, -d);
  }

  lemma GainsToward(k: real, c: real, d: real)
    requires Gains(k, c, d)
    ensures Mul(GainScale(k, c), 1.0 - d) == Mul(1.0 - c, Residue(k, c))
  {
    var s := 1.0 - c * c;
    ResidueOfGain(k, c, d, GainScale(k, c), s, 2.0 * k * s * (1.0 - k * c));
  }

  lemma GainsMirrored(k: real, c: real, d: real)
    ensures GainScale(-k, -c) == GainScale(k, c)
    ensures Gains(k, c, d) <==> Gains(-k, -c, -d)
  {
    var e, f, g := -k, -c, -d;
    assert f * f == c * c && e * e == k * k && e * f == k * c;
    var s := 1.0 - c * c;
    assert 2.0 * e * s * (1.0 - k * c) == -(2.0 * k * s * (1.0 - k * c));
    assert (1.0 + k * k * s) * (g - f) == -((1.0 + k * k * s) * (d - c));
  }

  lemma ResidueOfGain(k: real, c: real, d: real, n: real, s: real, g: real)
    requires s == 1.0 - c * c && n == 1.0 + k * k * s && g == 2.0 * k * s * (1.0 - k * c) && n * (d - c) == g
    ensures Mul(n, 1.0 - d) == Mul(1.0 - c, Residue(k, c))
  {
    assert Mul(n, 1.0 - d) == Mul(n, 1.0 - c) - g;
    ResiduePolynomial(k, c, n, s, g);
  }

  lemma ResiduePolynomial(k: real, c: real, n: real, s: real, g: real)
    requires s == 1.0 - c * c && n == 1.0 + k * k * s && g == 2.0 * k * s * (1.0 - k * c)
    ensures Mul(1.0 - c, Residue(k, c)) == Mul(n, 1.0 - c) - g
  {
  }

  lemma ResidueBound(k: real, c0: real, c: real)
    requires 0.0 < k < 0.25 && -1.0 <= c0 <= c <= 1.0
    ensures 0.0 <= Residue(k, c) <= Residue(k, c0) <= 1.0 && (Residue(k, c0) == 1.0 <==> c0 == -1.0)
  {
    var t0, t := 1.0 - k * (1.0 + c0), 1.0 - k * (1.0 + c);
    Scale(1.0 + c0, 1.0 + c, k);
    Scale(1.0 + c, 2.0, k);
    ProductSign(k, 1.0 + c0);
    ShareSquare(t, t0);
    ShareSquare(t0, 1.0);
    if t0 < 1.0 {
      SquareGrows(1.0, t0);
    }
  }

  lemma ShareSquare(a: real, b: real)
    requires 0.0 <= a <= b
    ensures 0.0 <= Mul(a, a) <= Mul(b, b)
  {
    Scale(a, b, a);
    Scale(a, b, b);
  }

  /** One sample leaves at most the residue's share of 1 - cosine, judged by any earlier cosine. */
  lemma SampleContracts(k: real, c0: real, c: real, d: real)
    requires 0.0 < k < 0.25 && -1.0 <= c0 <= c <= 1.0 && Gains(k, c, d) && d <= 1.0
    ensures 1.0 - d <= Mul(Residue(k, c0), 1.0 - c)
  {
    GainsExactly(k, c, d);
    ResidueBound(k, c0, c);
    SquareOfCosine(c);
    ProductSign(k * k, 1.0 - c * c);
    DividedShare(GainScale(k, c), 1.0 - d, 1.0 - c, Residue(k, c), Residue(k, c0));
  }

  lemma SquareOfCosine(c: real)
    requires -1.0 <= c <= 1.0
    ensures 1.0 - c * c >= 0.0
  {
    ProductSign(1.0 - c, 1.0 + c);
    assert (1.0 - c) * (1.0 + c) == 1.0 - c * c;
  }

  lemma DividedShare(n: real, x: real, y: real, r: real, r0: real)
    requires n >= 1.0 && x >= 0.0 && y >= 0.0 && r <= r0 && Mul(n, x) == Mul(y, r)
    ensures x <= Mul(r0, y)
  {
    Scale(1.0, n, x);
    Scale(r, r0, y);
  }

  /** What a run of samples leaves of 1 - cosine at most. */
  function Shrink(c: real, steps: seq<real>): real {
    if |steps| == 0 then 1.0 else Mul(Residue(TurnGain(steps[|steps| - 1]), c), Shrink(c, steps[..|steps| - 1]))
  }

  /** A cosine closes in on 1 over a run: it does not fall and 1 - cosine shrinks. */
  predicate Closes(c: real, d: real, steps: seq<real>) {
    -1.0 <= c <= d <= 1.0 && 1.0 - d <= Mul(Shrink(c, steps), 1.0 - c)
  }

  lemma {:induction false} RestContracts(root: real -> real, f: Filter, accel: Vec, steps: seq<real>)
    requires ExactRoot(root) && Unit(f.q) && Trusted(root, accel)
    requires forall i :: 0 <= i < |steps| ==> 0.0 < steps[i] < 1.0
    ensures var a, last := MeasuredDown(root, accel), RunFrom(root, f, Samples(accel, steps));
            Closes(Alignment(a, f.q), Alignment(a, last.q), steps)
  {
    var a := MeasuredDown(root, accel);
    var c := Alignment(a, f.q);
    MeasuredIsUnit(root, accel);
    AlignmentIsCosine(a, f.q);
    if |steps| > 0 {
      var rest, dt := steps[..|steps| - 1], steps[|steps| - 1];
      RestStep(root, f, accel, steps);
      RestContracts(root, f, accel, rest);
      RestAligns(root, f, accel, rest);
      var before := RunFrom(root, f, Samples(accel, rest));
      var b, d := Alignment(a, before.q), Alignment(a, Updated(root, before, Reading(ZERO, accel), dt).q);
      CorrectionAligns(root, before, accel, dt);
      GainRange(dt);
      ResidueBound(TurnGain(dt), c, c);
      SampleContracts(TurnGain(dt), c, b, d);
      SharesCompose(Residue(TurnGain(dt), c), Shrink(c, rest), 1.0 - c, 1.0 - b, 1.0 - d);
    }
  }

  lemma MeasuredIsUnit(root: real -> real, accel: Vec)
    requires ExactRoot(root) && Trusted(root, accel)
    ensures Dot(MeasuredDown(root, accel), MeasuredDown(root, accel)) == 1.0
  {
    UnitOver(accel, root(Dot(accel, accel)));
  }

  lemma GainRange(dt: real)
    requires 0.0 < dt < 1.0
    ensures 0.0 < TurnGain(dt) < 0.25
  {
  }

  lemma SharesCompose(r: real, share: real, x: real, y: real, z: real)
    requires r >= 0.0 && y <= Mul(share, x) && z <= Mul(r, y)
    ensures z <= Mul(Mul(r, share), x)
  {
    Scale(y, Mul(share, x), r);
    assert Mul(Mul(r, share), x) == Mul(share, x) * r;
  }

  /** What one sample takes away of 1 - cosine at least, and what a run of them adds up to. */
  function Taken(c: real, dt: real): real { 1.0 - Residue(TurnGain(dt), c) }

  function Effort(c: real, steps: seq<real>): real {
    if |steps| == 0 then 0.0 else Effort(c, steps[..|steps| - 1]) + Taken(c, steps[|steps| - 1])
  }

  lemma TakenRange(c: real, dt: real)
    requires -1.0 <= c <= 1.0 && 0.0 < dt < 1.0
    ensures 0.0 <= Taken(c, dt) <= 1.0 && (Taken(c, dt) == 0.0 <==> c == -1.0)
    ensures Residue(TurnGain(dt), c) == 1.0 - Taken(c, dt)
  {
    GainRange(dt);
    ResidueBound(TurnGain(dt), c, c);
  }

  /** A run leaves a share of at most 1 / (1 + effort). */
  lemma {:induction false} ShrinkFalls(c: real, steps: seq<real>)
    requires -1.0 <= c <= 1.0 && forall i :: 0 <= i < |steps| ==> 0.0 < steps[i] < 1.0
    ensures 0.0 <= Shrink(c, steps) && 0.0 <= Effort(c, steps)
    ensures Mul(Shrink(c, steps), 1.0 + Effort(c, steps)) <= 1.0
  {
    if |steps| > 0 {
      var rest, dt := steps[..|steps| - 1], steps[|steps| - 1];
      ShrinkFalls(c, rest);
      TakenRange(c, dt);
      ShareFalls(Taken(c, dt), Shrink(c, rest), Effort(c, rest));
    }
  }

  lemma ShareFalls(x: real, share: real, e: real)
    requires 0.0 <= x <= 1.0 && share >= 0.0 && e >= 0.0 && Mul(share, 1.0 + e) <= 1.0
    ensures 0.0 <= Mul(1.0 - x, share) && Mul(Mul(1.0 - x, share), 1.0 + (e + x)) <= 1.0
  {
    ProductSign(1.0 - x, share);
    ShareOfOne(x, e);
    Scale((1.0 - x) * (1.0 + (e + x)), 1.0 + e, share);
    assert Mul(Mul(1.0 - x, share), 1.0 + (e + x)) == (1.0 - x) * (1.0 + (e + x)) * share;
  }

  lemma ShareOfOne(x: real, e: real)
    requires 0.0 <= x <= 1.0 && e >= 0.0
    ensures (1.0 - x) * (1.0 + (e + x)) <= 1.0 + e
  {
    ProductSign(x, e);
    ProductSign(x, x);
    assert (1.0 - x) * (1.0 + (e + x)) == 1.0 + e - x * e - x * x;
  }

  /** Samples of at least tau take at least as much each as one of tau. */
  lemma {:induction false} EffortGrows(c: real, tau: real, steps: seq<real>)
    requires 0.0 < tau < 1.0 && -1.0 <= c <= 1.0 && forall i :: 0 <= i < |steps| ==> tau <= steps[i] < 1.0
    ensures Budget(|steps|, Taken(c, tau)) <= Effort(c, steps)
  {
    if |steps| > 0 {
      EffortGrows(c, tau, steps[..|steps| - 1]);
      LongerTakesMore(c, tau, steps[|steps| - 1]);
      OneMore(|steps| - 1, Taken(c, tau));
    }
  }

  function Budget(n: nat, x: real): real { n as real * x }

  lemma OneMore(n: nat, x: real)
    ensures Budget(n + 1, x) == Budget(n, x) + x
  {
    var m := n as real;
    assert (n + 1) as real == m + 1.0;
    assert (m + 1.0) * x == m * x + x;
  }

  lemma LongerTakesMore(c: real, tau: real, dt: real)
    requires 0.0 < tau <= dt < 1.0 && -1.0 <= c <= 1.0
    ensures Taken(c, tau) <= Taken(c, dt)
  {
    var k, h := TurnGain(tau), TurnGain(dt);
    GainRange(tau);
    GainRange(dt);
    Scale(k, h, 1.0 + c);
    Scale(1.0 + c, 2.0, h);
    ShareSquare(1.0 - h * (1.0 + c), 1.0 - k * (1.0 + c));
  }

  /** The settling time: from any start that is not dead opposite, enough samples of at least tau bring
      1 - cosine under any tolerance. */
  lemma RestSettles(root: real -> real, f: Filter, accel: Vec, steps: seq<real>, tau: real, tolerance: real)
    requires ExactRoot(root) && Unit(f.q) && Trusted(root, accel) && 0.0 < tau < 1.0 && tolerance > 0.0
    requires forall i :: 0 <= i < |steps| ==> tau <= steps[i] < 1.0
    ensures var a := MeasuredDown(root, accel);
            var c, d := Alignment(a, f.q), Alignment(a, RunFrom(root, f, Samples(accel, steps)).q);
            && (Taken(c, tau) > 0.0 <==> c != -1.0)
            && (Mul(Budget(|steps|, Taken(c, tau)), tolerance) >= 1.0 - c ==> 1.0 - d <= tolerance)
  {
    var a := MeasuredDown(root, accel);
    var c, d := Alignment(a, f.q), Alignment(a, RunFrom(root, f, Samples(accel, steps)).q);
    RestContracts(root, f, accel, steps);
    TakenRange(c, tau);
    SharesSettle(c, d, tau, steps, tolerance);
  }

  lemma SharesSettle(c: real, d: real, tau: real, steps: seq<real>, tolerance: real)
    requires 0.0 < tau < 1.0 && tolerance > 0.0 && forall i :: 0 <= i < |steps| ==> tau <= steps[i] < 1.0
    requires Closes(c, d, steps)
    ensures Mul(Budget(|steps|, Taken(c, tau)), tolerance) >= 1.0 - c ==> 1.0 - d <= tolerance
  {
    ShrinkFalls(c, steps);
    EffortGrows(c, tau, steps);
    ShareSettles(1.0 - d, 1.0 - c, Shrink(c, steps), Budget(|steps|, Taken(c, tau)), Effort(c, steps), tolerance);
  }

  lemma ShareSettles(z: real, x: real, share: real, least: real, m: real, tolerance: real)
    requires 0.0 <= z <= Mul(share, x) && x >= 0.0 && Mul(share, 1.0 + m) <= 1.0
    requires tolerance > 0.0 && m >= 0.0 && least <= m
    ensures Mul(least, tolerance) >= x ==> z <= tolerance
  {
    Scale(least, m, tolerance);
    Scale(z, Mul(share, x), 1.0 + m);
    Scale(Mul(share, 1.0 + m), 1.0, x);
    assert Mul(share, x) * (1.0 + m) == Mul(share, 1.0 + m) * x;
    assert z * (1.0 + m) <= x;
    if z > tolerance {
      ScaleStrict(tolerance, z, 1.0 + m);
      assert tolerance * (1.0 + m) == tolerance + m * tolerance;
      assert Mul(least, tolerance) < x;
    }
  }

  // ---- specific force ----

  /** What the plant's own accelerometer reads: thrust over mass, seen from the body. */
  function SpecificForce(q: Quat, thrust: Vec, mass: real): Vec {
    RotateInv(q, Times(1.0 / Max(mass, 0.000001), thrust))
  }

  /** A vertical thrust reads as a multiple of true down. */
  lemma VerticalForce(q: Quat, thrust: real, mass: real)
    ensures SpecificForce(q, Vec(0.0, 0.0, thrust), mass) == Times(thrust / Max(mass, 0.000001), SeenDown(q))
  {
    var m := Max(mass, 0.000001);
    assert (1.0 / m) * thrust == thrust / m;
    assert Times(1.0 / m, Vec(0.0, 0.0, thrust)) == Times(thrust / m, DOWN);
    RotateScales(Conj(q), thrust / m, DOWN);
    SeenDownIsRotated(q);
  }

  /** A force of s along v is trusted and measured as v or, when s is negative, as its opposite. */
  lemma MeasuredAlong(root: real -> real, v: Vec, s: real)
    requires ExactRoot(root) && Dot(v, v) == 1.0 && 1.0 < Abs(s) < 30.0
    ensures Trusted(root, Times(s, v)) && MeasuredDown(root, Times(s, v)) == if s > 0.0 then v else Neg(v)
  {
    var m := root(Dot(Times(s, v), Times(s, v)));
    DotTimes(s, v, Times(s, v));
    DotTimes(s, v, v);
    RootOfSquare(m, s);
    OverOwnSize(v, s);
  }

  lemma RootOfSquare(m: real, s: real)
    requires m >= 0.0 && m * m == Mul(s, Mul(s, 1.0))
    ensures m == Abs(s)
  {
    assert m * m == Abs(s) * Abs(s);
    SquareOrder(m, Abs(s));
    SquareOrder(Abs(s), m);
  }

  lemma OverOwnSize(v: Vec, s: real)
    requires s != 0.0
    ensures Over(Times(s, v), Abs(s)) == if s > 0.0 then v else Neg(v)
  {
    QuotientOfProduct(s, v.x);
    QuotientOfProduct(s, v.y);
    QuotientOfProduct(s, v.z);
  }

  lemma QuotientOfProduct(s: real, x: real)
    requires s != 0.0
    ensures (s * x) / Abs(s) == if s > 0.0 then x else -x
  {
    if s > 0.0 {
      ProductOver(s, x);
    } else {
      ProductOver(-s, -x);
      assert s * x == -s * -x;
    }
  }

  lemma ProductOver(k: real, y: real)
    requires k != 0.0
    ensures (k * y) / k == y
  {
  }

  lemma AlignmentNegates(v: Vec, q: Quat)
    ensures Alignment(Neg(v), q) == -Alignment(v, q)
  {
  }

  /** One update under a force of s along the unit direction v does not turn the seen vertical away
      from v if and only if the force points along v or the two are parallel already; so a filter fed
      with specific force, which points up while a vehicle is held up, turns away from down. */
  lemma ForceAlignsIff(root: real -> real, f: Filter, v: Vec, s: real, dt: real)
    requires ExactRoot(root) && Unit(f.q) && Dot(v, v) == 1.0 && 0.0 < dt < 1.0 && 1.0 < Abs(s) < 30.0
    ensures var next := Updated(root, f, Reading(ZERO, Times(s, v)), dt);
            Alignment(v, next.q) >= Alignment(v, f.q) <==> s > 0.0 || Parallel(Alignment(v, f.q))
  {
    MeasuredAlong(root, v, s);
    CorrectionRises(root, f, Times(s, v), dt);
    AlignmentNegates(v, f.q);
    AlignmentNegates(v, Updated(root, f, Reading(ZERO, Times(s, v)), dt).q);
  }

  /** The same over any run: the seen vertical closes in on v or, under a force against it, on the
      opposite of v. */
  lemma ForceRun(root: real -> real, f: Filter, v: Vec, s: real, steps: seq<real>)
    requires ExactRoot(root) && Unit(f.q) && Dot(v, v) == 1.0 && 1.0 < Abs(s) < 30.0
    requires forall i :: 0 <= i < |steps| ==> 0.0 < steps[i] < 1.0
    ensures var a, last := if s > 0.0 then v else Neg(v), RunFrom(root, f, Samples(Times(s, v), steps));
            Closes(Alignment(a, f.q), Alignment(a, last.q), steps)
  {
    MeasuredAlong(root, v, s);
    RestContracts(root, f, Times(s, v), steps);
  }

  lemma ForceRunTurns(root: real -> real, f: Filter, v: Vec, s: real, steps: seq<real>)
    requires ExactRoot(root) && Unit(f.q) && Dot(v, v) == 1.0 && 1.0 < Abs(s) < 30.0
    requires forall i :: 0 <= i < |steps| ==> 0.0 < steps[i] < 1.0
    ensures var c, d := Alignment(v, f.q), Alignment(v, RunFrom(root, f, Samples(Times(s, v), steps)).q);
            && (if s > 0.0 then c <= d else d <= c)
            && (c == d <==> |steps| == 0 || Parallel(c))
  {
    MeasuredAlong(root, v, s);
    RestAligns(root, f, Times(s, v), steps);
    AlignmentNegates(v, f.q);
    AlignmentNegates(v, RunFrom(root, f, Samples(Times(s, v), steps)).q);
  }

  /** A vehicle hovering at any attitude: the plant's accelerometer reads one gravity straight up, and
      the filter's seen vertical turns away from true down and closes in on up. */
  lemma HoverTurnsAway(root: real -> real, f: Filter, attitude: Quat, mass: real, g: real, steps: seq<real>)
    requires ExactRoot(root) && Unit(f.q) && Unit(attitude) && mass >= 0.000001 && 1.0 < g < 30.0
    requires forall i :: 0 <= i < |steps| ==> 0.0 < steps[i] < 1.0
    ensures var down, accel := SeenDown(attitude), SpecificForce(attitude, Vec(0.0, 0.0, -(mass * g)), mass);
            var last := RunFrom(root, f, Samples(accel, steps));
            && accel == Times(-g, down)
            && Alignment(down, last.q) <= Alignment(down, f.q)
            && (Alignment(down, last.q) == Alignment(down, f.q) <==> |steps| == 0 || Parallel(Alignment(down, f.q)))
            && Closes(Alignment(Neg(down), f.q), Alignment(Neg(down), last.q), steps)
  {
    VerticalForce(attitude, -(mass * g), mass);
    HoverForce(mass, g);
    SeenDownIsUnit(attitude);
    ForceRun(root, f, SeenDown(attitude), -g, steps);
    ForceRunTurns(root, f, SeenDown(attitude), -g, steps);
  }

  lemma HoverForce(mass: real, g: real)
    requires mass > 0.0
    ensures -(mass * g) / mass == -g
  {
  }

  // ---- a drone's own thrust ----

  /** A collective along the body's own up, in NED. */
  function BodyThrust(q: Quat, collective: real): Vec { Rotate(q, Vec(0.0, 0.0, -collective)) }

  /** The drone's thrust turns with it, so its accelerometer reads straight up the body whatever its
      attitude: by `ForceRun` its filter settles on down being at the top of the body. */
  lemma CollectiveReadsUp(attitude: Quat, collective: real, mass: real)
    requires Unit(attitude)
    ensures SpecificForce(attitude, BodyThrust(attitude, collective), mass)
         == Times(-(collective / Max(mass, 0.000001)), DOWN)
  {
    var m := Max(mass, 0.000001);
    var up := Vec(0.0, 0.0, -collective);
    RotateScales(Conj(attitude), 1.0 / m, BodyThrust(attitude, collective));
    RotateRoundTrip(attitude, up);
    assert (1.0 / m) * -collective == -(collective / m);
    assert Times(1.0 / m, up) == Times(-(collective / m), DOWN);
  }
}
