/** Coulomb friction at a sphere contact: one tangential impulse that slows the slip of the
    two surfaces and spins both bodies. */
module SphereFriction {
  import opened Roots
  import opened Vectors
  import opened SphereContact

  const MIN_INERTIA: real := 0.000000001

  datatype Spin = Spin(omega: Vec, inertia: real)

  datatype Friction = Friction(contact: Contact, a: Spin, b: Spin, tangentImpulse: real)

  /** A unit vector, or zero when v is too short to have a direction. */
  function Direction(root: real -> real, v: Vec): Vec {
    var m := root(Dot(v, v));
    if m < 0.000000001 then ZERO else Over(v, m)
  }

  function Inertia(s: Spin): real { Max(s.inertia, MIN_INERTIA) }

  function PointVelocity(v: Vec, omega: Vec, arm: Vec): Vec { Add(v, Cross(omega, arm)) }

  /** Velocity of B's surface past A's at the contact point. */
  function SlipVelocity(f: Friction, n: Vec): Vec {
    Sub(PointVelocity(f.contact.b.v, f.b.omega, Times(-Radius(f.contact.b), n)),
        PointVelocity(f.contact.a.v, f.a.omega, Times(Radius(f.contact.a), n)))
  }

  /** The part of u across the unit vector n. */
  function Across(u: Vec, n: Vec): Vec { Behind(u, Dot(u, n), n) }

  /** Speed gained per unit of impulse by a point at the end of an arm. */
  function Yield(inv: real, radius: real, inertia: real): real
    requires inertia > 0.0
  {
    inv + radius * radius / inertia
  }

  function Compliance(f: Friction): real {
    Yield(Inv(f.contact.a.m), Radius(f.contact.a), Inertia(f.a))
      + Yield(Inv(f.contact.b.m), Radius(f.contact.b), Inertia(f.b))
  }

  function SlipSpeed(root: real -> real, f: Friction, n: Vec): real {
    root(Dot(Across(SlipVelocity(f, n), n), Across(SlipVelocity(f, n), n)))
  }

  function ContactNormal(root: real -> real, f: Friction): Vec { Direction(root, Apart(f.contact)) }

  /** Whether any friction acts at all. */
  predicate Grips(root: real -> real, f: Friction, mu: real) {
    var n := ContactNormal(root, f);
    && mu >= 0.0 && f.contact.impulse > 0.000000001 && mu >= 0.00000001
    && Dot(n, n) >= 0.5
    && SlipSpeed(root, f, n) >= 0.00000001
    && Compliance(f) >= 0.000000000001
  }

  /** What the impulse j along t does to one body: a push and a torque about its centre. */
  function Pulled(body: Body, j: real, t: Vec): Body { body.(v := Ahead(body.v, Mul(j, Inv(body.m)), t)) }

  function Turned(s: Spin, arm: Vec, j: Vec): Spin { s.(omega := Add(s.omega, Over(Cross(arm, j), Inertia(s)))) }

  function Dragged(f: Friction, n: Vec, t: Vec, j: real): Friction {
    Friction(f.contact.(a := Pulled(f.contact.a, j, t), b := Pulled(f.contact.b, -j, t)),
             Turned(f.a, Times(Radius(f.contact.a), n), Times(j, t)),
             Turned(f.b, Times(-Radius(f.contact.b), n), Times(-j, t)),
             j)
  }

  function Impulse(slip: real, compliance: real, limit: real): real
    requires compliance > 0.0
  {
    Min(slip / compliance, limit)
  }

  function Tangent(root: real -> real, f: Friction, n: Vec): Vec
    requires SlipSpeed(root, f, n) != 0.0
  {
    Over(Across(SlipVelocity(f, n), n), SlipSpeed(root, f, n))
  }

  function Rubbed(root: real -> real, f: Friction, mu: real): Friction {
    if !Grips(root, f, mu) then f.(tangentImpulse := 0.0)
    else
      var n := ContactNormal(root, f);
      Dragged(f, n, Tangent(root, f, n), Impulse(SlipSpeed(root, f, n), Compliance(f), Mul(mu, f.contact.impulse)))
  }

  method ApplySphereFriction(root: real -> real, contact: Contact, spinA: Spin, spinB: Spin, mu: real)
    returns (out: Friction)
    ensures out == Rubbed(root, Friction(contact, spinA, spinB, 0.0), mu)
  {
    out := Friction(contact, spinA, spinB, 0.0);
    if !(mu >= 0.0) || contact.impulse <= 0.000000001 || mu < 0.00000001 {
      return;
    }
    var n := Direction(root, Sub(contact.b.p, contact.a.p));
    if Dot(n, n) < 0.5 {
      return;
    }
    var ra, rb := Radius(contact.a), Radius(contact.b);
    var armA, armB := Times(ra, n), Times(-rb, n);
    var relative := Sub(Add(contact.b.v, Cross(spinB.omega, armB)), Add(contact.a.v, Cross(spinA.omega, armA)));
    assert relative == SlipVelocity(out, n);
    var across := Across(relative, n);
    var slip := root(Dot(across, across));
    if slip < 0.00000001 {
      return;
    }
    var t := Over(across, slip);
    assert t == Tangent(root, out, n);
    var invA, invB := Inv(contact.a.m), Inv(contact.b.m);
    var ia, ib := Inertia(spinA), Inertia(spinB);
    var k := Yield(invA, ra, ia) + Yield(invB, rb, ib);
    if k < 0.000000000001 {
      return;
    }
    var j := Impulse(slip, k, Mul(mu, contact.impulse));
    out := out.(tangentImpulse := j);
    out := out.(contact := out.contact.(a := out.contact.a.(v := Ahead(contact.a.v, Mul(j, invA), t))));
    out := out.(contact := out.contact.(b := out.contact.b.(v := Ahead(contact.b.v, Mul(-j, invB), t))));
    out := out.(a := out.a.(omega := Add(spinA.omega, Over(Cross(armA, Times(j, t)), ia))));
    out := out.(b := out.b.(omega := Add(spinB.omega, Over(Cross(armB, Times(-j, t)), ib))));
  }

  // ---- Coulomb's cone ----

  lemma ImpulseInCone(slip: real, k: real, limit: real)
    requires slip >= 0.0 && k > 0.0 && limit >= 0.0
    ensures var j := Impulse(slip, k, limit); 0.0 <= j <= limit && Mul(j, k) <= slip
    ensures slip > 0.0 && limit > 0.0 ==> Impulse(slip, k, limit) > 0.0
  {
  }

  /** The friction impulse lies in Coulomb's cone, and is positive exactly when friction acts. */
  lemma FrictionInCone(root: real -> real, f: Friction, mu: real)
    requires ExactRoot(root)
    ensures var j := Rubbed(root, f, mu).tangentImpulse;
            && 0.0 <= j && (Grips(root, f, mu) <==> j > 0.0)
            && (f.contact.impulse >= 0.0 && mu >= 0.0 ==> j <= Mul(mu, f.contact.impulse))
  {
    if Grips(root, f, mu) {
      var slip, limit := SlipSpeed(root, f, ContactNormal(root, f)), Mul(mu, f.contact.impulse);
      ProductSign(mu, f.contact.impulse);
      ImpulseInCone(slip, Compliance(f), limit);
    } else if f.contact.impulse >= 0.0 && mu >= 0.0 {
      ProductSign(mu, f.contact.impulse);
    }
  }

  // ---- the frame of the contact ----

  predicate Frame(n: Vec, t: Vec) { Dot(n, n) == 1.0 && Dot(t, t) == 1.0 && Dot(n, t) == 0.0 }

  lemma DirectionIsUnit(root: real -> real, v: Vec)
    requires ExactRoot(root) && Dot(Direction(root, v), Direction(root, v)) >= 0.5
    ensures Dot(Direction(root, v), Direction(root, v)) == 1.0
    ensures root(Dot(v, v)) > 0.0 && v == Times(root(Dot(v, v)), Direction(root, v))
  {
    DotSelf(v);
    var m := root(Dot(v, v));
    if m >= 0.000000001 {
      UnitOver(v, m);
      OverIsTimes(v, m);
    }
  }

  lemma AcrossIsNormal(u: Vec, n: Vec)
    requires Dot(n, n) == 1.0
    ensures Dot(Across(u, n), n) == 0.0
    ensures Dot(Across(u, n), u) == Dot(Across(u, n), Across(u, n))
  {
  }

  /** The tangent is a unit vector across the normal, and the slip speed is its share of the slip. */
  lemma TangentIsUnit(u: Vec, n: Vec, slip: real)
    requires Dot(n, n) == 1.0 && slip > 0.0 && slip * slip == Dot(Across(u, n), Across(u, n))
    ensures Frame(n, Over(Across(u, n), slip)) && Dot(Over(Across(u, n), slip), u) == slip
  {
    var w := Across(u, n);
    var q := 1.0 / slip;
    UnitOver(w, slip);
    AcrossIsNormal(u, n);
    OverIsTimes(w, slip);
    DotTimes(q, w, u);
    DotTimes(q, w, n);
    DotSymmetric(n, Times(q, w));
    QuotientOfSquare(q, slip, Dot(w, u));
  }

  lemma QuotientOfSquare(q: real, slip: real, square: real)
    requires slip > 0.0 && q == 1.0 / slip && square == slip * slip
    ensures Mul(q, square) == slip
  {
  }

  lemma GripFrame(root: real -> real, f: Friction, mu: real)
    requires ExactRoot(root) && Grips(root, f, mu)
    ensures var n := ContactNormal(root, f);
            Frame(n, Tangent(root, f, n)) && Dot(Tangent(root, f, n), SlipVelocity(f, n)) == SlipSpeed(root, f, n)
  {
    var n := ContactNormal(root, f);
    DirectionIsUnit(root, Apart(f.contact));
    var w := Across(SlipVelocity(f, n), n);
    DotSelf(w);
    TangentIsUnit(SlipVelocity(f, n), n, SlipSpeed(root, f, n));
  }

  // ---- one body under one impulse ----

  /** Angular speed gained about n x t by an impulse at the end of an arm along n. */
  function Twist(j: real, radius: real, inertia: real): real
    requires inertia > 0.0
  {
    j * radius / inertia
  }

  lemma TorqueTurns(s: Spin, n: Vec, t: Vec, radius: real, j: real)
    ensures Turned(s, Times(radius, n), Times(j, t)).omega
         == Ahead(s.omega, Twist(j, radius, Inertia(s)), Cross(n, t))
  {
    var m, i := Cross(n, t), Inertia(s);
    CrossTimes(radius, n, Times(j, t));
    CrossTimes(j, n, t);
    var tau := Times(radius, Times(j, m));
    assert Cross(Times(radius, n), Times(j, t)) == tau;
    OverOfTimes(radius, j, i, m);
  }

  lemma OverOfTimes(radius: real, j: real, i: real, m: Vec)
    requires i > 0.0
    ensures Over(Times(radius, Times(j, m)), i) == Times(Twist(j, radius, i), m)
  {
    var o := Over(Times(radius, Times(j, m)), i);
    assert o.x == (radius * (j * m.x)) / i;
    OverOfTimesPart(radius, j, i, m.x);
    assert o.y == (radius * (j * m.y)) / i;
    OverOfTimesPart(radius, j, i, m.y);
    assert o.z == (radius * (j * m.z)) / i;
    OverOfTimesPart(radius, j, i, m.z);
  }

  lemma OverOfTimesPart(radius: real, j: real, i: real, x: real)
    requires i > 0.0
    ensures (radius * (j * x)) / i == Twist(j, radius, i) * x
  {
  }

  /** The struck point speeds up along t by j times the body's yield. */
  lemma PointSpeedsUp(v: Vec, omega: Vec, n: Vec, t: Vec, radius: real, j: real, inv: real, i: real)
    requires Frame(n, t) && i > 0.0
    ensures PointVelocity(Ahead(v, Mul(j, inv), t), Ahead(omega, Twist(j, radius, i), Cross(n, t)), Times(radius, n))
         == Ahead(PointVelocity(v, omega, Times(radius, n)), Mul(j, Yield(inv, radius, i)), t)
  {
    var m, arm, w := Cross(n, t), Times(radius, n), Twist(j, radius, i);
    CrossAdd(omega, Times(w, m), arm);
    CrossTimes(w, m, arm);
    CrossTimes(radius, m, n);
    DoubleCross(n, t);
    assert Cross(m, n) == t;
    assert Cross(Times(w, m), arm) == Times(w, Times(radius, t));
    var a, b := Mul(j, inv), Mul(w, radius);
    assert Mul(j, Yield(inv, radius, i)) == a + b by { YieldSplits(j, inv, radius, i); }
    TimesTwice(w, radius, t);
    SplitTimes(a, b, a + b, t);
    Regroup(v, Times(a, t), Cross(omega, arm), Times(b, t));
  }

  lemma YieldSplits(j: real, inv: real, radius: real, i: real)
    requires i > 0.0
    ensures Mul(j, Yield(inv, radius, i)) == Mul(j, inv) + Mul(Twist(j, radius, i), radius)
  {
  }

  lemma Regroup(a: Vec, b: Vec, c: Vec, d: Vec)
    ensures Add(Add(a, b), Add(c, d)) == Add(Add(a, c), Add(b, d))
  {
  }

  // ---- what friction does to the pair ----

  lemma DragSlowsSlip(f: Friction, n: Vec, t: Vec, j: real)
    requires Frame(n, t)
    ensures SlipVelocity(Dragged(f, n, t, j), n) == Behind(SlipVelocity(f, n), Mul(j, Compliance(f)), t)
  {
    var a, b := f.contact.a, f.contact.b;
    var ra, rb := Radius(a), Radius(b);
    TorqueTurns(f.a, n, t, ra, j);
    TorqueTurns(f.b, n, t, -rb, -j);
    PointSpeedsUp(a.v, f.a.omega, n, t, ra, j, Inv(a.m), Inertia(f.a));
    PointSpeedsUp(b.v, f.b.omega, n, t, -rb, -j, Inv(b.m), Inertia(f.b));
    var ua, ub := PointVelocity(a.v, f.a.omega, Times(ra, n)), PointVelocity(b.v, f.b.omega, Times(-rb, n));
    var ya, yb := Yield(Inv(a.m), ra, Inertia(f.a)), Yield(Inv(b.m), rb, Inertia(f.b));
    YieldIsEven(Inv(b.m), rb, Inertia(f.b));
    SlipChange(ua, ub, j, ya, yb, t);
  }

  lemma YieldIsEven(inv: real, radius: real, i: real)
    requires i > 0.0
    ensures Yield(inv, -radius, i) == Yield(inv, radius, i)
  {
  }

  lemma SlipChange(ua: Vec, ub: Vec, j: real, ya: real, yb: real, t: Vec)
    ensures Sub(Ahead(ub, Mul(-j, yb), t), Ahead(ua, Mul(j, ya), t)) == Behind(Sub(ub, ua), Mul(j, ya + yb), t)
  {
  }

  lemma AcrossOfShift(u: Vec, n: Vec, t: Vec, k: real)
    requires Frame(n, t)
    ensures Across(Behind(u, k, t), n) == Behind(Across(u, n), k, t)
  {
    DotSub(u, Times(k, t), n);
    DotTimes(k, t, n);
    DotSymmetric(n, t);
  }

  lemma SlowedTangent(w: Vec, slip: real, k: real)
    requires slip > 0.0
    ensures Behind(w, k, Over(w, slip)) == Times(slip - k, Over(w, slip))
  {
    OverIsTimes(w, slip);
    var t := Over(w, slip);
    SplitTimes(slip - k, k, slip, t);
  }

  /** Friction slows the slip along its own direction and never reverses it: the tangential
      velocity keeps its direction, and its speed falls by j times the compliance, to 0 at least. */
  lemma FrictionSlowsSlip(root: real -> real, f: Friction, mu: real)
    requires ExactRoot(root) && Grips(root, f, mu)
    ensures var n, after := ContactNormal(root, f), Rubbed(root, f, mu);
            var left := SlipSpeed(root, f, n) - Mul(after.tangentImpulse, Compliance(f));
            0.0 <= left && Across(SlipVelocity(after, n), n) == Times(left, Tangent(root, f, n))
  {
    var n, j := ContactNormal(root, f), Rubbed(root, f, mu).tangentImpulse;
    var t, slip := Tangent(root, f, n), SlipSpeed(root, f, n);
    ProductSign(mu, f.contact.impulse);
    ImpulseInCone(slip, Compliance(f), Mul(mu, f.contact.impulse));
    GripFrame(root, f, mu);
    DragSlowsSlip(f, n, t, j);
    AcrossOfShift(SlipVelocity(f, n), n, t, Mul(j, Compliance(f)));
    SlowedTangent(Across(SlipVelocity(f, n), n), slip, Mul(j, Compliance(f)));
  }

  lemma UnitMultipleVanishes(k: real, c: Vec)
    requires Dot(c, c) == 1.0
    ensures Times(k, c) == ZERO <==> k == 0.0
  {
    if k == 0.0 {
      assert Times(k, c) == ZERO;
    } else {
      AddSomething(ZERO, k, c);
      assert Add(ZERO, ZERO) == ZERO;
    }
  }

  /** The impulse is the one that stops the slip while Coulomb's limit allows it, else the limit itself. */
  lemma ImpulseIsFull(slip: real, k: real, limit: real)
    requires k > 0.0
    ensures var j := Impulse(slip, k, limit);
            if slip <= Mul(limit, k) then Mul(j, k) == slip else j == limit && Mul(j, k) < slip
  {
    var stop := slip / k;
    assert stop * k == slip;
    if stop > limit {
      ScaleStrict(limit, stop, k);
    } else {
      Scale(stop, limit, k);
    }
  }

  /** Stick or slide, for all masses and inertias: friction that grips stops the slip altogether if and
      only if Coulomb's limit reaches that far, and otherwise pulls with the whole of the limit. */
  lemma StickOrSlide(root: real -> real, f: Friction, mu: real)
    requires ExactRoot(root) && Grips(root, f, mu)
    ensures var n, after := ContactNormal(root, f), Rubbed(root, f, mu);
            var limit := Mul(mu, f.contact.impulse);
            && (Across(SlipVelocity(after, n), n) == ZERO <==> SlipSpeed(root, f, n) <= Mul(limit, Compliance(f)))
            && (Across(SlipVelocity(after, n), n) != ZERO ==> after.tangentImpulse == limit)
  {
    var n, after := ContactNormal(root, f), Rubbed(root, f, mu);
    var slip, k := SlipSpeed(root, f, n), Compliance(f);
    ImpulseIsFull(slip, k, Mul(mu, f.contact.impulse));
    FrictionSlowsSlip(root, f, mu);
    GripFrame(root, f, mu);
    UnitMultipleVanishes(slip - Mul(after.tangentImpulse, k), Tangent(root, f, n));
  }

  // ---- conservation ----

  lemma AheadIsBehind(u: Vec, k: real, t: Vec)
    ensures Ahead(u, k, t) == Behind(u, -k, t)
  {
  }

  /** What part of an impulse becomes momentum of a body: all of it, or nothing. */
  function Answer(m: real): real { Mul(m, Inv(m)) }

  lemma AnswerIs(m: real)
    ensures Answer(m) == if m > MOVABLE_MASS then 1.0 else 0.0
  {
    InvCancels(m);
  }

  lemma AnswerTakes(m: real, j: real)
    ensures Mul(m, Mul(j, Inv(m))) == Mul(j, Answer(m))
  {
  }

  /** Momentum is kept if and only if nothing grips, or both bodies or neither can be pushed. */
  lemma FrictionMomentumIff(root: real -> real, f: Friction, mu: real)
    requires ExactRoot(root)
    ensures Momentum(Rubbed(root, f, mu).contact) == Momentum(f.contact)
       <==> !Grips(root, f, mu) || Movable(f.contact.a) == Movable(f.contact.b)
  {
    if Grips(root, f, mu) {
      var n, j := ContactNormal(root, f), Rubbed(root, f, mu).tangentImpulse;
      var t, a, b := Tangent(root, f, n), f.contact.a, f.contact.b;
      FrictionInCone(root, f, mu);
      GripFrame(root, f, mu);
      DragMomentum(f, n, t, j);
      AnswerIs(a.m);
      AnswerIs(b.m);
      var share := Answer(a.m) - Answer(b.m);
      ProductNonzero(j, share);
      if share == 0.0 {
        AddNothing(Momentum(f.contact), t);
      } else {
        AddSomething(Momentum(f.contact), Mul(j, share), t);
      }
    }
  }

  lemma DragMomentum(f: Friction, n: Vec, t: Vec, j: real)
    ensures Momentum(Dragged(f, n, t, j).contact)
         == Add(Momentum(f.contact), Times(Mul(j, Answer(f.contact.a.m) - Answer(f.contact.b.m)), t))
  {
    var a, b := f.contact.a, f.contact.b;
    var ka, kb := Mul(j, Inv(a.m)), Mul(-j, Inv(b.m));
    AnswerTakes(a.m, j);
    AnswerTakes(b.m, -j);
    AheadIsBehind(a.v, ka, t);
    var k := Mul(j, Answer(a.m) - Answer(b.m));
    assert k == Mul(j, Answer(a.m)) + Mul(-j, Answer(b.m));
    assert b.m * kb - a.m * -ka == Mul(a.m, ka) + Mul(b.m, kb);
    WeightedShift(a.m, b.m, -ka, kb, k, t, a.v, b.v);
  }

  // ---- energy ----

  function TotalEnergy(f: Friction): real {
    KineticEnergy(f.contact) + BodyEnergy(f.a.inertia, f.a.omega) + BodyEnergy(f.b.inertia, f.b.omega)
  }

  /** Share of the spin the code gives that the body's own inertia is worth; less than 1 only below the floor. */
  function Load(s: Spin): real { s.inertia / Inertia(s) }

  lemma LoadIsOne(s: Spin)
    requires s.inertia >= MIN_INERTIA
    ensures Load(s) == 1.0
  {
    WholeShare(s.inertia);
  }

  lemma WholeShare(x: real)
    requires x > 0.0
    ensures x / x == 1.0
  {
  }

  /** Work one impulse does on one body: on its motion as far as it answers, and on its spin. */
  function Work(body: Body, s: Spin, n: Vec, t: Vec, radius: real, j: real): real {
    Mul(Answer(body.m), Mul(j, Dot(body.v, t)) + 0.5 * Mul(j, Mul(j, Inv(body.m))))
    + Mul(Load(s), Mul(j, Dot(Cross(s.omega, Times(radius, n)), t))
                   + 0.5 * Mul(j, Mul(Twist(j, radius, Inertia(s)), radius)))
  }

  lemma PullWork(body: Body, s: Spin, n: Vec, t: Vec, radius: real, j: real)
    requires Frame(n, t)
    ensures BodyEnergy(body.m, Pulled(body, j, t).v)
         + BodyEnergy(s.inertia, Turned(s, Times(radius, n), Times(j, t)).omega)
         == BodyEnergy(body.m, body.v) + BodyEnergy(s.inertia, s.omega) + Work(body, s, n, t, radius, j)
  {
    var c, w, i := Cross(n, t), Twist(j, radius, Inertia(s)), Inertia(s);
    CrossLength(n, t);
    assert Dot(c, c) == 1.0;
    LinearEnergy(body.m, body.v, j, t);
    TorqueTurns(s, n, t, radius, j);
    SpinEnergy(s.inertia, s.omega, w, c);
    TwistWork(s.omega, n, t, radius, j, i);
    LoadTakes(s.inertia, i, w, Dot(s.omega, c));
    LoadTakes(s.inertia, i, w, w);
    LoadAdds(Load(s), Mul(Mul(i, w), Dot(s.omega, c)), Mul(Mul(i, w), w));
  }

  lemma LoadTakes(inertia: real, i: real, w: real, x: real)
    requires i > 0.0
    ensures Mul(Mul(inertia, w), x) == Mul(inertia / i, Mul(Mul(i, w), x))
  {
    var load := inertia / i;
    assert inertia == load * i;
    assert Mul(inertia, w) == Mul(load, Mul(i, w));
    MulTwice(load, Mul(i, w), x);
  }

  lemma LoadAdds(load: real, a: real, b: real)
    ensures Mul(load, a + 0.5 * b) == Mul(load, a) + 0.5 * Mul(load, b)
  {
  }

  lemma FrictionWork(root: real -> real, f: Friction, mu: real)
    requires ExactRoot(root) && Grips(root, f, mu)
    ensures var n, after := ContactNormal(root, f), Rubbed(root, f, mu);
            var t, j := Tangent(root, f, n), after.tangentImpulse;
            TotalEnergy(after) == TotalEnergy(f) + Work(f.contact.a, f.a, n, t, Radius(f.contact.a), j)
                                  + Work(f.contact.b, f.b, n, t, -Radius(f.contact.b), -j)
  {
    var n := ContactNormal(root, f);
    GripFrame(root, f, mu);
    DragWork(f, n, Tangent(root, f, n), Rubbed(root, f, mu).tangentImpulse);
  }

  lemma DragWork(f: Friction, n: Vec, t: Vec, j: real)
    requires Frame(n, t)
    ensures TotalEnergy(Dragged(f, n, t, j)) == TotalEnergy(f) + Work(f.contact.a, f.a, n, t, Radius(f.contact.a), j)
                                                + Work(f.contact.b, f.b, n, t, -Radius(f.contact.b), -j)
  {
    PullWork(f.contact.a, f.a, n, t, Radius(f.contact.a), j);
    PullWork(f.contact.b, f.b, n, t, -Radius(f.contact.b), -j);
  }

  /** On a movable body of proper inertia it is work at the struck point plus half the square times the yield. */
  lemma WorkOnPoint(body: Body, s: Spin, n: Vec, t: Vec, radius: real, j: real)
    requires Movable(body) && s.inertia >= MIN_INERTIA
    ensures Work(body, s, n, t, radius, j)
         == Mul(j, Dot(PointVelocity(body.v, s.omega, Times(radius, n)), t))
            + 0.5 * Mul(j, Mul(j, Yield(Inv(body.m), radius, Inertia(s))))
  {
    var arm, i := Times(radius, n), Inertia(s);
    AnswerIs(body.m);
    LoadIsOne(s);
    DotAdd(body.v, Cross(s.omega, arm), t);
    YieldSplits(j, Inv(body.m), radius, i);
    WorkAdds(j, Dot(body.v, t), Dot(Cross(s.omega, arm), t), Mul(j, Inv(body.m)), Mul(Twist(j, radius, i), radius));
  }

  lemma WorkAdds(j: real, a: real, b: real, c: real, d: real)
    ensures Mul(j, a + b) == Mul(j, a) + Mul(j, b) && Mul(j, c + d) == Mul(j, c) + Mul(j, d)
  {
  }

  lemma LinearEnergy(m: real, v: Vec, j: real, t: Vec)
    requires Dot(t, t) == 1.0
    ensures BodyEnergy(m, Ahead(v, Mul(j, Inv(m)), t))
         == BodyEnergy(m, v) + Mul(Answer(m), Mul(j, Dot(v, t)) + 0.5 * Mul(j, Mul(j, Inv(m))))
  {
    ShiftedSquare(v, Mul(j, Inv(m)), t);
    LinearEnergyPart(m, j, Inv(m), Dot(v, v), Dot(v, t));
  }

  lemma LinearEnergyPart(m: real, j: real, inv: real, vv: real, vt: real)
    ensures 0.5 * (m * (vv + 2.0 * Mul(j, inv) * vt + Mul(j, inv) * Mul(j, inv)))
         == 0.5 * (m * vv) + Mul(Mul(m, inv), Mul(j, vt) + 0.5 * Mul(j, Mul(j, inv)))
  {
  }

  lemma SpinEnergy(i: real, omega: Vec, w: real, c: Vec)
    requires Dot(c, c) == 1.0
    ensures BodyEnergy(i, Ahead(omega, w, c))
         == BodyEnergy(i, omega) + Mul(Mul(i, w), Dot(omega, c)) + 0.5 * Mul(Mul(i, w), w)
  {
    ShiftedSquare(omega, w, c);
    SpinEnergyPart(i, w, Dot(omega, omega), Dot(omega, c));
  }

  lemma SpinEnergyPart(i: real, w: real, oo: real, oc: real)
    ensures 0.5 * (i * (oo + 2.0 * w * oc + w * w)) == 0.5 * (i * oo) + Mul(Mul(i, w), oc) + 0.5 * Mul(Mul(i, w), w)
  {
  }

  lemma TwistWork(omega: Vec, n: Vec, t: Vec, radius: real, j: real, i: real)
    requires i > 0.0
    ensures var w := Twist(j, radius, i);
            && Mul(Mul(i, w), Dot(omega, Cross(n, t))) == Mul(j, Dot(Cross(omega, Times(radius, n)), t))
            && Mul(Mul(i, w), w) == Mul(j, Mul(w, radius))
  {
    var w, x := Twist(j, radius, i), Dot(omega, Cross(n, t));
    assert Mul(i, w) == Mul(j, radius);
    TripleProduct(omega, n, t);
    DotSymmetric(t, Cross(omega, n));
    CrossTimes(radius, omega, n);
    DotTimes(radius, Cross(omega, n), t);
    assert Dot(Cross(omega, Times(radius, n)), t) == Mul(radius, x);
    MulTwice(j, radius, x);
    MulTwice(j, radius, w);
    assert Mul(w, radius) == Mul(radius, w);
  }

  lemma MulTwice(a: real, b: real, c: real)
    ensures Mul(Mul(a, b), c) == Mul(a, Mul(b, c))
  {
  }

  /** Two pulls of opposite sign: the work is done on the slip and the self-energy on the compliance. */
  lemma DragEnergy(f: Friction, n: Vec, t: Vec, j: real)
    requires Frame(n, t) && Movable(f.contact.a) && Movable(f.contact.b)
    requires f.a.inertia >= MIN_INERTIA && f.b.inertia >= MIN_INERTIA
    ensures TotalEnergy(Dragged(f, n, t, j))
         == TotalEnergy(f) - Mul(j, Dot(SlipVelocity(f, n), t)) + 0.5 * Mul(j, Mul(j, Compliance(f)))
  {
    var a, b := f.contact.a, f.contact.b;
    var ra, rb := Radius(a), Radius(b);
    DragWork(f, n, t, j);
    WorkOnPoint(a, f.a, n, t, ra, j);
    WorkOnPoint(b, f.b, n, t, -rb, -j);
    var ua, ub := PointVelocity(a.v, f.a.omega, Times(ra, n)), PointVelocity(b.v, f.b.omega, Times(-rb, n));
    DotSub(ub, ua, t);
    var ya, yb := Yield(Inv(a.m), ra, Inertia(f.a)), Yield(Inv(b.m), rb, Inertia(f.b));
    YieldIsEven(Inv(b.m), rb, Inertia(f.b));
    OppositeWork(j, Dot(ua, t), Dot(ub, t), ya, yb);
  }

  lemma OppositeWork(j: real, ua: real, ub: real, ya: real, yb: real)
    ensures Mul(j, ua) + 0.5 * Mul(j, Mul(j, ya)) + Mul(-j, ub) + 0.5 * Mul(-j, Mul(-j, yb))
         == -Mul(j, ub - ua) + 0.5 * Mul(j, Mul(j, ya + yb))
  {
  }

  lemma EnergyLostToSlip(slip: real, j: real, k: real)
    requires 0.0 <= j && Mul(j, k) <= slip
    ensures Mul(j, slip) - 0.5 * Mul(j, Mul(j, k)) >= 0.5 * Mul(j, slip)
  {
  }

  /** Bodies the arithmetic takes as they are: both can be pushed and neither inertia is raised. */
  predicate Proper(f: Friction) {
    Movable(f.contact.a) && Movable(f.contact.b) && f.a.inertia >= MIN_INERTIA && f.b.inertia >= MIN_INERTIA
  }

  lemma ProperLoss(root: real -> real, f: Friction, mu: real)
    requires ExactRoot(root) && Grips(root, f, mu) && Proper(f)
    ensures var after, slip := Rubbed(root, f, mu), SlipSpeed(root, f, ContactNormal(root, f));
            var j := after.tangentImpulse;
            && TotalEnergy(f) - TotalEnergy(after) == Mul(j, slip) - 0.5 * Mul(j, Mul(j, Compliance(f)))
            && TotalEnergy(f) - TotalEnergy(after) >= 0.5 * Mul(j, slip) > 0.0
  {
    var n, j := ContactNormal(root, f), Rubbed(root, f, mu).tangentImpulse;
    var t, slip := Tangent(root, f, n), SlipSpeed(root, f, n);
    GripFrame(root, f, mu);
    ProductSign(mu, f.contact.impulse);
    ImpulseInCone(slip, Compliance(f), Mul(mu, f.contact.impulse));
    DragEnergy(f, n, t, j);
    DotSymmetric(t, SlipVelocity(f, n));
    EnergyLostToSlip(slip, j, Compliance(f));
    ProductSign(j, slip);
  }

  /** For all masses and inertias: friction changes linear and spin energy by exactly the work of its two
      opposite impulses; between proper bodies that turns j*slip - j^2*k/2 into heat, at least half of j*slip. */
  lemma FrictionLosesEnergy(root: real -> real, f: Friction, mu: real)
    requires ExactRoot(root)
    ensures var n, after := ContactNormal(root, f), Rubbed(root, f, mu);
            var j := after.tangentImpulse;
            if !Grips(root, f, mu) then TotalEnergy(after) == TotalEnergy(f)
            else
              var t, slip := Tangent(root, f, n), SlipSpeed(root, f, n);
              && TotalEnergy(after) == TotalEnergy(f) + Work(f.contact.a, f.a, n, t, Radius(f.contact.a), j)
                                       + Work(f.contact.b, f.b, n, t, -Radius(f.contact.b), -j)
              && (Proper(f) ==>
                    && TotalEnergy(f) - TotalEnergy(after) == Mul(j, slip) - 0.5 * Mul(j, Mul(j, Compliance(f)))
                    && TotalEnergy(f) - TotalEnergy(after) >= 0.5 * Mul(j, slip) > 0.0)
  {
    if Grips(root, f, mu) {
      FrictionWork(root, f, mu);
      if Proper(f) {
        ProperLoss(root, f, mu);
      }
    }
  }

  // ---- angular momentum ----

  function BodyMoment(body: Body, s: Spin): Vec {
    Add(Cross(body.p, Times(body.m, body.v)), Times(s.inertia, s.omega))
  }

  function AngularMomentum(f: Friction): Vec {
    Add(BodyMoment(f.contact.a, f.a), BodyMoment(f.contact.b, f.b))
  }

  /** Moment about the origin that one body takes from a unit impulse along t at the end of its arm. */
  function Lever(body: Body, s: Spin, n: Vec, t: Vec, radius: real): Vec {
    Add(Times(Answer(body.m), Cross(body.p, t)), Times(Mul(Load(s), radius), Cross(n, t)))
  }

  lemma PullMoment(body: Body, s: Spin, n: Vec, t: Vec, radius: real, j: real)
    ensures BodyMoment(Pulled(body, j, t), Turned(s, Times(radius, n), Times(j, t)))
         == Add(BodyMoment(body, s), Times(j, Lever(body, s, n, t, radius)))
  {
    var m, i, c, p := body.m, s.inertia, Cross(n, t), Cross(body.p, t);
    var k, w := Mul(j, Answer(m)), Mul(j, Mul(Load(s), radius));
    TorqueTurns(s, n, t, radius, j);
    AnswerTakes(m, j);
    TimesAhead(m, body.v, Mul(j, Inv(m)), t);
    CrossAdd(Times(m, body.v), Times(k, t), body.p);
    CrossTimes(k, body.p, t);
    TimesAhead(i, s.omega, Twist(j, radius, Inertia(s)), c);
    LoadTurns(i, Inertia(s), j, radius);
    TimesTwice(j, Answer(m), p);
    TimesTwice(j, Mul(Load(s), radius), c);
    TimesAdd(j, Times(Answer(m), p), Times(Mul(Load(s), radius), c));
    Regroup(Cross(body.p, Times(m, body.v)), Times(k, p), Times(i, s.omega), Times(w, c));
  }

  lemma LoadTurns(inertia: real, i: real, j: real, radius: real)
    requires i > 0.0
    ensures Mul(inertia, Twist(j, radius, i)) == Mul(j, Mul(inertia / i, radius))
  {
    var w := Twist(j, radius, i);
    assert Mul(i, w) == Mul(j, radius);
    var load := inertia / i;
    assert inertia == load * i;
    assert Mul(inertia, w) == Mul(load, Mul(i, w));
  }

  lemma TimesAhead(m: real, v: Vec, k: real, t: Vec)
    ensures Times(m, Ahead(v, k, t)) == Add(Times(m, v), Times(Mul(m, k), t))
  {
  }

  lemma TimesAdd(k: real, a: Vec, b: Vec)
    ensures Times(k, Add(a, b)) == Add(Times(k, a), Times(k, b))
  {
  }

  /** The two contact points are as far apart as the gap between the spheres. */
  lemma ContactPoints(pa: Vec, pb: Vec, ra: real, rb: real, d: real, n: Vec)
    requires Sub(pb, pa) == Times(d, n)
    ensures Sub(Add(pa, Times(ra, n)), Add(pb, Times(-rb, n))) == Times(ra + rb - d, n)
  {
  }

  /** Moment that a unit impulse along t on A and its opposite on B bring into the pair. */
  function Imbalance(f: Friction, n: Vec, t: Vec): Vec {
    Sub(Lever(f.contact.a, f.a, n, t, Radius(f.contact.a)), Lever(f.contact.b, f.b, n, t, -Radius(f.contact.b)))
  }

  lemma DragMoment(f: Friction, n: Vec, t: Vec, j: real)
    ensures AngularMomentum(Dragged(f, n, t, j)) == Add(AngularMomentum(f), Times(j, Imbalance(f, n, t)))
  {
    var a, b := f.contact.a, f.contact.b;
    var ra, rb := Radius(a), Radius(b);
    PullMoment(a, f.a, n, t, ra, j);
    PullMoment(b, f.b, n, t, -rb, -j);
    var la, lb := Lever(a, f.a, n, t, ra), Lever(b, f.b, n, t, -rb);
    TimesDifference(j, la, lb);
    Regroup(BodyMoment(a, f.a), Times(j, la), BodyMoment(b, f.b), Times(-j, lb));
  }

  lemma TimesDifference(j: real, a: Vec, b: Vec)
    ensures Add(Times(j, a), Times(-j, b)) == Times(j, Sub(a, b))
  {
  }

  lemma AddedIff(u: Vec, j: real, v: Vec)
    requires j != 0.0
    ensures Add(u, Times(j, v)) == u <==> v == ZERO
  {
    ProductNonzero(j, v.x);
    ProductNonzero(j, v.y);
    ProductNonzero(j, v.z);
  }

  /** Whether the two opposite impulses bring the pair no moment. */
  predicate Balanced(root: real -> real, f: Friction, mu: real)
    requires Grips(root, f, mu)
  {
    Imbalance(f, ContactNormal(root, f), Tangent(root, f, ContactNormal(root, f))) == ZERO
  }

  lemma AngularBalanceIff(root: real -> real, f: Friction, mu: real)
    requires ExactRoot(root)
    ensures AngularMomentum(Rubbed(root, f, mu)) == AngularMomentum(f)
       <==> !Grips(root, f, mu) || Balanced(root, f, mu)
  {
    if Grips(root, f, mu) {
      var n, j := ContactNormal(root, f), Rubbed(root, f, mu).tangentImpulse;
      FrictionInCone(root, f, mu);
      DragMoment(f, n, Tangent(root, f, n), j);
      AddedIff(AngularMomentum(f), j, Imbalance(f, n, Tangent(root, f, n)));
    }
  }

  lemma LeverOfPoint(body: Body, s: Spin, n: Vec, t: Vec, radius: real)
    requires Movable(body) && s.inertia >= MIN_INERTIA
    ensures Lever(body, s, n, t, radius) == Cross(Add(body.p, Times(radius, n)), t)
  {
    AnswerIs(body.m);
    LoadIsOne(s);
    CrossAdd(body.p, Times(radius, n), t);
    CrossTimes(radius, n, t);
    assert Times(1.0, Cross(body.p, t)) == Cross(body.p, t);
  }

  lemma CrossSub(a: Vec, b: Vec, t: Vec)
    ensures Sub(Cross(a, t), Cross(b, t)) == Cross(Sub(a, b), t)
  {
  }

  /** Movable bodies of proper inertia are out of balance by their gap. */
  lemma ImbalanceIsGap(f: Friction, n: Vec, t: Vec, d: real)
    requires Movable(f.contact.a) && Movable(f.contact.b) && Apart(f.contact) == Times(d, n)
    requires f.a.inertia >= MIN_INERTIA && f.b.inertia >= MIN_INERTIA
    ensures Imbalance(f, n, t) == Times(MinDistance(f.contact) - d, Cross(n, t))
  {
    var a, b := f.contact.a, f.contact.b;
    var ra, rb := Radius(a), Radius(b);
    LeverOfPoint(a, f.a, n, t, ra);
    LeverOfPoint(b, f.b, n, t, -rb);
    ContactPoints(a.p, b.p, ra, rb, d, n);
    CrossSub(Add(a.p, Times(ra, n)), Add(b.p, Times(-rb, n)), t);
    CrossTimes(ra + rb - d, n, t);
  }

  /** For all masses and inertias angular momentum about the origin survives friction exactly when nothing
      grips or the impulses balance; between proper bodies they balance exactly when the spheres touch
      without gap or overlap, as only then the two impulses act at one point. */
  lemma AngularMomentumKeptIff(root: real -> real, f: Friction, mu: real)
    requires ExactRoot(root)
    ensures AngularMomentum(Rubbed(root, f, mu)) == AngularMomentum(f)
       <==> !Grips(root, f, mu) || Balanced(root, f, mu)
    ensures Grips(root, f, mu) && Proper(f) ==>
              (Balanced(root, f, mu) <==> Distance(root, f.contact) == MinDistance(f.contact))
  {
    AngularBalanceIff(root, f, mu);
    if Grips(root, f, mu) && Proper(f) {
      var n, d := ContactNormal(root, f), Distance(root, f.contact);
      var t := Tangent(root, f, n);
      GripFrame(root, f, mu);
      DirectionIsUnit(root, Apart(f.contact));
      ImbalanceIsGap(f, n, t, d);
      CrossLength(n, t);
      UnitMultipleVanishes(MinDistance(f.contact) - d, Cross(n, t));
    }
  }

  /** Whether a resolution leaves the spheres exactly in contact. */
  predicate EndsTouching(root: real -> real, c: Contact) {
    Distance(root, c) <= MinDistance(c)
    && (Distance(root, c) >= COINCIDENT || Distance(root, c) == MinDistance(c) || Lined(root, c))
  }

  /** Friction after resolution keeps angular momentum if and only if nothing grips or the impulses
      balance; between proper bodies, if and only if the spheres overlapped or touched before - and, when
      their centres all but coincided, lay in line with the push. */
  lemma FrictionAfterResolveIff(root: real -> real, c: Contact, a: Spin, b: Spin, mu: real)
    requires ExactRoot(root)
    ensures var f := Friction(Resolved(root, c), a, b, 0.0);
            var settled := if Proper(f) then EndsTouching(root, c) else Grips(root, f, mu) && Balanced(root, f, mu);
            AngularMomentum(Rubbed(root, f, mu)) == AngularMomentum(f) <==> !Grips(root, f, mu) || settled
  {
    AngularMomentumKeptIff(root, Friction(Resolved(root, c), a, b, 0.0), mu);
    if Resolvable(root, c) {
      ResolveSeparates(root, c);
    }
  }
}
