/** Small rotations: what a product with 1 + u does to directions, and so what one explicit step of
    body rates does, exactly. */
module Turning {
  import opened Roots
  import opened Vectors
  import opened Rotation

  function Join(w: real, u: Vec): Quat { Quat(w, u.x, u.y, u.z) }

  /** One explicit step is a multiplication by the small rotation 1 + h g. */
  lemma IntegratedIsProduct(q: Quat, g: Vec, h: real)
    ensures Nudged(q, QuatMul(q, Pure(g)), h) == QuatMul(q, Join(1.0, Times(h, g)))
  {
    assert Pure(Times(h, g)) == QuatTimes(h, Pure(g));
    MulScales(q, Pure(g), h);
    TurnIsSum(q, Times(h, g));
  }

  lemma TurnIsSum(q: Quat, u: Vec)
    ensures QuatMul(q, Join(1.0, u)) == QuatAdd(q, QuatMul(q, Pure(u)))
  {
    var one := Quat(1.0, 0.0, 0.0, 0.0);
    assert Join(1.0, u) == QuatAdd(one, Pure(u));
    MulDistributes(q, one, Pure(u));
    IdentityIsNeutral(q);
  }

  lemma NormOfTurn(u: Vec)
    ensures Norm2(Join(1.0, u)) == 1.0 + Length2(u)
  {
  }

  lemma ScaledMul(a: Quat, b: Quat, k: real)
    ensures QuatMul(QuatTimes(k, a), b) == QuatTimes(k, QuatMul(a, b))
  {
    ProductParts(a, b);
    ProductParts(QuatTimes(k, a), b);
    ScaledParts(a.w, a.x, a.y, a.z, b.w, b.x, b.y, b.z, k);
    ScaledParts(a.w, a.y, a.z, a.x, b.w, b.y, b.z, b.x, k);
    ScaledParts(a.w, a.z, a.x, a.y, b.w, b.z, b.x, b.y, k);
  }

  lemma ScaledParts(w: real, x: real, y: real, z: real, pw: real, px: real, py: real, pz: real, k: real)
    ensures ScalarOf(Mul(k, w), Mul(k, x), Mul(k, y), Mul(k, z), pw, px, py, pz)
         == Mul(k, ScalarOf(w, x, y, z, pw, px, py, pz))
    ensures FirstOf(Mul(k, w), Mul(k, x), Mul(k, y), Mul(k, z), pw, px, py, pz)
         == Mul(k, FirstOf(w, x, y, z, pw, px, py, pz))
  {
  }

  lemma RotateScales(q: Quat, k: real, v: Vec)
    ensures Rotate(q, Times(k, v)) == Times(k, Rotate(q, v))
  {
    assert Pure(Times(k, v)) == QuatTimes(k, Pure(v));
    MulScales(q, Pure(v), k);
    ScaledMul(QuatMul(q, Pure(v)), Conj(q), k);
  }

  lemma ScaledRotation(q: Quat, k: real, v: Vec)
    ensures Rotate(QuatTimes(k, q), v) == Times(k * k, Rotate(q, v))
  {
    var a, c := QuatMul(q, Pure(v)), Conj(q);
    ScaledMul(q, Pure(v), k);
    assert Conj(QuatTimes(k, q)) == QuatTimes(k, c);
    ScaledMul(a, QuatTimes(k, c), k);
    MulScales(a, c, k);
    VectorTwice(k, QuatMul(a, c));
  }

  lemma VectorTwice(k: real, m: Quat)
    ensures VectorPart(QuatTimes(k, QuatTimes(k, m))) == Times(k * k, VectorPart(m))
  {
    MulTwice(k, m.x);
    MulTwice(k, m.y);
    MulTwice(k, m.z);
  }

  lemma MulTwice(k: real, x: real)
    ensures Mul(k, Mul(k, x)) == (k * k) * x
  {
  }

  // ---- Rodrigues' formula ----

  /** Rotation by s + a in terms of vectors, for any quaternion: a right-handed turn about a. */
  function Rodrigues(s: real, a: Vec, v: Vec): Vec {
    Add(Add(Times(s * s - Length2(a), v), Times(2.0 * s, Cross(a, v))), Times(2.0 * Dot(a, v), a))
  }

  /** First part of a rotated vector; the others are its cyclic images. */
  function RotatedFirst(w: real, x: real, y: real, z: real, p: real, q: real, r: real): real {
    FirstOf(ScalarOf(w, x, y, z, 0.0, p, q, r), FirstOf(w, x, y, z, 0.0, p, q, r),
            FirstOf(w, y, z, x, 0.0, q, r, p), FirstOf(w, z, x, y, 0.0, r, p, q), w, -x, -y, -z)
  }

  lemma RotateParts(q: Quat, v: Vec)
    ensures Rotate(q, v) == Vec(RotatedFirst(q.w, q.x, q.y, q.z, v.x, v.y, v.z),
                                RotatedFirst(q.w, q.y, q.z, q.x, v.y, v.z, v.x),
                                RotatedFirst(q.w, q.z, q.x, q.y, v.z, v.x, v.y))
  {
    ProductParts(q, Pure(v));
    ProductParts(QuatMul(q, Pure(v)), Conj(q));
    ScalarIsCyclic(q.w, q.x, q.y, q.z, 0.0, v.x, v.y, v.z);
  }

  lemma RodriguesFirst(w: real, x: real, y: real, z: real, p: real, q: real, r: real,
                       k: real, m: real, n: real, c: real)
    requires k == w * w - (x * x + y * y + z * z) && m == 2.0 * w && n == 2.0 * (x * p + y * q + z * r)
    requires c == y * r - z * q
    ensures RotatedFirst(w, x, y, z, p, q, r) == Mul(k, p) + Mul(m, c) + Mul(n, x)
  {
  }

  lemma RodriguesX(s: real, a: Vec, v: Vec)
    ensures RotatedFirst(s, a.x, a.y, a.z, v.x, v.y, v.z) == Rodrigues(s, a, v).x
  {
    var k, m, n, c := s * s - Length2(a), 2.0 * s, 2.0 * Dot(a, v), Cross(a, v);
    RodriguesFirst(s, a.x, a.y, a.z, v.x, v.y, v.z, k, m, n, c.x);
  }

  lemma RodriguesY(s: real, a: Vec, v: Vec)
    ensures RotatedFirst(s, a.y, a.z, a.x, v.y, v.z, v.x) == Rodrigues(s, a, v).y
  {
    var k, m, n, c := s * s - Length2(a), 2.0 * s, 2.0 * Dot(a, v), Cross(a, v);
    RodriguesFirst(s, a.y, a.z, a.x, v.y, v.z, v.x, k, m, n, c.y);
  }

  lemma RodriguesZ(s: real, a: Vec, v: Vec)
    ensures RotatedFirst(s, a.z, a.x, a.y, v.z, v.x, v.y) == Rodrigues(s, a, v).z
  {
    var k, m, n, c := s * s - Length2(a), 2.0 * s, 2.0 * Dot(a, v), Cross(a, v);
    RodriguesFirst(s, a.z, a.x, a.y, v.z, v.x, v.y, k, m, n, c.z);
  }

  lemma RotateIsRodrigues(s: real, a: Vec, v: Vec)
    ensures Rotate(Join(s, a), v) == Rodrigues(s, a, v)
  {
    RotateParts(Join(s, a), v);
    RodriguesX(s, a, v);
    RodriguesY(s, a, v);
    RodriguesZ(s, a, v);
  }

  // ---- turning by 1 + u ----

  /** Where a direction v goes, seen from a body that turns by 1 + u. */
  function TurnedBack(u: Vec, v: Vec): Vec {
    Add(Sub(Times(1.0 - Length2(u), v), Times(2.0, Cross(u, v))), Times(2.0 * Dot(u, v), u))
  }

  lemma TurnBack(u: Vec, v: Vec)
    ensures RotateInv(Join(1.0, u), v) == TurnedBack(u, v)
  {
    assert Conj(Join(1.0, u)) == Join(1.0, Neg(u));
    RotateIsRodrigues(1.0, Neg(u), v);
    CrossSigns(u, v);
    NegatedParts(u, v);
    NegatedTurn(u, v, Cross(u, v), 1.0 - Length2(u), 2.0 * Dot(u, v));
  }

  lemma NegatedParts(u: Vec, v: Vec)
    ensures Length2(Neg(u)) == Length2(u) && Dot(Neg(u), v) == -Dot(u, v)
  {
  }

  lemma NegatedTurn(u: Vec, v: Vec, c: Vec, k: real, m: real)
    ensures Add(Add(Times(k, v), Times(2.0, Neg(c))), Times(-m, Neg(u)))
         == Add(Sub(Times(k, v), Times(2.0, c)), Times(m, u))
  {
  }

  lemma InverseOfProduct(q: Quat, p: Quat, v: Vec)
    ensures RotateInv(QuatMul(q, p), v) == RotateInv(p, RotateInv(q, v))
  {
    ConjOfProduct(q, p);
    RotateComposes(Conj(p), Conj(q), v);
  }

  /** The same after normalising: an exact rotation, of unit directions to unit directions. */
  function Turned(u: Vec, v: Vec): Vec
  {
    TurnLonger(u);
    Over(TurnedBack(u, v), 1.0 + Length2(u))
  }

  lemma TurnLonger(u: Vec)
    ensures 1.0 + Length2(u) >= 1.0
  {
    DotSelf(u);
  }

  lemma TurnNormalized(q: Quat, u: Vec, k: real, kk: real, n: real, v: Vec)
    requires kk == k * k && n == 1.0 + Length2(u) && kk * n == 1.0
    ensures RotateInv(QuatTimes(k, QuatMul(q, Join(1.0, u))), v) == Turned(u, RotateInv(q, v))
  {
    var m, x := QuatMul(q, Join(1.0, u)), RotateInv(q, v);
    assert Conj(QuatTimes(k, m)) == QuatTimes(k, Conj(m));
    ScaledRotation(Conj(m), k, v);
    InverseOfProduct(q, Join(1.0, u), v);
    TurnBack(u, x);
    TurnLonger(u);
    ShareIsOver(TurnedBack(u, x), kk, n);
  }

  lemma ShareIsOver(v: Vec, share: real, n: real)
    requires n > 0.0 && share * n == 1.0
    ensures Times(share, v) == Over(v, n)
  {
    assert share == 1.0 / n;
    OverIsTimes(v, n);
  }

  lemma NormOfTurned(q: Quat, u: Vec)
    requires Unit(q)
    ensures Norm2(QuatMul(q, Join(1.0, u))) == 1.0 + Length2(u)
  {
    NormOfProduct(q, Join(1.0, u));
    NormOfTurn(u);
    assert 1.0 * (1.0 + Length2(u)) == 1.0 + Length2(u);
  }

  lemma SquareShare(n: real, k: real, kk: real, x: real)
    requires n > 0.0 && k == 1.0 / n && kk == k * k && n * n == x
    ensures kk * x == 1.0
  {
    assert n * k == 1.0;
    assert kk * x == (n * k) * (n * k);
  }

  lemma TurnShare(root: real -> real, q: Quat, u: Vec, n: real, k: real, kk: real)
    requires ExactRoot(root) && Unit(q) && n == root(Norm2(QuatMul(q, Join(1.0, u)))) && n > 0.0
    requires k == 1.0 / n && kk == k * k
    ensures kk * (1.0 + Length2(u)) == 1.0
  {
    NormOfTurned(q, u);
    TurnLonger(u);
    SquareShare(n, k, kk, 1.0 + Length2(u));
  }

  lemma QuotientIsShare(m: Quat, n: real, k: real)
    requires n > 0.0 && k == 1.0 / n
    ensures Quat(m.w / n, m.x / n, m.y / n, m.z / n) == QuatTimes(k, m)
  {
  }

  /** One step of body rates from a unit attitude: every direction fixed in the world, seen from the
      body, turns by exactly the half step's rotation. */
  lemma IntegrateTurns(root: real -> real, q: Quat, omega: Vec, dt: real, v: Vec)
    requires ExactRoot(root) && Unit(q) && dt > 0.0
    ensures RotateInv(QuatIntegrate(root, q, omega, dt), v) == Turned(Times(0.5 * dt, omega), RotateInv(q, v))
  {
    var u := Times(0.5 * dt, omega);
    var m := QuatMul(q, Join(1.0, u));
    IntegratedIsProduct(q, omega, 0.5 * dt);
    IntegrateKeepsUnit(root, q, omega, dt);
    var n := root(Norm2(m));
    var k := 1.0 / n;
    var kk := k * k;
    TurnShare(root, q, u, n, k, kk);
    assert QuatIntegrate(root, q, omega, dt) == Quat(m.w / n, m.x / n, m.y / n, m.z / n);
    QuotientIsShare(m, n, k);
    TurnNormalized(q, u, k, kk, 1.0 + Length2(u), v);
  }
}
