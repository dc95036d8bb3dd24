/** Attitude quaternions, body-axis force limits and the explicit Euler step of a spinning body. */
module Rotation {
  import opened Roots
  import opened Vectors

  datatype Quat = Quat(w: real, x: real, y: real, z: real)

  const IDENTITY: Quat := Quat(1.0, 0.0, 0.0, 0.0)

  function QuatMul(a: Quat, b: Quat): Quat {
    Quat(a.w * b.w - a.x * b.x - a.y * b.y - a.z * b.z,
         a.w * b.x + a.x * b.w + a.y * b.z - a.z * b.y,
         a.w * b.y - a.x * b.z + a.y * b.w + a.z * b.x,
         a.w * b.z + a.x * b.y - a.y * b.x + a.z * b.w)
  }

  function Conj(q: Quat): Quat { Quat(q.w, -q.x, -q.y, -q.z) }

  function Norm2(q: Quat): real { q.w * q.w + q.x * q.x + q.y * q.y + q.z * q.z }

  predicate Unit(q: Quat) { Norm2(q) == 1.0 }

  function Pure(v: Vec): Quat { Quat(0.0, v.x, v.y, v.z) }

  function VectorPart(q: Quat): Vec { Vec(q.x, q.y, q.z) }

  /** Body to NED. */
  function Rotate(q: Quat, v: Vec): Vec {
    VectorPart(QuatMul(QuatMul(q, Pure(v)), Conj(q)))
  }

  /** NED to body. */
  function RotateInv(q: Quat, v: Vec): Vec { Rotate(Conj(q), v) }

  /** Scalar part and first vector part of a product; the others are cyclic images of the latter. */
  function ScalarOf(aw: real, ax: real, ay: real, az: real, pw: real, px: real, py: real, pz: real): real {
    aw * pw - ax * px - ay * py - az * pz
  }

  function FirstOf(aw: real, ax: real, ay: real, az: real, pw: real, px: real, py: real, pz: real): real {
    aw * px + ax * pw + ay * pz - az * py
  }

  lemma ProductParts(a: Quat, b: Quat)
    ensures QuatMul(a, b) == Quat(ScalarOf(a.w, a.x, a.y, a.z, b.w, b.x, b.y, b.z),
                                  FirstOf(a.w, a.x, a.y, a.z, b.w, b.x, b.y, b.z),
                                  FirstOf(a.w, a.y, a.z, a.x, b.w, b.y, b.z, b.x),
                                  FirstOf(a.w, a.z, a.x, a.y, b.w, b.z, b.x, b.y))
  {
  }

  lemma AssociatesInScalar(aw: real, ax: real, ay: real, az: real, pw: real, px: real, py: real, pz: real,
                           rw: real, rx: real, ry: real, rz: real)
    ensures ScalarOf(ScalarOf(aw, ax, ay, az, pw, px, py, pz), FirstOf(aw, ax, ay, az, pw, px, py, pz),
                     FirstOf(aw, ay, az, ax, pw, py, pz, px), FirstOf(aw, az, ax, ay, pw, pz, px, py), rw, rx, ry, rz)
         == ScalarOf(aw, ax, ay, az, ScalarOf(pw, px, py, pz, rw, rx, ry, rz), FirstOf(pw, px, py, pz, rw, rx, ry, rz),
                     FirstOf(pw, py, pz, px, rw, ry, rz, rx), FirstOf(pw, pz, px, py, rw, rz, rx, ry))
  {
  }

  lemma AssociatesInFirst(aw: real, ax: real, ay: real, az: real, pw: real, px: real, py: real, pz: real,
                          rw: real, rx: real, ry: real, rz: real)
    ensures FirstOf(ScalarOf(aw, ax, ay, az, pw, px, py, pz), FirstOf(aw, ax, ay, az, pw, px, py, pz),
                    FirstOf(aw, ay, az, ax, pw, py, pz, px), FirstOf(aw, az, ax, ay, pw, pz, px, py), rw, rx, ry, rz)
         == FirstOf(aw, ax, ay, az, ScalarOf(pw, px, py, pz, rw, rx, ry, rz), FirstOf(pw, px, py, pz, rw, rx, ry, rz),
                    FirstOf(pw, py, pz, px, rw, ry, rz, rx), FirstOf(pw, pz, px, py, rw, rz, rx, ry))
  {
  }

  lemma ScalarIsCyclic(aw: real, ax: real, ay: real, az: real, pw: real, px: real, py: real, pz: real)
    ensures ScalarOf(aw, ay, az, ax, pw, py, pz, px) == ScalarOf(aw, ax, ay, az, pw, px, py, pz)
    ensures ScalarOf(aw, az, ax, ay, pw, pz, px, py) == ScalarOf(aw, ax, ay, az, pw, px, py, pz)
  {
  }

  lemma MulAssociates(a: Quat, b: Quat, c: Quat)
    ensures QuatMul(QuatMul(a, b), c) == QuatMul(a, QuatMul(b, c))
  {
    ProductParts(a, b);
    ProductParts(b, c);
    ProductParts(QuatMul(a, b), c);
    ProductParts(a, QuatMul(b, c));
    ScalarIsCyclic(a.w, a.x, a.y, a.z, b.w, b.x, b.y, b.z);
    ScalarIsCyclic(b.w, b.x, b.y, b.z, c.w, c.x, c.y, c.z);
    AssociatesInScalar(a.w, a.x, a.y, a.z, b.w, b.x, b.y, b.z, c.w, c.x, c.y, c.z);
    AssociatesInFirst(a.w, a.x, a.y, a.z, b.w, b.x, b.y, b.z, c.w, c.x, c.y, c.z);
    AssociatesInFirst(a.w, a.y, a.z, a.x, b.w, b.y, b.z, b.x, c.w, c.y, c.z, c.x);
    AssociatesInFirst(a.w, a.z, a.x, a.y, b.w, b.z, b.x, b.y, c.w, c.z, c.x, c.y);
  }

  lemma ConjOfProduct(a: Quat, b: Quat)
    ensures Conj(QuatMul(a, b)) == QuatMul(Conj(b), Conj(a))
  {
    ProductParts(a, b);
    ProductParts(Conj(b), Conj(a));
    ReversedParts(a.w, a.x, a.y, a.z, b.w, b.x, b.y, b.z);
    ReversedParts(a.w, a.y, a.z, a.x, b.w, b.y, b.z, b.x);
    ReversedParts(a.w, a.z, a.x, a.y, b.w, b.z, b.x, b.y);
  }

  lemma ReversedParts(aw: real, ax: real, ay: real, az: real, pw: real, px: real, py: real, pz: real)
    ensures ScalarOf(pw, -px, -py, -pz, aw, -ax, -ay, -az) == ScalarOf(aw, ax, ay, az, pw, px, py, pz)
    ensures FirstOf(pw, -px, -py, -pz, aw, -ax, -ay, -az) == -FirstOf(aw, ax, ay, az, pw, px, py, pz)
  {
  }

  lemma ConjIsInverse(q: Quat)
    ensures QuatMul(q, Conj(q)) == Quat(Norm2(q), 0.0, 0.0, 0.0)
    ensures QuatMul(Conj(q), q) == Quat(Norm2(q), 0.0, 0.0, 0.0)
    ensures Conj(Conj(q)) == q && Norm2(Conj(q)) == Norm2(q)
  {
  }

  lemma ScalarInside(a: Quat, n: real)
    ensures QuatMul(QuatMul(a, Quat(n, 0.0, 0.0, 0.0)), Conj(a)).w == Mul(n, Norm2(a))
  {
  }

  /** Norms multiply: conj(ab) = conj(b) conj(a), so ab conj(ab) collapses from the inside. */
  lemma NormOfProduct(a: Quat, b: Quat)
    ensures Norm2(QuatMul(a, b)) == Mul(Norm2(b), Norm2(a))
  {
    ConjIsInverse(QuatMul(a, b));
    ConjOfProduct(a, b);
    MulAssociates(QuatMul(a, b), Conj(b), Conj(a));
    MulAssociates(a, b, Conj(b));
    ConjIsInverse(b);
    ScalarInside(a, Norm2(b));
  }

  lemma IdentityIsNeutral(q: Quat)
    ensures QuatMul(Quat(1.0, 0.0, 0.0, 0.0), q) == q && QuatMul(q, Quat(1.0, 0.0, 0.0, 0.0)) == q
  {
  }

  lemma SandwichIsPure(q: Quat, v: Vec)
    ensures QuatMul(QuatMul(q, Pure(v)), Conj(q)) == Pure(Rotate(q, v))
  {
  }

  function QuatAdd(a: Quat, b: Quat): Quat { Quat(a.w + b.w, a.x + b.x, a.y + b.y, a.z + b.z) }

  lemma ScalarAdds(aw: real, ax: real, ay: real, az: real, pw: real, px: real, py: real, pz: real,
                   rw: real, rx: real, ry: real, rz: real)
    ensures ScalarOf(aw, ax, ay, az, pw + rw, px + rx, py + ry, pz + rz)
         == ScalarOf(aw, ax, ay, az, pw, px, py, pz) + ScalarOf(aw, ax, ay, az, rw, rx, ry, rz)
    ensures ScalarOf(pw + rw, px + rx, py + ry, pz + rz, aw, ax, ay, az)
         == ScalarOf(pw, px, py, pz, aw, ax, ay, az) + ScalarOf(rw, rx, ry, rz, aw, ax, ay, az)
  {
  }

  lemma FirstAdds(aw: real, ax: real, ay: real, az: real, pw: real, px: real, py: real, pz: real,
                  rw: real, rx: real, ry: real, rz: real)
    ensures FirstOf(aw, ax, ay, az, pw + rw, px + rx, py + ry, pz + rz)
         == FirstOf(aw, ax, ay, az, pw, px, py, pz) + FirstOf(aw, ax, ay, az, rw, rx, ry, rz)
    ensures FirstOf(pw + rw, px + rx, py + ry, pz + rz, aw, ax, ay, az)
         == FirstOf(pw, px, py, pz, aw, ax, ay, az) + FirstOf(rw, rx, ry, rz, aw, ax, ay, az)
  {
  }

  lemma MulDistributes(a: Quat, b: Quat, c: Quat)
    ensures QuatMul(a, QuatAdd(b, c)) == QuatAdd(QuatMul(a, b), QuatMul(a, c))
  {
    ProductParts(a, b);
    ProductParts(a, c);
    ProductParts(a, QuatAdd(b, c));
    ScalarAdds(a.w, a.x, a.y, a.z, b.w, b.x, b.y, b.z, c.w, c.x, c.y, c.z);
    FirstAdds(a.w, a.x, a.y, a.z, b.w, b.x, b.y, b.z, c.w, c.x, c.y, c.z);
    FirstAdds(a.w, a.y, a.z, a.x, b.w, b.y, b.z, b.x, c.w, c.y, c.z, c.x);
    FirstAdds(a.w, a.z, a.x, a.y, b.w, b.z, b.x, b.y, c.w, c.z, c.x, c.y);
  }

  lemma SumDistributes(b: Quat, c: Quat, a: Quat)
    ensures QuatMul(QuatAdd(b, c), a) == QuatAdd(QuatMul(b, a), QuatMul(c, a))
  {
    ProductParts(b, a);
    ProductParts(c, a);
    ProductParts(QuatAdd(b, c), a);
    ScalarAdds(a.w, a.x, a.y, a.z, b.w, b.x, b.y, b.z, c.w, c.x, c.y, c.z);
    FirstAdds(a.w, a.x, a.y, a.z, b.w, b.x, b.y, b.z, c.w, c.x, c.y, c.z);
    FirstAdds(a.w, a.y, a.z, a.x, b.w, b.y, b.z, b.x, c.w, c.y, c.z, c.x);
    FirstAdds(a.w, a.z, a.x, a.y, b.w, b.z, b.x, b.y, c.w, c.z, c.x, c.y);
  }

  function QuatTimes(k: real, q: Quat): Quat { Quat(Mul(k, q.w), Mul(k, q.x), Mul(k, q.y), Mul(k, q.z)) }

  lemma PartsScale(w: real, x: real, y: real, z: real, pw: real, px: real, py: real, pz: real, h: real)
    ensures ScalarOf(w, x, y, z, Mul(h, pw), Mul(h, px), Mul(h, py), Mul(h, pz))
         == Mul(h, ScalarOf(w, x, y, z, pw, px, py, pz))
    ensures FirstOf(w, x, y, z, Mul(h, pw), Mul(h, px), Mul(h, py), Mul(h, pz))
         == Mul(h, FirstOf(w, x, y, z, pw, px, py, pz))
  {
  }

  lemma MulScales(q: Quat, p: Quat, h: real)
    ensures QuatMul(q, QuatTimes(h, p)) == QuatTimes(h, QuatMul(q, p))
  {
    ProductParts(q, p);
    ProductParts(q, QuatTimes(h, p));
    PartsScale(q.w, q.x, q.y, q.z, p.w, p.x, p.y, p.z, h);
    PartsScale(q.w, q.y, q.z, q.x, p.w, p.y, p.z, p.x, h);
    PartsScale(q.w, q.z, q.x, q.y, p.w, p.z, p.x, p.y, h);
  }

  // ---- rotations ----

  lemma RotateAdds(q: Quat, u: Vec, v: Vec)
    ensures Rotate(q, Add(u, v)) == Add(Rotate(q, u), Rotate(q, v))
  {
    assert Pure(Add(u, v)) == QuatAdd(Pure(u), Pure(v));
    MulDistributes(q, Pure(u), Pure(v));
    SumDistributes(QuatMul(q, Pure(u)), QuatMul(q, Pure(v)), Conj(q));
  }

  lemma RotateNegates(q: Quat, v: Vec)
    ensures Rotate(q, Neg(v)) == Neg(Rotate(q, v))
  {
    RotateAdds(q, v, Neg(v));
    assert Add(v, Neg(v)) == ZERO;
    assert Rotate(q, ZERO) == ZERO;
  }

  lemma RotateSubtracts(q: Quat, u: Vec, v: Vec)
    ensures Rotate(q, Sub(u, v)) == Sub(Rotate(q, u), Rotate(q, v))
  {
    RotateNegates(q, v);
    RotateAdds(q, u, Neg(v));
    assert Add(u, Neg(v)) == Sub(u, v);
  }

  /** Rotating by a product is rotating by its factors in turn. */
  lemma RotateComposes(a: Quat, b: Quat, v: Vec)
    ensures Rotate(QuatMul(a, b), v) == Rotate(a, Rotate(b, v))
  {
    var p := Pure(v);
    calc {
      QuatMul(QuatMul(QuatMul(a, b), p), Conj(QuatMul(a, b)));
      { ConjOfProduct(a, b); }
      QuatMul(QuatMul(QuatMul(a, b), p), QuatMul(Conj(b), Conj(a)));
      { MulAssociates(a, b, p); }
      QuatMul(QuatMul(a, QuatMul(b, p)), QuatMul(Conj(b), Conj(a)));
      { MulAssociates(QuatMul(a, QuatMul(b, p)), Conj(b), Conj(a)); }
      QuatMul(QuatMul(QuatMul(a, QuatMul(b, p)), Conj(b)), Conj(a));
      { MulAssociates(a, QuatMul(b, p), Conj(b)); }
      QuatMul(QuatMul(a, QuatMul(QuatMul(b, p), Conj(b))), Conj(a));
      { SandwichIsPure(b, v); }
      QuatMul(QuatMul(a, Pure(Rotate(b, v))), Conj(a));
    }
  }

  lemma RotateByNeutral(one: Quat, v: Vec)
    requires QuatMul(one, Pure(v)) == Pure(v) && QuatMul(Pure(v), one) == Pure(v) && Conj(one) == one
    ensures Rotate(one, v) == v
  {
  }

  lemma RotateByIdentity(one: Quat, v: Vec)
    requires one == Quat(1.0, 0.0, 0.0, 0.0)
    ensures Rotate(one, v) == v
  {
    IdentityIsNeutral(Pure(v));
    ConjOfOne(one);
    RotateByNeutral(one, v);
  }

  lemma ConjOfOne(one: Quat)
    requires one == Quat(1.0, 0.0, 0.0, 0.0)
    ensures Conj(one) == one
  {
  }

  /** The two rotations of a unit attitude undo each other. */
  lemma RotateRoundTrip(q: Quat, v: Vec)
    requires Unit(q)
    ensures RotateInv(q, Rotate(q, v)) == v && Rotate(q, RotateInv(q, v)) == v
  {
    ConjIsInverse(q);
    RotateComposes(Conj(q), q, v);
    RotateComposes(q, Conj(q), v);
    RotateByIdentity(Quat(1.0, 0.0, 0.0, 0.0), v);
  }

  /** Lengths scale by the square of the quaternion's norm. */
  lemma RotateScalesLength(q: Quat, v: Vec)
    ensures Dot(Rotate(q, v), Rotate(q, v)) == Mul(Mul(Norm2(q), Norm2(q)), Dot(v, v))
  {
    var n := Norm2(q);
    SandwichIsPure(q, v);
    NormOfProduct(QuatMul(q, Pure(v)), Conj(q));
    NormOfProduct(q, Pure(v));
    ConjIsInverse(q);
    assert Norm2(Pure(v)) == Dot(v, v);
    assert Norm2(Pure(Rotate(q, v))) == Dot(Rotate(q, v), Rotate(q, v));
    assert Mul(n, Mul(Dot(v, v), n)) == Mul(Mul(n, n), Dot(v, v));
  }

  lemma RotateKeepsLength(q: Quat, v: Vec)
    requires Unit(q)
    ensures Dot(Rotate(q, v), Rotate(q, v)) == Dot(v, v)
    ensures Dot(RotateInv(q, v), RotateInv(q, v)) == Dot(v, v)
  {
    RotateScalesLength(q, v);
    ConjIsInverse(q);
    RotateScalesLength(Conj(q), v);
  }

  lemma SquareOfSum(u: Vec, v: Vec)
    ensures Dot(Add(u, v), Add(u, v)) == Dot(u, u) + 2.0 * Dot(u, v) + Dot(v, v)
  {
  }

  /** Angles survive too, because lengths of all sums do. */
  lemma RotateKeepsDot(q: Quat, u: Vec, v: Vec)
    requires Unit(q)
    ensures Dot(Rotate(q, u), Rotate(q, v)) == Dot(u, v)
  {
    RotateKeepsLength(q, u);
    RotateKeepsLength(q, v);
    RotateKeepsLength(q, Add(u, v));
    RotateAdds(q, u, v);
    SquareOfSum(u, v);
    SquareOfSum(Rotate(q, u), Rotate(q, v));
  }

  // ---- body-axis force limits ----

  function Clamp(x: real, limit: real): real
    requires limit >= 0.0
  {
    if x < -limit then -limit else if x > limit then limit else x
  }

  function ClampAxes(v: Vec, limit: real): Vec
    requires limit >= 0.0
  {
    Vec(Clamp(v.x, limit), Clamp(v.y, limit), Clamp(v.z, limit))
  }

  /** A requested NED force saturated on the body axes; nothing at all for a negative limit. */
  function BodyAxisWrench(q: Quat, force: Vec, limit: real): Vec {
    if !(limit >= 0.0) then ZERO else Rotate(q, ClampAxes(RotateInv(q, force), limit))
  }

  predicate Within(v: Vec, limit: real) { Abs(v.x) <= limit && Abs(v.y) <= limit && Abs(v.z) <= limit }

  function Length2(v: Vec): real { Dot(v, v) }

  lemma ClampShortens(v: Vec, limit: real)
    requires limit >= 0.0
    ensures Length2(ClampAxes(v, limit)) <= Length2(v)
  {
    ClampShortensPart(v.x, limit);
    ClampShortensPart(v.y, limit);
    ClampShortensPart(v.z, limit);
  }

  lemma ClampShortensPart(x: real, limit: real)
    requires limit >= 0.0
    ensures Clamp(x, limit) * Clamp(x, limit) <= x * x
  {
  }

  lemma ClampIsNearestPart(x: real, y: real, limit: real)
    requires limit >= 0.0 && Abs(y) <= limit
    ensures Mul(Clamp(x, limit) - x, Clamp(x, limit) - x) <= Mul(y - x, y - x)
  {
  }

  lemma LengthOrder(a: Vec, b: Vec)
    requires Mul(a.x, a.x) <= Mul(b.x, b.x) && Mul(a.y, a.y) <= Mul(b.y, b.y) && Mul(a.z, a.z) <= Mul(b.z, b.z)
    ensures Length2(a) <= Length2(b)
  {
  }

  lemma ClampIsNearest(v: Vec, w: Vec, limit: real)
    requires limit >= 0.0 && Within(w, limit)
    ensures Length2(Sub(ClampAxes(v, limit), v)) <= Length2(Sub(w, v))
  {
    ClampIsNearestPart(v.x, w.x, limit);
    ClampIsNearestPart(v.y, w.y, limit);
    ClampIsNearestPart(v.z, w.z, limit);
    LengthOrder(Sub(ClampAxes(v, limit), v), Sub(w, v));
  }

  /** The saturated force respects every body axis, is never longer than the request, and is
      left alone by a second saturation. */
  lemma WrenchIsLimited(q: Quat, force: Vec, limit: real)
    requires Unit(q) && limit >= 0.0
    ensures var out := BodyAxisWrench(q, force, limit);
            && Within(RotateInv(q, out), limit)
            && Length2(out) <= Length2(force)
            && BodyAxisWrench(q, out, limit) == out
            && (Within(RotateInv(q, force), limit) <==> out == force)
  {
    var body := RotateInv(q, force);
    var clamped := ClampAxes(body, limit);
    RotateRoundTrip(q, clamped);
    RotateRoundTrip(q, force);
    ClampShortens(body, limit);
    RotateKeepsLength(q, clamped);
    RotateKeepsLength(q, force);
    assert ClampAxes(clamped, limit) == clamped;
  }

  /** No force within the limits is nearer to the request. */
  lemma WrenchIsNearest(q: Quat, force: Vec, limit: real, other: Vec)
    requires Unit(q) && limit >= 0.0 && Within(RotateInv(q, other), limit)
    ensures Length2(Sub(BodyAxisWrench(q, force, limit), force)) <= Length2(Sub(other, force))
  {
    var body := RotateInv(q, force);
    var clamped := ClampAxes(body, limit);
    ClampIsNearest(body, RotateInv(q, other), limit);
    RotateRoundTrip(q, force);
    RotateSubtracts(q, clamped, body);
    RotateKeepsLength(q, Sub(clamped, body));
    RotateSubtracts(Conj(q), other, force);
    RotateKeepsLength(q, Sub(other, force));
  }

  // ---- integrating the attitude ----

  function Renormed(root: real -> real, q: Quat): Quat {
    var mag := root(Norm2(q));
    if mag < 0.000000001 then IDENTITY else Quat(q.w / mag, q.x / mag, q.y / mag, q.z / mag)
  }

  function Nudged(q: Quat, dq: Quat, k: real): Quat { QuatAdd(q, QuatTimes(k, dq)) }

  /** One step of body rates, explicit then renormalised; a bad time step resets the attitude. */
  function QuatIntegrate(root: real -> real, q: Quat, omega: Vec, dt: real): Quat {
    if dt <= 0.0 then IDENTITY else Renormed(root, Nudged(q, QuatMul(q, Pure(omega)), 0.5 * dt))
  }

  /** The derivative q*omega is perpendicular to q, so the square norm only grows. */
  lemma NudgeGrows(q: Quat, omega: Vec, k: real)
    ensures Norm2(Nudged(q, QuatMul(q, Pure(omega)), k)) == Mul(Norm2(q), 1.0 + k * k * Length2(omega))
  {
    var dq := QuatMul(q, Pure(omega));
    NormOfProduct(q, Pure(omega));
    RateIsPerpendicular(q, omega);
    NudgedNorm(q, dq, k);
    assert Norm2(Pure(omega)) == Length2(omega);
    GrowthFactor(Norm2(q), Length2(omega), k * k);
  }

  lemma GrowthFactor(n: real, o: real, kk: real)
    ensures n + Mul(kk, Mul(o, n)) == Mul(n, 1.0 + kk * o)
  {
  }

  lemma NudgeFromUnit(q: Quat, omega: Vec, k: real)
    requires Unit(q)
    ensures Norm2(Nudged(q, QuatMul(q, Pure(omega)), k)) >= 1.0
  {
    NudgeGrows(q, omega, k);
    DotSelf(omega);
    ProductSign(k * k, Length2(omega));
  }

  function QuatDot(a: Quat, b: Quat): real { a.w * b.w + a.x * b.x + a.y * b.y + a.z * b.z }

  lemma RateIsPerpendicular(q: Quat, omega: Vec)
    ensures QuatDot(q, QuatMul(q, Pure(omega))) == 0.0
  {
  }

  lemma NudgedNorm(q: Quat, dq: Quat, k: real)
    ensures Norm2(Nudged(q, dq, k)) == Norm2(q) + Mul(2.0 * k, QuatDot(q, dq)) + Mul(k * k, Norm2(dq))
  {
    NudgedSquare(q.w, dq.w, k);
    NudgedSquare(q.x, dq.x, k);
    NudgedSquare(q.y, dq.y, k);
    NudgedSquare(q.z, dq.z, k);
    SumOfFour(2.0 * k, q.w * dq.w, q.x * dq.x, q.y * dq.y, q.z * dq.z);
    SumOfFour(k * k, dq.w * dq.w, dq.x * dq.x, dq.y * dq.y, dq.z * dq.z);
  }

  lemma NudgedSquare(a: real, b: real, k: real)
    ensures (a + Mul(k, b)) * (a + Mul(k, b)) == a * a + Mul(2.0 * k, a * b) + Mul(k * k, b * b)
  {
  }

  lemma SumOfFour(k: real, a: real, b: real, c: real, d: real)
    ensures Mul(k, a) + Mul(k, b) + Mul(k, c) + Mul(k, d) == Mul(k, a + b + c + d)
  {
  }

  lemma RenormedIsUnit(root: real -> real, q: Quat)
    requires ExactRoot(root)
    ensures Unit(Renormed(root, q))
  {
    var mag := root(Norm2(q));
    assert Norm2(q) >= 0.0;
    if mag >= 0.000000001 {
      DividedNorm(q.w, q.x, q.y, q.z, mag);
    }
  }

  lemma DividedNorm(w: real, x: real, y: real, z: real, m: real)
    requires m > 0.0 && m * m == w * w + x * x + y * y + z * z
    ensures (w / m) * (w / m) + (x / m) * (x / m) + (y / m) * (y / m) + (z / m) * (z / m) == 1.0
  {
    var k := 1.0 / m;
    assert w / m == w * k && x / m == x * k && y / m == y * k && z / m == z * k;
    assert (w * k) * (w * k) + (x * k) * (x * k) + (y * k) * (y * k) + (z * k) * (z * k)
        == (w * w + x * x + y * y + z * z) * (k * k);
    assert (m * m) * (k * k) == (m * k) * (m * k);
  }

  /** Every result is a unit quaternion, and from a unit attitude the renormalisation never
      falls back to the identity. */
  lemma IntegrateKeepsUnit(root: real -> real, q: Quat, omega: Vec, dt: real)
    requires ExactRoot(root)
    ensures Unit(QuatIntegrate(root, q, omega, dt))
    ensures Unit(q) && dt > 0.0 ==> root(Norm2(Nudged(q, QuatMul(q, Pure(omega)), 0.5 * dt))) >= 1.0
  {
    var next := Nudged(q, QuatMul(q, Pure(omega)), 0.5 * dt);
    RenormedIsUnit(root, next);
    if Unit(q) && dt > 0.0 {
      NudgeFromUnit(q, omega, 0.5 * dt);
      RootAboveOne(root, Norm2(next));
    }
  }
}
