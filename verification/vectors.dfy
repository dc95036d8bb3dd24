/** Vectors of three reals and the identities the rigid-body kernels rest on. */
module Vectors {
  import opened Roots

  datatype Vec = Vec(x: real, y: real, z: real)

  const ZERO: Vec := Vec(0.0, 0.0, 0.0)

  function Add(a: Vec, b: Vec): Vec { Vec(a.x + b.x, a.y + b.y, a.z + b.z) }

  function Sub(a: Vec, b: Vec): Vec { Vec(a.x - b.x, a.y - b.y, a.z - b.z) }

  function Times(k: real, a: Vec): Vec { Vec(k * a.x, k * a.y, k * a.z) }

  function Neg(a: Vec): Vec { Vec(-a.x, -a.y, -a.z) }

  function Over(a: Vec, k: real): Vec
    requires k != 0.0
  {
    Vec(a.x / k, a.y / k, a.z / k)
  }

  function Dot(a: Vec, b: Vec): real { a.x * b.x + a.y * b.y + a.z * b.z }

  function Cross(a: Vec, b: Vec): Vec {
    Vec(a.y * b.z - a.z * b.y, a.z * b.x - a.x * b.z, a.x * b.y - a.y * b.x)
  }

  lemma DotSymmetric(a: Vec, b: Vec)
    ensures Dot(a, b) == Dot(b, a)
  {
  }

  lemma DotAdd(a: Vec, b: Vec, c: Vec)
    ensures Dot(Add(a, b), c) == Dot(a, c) + Dot(b, c)
    ensures Dot(c, Add(a, b)) == Dot(c, a) + Dot(c, b)
  {
  }

  lemma DotSub(a: Vec, b: Vec, c: Vec)
    ensures Dot(Sub(a, b), c) == Dot(a, c) - Dot(b, c)
    ensures Dot(c, Sub(a, b)) == Dot(c, a) - Dot(c, b)
  {
  }

  lemma DotTimes(k: real, a: Vec, b: Vec)
    ensures Dot(Times(k, a), b) == Mul(k, Dot(a, b))
    ensures Dot(a, Times(k, b)) == Mul(k, Dot(a, b))
  {
  }

  lemma DotSelf(a: Vec)
    ensures Dot(a, a) >= 0.0
    ensures a.x * a.x <= Dot(a, a)
  {
  }

  lemma CrossAdd(a: Vec, b: Vec, c: Vec)
    ensures Cross(Add(a, b), c) == Add(Cross(a, c), Cross(b, c))
    ensures Cross(c, Add(a, b)) == Add(Cross(c, a), Cross(c, b))
  {
  }

  lemma MinorTimes(k: real, a: real, b: real, c: real, d: real)
    ensures (k * a) * b - (k * c) * d == k * (a * b - c * d)
    ensures a * (k * b) - c * (k * d) == k * (a * b - c * d)
  {
  }

  lemma CrossTimes(k: real, a: Vec, b: Vec)
    ensures Cross(Times(k, a), b) == Times(k, Cross(a, b))
    ensures Cross(a, Times(k, b)) == Times(k, Cross(a, b))
  {
    var c := Times(k, Cross(a, b));
    assert c.x == k * (a.y * b.z - a.z * b.y);
    MinorTimes(k, a.y, b.z, a.z, b.y);
    assert c.y == k * (a.z * b.x - a.x * b.z);
    MinorTimes(k, a.z, b.x, a.x, b.z);
    assert c.z == k * (a.x * b.y - a.y * b.x);
    MinorTimes(k, a.x, b.y, a.y, b.x);
  }

  lemma TripleProduct(w: Vec, r: Vec, t: Vec)
    ensures Dot(w, Cross(r, t)) == Dot(t, Cross(w, r))
  {
  }

  lemma CrossLength(a: Vec, b: Vec)
    ensures Dot(Cross(a, b), Cross(a, b)) == Dot(a, a) * Dot(b, b) - Dot(a, b) * Dot(a, b)
  {
  }

  lemma DoubleCrossPart(a: real, b: real, c: real, p: real, q: real, r: real, nn: real, nt: real)
    requires nn == a * a + b * b + c * c && nt == a * p + b * q + c * r
    ensures (c * p - a * r) * c - (a * q - b * p) * b == nn * p - nt * a
  {
  }

  lemma DoubleCross(n: Vec, t: Vec)
    ensures Cross(Cross(n, t), n) == Sub(Times(Dot(n, n), t), Times(Dot(n, t), n))
  {
    var nn, nt := Dot(n, n), Dot(n, t);
    DoubleCrossPart(n.x, n.y, n.z, t.x, t.y, t.z, nn, nt);
    DoubleCrossPart(n.y, n.z, n.x, t.y, t.z, t.x, nn, nt);
    DoubleCrossPart(n.z, n.x, n.y, t.z, t.x, t.y, nn, nt);
  }

  lemma OverIsTimes(a: Vec, k: real)
    requires k != 0.0
    ensures Over(a, k) == Times(1.0 / k, a)
    ensures Times(k, Over(a, k)) == a
  {
  }

  lemma UnitOver(d: Vec, k: real)
    requires k > 0.0 && k * k == Dot(d, d)
    ensures Dot(Over(d, k), Over(d, k)) == 1.0
  {
    var q := 1.0 / k;
    assert q * k == 1.0;
    OverIsTimes(d, k);
    DotTimes(q, d, Times(q, d));
    DotTimes(q, d, d);
    assert q * (q * (k * k)) == (q * k) * (q * k);
  }

  lemma TimesTwice(a: real, b: real, t: Vec)
    ensures Times(a, Times(b, t)) == Times(Mul(a, b), t)
  {
  }

  lemma CrossSigns(a: Vec, b: Vec)
    ensures Cross(a, b) == Neg(Cross(b, a)) && Cross(Neg(a), b) == Neg(Cross(a, b))
  {
  }
}
