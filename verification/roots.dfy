/** Square roots as the kernels use them.

    The repository carries its own `sqrtf`.  The numerical kernels never need more than
    a two-sided bound on the square of the value it returns, so they are written against
    any function that meets that bound; `FastRoot` proves the bound for the bit-shifting
    Newton root itself. */
module Roots {

  // Relative excess of root(x)^2 over x that three Newton steps leave behind.
  const ROOT_SLACK: real := 0.0000000000023

  function Max(a: real, b: real): real {
    if a >= b then a else b
  }

  function Min(a: real, b: real): real {
    if a <= b then a else b
  }

  /** A product by name, so that equal factors visibly give equal products. */
  function Mul(a: real, b: real): real {
    a * b
  }

  function Abs(a: real): real {
    if a >= 0.0 then a else -a
  }

  /** `root` never undershoots and overshoots by at most `ROOT_SLACK` in the square. */
  ghost predicate NearRoot(root: real -> real) {
    forall x: real :: x >= 0.0 ==> root(x) >= 0.0 && x <= root(x) * root(x) <= (1.0 + ROOT_SLACK) * x
  }

  ghost predicate ExactRoot(root: real -> real) {
    forall x: real :: x >= 0.0 ==> root(x) >= 0.0 && root(x) * root(x) == x
  }

  lemma ProductSign(a: real, b: real)
    ensures a > 0.0 && b > 0.0 ==> a * b > 0.0
    ensures a >= 0.0 && b >= 0.0 ==> a * b >= 0.0
  {
  }

  lemma Scale(a: real, b: real, c: real)
    requires a <= b && c >= 0.0
    ensures a * c <= b * c
  {
  }

  lemma SquareGrows(a: real, b: real)
    requires 0.0 <= b < a
    ensures b * b < a * a
  {
    calc {
      b * b;
    <=  { Scale(b, a, b); }
      a * b;
    <  { ProductSign(a - b, a); }
      a * a;
    }
  }

  lemma SquareOrder(a: real, b: real)
    requires a >= 0.0 && b >= 0.0 && a * a <= b * b
    ensures a <= b
  {
    if a > b {
      SquareGrows(a, b);
    }
  }

  lemma SquareSign(a: real)
    requires a != 0.0
    ensures a * a > 0.0
  {
    if a > 0.0 {
      ProductSign(a, a);
    } else {
      ProductSign(-a, -a);
      assert (-a) * (-a) == a * a;
    }
  }

  lemma RootAboveOne(root: real -> real, x: real)
    requires ExactRoot(root) && x >= 1.0
    ensures root(x) >= 1.0
  {
    var m := root(x);
    assert m >= 0.0 && m * m == x;
    SquareOrder(1.0, m);
  }

  lemma ScaleStrict(a: real, b: real, c: real)
    requires a < b && c > 0.0
    ensures a * c < b * c
  {
  }

  /** If x <= k*y, the root of x is at most r times the root of y once r^2 >= (1+slack)*k. */
  lemma RootGrowth(root: real -> real, x: real, y: real, k: real, r: real)
    requires NearRoot(root)
    requires 0.0 <= x <= k * y && 0.0 <= y && 0.0 <= k && 0.0 <= r
    requires (1.0 + ROOT_SLACK) * k <= r * r
    ensures root(x) <= r * root(y)
  {
    var a, b := root(x), root(y);
    var slack := 1.0 + ROOT_SLACK;
    assert a * a <= slack * x;
    assert slack * x <= slack * (k * y);
    assert slack * (k * y) == (slack * k) * y;
    assert (slack * k) * y <= (r * r) * y;
    assert (r * r) * y <= (r * r) * (b * b) by { assert y <= b * b; assert r * r >= 0.0; }
    assert (r * r) * (b * b) == (r * b) * (r * b);
    assert r * b >= 0.0;
    SquareOrder(a, r * b);
  }
}
