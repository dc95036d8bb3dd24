/** Why the time-step bound keeps the scheme positive: under it no cell is ever asked for
    more water than it holds, in either sweep, so the step conserves volume exactly. */
module HydroCfl {
  import opened Options
  import opened Roots
  import opened HydroKernel
  import opened HydroConservation

  // Bound the north sweep meets, and the one left for the east sweep after depths have grown.
  const NORTH_COURANT: real := 0.4545
  const GROWTH: real := 1.4545
  const EAST_COURANT: real := 0.5445

  // ---- one face ----

  function Depth(h: real): real { Max(h, 0.0) }

  function Speed(h: real, u: real): real { EffectiveVelocity(Depth(h), u) }

  function Signal(root: real -> real, hL: real, uL: real, hR: real, uR: real, g: real): real {
    FaceSpeed(root, Depth(hL), Speed(hL, uL), Depth(hR), Speed(hR, uR), g)
  }

  /** Mass flux split into what leaves the left cell and what leaves the right cell. */
  lemma FluxSplit(root: real -> real, hL: real, uL: real, hR: real, uR: real, g: real)
    requires NearRoot(root)
    ensures var s, a, b := Signal(root, hL, uL, hR, uR, g), Speed(hL, uL), Speed(hR, uR);
            && -s <= a <= s && -s <= b <= s
            && Rusanov(root, hL, uL, hR, uR, g).mass == Crossing(Depth(hL), a, Depth(hR), b, s)
  {
  }

  /** What leaves the left cell less what leaves the right one, at signal speed s. */
  function Crossing(dL: real, a: real, dR: real, b: real, s: real): real {
    0.5 * (dL * (a + s)) - 0.5 * (dR * (s - b))
  }

  lemma InflowBound(d: real, v: real, s: real, top: real)
    requires 0.0 <= d <= top && 0.0 <= v <= 2.0 * s
    ensures 0.0 <= d * v <= 2.0 * (top * s)
  {
  }

  function Remaining(d: real, inv: real, s: real, x: real): real {
    d - inv * (0.5 * (d * s) - 0.5 * x)
  }

  function GrossInflow(sP: real, sM: real, dP: real, eP: real, dM: real, eM: real): real {
    dP * (sP - eP) + dM * (eM + sM)
  }

  lemma CellNet(d: real, e: real, inv: real, sP: real, sM: real, dP: real, eP: real, dM: real, eM: real)
    ensures Moved(d, inv, Crossing(d, e, dP, eP, sP), Crossing(dM, eM, d, e, sM))
         == Remaining(d, inv, sP + sM, GrossInflow(sP, sM, dP, eP, dM, eM))
  {
  }

  lemma Sums(inv: real, sP: real, sM: real, top: real)
    ensures inv * (sP + sM) == inv * sP + inv * sM
    ensures 2.0 * (top * (sP + sM)) == 2.0 * (top * sP) + 2.0 * (top * sM)
  {
  }

  lemma CellShares(inv: real, sP: real, sM: real, dP: real, eP: real, dM: real, eM: real, top: real, q: real)
    requires 0.0 <= dP <= top && 0.0 <= dM <= top
    requires -sP <= eP <= sP && -sM <= eM <= sM
    requires Mul(inv, sP) <= q && Mul(inv, sM) <= q
    ensures Mul(inv, sP + sM) <= 2.0 * q
    ensures 0.0 <= GrossInflow(sP, sM, dP, eP, dM, eM) <= 2.0 * (top * (sP + sM))
  {
    InflowBound(dP, sP - eP, sP, top);
    InflowBound(dM, eM + sM, sM, top);
    Sums(inv, sP, sM, top);
  }

  /** One cell with own depth d and velocity e between two faces: bounds on the depth left
      after moving water with Courant number inv, all neighbours at most `top` deep. */
  lemma CellBudget(d: real, e: real, inv: real, sP: real, sM: real,
                   dP: real, eP: real, dM: real, eM: real, top: real, q: real)
    requires 0.0 <= d <= top && 0.0 <= dP <= top && 0.0 <= dM <= top && inv >= 0.0
    requires -sP <= e <= sP && -sP <= eP <= sP && -sM <= e <= sM && -sM <= eM <= sM
    requires Mul(inv, sP) <= q && Mul(inv, sM) <= q && q <= 1.0
    ensures 0.0 <= Moved(d, inv, Crossing(d, e, dP, eP, sP), Crossing(dM, eM, d, e, sM)) <= Mul(1.0 + q, top)
  {
    CellShares(inv, sP, sM, dP, eP, dM, eM, top, q);
    BudgetBounds(d, inv, sP + sM, GrossInflow(sP, sM, dP, eP, dM, eM), top, q);
    CellNet(d, e, inv, sP, sM, dP, eP, dM, eM);
  }

  /** With s the sum of the two signal speeds and x the gross inflow. */
  lemma BudgetBounds(d: real, inv: real, s: real, x: real, top: real, q: real)
    requires 0.0 <= d <= top && 0.0 <= inv && 0.0 <= s && Mul(inv, s) <= 2.0 * q && q <= 1.0
    requires 0.0 <= x <= 2.0 * (top * s)
    ensures 0.0 <= Remaining(d, inv, s, x) <= Mul(1.0 + q, top)
  {
    var t := 0.5 * (inv * s);
    ProductSign(inv, s);
    Expand(d, inv, s, x);
    ProductSign(inv, x);
    InflowScaled(inv, x, top, s);
    ShareBounds(d, t, top, q, 0.5 * (inv * x));
  }

  lemma Expand(d: real, inv: real, s: real, x: real)
    ensures Remaining(d, inv, s, x) == d - (0.5 * (inv * s)) * d + 0.5 * (inv * x)
  {
  }

  lemma InflowScaled(inv: real, x: real, top: real, s: real)
    requires 0.0 <= inv && x <= 2.0 * (top * s)
    ensures 0.5 * (inv * x) <= 2.0 * ((0.5 * (inv * s)) * top)
  {
  }

  lemma ShareBounds(d: real, t: real, top: real, q: real, gain: real)
    requires 0.0 <= d <= top && 0.0 <= t <= q <= 1.0 && 0.0 <= gain <= 2.0 * (t * top)
    ensures 0.0 <= d - t * d + gain <= Mul(1.0 + q, top)
  {
    Scale(t, 1.0, d);
    ProductSign(1.0 - t, top - d);
    Scale(t, q, top);
    assert (1.0 - t) * (top - d) == top - d - t * top + t * d;
    assert Mul(1.0 + q, top) == top + q * top;
  }

  // ---- signal speeds ----

  lemma {:induction false} MaxDepthBounds(h: seq<real>, n: nat)
    requires n <= |h|
    ensures MaxDepth(h, n) >= 0.0 && forall k :: 0 <= k < n ==> h[k] <= MaxDepth(h, n)
  {
    if n > 0 {
      MaxDepthBounds(h, n - 1);
    }
  }

  lemma {:induction false} MaxSpeedBounds(un: seq<real>, ue: seq<real>, n: nat)
    requires n <= |un| && n <= |ue|
    ensures MaxSpeed(un, ue, n) >= 0.0
    ensures forall k :: 0 <= k < n ==> Abs(un[k]) <= MaxSpeed(un, ue, n) && Abs(ue[k]) <= MaxSpeed(un, ue, n)
  {
    if n > 0 {
      MaxSpeedBounds(un, ue, n - 1);
    }
  }

  lemma {:induction false} DepthIsAttained(h: seq<real>, n: nat)
    requires n <= |h|
    ensures MaxDepth(h, n) == 0.0 || exists k :: 0 <= k < n && h[k] == MaxDepth(h, n)
  {
    if n > 0 {
      DepthIsAttained(h, n - 1);
      if MaxDepth(h, n) == h[n - 1] {
        assert h[n - 1] == MaxDepth(h, n);
      }
    }
  }

  lemma {:induction false} SpeedIsAttained(un: seq<real>, ue: seq<real>, n: nat)
    requires n <= |un| && n <= |ue|
    ensures forall k :: 0 <= k < n ==> Abs(un[k]) + Abs(ue[k]) <= MaxSpeed(un, ue, n)
    ensures MaxSpeed(un, ue, n) == 0.0 || exists k :: 0 <= k < n && Abs(un[k]) + Abs(ue[k]) == MaxSpeed(un, ue, n)
  {
    if n > 0 {
      SpeedIsAttained(un, ue, n - 1);
    }
  }

  ghost predicate LargestDepth(f: Field, n: nat, depth: real)
    requires n <= |f.h|
  {
    (forall k :: 0 <= k < n ==> f.h[k] <= depth) && (depth == 0.0 || exists k :: 0 <= k < n && f.h[k] == depth)
  }

  ghost predicate LargestSpeed(f: Field, n: nat, speed: real)
    requires n <= |f.un| && n <= |f.ue|
  {
    && (forall k :: 0 <= k < n ==> Abs(f.un[k]) + Abs(f.ue[k]) <= speed)
    && (speed == 0.0 || exists k :: 0 <= k < n && Abs(f.un[k]) + Abs(f.ue[k]) == speed)
  }

  lemma Maxima(f: Field, n: nat)
    requires n <= |f.h| && n <= |f.un| && n <= |f.ue|
    ensures LargestDepth(f, n, MaxDepth(f.h, n)) && LargestSpeed(f, n, MaxSpeed(f.un, f.ue, n))
  {
    MaxDepthBounds(f.h, n);
    DepthIsAttained(f.h, n);
    SpeedIsAttained(f.un, f.ue, n);
  }

  lemma SpeedIs(root: real -> real, g: real, depth: real, speed: real)
    ensures SpeedOf(root, g, depth, speed) == root(Max(g * depth, 0.0)) + speed + 0.001
  {
  }

  /** The signal speed behind the count is no guess: its depth and its speed are each that of some cell of the
      grid, or zero, and no cell has more of either. */
  lemma SignalIsAttained(root: real -> real, grid: Grid, f: Field) returns (depth: real, speed: real)
    requires |f.h| >= grid.Cells() && |f.un| >= grid.Cells() && |f.ue| >= grid.Cells()
    ensures LargestDepth(f, grid.Cells(), depth) && LargestSpeed(f, grid.Cells(), speed)
    ensures SignalSpeed(root, grid, f) == root(Max(grid.g * depth, 0.0)) + speed + 0.001
  {
    depth, speed := MaxDepth(f.h, grid.Cells()), MaxSpeed(f.un, f.ue, grid.Cells());
    Maxima(f, grid.Cells());
    SpeedIs(root, grid.g, depth, speed);
  }

  lemma HeadGrowth(g: real, d: real, top: real, k: real)
    requires 0.0 <= d <= k * top && 0.0 <= top && 0.0 <= k
    ensures 0.0 <= Max(g * d, 0.0) <= k * Max(g * top, 0.0)
  {
    if g >= 0.0 {
      Scale(d, k * top, g);
      ProductSign(g, d);
      ProductSign(g, top);
      assert (k * top) * g == k * (g * top);
    } else {
      ProductSign(-g, d);
      ProductSign(k, Max(g * top, 0.0));
    }
  }

  /** Depths up to k*top and speeds up to u make waves at most r times the signal speed. */
  lemma WaveBound(root: real -> real, g: real, d: real, e: real, top: real, u: real, k: real, r: real)
    requires NearRoot(root) && 0.0 <= d <= k * top && 0.0 <= top && 0.0 <= k && Abs(e) <= u
    requires 1.0 <= r && (1.0 + ROOT_SLACK) * k <= r * r
    ensures WaveSpeed(root, d, e, g) <= r * SpeedOf(root, g, top, u)
  {
    var x, y := Max(g * d, 0.0), Max(g * top, 0.0);
    HeadGrowth(g, d, top, k);
    RootGrowth(root, x, y, k, r);
    WaveSum(root(x), root(y), e, u, r);
  }

  lemma WaveSum(a: real, b: real, e: real, u: real, r: real)
    requires 0.0 <= a <= r * b && 0.0 <= b && Abs(e) <= u && 1.0 <= r
    ensures Abs(e) + a <= r * (b + u + 0.001)
  {
  }

  ghost predicate Bounded(grid: Grid, h: seq<real>, u: seq<real>, top: real, umax: real)
    requires |h| >= grid.Cells() && |u| >= grid.Cells()
  {
    forall k: nat :: k < grid.Cells() ==> Depth(h[k]) <= top && Abs(u[k]) <= umax
  }

  ghost predicate SignalsBelow(root: real -> real, g: real, top: real, umax: real, s: real) {
    forall d: real, e: real :: 0.0 <= d <= top && Abs(e) <= umax ==> WaveSpeed(root, d, e, g) <= s
  }

  lemma SignalBelow(root: real -> real, hL: real, uL: real, hR: real, uR: real, g: real, top: real, umax: real, s: real)
    requires SignalsBelow(root, g, top, umax, s)
    requires Depth(hL) <= top && Depth(hR) <= top && Abs(uL) <= umax && Abs(uR) <= umax
    ensures Signal(root, hL, uL, hR, uR, g) <= s
  {
  }

  /** The face on the far side of a wet cell, as what crosses it. */
  lemma FarFace(root: real -> real, grid: Grid, still: seq<real>, h: seq<real>, u: seq<real>, i: int, j: int, di: int,
                dj: int,
                top: real, umax: real, s: real) returns (d: real, e: real, sP: real)
    requires NearRoot(root) && |still| >= grid.Cells() && |h| >= grid.Cells() && |u| >= grid.Cells()
    requires Bounded(grid, h, u, top, umax) && SignalsBelow(root, grid.g, top, umax, s)
    requires WetCell(grid, still, i, j).Some?
    ensures var k := WetCell(grid, still, i, j).value;
            && 0.0 <= d <= top && -sP <= e <= sP && sP <= s && -sP <= Speed(h[k], u[k]) <= sP
            && FaceFlux(root, grid, still, h, u, i, j, di, dj).mass
               == Crossing(Depth(h[k]), Speed(h[k], u[k]), d, e, sP)
  {
    var k := WetCell(grid, still, i, j).value;
    var hR, uR := h[k], -u[k];
    var other := WetCell(grid, still, i + di, j + dj);
    if other.Some? {
      hR, uR := h[other.value], u[other.value];
    }
    assert FaceFlux(root, grid, still, h, u, i, j, di, dj) == Rusanov(root, h[k], u[k], hR, uR, grid.g);
    d, e, sP := Depth(hR), Speed(hR, uR), Signal(root, h[k], u[k], hR, uR, grid.g);
    FluxSplit(root, h[k], u[k], hR, uR, grid.g);
    SignalBelow(root, h[k], u[k], hR, uR, grid.g, top, umax, s);
  }

  /** The face on the near side, whose right cell is (i+di, j+dj). */
  lemma NearFace(root: real -> real, grid: Grid, still: seq<real>, h: seq<real>, u: seq<real>, i: int, j: int, di: int,
                 dj: int,
                 top: real, umax: real, s: real) returns (d: real, e: real, sM: real)
    requires NearRoot(root) && |still| >= grid.Cells() && |h| >= grid.Cells() && |u| >= grid.Cells()
    requires Bounded(grid, h, u, top, umax) && SignalsBelow(root, grid.g, top, umax, s)
    requires WetCell(grid, still, i + di, j + dj).Some?
    ensures var k := WetCell(grid, still, i + di, j + dj).value;
            && 0.0 <= d <= top && -sM <= e <= sM && sM <= s && -sM <= Speed(h[k], u[k]) <= sM
            && FaceFlux(root, grid, still, h, u, i, j, di, dj).mass
               == Crossing(d, e, Depth(h[k]), Speed(h[k], u[k]), sM)
  {
    var k := WetCell(grid, still, i + di, j + dj).value;
    var hL, uL := h[k], -u[k];
    var other := WetCell(grid, still, i, j);
    if other.Some? {
      hL, uL := h[other.value], u[other.value];
    }
    assert FaceFlux(root, grid, still, h, u, i, j, di, dj) == Rusanov(root, hL, uL, h[k], u[k], grid.g);
    d, e, sM := Depth(hL), Speed(hL, uL), Signal(root, hL, uL, h[k], u[k], grid.g);
    FluxSplit(root, hL, uL, h[k], u[k], grid.g);
    SignalBelow(root, hL, uL, h[k], u[k], grid.g, top, umax, s);
  }

  function Along(f: Field, alongN: bool): seq<real> {
    if alongN then f.un else f.ue
  }

  /** Both faces of a wet cell, as what crosses them. */
  lemma CellFaces(root: real -> real, grid: Grid, still: seq<real>, f: Field, alongN: bool, k: nat,
                  top: real, umax: real, s: real)
    returns (dP: real, eP: real, sP: real, dM: real, eM: real, sM: real)
    requires NearRoot(root) && Sized(grid, still, f) && k < grid.Cells() && still[k] > 0.0
    requires Bounded(grid, f.h, Along(f, alongN), top, umax) && SignalsBelow(root, grid.g, top, umax, s)
    ensures 0.0 <= dP <= top && -sP <= eP <= sP <= s && 0.0 <= dM <= top && -sM <= eM <= sM <= s
    ensures var i: int, j: int, e := (grid.CellAt(k); grid.Row(k)), grid.Col(k), Speed(f.h[k], Along(f, alongN)[k]);
            && -sP <= e <= sP && -sM <= e <= sM
            && PlusFlux(root, grid, still, f, alongN, i, j).mass == Crossing(Depth(f.h[k]), e, dP, eP, sP)
            && MinusFlux(root, grid, still, f, alongN, i, j).mass == Crossing(dM, eM, Depth(f.h[k]), e, sM)
  {
    grid.CellAt(k);
    var i: int, j: int := grid.Row(k), grid.Col(k);
    var u := Along(f, alongN);
    assert WetCell(grid, still, i, j) == Some(k);
    if alongN {
      dP, eP, sP := FarFace(root, grid, still, f.h, u, i, j, 1, 0, top, umax, s);
      dM, eM, sM := NearFace(root, grid, still, f.h, u, i - 1, j, 1, 0, top, umax, s);
    } else {
      dP, eP, sP := FarFace(root, grid, still, f.h, u, i, j, 0, 1, top, umax, s);
      dM, eM, sM := NearFace(root, grid, still, f.h, u, i, j - 1, 0, 1, top, umax, s);
    }
  }

  lemma DryCellFits(root: real -> real, grid: Grid, still: seq<real>, f: Field, alongN: bool, dt: real, k: nat)
    requires Sized(grid, still, f) && k < grid.Cells() && still[k] <= 0.0
    ensures RawDepth(root, grid, still, f, alongN, dt, k) == 0.0
  {
    DryCellIsIsolated(root, grid, still, f, alongN, k);
  }

  lemma CourantShare(inv: real, s: real, top: real, q: real)
    requires 0.0 <= inv && s <= top && Mul(inv, top) <= q
    ensures Mul(inv, s) <= q
  {
  }

  lemma RawIsMoved(root: real -> real, grid: Grid, still: seq<real>, f: Field, alongN: bool, dt: real, k: nat,
                   plus: real, minus: real)
    requires Sized(grid, still, f) && k < grid.Cells() && still[k] > 0.0
    requires var i: int, j: int := (grid.CellAt(k); grid.Row(k)), grid.Col(k);
             PlusFlux(root, grid, still, f, alongN, i, j).mass == plus
             && MinusFlux(root, grid, still, f, alongN, i, j).mass == minus
    ensures RawDepth(root, grid, still, f, alongN, dt, k) == Moved(Depth(f.h[k]), Courant(dt, grid.dx), plus, minus)
  {
  }

  lemma BudgetWithin(d: real, e: real, inv: real, sP: real, sM: real, dP: real, eP: real, dM: real, eM: real,
                     top: real, s: real, q: real, plus: real, minus: real)
    requires 0.0 <= d <= top && 0.0 <= dP <= top && 0.0 <= dM <= top && inv >= 0.0
    requires -sP <= e <= sP && -sP <= eP <= sP <= s && -sM <= e <= sM && -sM <= eM <= sM <= s
    requires Mul(inv, s) <= q && q <= 1.0
    requires plus == Crossing(d, e, dP, eP, sP) && minus == Crossing(dM, eM, d, e, sM)
    ensures 0.0 <= Moved(d, inv, plus, minus) <= Mul(1.0 + q, top)
  {
    CourantShare(inv, sP, s, q);
    CourantShare(inv, sM, s, q);
    CellBudget(d, e, inv, sP, sM, dP, eP, dM, eM, top, q);
  }

  lemma WetCellFits(root: real -> real, grid: Grid, still: seq<real>, f: Field, alongN: bool, dt: real, k: nat,
                    top: real, umax: real, s: real, q: real)
    requires NearRoot(root) && Sized(grid, still, f) && k < grid.Cells() && dt >= 0.0 && still[k] > 0.0
    requires Bounded(grid, f.h, Along(f, alongN), top, umax) && SignalsBelow(root, grid.g, top, umax, s)
    requires 0.0 <= q <= 1.0 && Mul(Courant(dt, grid.dx), s) <= q
    ensures 0.0 <= RawDepth(root, grid, still, f, alongN, dt, k) <= Mul(1.0 + q, top)
  {
    var d, e, inv := Depth(f.h[k]), Speed(f.h[k], Along(f, alongN)[k]), Courant(dt, grid.dx);
    CourantSign(dt, grid.dx);
    var dP, eP, sP, dM, eM, sM := CellFaces(root, grid, still, f, alongN, k, top, umax, s);
    assert 0.0 <= d <= top && 0.0 <= inv && Mul(inv, s) <= q;
    var plus, minus := Crossing(d, e, dP, eP, sP), Crossing(dM, eM, d, e, sM);
    BudgetWithin(d, e, inv, sP, sM, dP, eP, dM, eM, top, s, q, plus, minus);
    RawIsMoved(root, grid, still, f, alongN, dt, k, plus, minus);
  }

  /** Under a Courant bound q a cell neither runs dry nor grows past (1+q) times the deepest. */
  lemma CellFits(root: real -> real, grid: Grid, still: seq<real>, f: Field, alongN: bool, dt: real, k: nat,
                 top: real, umax: real, s: real, q: real)
    requires NearRoot(root) && Sized(grid, still, f) && k < grid.Cells() && dt >= 0.0
    requires Bounded(grid, f.h, Along(f, alongN), top, umax) && SignalsBelow(root, grid.g, top, umax, s)
    requires 0.0 <= top && 0.0 <= q <= 1.0 && Mul(Courant(dt, grid.dx), s) <= q
    ensures 0.0 <= RawDepth(root, grid, still, f, alongN, dt, k) <= Mul(1.0 + q, top)
  {
    if still[k] <= 0.0 {
      DryCellFits(root, grid, still, f, alongN, dt, k);
      ProductSign(1.0 + q, top);
    } else {
      WetCellFits(root, grid, still, f, alongN, dt, k, top, umax, s, q);
    }
  }

  lemma CourantSign(dt: real, dx: real)
    requires dt >= 0.0
    ensures Courant(dt, dx) >= 0.0
  {
  }

  // ---- one substep ----

  lemma SignalsFor(root: real -> real, g: real, top: real, umax: real, k: real, r: real)
    requires NearRoot(root) && 0.0 <= top && 0.0 <= k && 1.0 <= r && (1.0 + ROOT_SLACK) * k <= r * r
    ensures SignalsBelow(root, g, Mul(k, top), umax, Mul(r, SpeedOf(root, g, top, umax)))
  {
    forall d: real, e: real | 0.0 <= d <= Mul(k, top) && Abs(e) <= umax
      ensures WaveSpeed(root, d, e, g) <= Mul(r, SpeedOf(root, g, top, umax))
    {
      WaveBound(root, g, d, e, top, umax, k, r);
    }
  }

  lemma SweepFits(root: real -> real, grid: Grid, still: seq<real>, f: Field, alongN: bool, dt: real,
                  top: real, umax: real, s: real, q: real)
    requires NearRoot(root) && Sized(grid, still, f) && dt >= 0.0
    requires Bounded(grid, f.h, Along(f, alongN), top, umax) && SignalsBelow(root, grid.g, top, umax, s)
    requires 0.0 <= top && 0.0 <= q <= 1.0 && Mul(Courant(dt, grid.dx), s) <= q
    ensures Fits(root, grid, still, f, alongN, dt)
    ensures forall k: nat :: k < grid.Cells() ==>
              0.0 <= Swept(root, grid, still, f, alongN, dt).h[k] <= Mul(1.0 + q, top)
  {
    forall k: nat | k < grid.Cells()
      ensures 0.0 <= RawDepth(root, grid, still, f, alongN, dt, k) <= Mul(1.0 + q, top)
    {
      CellFits(root, grid, still, f, alongN, dt, k, top, umax, s, q);
    }
    SweepIsLegal(root, grid, still, f, alongN, dt);
    forall k: nat | k < grid.Cells()
      ensures 0.0 <= Swept(root, grid, still, f, alongN, dt).h[k] <= Mul(1.0 + q, top)
    {
      assert RawDepths(root, grid, still, f, alongN, dt)[k] == RawDepth(root, grid, still, f, alongN, dt, k);
    }
  }

  /** The north sweep leaves east velocities alone, except that land comes to rest. */
  lemma NorthSweepKeepsEast(root: real -> real, grid: Grid, still: seq<real>, f: Field, dt: real, umax: real)
    requires Sized(grid, still, f) && 0.0 <= umax && forall k: nat :: k < grid.Cells() ==> Abs(f.ue[k]) <= umax
    ensures forall k: nat :: k < grid.Cells() ==> Abs(Swept(root, grid, still, f, true, dt).ue[k]) <= umax
  {
  }

  lemma CourantScaled(inv: real, r: real, c: real, q: real)
    requires 0.0 <= r && Mul(inv, c) <= 0.45 && 0.45 * r <= q
    ensures Mul(inv, Mul(r, c)) <= q
  {
  }

  ghost predicate CourantBound(root: real -> real, grid: Grid, f: Field, dt: real)
    requires |f.h| >= grid.Cells() && |f.un| >= grid.Cells() && |f.ue| >= grid.Cells()
  {
    Mul(Courant(dt, grid.dx),
        SpeedOf(root, grid.g, MaxDepth(f.h, grid.Cells()), MaxSpeed(f.un, f.ue, grid.Cells()))) <= 0.45
  }

  lemma NorthSweepFits(root: real -> real, grid: Grid, still: seq<real>, f: Field, dt: real, top: real, umax: real)
    requires NearRoot(root) && Sized(grid, still, f) && dt >= 0.0 && 0.0 <= top
    requires Bounded(grid, f.h, f.un, top, umax) && Mul(Courant(dt, grid.dx), SpeedOf(root, grid.g, top, umax)) <= 0.45
    ensures Fits(root, grid, still, f, true, dt)
    ensures forall k: nat :: k < grid.Cells() ==> 0.0 <= Swept(root, grid, still, f, true, dt).h[k] <= Mul(GROWTH, top)
  {
    var c := SpeedOf(root, grid.g, top, umax);
    SignalsFor(root, grid.g, top, umax, 1.0, 1.01);
    CourantScaled(Courant(dt, grid.dx), 1.01, c, NORTH_COURANT);
    SweepFits(root, grid, still, f, true, dt, Mul(1.0, top), umax, Mul(1.01, c), NORTH_COURANT);
  }

  /** Depths have grown by at most GROWTH, which the east sweep's bound still absorbs. */
  lemma EastSweepFits(root: real -> real, grid: Grid, still: seq<real>, f: Field, dt: real, top: real, umax: real)
    requires NearRoot(root) && Sized(grid, still, f) && dt >= 0.0 && 0.0 <= top
    requires Bounded(grid, f.h, f.ue, Mul(GROWTH, top), umax)
    requires Mul(Courant(dt, grid.dx), SpeedOf(root, grid.g, top, umax)) <= 0.45
    ensures Fits(root, grid, still, f, false, dt)
  {
    var c := SpeedOf(root, grid.g, top, umax);
    SignalsFor(root, grid.g, top, umax, GROWTH, 1.21);
    CourantScaled(Courant(dt, grid.dx), 1.21, c, EAST_COURANT);
    SweepFits(root, grid, still, f, false, dt, Mul(GROWTH, top), umax, Mul(1.21, c), EAST_COURANT);
  }

  lemma InitialBounds(grid: Grid, f: Field)
    requires |f.h| >= grid.Cells() && |f.un| >= grid.Cells() && |f.ue| >= grid.Cells()
    ensures var top, umax := MaxDepth(f.h, grid.Cells()), MaxSpeed(f.un, f.ue, grid.Cells());
            0.0 <= top && 0.0 <= umax && Bounded(grid, f.h, f.un, top, umax) && Bounded(grid, f.h, f.ue, top, umax)
  {
    MaxDepthBounds(f.h, grid.Cells());
    MaxSpeedBounds(f.un, f.ue, grid.Cells());
  }

  lemma EastBounds(grid: Grid, a: Field, top: real, umax: real)
    requires |a.h| >= grid.Cells() && |a.un| >= grid.Cells() && |a.ue| >= grid.Cells() && 0.0 <= Mul(GROWTH, top)
    requires forall k: nat :: k < grid.Cells() ==> 0.0 <= a.h[k] <= Mul(GROWTH, top) && Abs(a.ue[k]) <= umax
    ensures Bounded(grid, a.h, a.ue, Mul(GROWTH, top), umax)
  {
  }

  /** Within the Courant bound neither sweep of a substep ever clamps. */
  lemma CourantSubstepFits(root: real -> real, grid: Grid, still: seq<real>, f: Field, dt: real)
    requires NearRoot(root) && Sized(grid, still, f) && dt >= 0.0 && CourantBound(root, grid, f, dt)
    ensures SubstepFits(root, grid, still, f, dt)
  {
    var n := grid.Cells();
    var top, umax := MaxDepth(f.h, n), MaxSpeed(f.un, f.ue, n);
    InitialBounds(grid, f);
    NorthSweepFits(root, grid, still, f, dt, top, umax);
    NorthSweepKeepsEast(root, grid, still, f, dt, umax);
    EastBounds(grid, Swept(root, grid, still, f, true, dt), top, umax);
    EastSweepFits(root, grid, still, Swept(root, grid, still, f, true, dt), dt, top, umax);
  }

  // ---- one step ----

  ghost predicate SubstepsBounded(root: real -> real, grid: Grid, still: seq<real>, f: Field, dt: real, windN: real,
                                  windE: real, m: nat)
    requires Sized(grid, still, f) && dt >= 0.0
  {
    m > 0 ==> SubstepsBounded(root, grid, still, f, dt, windN, windE, m - 1) &&
              CourantBound(root, grid, Substeps(root, grid, still, f, dt, windN, windE, m - 1), dt)
  }

  /** If every substep starts within the Courant bound, none clamps. */
  lemma {:induction false} BoundedSubstepsFit(root: real -> real, grid: Grid, still: seq<real>, f: Field, dt: real,
                                              windN: real, windE: real, m: nat)
    requires NearRoot(root) && Sized(grid, still, f) && dt >= 0.0
    requires SubstepsBounded(root, grid, still, f, dt, windN, windE, m)
    ensures SubstepsFit(root, grid, still, f, dt, windN, windE, m)
  {
    if m > 0 {
      BoundedSubstepsFit(root, grid, still, f, dt, windN, windE, m - 1);
      CourantSubstepFits(root, grid, still, Substeps(root, grid, still, f, dt, windN, windE, m - 1), dt);
    }
  }

  /** A single substep is chosen when the Courant ratio is at most one - or when it does not
      fit in 32 bits, because the ceiling then reads as zero. */
  lemma SingleSubstepIff(root: real -> real, grid: Grid, f: Field, dt: real)
    requires |f.h| >= grid.Cells() && |f.un| >= grid.Cells() && |f.ue| >= grid.Cells()
    ensures CflSubsteps(root, grid, f, dt) == 1 <==>
            (CflRatio(root, grid, f, dt) <= 1.0 || CflRatio(root, grid, f, dt) > MAX_I32_AS_F32)
  {
  }

  /** The substep count is the smallest that brings the Courant ratio of a substep to one, cut at
      sixteen - until the ratio no longer fits in 32 bits and the count falls back to one. */
  lemma SubstepCountIs(root: real -> real, grid: Grid, f: Field, dt: real)
    requires |f.h| >= grid.Cells() && |f.un| >= grid.Cells() && |f.ue| >= grid.Cells()
    ensures var x, n := CflRatio(root, grid, f, dt), CflSubsteps(root, grid, f, dt);
            && (x <= 16.0 ==> x <= n as real && (n == 1 || (n - 1) as real < x))
            && (16.0 < x <= MAX_I32_AS_F32 ==> n == 16)
            && (x > MAX_I32_AS_F32 ==> n == 1)
  {
  }

  /** The ceiling, of either sign, as far as 32 bits hold it. */
  lemma CeilBounds(x: real)
    ensures if Abs(x) <= MAX_I32_AS_F32 then x <= Ceil(x) as real < x + 1.0 else Ceil(x) == 0
  {
  }

  lemma RatioIsCourant(inv: real, dt: real, c: real, dx: real)
    requires dx >= 0.001 && inv == Courant(dt, dx) && CourantNumber(dt, c, dx) <= 1.0
    ensures Mul(inv, c) <= 0.45
  {
  }

  /** While the count is not capped it is right for the field it was taken of: the first sub-step never
      clamps.  Later ones start from fields the count has not seen. */
  lemma FirstSubstepFits(root: real -> real, grid: Grid, still: seq<real>, f: Field, dt: real)
    requires NearRoot(root) && Sized(grid, still, f) && grid.dx >= 0.001 && 0.0 < dt < 1.0
    requires CflRatio(root, grid, f, dt) <= 16.0
    ensures SubstepFits(root, grid, still, f, dt / CflSubsteps(root, grid, f, dt) as real)
  {
    var n := CflSubsteps(root, grid, f, dt);
    var dti, c := dt / n as real, SignalSpeed(root, grid, f);
    SubstepCountIs(root, grid, f, dt);
    ShareOfRatio(dt, n as real, c, grid.dx);
    RatioIsCourant(Courant(dti, grid.dx), dti, c, grid.dx);
    CourantSubstepFits(root, grid, still, f, dti);
  }

  lemma ShareOfRatio(dt: real, n: real, c: real, dx: real)
    requires dx >= 0.001 && 0.0 < dt && n >= 1.0 && CourantNumber(dt, c, dx) <= n
    ensures 0.0 <= dt / n && CourantNumber(dt / n, c, dx) <= 1.0
  {
    var x, y, w := CourantNumber(dt, c, dx), CourantNumber(dt / n, c, dx), 0.45 * dx;
    assert y * w == (dt / n) * c && x * w == dt * c;
    assert (y * n) * w == x * w;
    assert y * n == x;
    if y > 1.0 {
      ScaleStrict(1.0, y, n);
    }
  }

  lemma UnclampedSingleStepFits(root: real -> real, grid: Grid, still: seq<real>, f: Field, dt: real, windN: real,
                                windE: real)
    requires NearRoot(root) && Sized(grid, still, f) && grid.dx >= 0.001 && 0.0 < dt < 1.0
    requires CflRatio(root, grid, f, dt) <= 1.0
    ensures SubstepsFit(root, grid, still, f, dt, windN, windE, 1)
  {
    RatioIsCourant(Courant(dt, grid.dx), dt, SignalSpeed(root, grid, f), grid.dx);
    OneSubstepBounded(root, grid, still, f, dt, windN, windE);
    BoundedSubstepsFit(root, grid, still, f, dt, windN, windE, 1);
  }

  lemma OneSubstepBounded(root: real -> real, grid: Grid, still: seq<real>, f: Field, dt: real, windN: real,
                          windE: real)
    requires Sized(grid, still, f) && dt >= 0.0 && CourantBound(root, grid, f, dt)
    ensures SubstepsBounded(root, grid, still, f, dt, windN, windE, 1)
  {
  }

  lemma WholeStep(dt: real, m: nat)
    requires m == 1
    ensures dt / m as real == dt
  {
  }

  lemma SingleStepFits(root: real -> real, grid: Grid, still: seq<real>, f: Field, dt: real, windN: real, windE: real)
    requires Sized(grid, still, f) && 0.0 < dt < 1.0 && CflSubsteps(root, grid, f, dt) == 1
    requires SubstepsFit(root, grid, still, f, dt, windN, windE, 1)
    ensures StepFits(root, grid, still, f, dt, windN, windE)
  {
    var m, dti := StepIsSubsteps(root, grid, still, f, dt, windN, windE);
    WholeStep(dt, m);
  }

  /** When one unclamped substep suffices, a whole step keeps the volume exactly, every depth
      non-negative and the land dry, and no positivity clamp ever fires. */
  lemma CflStepConserves(root: real -> real, grid: Grid, still: seq<real>, f: Field, dt: real, windN: real, windE: real)
    requires NearRoot(root) && Sized(grid, still, f) && Filled(grid, still, f)
    requires grid.dx >= 0.001 && 0.0 < dt < 1.0
    requires CflSubsteps(root, grid, f, dt) == 1 && CflRatio(root, grid, f, dt) <= MAX_I32_AS_F32
    ensures var r := Stepped(root, grid, still, f, dt, windN, windE);
            Legal(grid, still, r) && Total(r.h) == Total(f.h) && StepFits(root, grid, still, f, dt, windN, windE)
  {
    SingleSubstepIff(root, grid, f, dt);
    UnclampedSingleStepFits(root, grid, still, f, dt, windN, windE);
    SingleStepFits(root, grid, still, f, dt, windN, windE);
    StepConservesIff(root, grid, still, f, dt, windN, windE);
    StepNeverLosesWater(root, grid, still, f, dt, windN, windE);
  }

  // ---- the checked invariants ----

  function OverArea(total: real, dx: real): real { total * dx * dx }

  function Volume(h: seq<real>, dx: real): real { OverArea(Total(h), dx) }

  /** What the repository's own checker demands of a field, `volume0` the volume it started with. */
  predicate HydroInvariants(still: seq<real>, h: seq<real>, volume0: real, dx: real) {
    && (forall k :: 0 <= k < |h| ==> h[k] >= -0.000001)
    && Abs(Volume(h, dx) - volume0) <= 0.0025 * Max(Abs(volume0), 1.0) + 0.001
    && (forall k :: 0 <= k < |h| && k < |still| ==> still[k] > 0.0 || h[k] <= H_DRY)
  }

  lemma LegalFieldPasses(grid: Grid, still: seq<real>, r: Field, before: seq<real>, volume0: real)
    requires Sized(grid, still, r) && Legal(grid, still, r) && |r.h| == |before|
    requires HydroInvariants(still, before, volume0, grid.dx)
    requires r.h[grid.Cells()..] == before[grid.Cells()..] && Volume(r.h, grid.dx) == Volume(before, grid.dx)
    ensures HydroInvariants(still, r.h, volume0, grid.dx)
  {
    LegalIsFilled(grid, still, r);
    forall k | 0 <= k < |r.h|
      ensures r.h[k] >= -0.000001 && (k < |still| ==> still[k] > 0.0 || r.h[k] <= H_DRY)
    {
      if k >= grid.Cells() {
        assert r.h[k] == r.h[grid.Cells()..][k - grid.Cells()] == before[k];
      }
    }
  }

  /** A step short enough for one substep passes the checker wherever the field before it did,
      against whatever volume, and adds nothing to the difference in volume. */
  lemma CflStepPassesInvariants(root: real -> real, grid: Grid, still: seq<real>, f: Field, dt: real,
                                windN: real, windE: real, volume0: real)
    requires NearRoot(root) && Sized(grid, still, f) && Filled(grid, still, f)
    requires HydroInvariants(still, f.h, volume0, grid.dx)
    requires grid.dx >= 0.001 && 0.0 < dt < 1.0
    requires CflSubsteps(root, grid, f, dt) == 1 && CflRatio(root, grid, f, dt) <= MAX_I32_AS_F32
    ensures var r := Stepped(root, grid, still, f, dt, windN, windE);
            HydroInvariants(still, r.h, volume0, grid.dx) && Volume(r.h, grid.dx) == Volume(f.h, grid.dx)
  {
    CflStepConserves(root, grid, still, f, dt, windN, windE);
    var m, dti := StepIsSubsteps(root, grid, still, f, dt, windN, windE);
    SubstepsKeepTail(root, grid, still, f, dti, windN, windE, m);
    LegalFieldPasses(grid, still, Stepped(root, grid, still, f, dt, windN, windE), f.h, volume0);
  }

  /** A field that fills the grid and no more starts out passing. */
  lemma FilledGridPasses(grid: Grid, still: seq<real>, f: Field)
    requires Sized(grid, still, f) && Filled(grid, still, f) && |f.h| == grid.Cells()
    ensures HydroInvariants(still, f.h, Volume(f.h, grid.dx), grid.dx)
  {
  }
}
