/** Water bookkeeping of the shallow-water step: no sweep, on any grid and any land mask,
    loses water; it gains some exactly where the positivity clamp fires. */
module HydroConservation {
  import opened Options
  import opened Roots
  import opened HydroKernel

  // ---- sums ----

  lemma TotalStep(s: seq<real>, k: nat)
    requires k < |s|
    ensures Total(s[..k + 1]) == Total(s[..k]) + s[k]
  {
    assert s[..k + 1][..k] == s[..k];
  }

  lemma {:induction false} TotalSplit(s: seq<real>, n: nat)
    requires n <= |s|
    ensures Total(s) == Total(s[..n]) + Total(s[n..])
  {
    if n == |s| {
      assert s[..n] == s;
    } else {
      var t := s[..|s| - 1];
      TotalSplit(t, n);
      assert t[..n] == s[..n];
      assert t[n..] == s[n..][..|s| - 1 - n];
    }
  }

  lemma {:induction false} TotalOrder(a: seq<real>, b: seq<real>)
    requires |a| == |b| && forall k :: 0 <= k < |a| ==> a[k] <= b[k]
    ensures Total(a) <= Total(b)
    ensures Total(a) == Total(b) <==> a == b
  {
    if |a| > 0 {
      var p, q := a[..|a| - 1], b[..|a| - 1];
      TotalOrder(p, q);
      assert a == p + [a[|a| - 1]] && b == q + [b[|a| - 1]];
      if Total(a) == Total(b) {
        assert a == b;
      }
    }
  }

  /** Sum of a - c*d, term by term. */
  lemma {:induction false} TotalCombine(r: seq<real>, a: seq<real>, c: real, d: seq<real>)
    requires |r| == |a| == |d| && forall k :: 0 <= k < |r| ==> r[k] == a[k] - Mul(c, d[k])
    ensures Total(r) == Total(a) - Mul(c, Total(d))
  {
    if |r| > 0 {
      var m := |r| - 1;
      TotalCombine(r[..m], a[..m], c, d[..m]);
      var t, x := Total(d[..m]), d[m];
      assert Mul(c, t + x) == Mul(c, t) + Mul(c, x);
    }
  }

  function LineSum(m: (int, int) -> real, i: int, j: nat): real {
    if j == 0 then 0.0 else LineSum(m, i, j - 1) + m(i, j - 1)
  }

  lemma {:induction false} LineSumZero(m: (int, int) -> real, i: int, j: nat)
    requires forall b: nat :: b < j ==> m(i, b) == 0.0
    ensures LineSum(m, i, j) == 0.0
  {
    if j > 0 {
      LineSumZero(m, i, j - 1);
    }
  }

  lemma NextRow(grid: Grid, i: nat)
    ensures grid.Idx(i + 1, 0) == grid.Idx(i, grid.ny)
  {
  }

  /** Differences along north telescope: the partial sum up to (i, j) is what crosses the
      staircase of faces just north of the cells already counted. */
  lemma {:induction false} TelescopeNorth(grid: Grid, m: (int, int) -> real, d: seq<real>, i: nat, j: nat)
    requires grid.ny > 0 && |d| == grid.Cells() && ((grid.InBounds(i, 0) && j <= grid.ny) || (i == grid.nx && j == 0))
    requires forall a: nat, b: nat {:trigger grid.Idx(a, b)} :: grid.InBounds(a, b) ==>
              grid.Idx(a, b) < |d| && d[grid.Idx(a, b)] == m(a, b) - m(a - 1, b)
    requires forall b: nat :: b < grid.ny ==> m(-1, b) == 0.0
    ensures grid.Idx(i, j) <= |d|
    ensures Total(d[..grid.Idx(i, j)]) == LineSum(m, i - 1, grid.ny) + LineSum(m, i, j) - LineSum(m, i - 1, j)
    decreases i, j
  {
    if j > 0 {
      TelescopeNorth(grid, m, d, i, j - 1);
      assert grid.InBounds(i, j - 1);
      TotalStep(d, grid.Idx(i, j - 1));
      assert grid.Idx(i, j - 1) + 1 == grid.Idx(i, j);
    } else if i > 0 {
      TelescopeNorth(grid, m, d, i - 1, grid.ny);
      NextRow(grid, i - 1);
    } else {
      LineSumZero(m, -1, grid.ny);
    }
  }

  lemma {:induction false} TelescopeEast(grid: Grid, m: (int, int) -> real, d: seq<real>, i: nat, j: nat)
    requires grid.ny > 0 && |d| == grid.Cells() && ((grid.InBounds(i, 0) && j <= grid.ny) || (i == grid.nx && j == 0))
    requires forall a: nat, b: nat {:trigger grid.Idx(a, b)} :: grid.InBounds(a, b) ==>
              grid.Idx(a, b) < |d| && d[grid.Idx(a, b)] == m(a, b) - m(a, b - 1)
    requires forall a: nat :: a < grid.nx ==> m(a, -1) == 0.0 && m(a, grid.ny - 1) == 0.0
    ensures grid.Idx(i, j) <= |d|
    ensures Total(d[..grid.Idx(i, j)]) == if j == 0 then 0.0 else m(i, j - 1)
    decreases i, j
  {
    if j > 0 {
      TelescopeEast(grid, m, d, i, j - 1);
      assert grid.InBounds(i, j - 1);
      TotalStep(d, grid.Idx(i, j - 1));
      assert grid.Idx(i, j - 1) + 1 == grid.Idx(i, j);
    } else if i > 0 {
      TelescopeEast(grid, m, d, i - 1, grid.ny);
      NextRow(grid, i - 1);
      assert m(i - 1, -1) == 0.0;
    }
  }

  // ---- walls ----

  lemma ReflectingWallHasNoMassFlux(root: real -> real, h: real, u: real, g: real)
    ensures Rusanov(root, h, u, h, -u, g).mass == 0.0 && Rusanov(root, h, -u, h, u, g).mass == 0.0
    ensures Rusanov(root, 0.0, 0.0, 0.0, 0.0, g).mass == 0.0
  {
  }

  /** A face with a missing or dry side carries no water. */
  lemma ClosedFace(root: real -> real, grid: Grid, still: seq<real>, h: seq<real>, u: seq<real>, i: int, j: int,
                   di: int, dj: int)
    requires |still| >= grid.Cells() && |h| >= grid.Cells() && |u| >= grid.Cells()
    requires WetCell(grid, still, i, j).None? || WetCell(grid, still, i + di, j + dj).None?
    ensures FaceFlux(root, grid, still, h, u, i, j, di, dj).mass == 0.0
  {
    match (WetCell(grid, still, i, j), WetCell(grid, still, i + di, j + dj))
    case (Some(l), None) => ReflectingWallHasNoMassFlux(root, h[l], u[l], grid.g);
    case (None, Some(r)) => ReflectingWallHasNoMassFlux(root, h[r], u[r], grid.g);
    case (None, None) => ReflectingWallHasNoMassFlux(root, 0.0, 0.0, grid.g);
  }

  // ---- one sweep ----

  /** Depth a sweep takes a cell to hold before it moves water. */
  function Held(still: real, h: real): real {
    if still <= 0.0 then 0.0 else Max(h, 0.0)
  }

  function HeldDepths(grid: Grid, still: seq<real>, f: Field): seq<real>
    requires Sized(grid, still, f)
  {
    seq(grid.Cells(), k requires 0 <= k < grid.Cells() => Held(still[k], f.h[k]))
  }

  /** Water crossing the face between (i, j) and its far neighbour along the axis. */
  ghost function FaceMass(root: real -> real, grid: Grid, still: seq<real>, f: Field, alongN: bool): (int, int) -> real
    requires Sized(grid, still, f)
  {
    if alongN then (i: int, j: int) => FaceFlux(root, grid, still, f.h, f.un, i, j, 1, 0).mass
    else (i: int, j: int) => FaceFlux(root, grid, still, f.h, f.ue, i, j, 0, 1).mass
  }

  ghost function Near(alongN: bool, m: (int, int) -> real, i: int, j: int): real {
    if alongN then m(i - 1, j) else m(i, j - 1)
  }

  function DivergenceAt(root: real -> real, grid: Grid, still: seq<real>, f: Field, alongN: bool, k: nat): real
    requires Sized(grid, still, f) && k < grid.Cells()
  {
    grid.CellAt(k);
    PlusFlux(root, grid, still, f, alongN, grid.Row(k), grid.Col(k)).mass
    - MinusFlux(root, grid, still, f, alongN, grid.Row(k), grid.Col(k)).mass
  }

  function Divergence(root: real -> real, grid: Grid, still: seq<real>, f: Field, alongN: bool): seq<real>
    requires Sized(grid, still, f)
  {
    seq(grid.Cells(), k requires 0 <= k < grid.Cells() => DivergenceAt(root, grid, still, f, alongN, k))
  }

  /** Depth before the positivity clamp. */
  function RawDepth(root: real -> real, grid: Grid, still: seq<real>, f: Field, alongN: bool, dt: real, k: nat): real
    requires Sized(grid, still, f) && k < grid.Cells()
  {
    grid.CellAt(k);
    Moved(Held(still[k], f.h[k]), Courant(dt, grid.dx),
          PlusFlux(root, grid, still, f, alongN, grid.Row(k), grid.Col(k)).mass,
          MinusFlux(root, grid, still, f, alongN, grid.Row(k), grid.Col(k)).mass)
  }

  function RawDepths(root: real -> real, grid: Grid, still: seq<real>, f: Field, alongN: bool, dt: real): seq<real>
    requires Sized(grid, still, f)
  {
    seq(grid.Cells(), k requires 0 <= k < grid.Cells() => RawDepth(root, grid, still, f, alongN, dt, k))
  }

  lemma DivergenceIsDifference(root: real -> real, grid: Grid, still: seq<real>, f: Field, alongN: bool, i: nat, j: nat)
    requires Sized(grid, still, f) && grid.InBounds(i, j)
    ensures grid.Idx(i, j) < grid.Cells()
    ensures var m := FaceMass(root, grid, still, f, alongN);
            DivergenceAt(root, grid, still, f, alongN, grid.Idx(i, j)) == m(i, j) - Near(alongN, m, i, j)
  {
    grid.CellOf(i, j);
  }

  lemma BoundaryIsClosed(root: real -> real, grid: Grid, still: seq<real>, f: Field, alongN: bool, b: int)
    requires Sized(grid, still, f)
    ensures var m := FaceMass(root, grid, still, f, alongN);
            if alongN then m(-1, b) == m(grid.nx - 1, b) == 0.0 else m(b, -1) == m(b, grid.ny - 1) == 0.0
  {
    if alongN {
      ClosedFace(root, grid, still, f.h, f.un, -1, b, 1, 0);
      ClosedFace(root, grid, still, f.h, f.un, grid.nx - 1, b, 1, 0);
    } else {
      ClosedFace(root, grid, still, f.h, f.ue, b, -1, 0, 1);
      ClosedFace(root, grid, still, f.h, f.ue, b, grid.ny - 1, 0, 1);
    }
  }

  /** Differences of a face quantity that vanishes on the boundary sum to zero. */
  lemma Telescope(grid: Grid, alongN: bool, m: (int, int) -> real, d: seq<real>)
    requires |d| == grid.Cells()
    requires forall a: nat, b: nat {:trigger grid.Idx(a, b)} :: grid.InBounds(a, b) ==>
              grid.Idx(a, b) < |d| && d[grid.Idx(a, b)] == m(a, b) - Near(alongN, m, a, b)
    requires forall b: nat ::
              if alongN then m(-1, b) == m(grid.nx - 1, b) == 0.0 else m(b, -1) == m(b, grid.ny - 1) == 0.0
    ensures Total(d) == 0.0
  {
    if grid.nx == 0 || grid.ny == 0 {
      assert d == [];
      return;
    }
    assert grid.Idx(grid.nx, 0) == |d| && d[..|d|] == d;
    if alongN {
      TelescopeNorth(grid, m, d, grid.nx, 0);
      var last := grid.nx - 1;
      forall b: nat | b < grid.ny ensures m(last, b) == 0.0 {
        assert m(-1, b) == 0.0;
      }
      LineSumZero(m, last, grid.ny);
      assert LineSum(m, grid.nx, 0) == LineSum(m, last, 0) == 0.0;
    } else {
      TelescopeEast(grid, m, d, grid.nx, 0);
    }
  }

  lemma FluxesCancel(root: real -> real, grid: Grid, still: seq<real>, f: Field, alongN: bool)
    requires Sized(grid, still, f)
    ensures Total(Divergence(root, grid, still, f, alongN)) == 0.0
  {
    var d, m := Divergence(root, grid, still, f, alongN), FaceMass(root, grid, still, f, alongN);
    forall a: nat, b: nat | grid.InBounds(a, b)
      ensures grid.Idx(a, b) < |d| && d[grid.Idx(a, b)] == m(a, b) - Near(alongN, m, a, b)
    {
      DivergenceIsDifference(root, grid, still, f, alongN, a, b);
    }
    forall b: nat
      ensures if alongN then m(-1, b) == m(grid.nx - 1, b) == 0.0 else m(b, -1) == m(b, grid.ny - 1) == 0.0
    {
      BoundaryIsClosed(root, grid, still, f, alongN, b);
    }
    Telescope(grid, alongN, m, d);
  }

  /** A dry cell exchanges nothing. */
  lemma DryCellIsIsolated(root: real -> real, grid: Grid, still: seq<real>, f: Field, alongN: bool, k: nat)
    requires Sized(grid, still, f) && k < grid.Cells() && still[k] <= 0.0
    ensures var i: int, j: int := (grid.CellAt(k); grid.Row(k)), grid.Col(k);
            PlusFlux(root, grid, still, f, alongN, i, j).mass
            == MinusFlux(root, grid, still, f, alongN, i, j).mass == 0.0
  {
    grid.CellAt(k);
    var i: int, j: int := grid.Row(k), grid.Col(k);
    assert WetCell(grid, still, i, j).None?;
    if alongN {
      ClosedFace(root, grid, still, f.h, f.un, i, j, 1, 0);
      ClosedFace(root, grid, still, f.h, f.un, i - 1, j, 1, 0);
    } else {
      ClosedFace(root, grid, still, f.h, f.ue, i, j, 0, 1);
      ClosedFace(root, grid, still, f.h, f.ue, i, j - 1, 0, 1);
    }
  }

  lemma SweptDepthIsRaw(root: real -> real, grid: Grid, still: seq<real>, f: Field, alongN: bool, dt: real, k: nat)
    requires Sized(grid, still, f) && k < grid.Cells()
    ensures var c := SweptCell(root, grid, still, f, alongN, dt, k);
            c.h == Max(RawDepth(root, grid, still, f, alongN, dt, k), 0.0)
            && (still[k] <= 0.0 ==> c == Cell(0.0, 0.0, 0.0))
  {
    grid.CellAt(k);
    if still[k] <= 0.0 {
      DryCellIsIsolated(root, grid, still, f, alongN, k);
    }
  }

  lemma RawIsHeldMinusNet(root: real -> real, grid: Grid, still: seq<real>, f: Field, alongN: bool, dt: real, k: nat,
                          held: real, inv: real, net: real)
    requires Sized(grid, still, f) && k < grid.Cells()
    requires held == Held(still[k], f.h[k]) && inv == Courant(dt, grid.dx)
    requires net == DivergenceAt(root, grid, still, f, alongN, k)
    ensures RawDepth(root, grid, still, f, alongN, dt, k) == held - Mul(inv, net)
  {
    grid.CellAt(k);
    MovedBy(held, inv, PlusFlux(root, grid, still, f, alongN, grid.Row(k), grid.Col(k)).mass,
            MinusFlux(root, grid, still, f, alongN, grid.Row(k), grid.Col(k)).mass, net);
  }

  lemma MovedBy(q: real, inv: real, plus: real, minus: real, net: real)
    requires net == plus - minus
    ensures Moved(q, inv, plus, minus) == q - Mul(inv, net)
  {
  }

  lemma RawDepthsSplit(root: real -> real, grid: Grid, still: seq<real>, f: Field, alongN: bool, dt: real, k: nat,
                       inv: real, net: real)
    requires Sized(grid, still, f) && k < grid.Cells()
    requires inv == Courant(dt, grid.dx) && net == Divergence(root, grid, still, f, alongN)[k]
    ensures RawDepths(root, grid, still, f, alongN, dt)[k] == HeldDepths(grid, still, f)[k] - Mul(inv, net)
  {
    RawIsHeldMinusNet(root, grid, still, f, alongN, dt, k, HeldDepths(grid, still, f)[k], inv, net);
  }

  /** Before the clamp a sweep moves water without creating or destroying any. */
  lemma SweepMovesWater(root: real -> real, grid: Grid, still: seq<real>, f: Field, alongN: bool, dt: real)
    requires Sized(grid, still, f)
    ensures Total(RawDepths(root, grid, still, f, alongN, dt)) == Total(HeldDepths(grid, still, f))
  {
    var raw, held := RawDepths(root, grid, still, f, alongN, dt), HeldDepths(grid, still, f);
    var d := Divergence(root, grid, still, f, alongN);
    var inv := Courant(dt, grid.dx);
    forall k | 0 <= k < |raw|
      ensures raw[k] == held[k] - Mul(inv, d[k])
    {
      RawDepthsSplit(root, grid, still, f, alongN, dt, k, inv, d[k]);
    }
    TotalCombine(raw, held, inv, d);
    FluxesCancel(root, grid, still, f, alongN);
    assert Mul(inv, 0.0) == 0.0;
  }

  // ---- what every sweep, substep and step keeps ----

  /** Water the scheme works with: what the wet cells hold. */
  function Water(grid: Grid, still: seq<real>, f: Field): real
    requires Sized(grid, still, f)
  {
    Total(HeldDepths(grid, still, f))
  }

  ghost predicate DryLand(grid: Grid, still: seq<real>, f: Field)
    requires Sized(grid, still, f)
  {
    forall k :: 0 <= k < grid.Cells() && still[k] <= 0.0 ==> f.h[k] <= 0.0
  }

  /** Non-negative depth everywhere and no water on land. */
  ghost predicate Filled(grid: Grid, still: seq<real>, f: Field)
    requires Sized(grid, still, f)
  {
    forall k: nat :: k < grid.Cells() ==> f.h[k] >= 0.0 && (still[k] <= 0.0 ==> f.h[k] == 0.0)
  }

  /** Non-negative depth everywhere; land holds neither water nor motion. */
  ghost predicate Legal(grid: Grid, still: seq<real>, f: Field)
    requires Sized(grid, still, f)
  {
    forall k: nat :: k < grid.Cells() ==> f.h[k] >= 0.0 && (still[k] <= 0.0 ==> CellIn(f, k) == Cell(0.0, 0.0, 0.0))
  }

  /** No cell is asked to give more water than it holds: the clamp stays silent. */
  ghost predicate Fits(root: real -> real, grid: Grid, still: seq<real>, f: Field, alongN: bool, dt: real)
    requires Sized(grid, still, f)
  {
    forall k: nat :: k < grid.Cells() ==> RawDepth(root, grid, still, f, alongN, dt, k) >= 0.0
  }

  lemma LegalIsFilled(grid: Grid, still: seq<real>, f: Field)
    requires Sized(grid, still, f) && Legal(grid, still, f)
    ensures Filled(grid, still, f)
  {
    forall k: nat | k < grid.Cells() ensures still[k] <= 0.0 ==> f.h[k] == 0.0 {
      assert still[k] <= 0.0 ==> CellIn(f, k) == Cell(0.0, 0.0, 0.0);
    }
  }

  lemma FilledWaterIsDepth(grid: Grid, still: seq<real>, f: Field)
    requires Sized(grid, still, f) && Filled(grid, still, f)
    ensures HeldDepths(grid, still, f) == f.h[..grid.Cells()]
    ensures Water(grid, still, f) == Total(f.h[..grid.Cells()])
  {
  }

  lemma SweepIsLegal(root: real -> real, grid: Grid, still: seq<real>, f: Field, alongN: bool, dt: real)
    requires Sized(grid, still, f)
    ensures Legal(grid, still, Swept(root, grid, still, f, alongN, dt))
    ensures forall k: nat :: k < grid.Cells() ==>
              Swept(root, grid, still, f, alongN, dt).h[k] == Max(RawDepths(root, grid, still, f, alongN, dt)[k], 0.0)
  {
    var r := Swept(root, grid, still, f, alongN, dt);
    forall k: nat | k < grid.Cells()
      ensures r.h[k] >= 0.0 && (still[k] <= 0.0 ==> CellIn(r, k) == Cell(0.0, 0.0, 0.0))
      ensures r.h[k] == Max(RawDepths(root, grid, still, f, alongN, dt)[k], 0.0)
    {
      assert CellIn(r, k) == SweptCell(root, grid, still, f, alongN, dt, k);
      SweptDepthIsRaw(root, grid, still, f, alongN, dt, k);
    }
  }

  /** A sweep never loses water, and keeps the amount exactly iff no clamp fires. */
  lemma SweepNeverLosesWater(root: real -> real, grid: Grid, still: seq<real>, f: Field, alongN: bool, dt: real)
    requires Sized(grid, still, f)
    ensures var r := Swept(root, grid, still, f, alongN, dt);
            && Legal(grid, still, r)
            && Water(grid, still, r) >= Water(grid, still, f)
            && (Water(grid, still, r) == Water(grid, still, f) <==> Fits(root, grid, still, f, alongN, dt))
  {
    var n, r, raw := grid.Cells(), Swept(root, grid, still, f, alongN, dt), RawDepths(root, grid, still, f, alongN, dt);
    SweepIsLegal(root, grid, still, f, alongN, dt);
    SweepMovesWater(root, grid, still, f, alongN, dt);
    LegalIsFilled(grid, still, r);
    FilledWaterIsDepth(grid, still, r);
    TotalOrder(raw, r.h[..n]);
    if Fits(root, grid, still, f, alongN, dt) {
      forall k | 0 <= k < n ensures raw[k] == r.h[..n][k] {
        assert RawDepth(root, grid, still, f, alongN, dt, k) >= 0.0;
      }
      assert raw == r.h[..n];
    } else {
      var k: nat :| k < n && RawDepth(root, grid, still, f, alongN, dt, k) < 0.0;
      assert raw[k] != r.h[..n][k];
    }
  }

  /** Wind, friction and pinning leave a legal field's depths alone. */
  lemma RelaxKeepsDepth(grid: Grid, still: seq<real>, f: Field, dt: real, windN: real, windE: real)
    requires Sized(grid, still, f) && Legal(grid, still, f) && dt >= 0.0
    ensures var r := Relaxed(grid, still, f, dt, windN, windE);
            Legal(grid, still, r) && r.h == f.h && HeldDepths(grid, still, r) == HeldDepths(grid, still, f)
  {
    var s := Sourced(grid, still, f, dt, windN, windE);
    var r := Pinned(grid, still, s);
    forall k: nat | k < grid.Cells()
      ensures r.h[k] == f.h[k] >= 0.0 && (still[k] <= 0.0 ==> CellIn(r, k) == Cell(0.0, 0.0, 0.0))
    {
      assert CellIn(s, k) == SourcedCell(still[k], CellIn(f, k), dt, windN, windE);
      assert CellIn(r, k) == PinnedCell(still[k], CellIn(s, k));
    }
  }

  ghost predicate SubstepFits(root: real -> real, grid: Grid, still: seq<real>, f: Field, dt: real)
    requires Sized(grid, still, f)
  {
    Fits(root, grid, still, f, true, dt) && Fits(root, grid, still, Swept(root, grid, still, f, true, dt), false, dt)
  }

  lemma SubstepNeverLosesWater(root: real -> real, grid: Grid, still: seq<real>, f: Field, dt: real, windN: real,
                               windE: real)
    requires Sized(grid, still, f) && dt >= 0.0
    ensures var r := Substep(root, grid, still, f, dt, windN, windE);
            && Legal(grid, still, r)
            && Water(grid, still, r) >= Water(grid, still, f)
            && (Water(grid, still, r) == Water(grid, still, f) <==> SubstepFits(root, grid, still, f, dt))
  {
    var a := Swept(root, grid, still, f, true, dt);
    var b := Swept(root, grid, still, a, false, dt);
    SweepNeverLosesWater(root, grid, still, f, true, dt);
    SweepNeverLosesWater(root, grid, still, a, false, dt);
    RelaxKeepsDepth(grid, still, b, dt, windN, windE);
  }

  ghost predicate SubstepsFit(root: real -> real, grid: Grid, still: seq<real>, f: Field, dt: real, windN: real,
                              windE: real, m: nat)
    requires Sized(grid, still, f) && dt >= 0.0
  {
    m > 0 ==> SubstepsFit(root, grid, still, f, dt, windN, windE, m - 1) &&
              SubstepFits(root, grid, still, Substeps(root, grid, still, f, dt, windN, windE, m - 1), dt)
  }

  lemma {:induction false} SubstepsNeverLoseWater(root: real -> real, grid: Grid, still: seq<real>, f: Field, dt: real,
                                                  windN: real, windE: real, m: nat)
    requires Sized(grid, still, f) && dt >= 0.0
    ensures var r := Substeps(root, grid, still, f, dt, windN, windE, m);
            && (m > 0 ==> Legal(grid, still, r))
            && Water(grid, still, r) >= Water(grid, still, f)
            && (Water(grid, still, r) == Water(grid, still, f)
                <==> SubstepsFit(root, grid, still, f, dt, windN, windE, m))
  {
    if m > 0 {
      SubstepsNeverLoseWater(root, grid, still, f, dt, windN, windE, m - 1);
      var before := Substeps(root, grid, still, f, dt, windN, windE, m - 1);
      SubstepNeverLosesWater(root, grid, still, before, dt, windN, windE);
    }
  }

  lemma SubstepKeepsTail(root: real -> real, grid: Grid, still: seq<real>, f: Field, dt: real, windN: real, windE: real)
    requires Sized(grid, still, f) && dt >= 0.0
    ensures var r := Substep(root, grid, still, f, dt, windN, windE);
            |r.h| == |f.h| && r.h[grid.Cells()..] == f.h[grid.Cells()..]
  {
  }

  lemma {:induction false} SubstepsKeepTail(root: real -> real, grid: Grid, still: seq<real>, f: Field, dt: real,
                                            windN: real, windE: real, m: nat)
    requires Sized(grid, still, f) && dt >= 0.0
    ensures var r := Substeps(root, grid, still, f, dt, windN, windE, m);
            |r.h| == |f.h| && r.h[grid.Cells()..] == f.h[grid.Cells()..]
  {
    if m > 0 {
      SubstepsKeepTail(root, grid, still, f, dt, windN, windE, m - 1);
      SubstepKeepsTail(root, grid, still, Substeps(root, grid, still, f, dt, windN, windE, m - 1), dt, windN, windE);
    }
  }

  lemma DryLandWaterCoversDepth(grid: Grid, still: seq<real>, f: Field)
    requires Sized(grid, still, f) && DryLand(grid, still, f)
    ensures Water(grid, still, f) >= Total(f.h[..grid.Cells()])
  {
    TotalOrder(f.h[..grid.Cells()], HeldDepths(grid, still, f));
  }

  /** Whether no clamp fires anywhere in a step. */
  ghost predicate StepFits(root: real -> real, grid: Grid, still: seq<real>, f: Field, dt: real, windN: real,
                           windE: real)
    requires Sized(grid, still, f)
  {
    0.0 < dt < 1.0 ==>
      var m := CflSubsteps(root, grid, f, dt);
      SubstepsFit(root, grid, still, f, dt / m as real, windN, windE, m)
  }

  lemma StepIsSubsteps(root: real -> real, grid: Grid, still: seq<real>, f: Field, dt: real, windN: real,
                       windE: real) returns (m: nat, dti: real)
    requires Sized(grid, still, f) && 0.0 < dt < 1.0
    ensures m == CflSubsteps(root, grid, f, dt) && m > 0 && dti == dt / m as real && dti > 0.0
    ensures Stepped(root, grid, still, f, dt, windN, windE) == Substeps(root, grid, still, f, dti, windN, windE, m)
    ensures StepFits(root, grid, still, f, dt, windN, windE) == SubstepsFit(root, grid, still, f, dti, windN, windE, m)
  {
    m := CflSubsteps(root, grid, f, dt);
    dti := dt / m as real;
  }

  /** For every grid, land mask, time step, wind and field with dry land, a step never loses
      water, even when the substep count is capped; it leaves every depth non-negative and
      every land cell at rest and empty. */
  lemma StepNeverLosesWater(root: real -> real, grid: Grid, still: seq<real>, f: Field, dt: real, windN: real,
                            windE: real)
    requires Sized(grid, still, f) && DryLand(grid, still, f)
    ensures var r := Stepped(root, grid, still, f, dt, windN, windE);
            Total(r.h) >= Total(f.h) && (0.0 < dt < 1.0 ==> Legal(grid, still, r))
  {
    if 0.0 < dt < 1.0 {
      var m, dti := StepIsSubsteps(root, grid, still, f, dt, windN, windE);
      var r := Substeps(root, grid, still, f, dti, windN, windE, m);
      SubstepsNeverLoseWater(root, grid, still, f, dti, windN, windE, m);
      SubstepsKeepTail(root, grid, still, f, dti, windN, windE, m);
      DryLandWaterCoversDepth(grid, still, f);
      LegalIsFilled(grid, still, r);
      FilledWaterIsDepth(grid, still, r);
      TotalSplit(f.h, grid.Cells());
      TotalSplit(r.h, grid.Cells());
    }
  }

  lemma RelaxingStopsThinWater(grid: Grid, still: seq<real>, f: Field, dt: real, windN: real, windE: real, k: nat)
    requires Sized(grid, still, f) && dt >= 0.0 && k < grid.Cells()
    ensures var r := Relaxed(grid, still, f, dt, windN, windE);
            r.h[k] < H_DRY ==> r.un[k] == 0.0 && r.ue[k] == 0.0
  {
    var s := Sourced(grid, still, f, dt, windN, windE);
    assert CellIn(Pinned(grid, still, s), k) == PinnedCell(still[k], CellIn(s, k));
  }

  /** After a step that runs, whatever the wind, no water thinner than a tenth of a millimetre moves. */
  lemma StepStopsThinWater(root: real -> real, grid: Grid, still: seq<real>, f: Field, dt: real, windN: real,
                           windE: real, k: nat)
    requires Sized(grid, still, f) && 0.0 < dt < 1.0 && k < grid.Cells()
    ensures var r := Stepped(root, grid, still, f, dt, windN, windE);
            r.h[k] < 0.0001 ==> r.un[k] == 0.0 && r.ue[k] == 0.0
  {
    var m, dti := StepIsSubsteps(root, grid, still, f, dt, windN, windE);
    var before := Substeps(root, grid, still, f, dti, windN, windE, m - 1);
    var swept := Swept(root, grid, still, Swept(root, grid, still, before, true, dti), false, dti);
    RelaxingStopsThinWater(grid, still, swept, dti, windN, windE, k);
  }

  /** From non-negative depths over dry land the volume is conserved exactly iff no clamp fires
      in the step. */
  lemma StepConservesIff(root: real -> real, grid: Grid, still: seq<real>, f: Field, dt: real, windN: real, windE: real)
    requires Sized(grid, still, f) && Filled(grid, still, f)
    ensures (Total(Stepped(root, grid, still, f, dt, windN, windE).h) == Total(f.h))
       <==> StepFits(root, grid, still, f, dt, windN, windE)
  {
    if 0.0 < dt < 1.0 {
      var m, dti := StepIsSubsteps(root, grid, still, f, dt, windN, windE);
      var r := Substeps(root, grid, still, f, dti, windN, windE, m);
      SubstepsNeverLoseWater(root, grid, still, f, dti, windN, windE, m);
      SubstepsKeepTail(root, grid, still, f, dti, windN, windE, m);
      FilledWaterIsDepth(grid, still, f);
      LegalIsFilled(grid, still, r);
      FilledWaterIsDepth(grid, still, r);
      TotalSplit(f.h, grid.Cells());
      TotalSplit(r.h, grid.Cells());
    }
  }
}
