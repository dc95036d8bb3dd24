/** The shallow-water kernel as functions of values: one interface flux, one cell, one
    sweep, one relaxation, one step.  `HydroState` carries out the same arithmetic in place
    and is proved equal to these functions. */
module HydroKernel {
  import opened Options
  import opened Roots

  const H_DRY: real := 0.0001
  const FRICTION: real := 0.08
  const WIND_COEFF: real := 0.04
  const MAX_I32_AS_F32: real := 2147483648.0

  /** A row-major grid: row i runs north, column j runs east. */
  datatype Grid = Grid(nx: nat, ny: nat, dx: real, g: real, originN: real) {
    function Cells(): nat { nx * ny }

    function Idx(i: nat, j: nat): nat { i * ny + j }

    predicate InBounds(i: int, j: int) { 0 <= i < nx && 0 <= j < ny }

    function Row(k: nat): nat requires ny > 0 { k / ny }

    function Col(k: nat): nat requires ny > 0 { k % ny }

    lemma IdxBound(i: nat, j: nat)
      requires InBounds(i, j)
      ensures Idx(i, j) < Cells()
    {
      assert (i + 1) * ny <= nx * ny;
    }

    lemma CellOf(i: nat, j: nat)
      requires InBounds(i, j)
      ensures Idx(i, j) < Cells() && Row(Idx(i, j)) == i && Col(Idx(i, j)) == j
    {
      IdxBound(i, j);
      DivModUnique(i, j, ny);
    }

    lemma CellAt(k: nat)
      requires k < Cells()
      ensures ny > 0 && InBounds(Row(k), Col(k)) && k == Idx(Row(k), Col(k))
    {
    }
  }

  lemma ScaleNat(a: nat, b: nat, n: nat)
    requires a <= b
    ensures a * n <= b * n
  {
  }

  lemma DivModUnique(i: nat, j: nat, n: nat)
    requires j < n
    ensures (i * n + j) / n == i && (i * n + j) % n == j
  {
    var k := i * n + j;
    var q := k / n;
    if q > i {
      ScaleNat(i + 1, q, n);
    } else if q < i {
      ScaleNat(q + 1, i, n);
    }
  }

  datatype Flux = Flux(mass: real, mom: real)

  datatype Cell = Cell(h: real, un: real, ue: real)

  /** The three state arrays as values. */
  datatype Field = Field(h: seq<real>, un: seq<real>, ue: seq<real>)

  ghost predicate Sized(grid: Grid, still: seq<real>, f: Field) {
    |f.h| >= grid.Cells() && |f.un| >= grid.Cells() && |f.ue| >= grid.Cells() && |still| >= grid.Cells()
  }

  // ---- one interface ----

  function EffectiveVelocity(h: real, u: real): real {
    if h < H_DRY then 0.0 else u
  }

  function MomFlux(h: real, u: real, g: real): real {
    if h < H_DRY then 0.0 else h * u * u + 0.5 * g * h * h
  }

  function WaveSpeed(root: real -> real, h: real, u: real, g: real): real {
    Abs(u) + (if h < H_DRY then 0.0 else root(Max(g * h, 0.0)))
  }

  function FaceSpeed(root: real -> real, hL: real, uL: real, hR: real, uR: real, g: real): real {
    Max(WaveSpeed(root, hL, uL, g), WaveSpeed(root, hR, uR, g))
  }

  function MassFlux(hL: real, uL: real, hR: real, uR: real, s: real): real {
    0.5 * (hL * uL + hR * uR) - 0.5 * s * (hR - hL)
  }

  function MomentumFlux(hL: real, uL: real, hR: real, uR: real, g: real, s: real): real {
    0.5 * (MomFlux(hL, uL, g) + MomFlux(hR, uR, g)) - 0.5 * s * (hR * uR - hL * uL)
  }

  function Rusanov(root: real -> real, hLeft: real, uLeft: real, hRight: real, uRight: real, g: real): Flux {
    var hL, hR := Max(hLeft, 0.0), Max(hRight, 0.0);
    var uL, uR := EffectiveVelocity(hL, uLeft), EffectiveVelocity(hR, uRight);
    var s := FaceSpeed(root, hL, uL, hR, uR, g);
    Flux(MassFlux(hL, uL, hR, uR, s), MomentumFlux(hL, uL, hR, uR, g, s))
  }

  /** Index of a wet in-bounds cell. */
  function WetCell(grid: Grid, still: seq<real>, i: int, j: int): (r: Option<nat>)
    requires |still| >= grid.Cells()
    ensures r.Some? ==> grid.InBounds(i, j) && r.value == grid.Idx(i, j) < grid.Cells() && still[r.value] > 0.0
  {
    if !grid.InBounds(i, j) then None
    else
      grid.IdxBound(i, j);
      var k := grid.Idx(i, j);
      if still[k] <= 0.0 then None else Some(k)
  }

  /** Flux through the face between (i, j) and (i+di, j+dj); a missing or dry side reflects. */
  function FaceFlux(root: real -> real, grid: Grid, still: seq<real>, h: seq<real>, u: seq<real>,
                    i: int, j: int, di: int, dj: int): Flux
    requires |still| >= grid.Cells() && |h| >= grid.Cells() && |u| >= grid.Cells()
  {
    match (WetCell(grid, still, i, j), WetCell(grid, still, i + di, j + dj))
    case (Some(l), Some(r)) => Rusanov(root, h[l], u[l], h[r], u[r], grid.g)
    case (Some(l), None) => Rusanov(root, h[l], u[l], h[l], -u[l], grid.g)
    case (None, Some(r)) => Rusanov(root, h[r], -u[r], h[r], u[r], grid.g)
    case (None, None) => Rusanov(root, 0.0, 0.0, 0.0, 0.0, grid.g)
  }

  // ---- one cell ----

  function Courant(dt: real, dx: real): real {
    dt / Max(dx, 0.000001)
  }

  /** Explicit finite-volume update of one conserved quantity. */
  function Moved(q: real, inv: real, plus: real, minus: real): real {
    q - inv * (plus - minus)
  }

  function UpdatedCell(still: real, c: Cell, dt: real, dx: real, plus: Flux, minus: Flux, alongN: bool): Cell {
    if still <= 0.0 then Cell(0.0, 0.0, 0.0)
    else
      var inv := Courant(dt, dx);
      var h0 := Max(c.h, 0.0);
      var h1 := Max(Moved(h0, inv, plus.mass, minus.mass), 0.0);
      var u := if alongN then c.un else c.ue;
      var q1 := Moved(h0 * u, inv, plus.mom, minus.mom);
      var u1 := if h1 < H_DRY then 0.0 else q1 / h1;
      if alongN then Cell(h1, u1, c.ue) else Cell(h1, c.un, u1)
  }

  // ---- one sweep ----

  function CellIn(f: Field, k: nat): Cell
    requires k < |f.h| && k < |f.un| && k < |f.ue|
  {
    Cell(f.h[k], f.un[k], f.ue[k])
  }

  /** Fluxes through the far and near face of cell (i, j) along the sweep axis. */
  function PlusFlux(root: real -> real, grid: Grid, still: seq<real>, f: Field, alongN: bool, i: int, j: int): Flux
    requires Sized(grid, still, f)
  {
    if alongN then FaceFlux(root, grid, still, f.h, f.un, i, j, 1, 0)
    else FaceFlux(root, grid, still, f.h, f.ue, i, j, 0, 1)
  }

  function MinusFlux(root: real -> real, grid: Grid, still: seq<real>, f: Field, alongN: bool, i: int, j: int): Flux
    requires Sized(grid, still, f)
  {
    if alongN then FaceFlux(root, grid, still, f.h, f.un, i - 1, j, 1, 0)
    else FaceFlux(root, grid, still, f.h, f.ue, i, j - 1, 0, 1)
  }

  function SweptCell(root: real -> real, grid: Grid, still: seq<real>, f: Field, alongN: bool, dt: real, k: nat): Cell
    requires Sized(grid, still, f) && k < grid.Cells()
  {
    grid.CellAt(k);
    var i, j := grid.Row(k), grid.Col(k);
    UpdatedCell(still[k], CellIn(f, k), dt, grid.dx, PlusFlux(root, grid, still, f, alongN, i, j),
                MinusFlux(root, grid, still, f, alongN, i, j), alongN)
  }

  /** Entries past the grid are left alone by every pass. */
  function MapCells(grid: Grid, f: Field, cell: nat --> Cell): (r: Field)
    requires |f.h| >= grid.Cells() && |f.un| >= grid.Cells() && |f.ue| >= grid.Cells()
    requires forall k: nat :: k < grid.Cells() ==> cell.requires(k)
    ensures |r.h| == |f.h| && |r.un| == |f.un| && |r.ue| == |f.ue|
    ensures forall k: nat :: k < grid.Cells() ==> CellIn(r, k) == cell(k)
    ensures forall k :: grid.Cells() <= k < |f.h| ==> r.h[k] == f.h[k]
    ensures forall k :: grid.Cells() <= k < |f.un| ==> r.un[k] == f.un[k]
    ensures forall k :: grid.Cells() <= k < |f.ue| ==> r.ue[k] == f.ue[k]
  {
    var n := grid.Cells();
    Field(seq(|f.h|, k requires 0 <= k < |f.h| => if k < n then cell(k).h else f.h[k]),
          seq(|f.un|, k requires 0 <= k < |f.un| => if k < n then cell(k).un else f.un[k]),
          seq(|f.ue|, k requires 0 <= k < |f.ue| => if k < n then cell(k).ue else f.ue[k]))
  }

  /** Cell-by-cell agreement on the grid and off it is equality of fields. */
  lemma SameCells(grid: Grid, a: Field, b: Field)
    requires |a.h| == |b.h| >= grid.Cells() && |a.un| == |b.un| >= grid.Cells() && |a.ue| == |b.ue| >= grid.Cells()
    requires forall k: nat :: k < grid.Cells() ==> CellIn(a, k) == CellIn(b, k)
    requires forall k :: grid.Cells() <= k < |a.h| ==> a.h[k] == b.h[k]
    requires forall k :: grid.Cells() <= k < |a.un| ==> a.un[k] == b.un[k]
    requires forall k :: grid.Cells() <= k < |a.ue| ==> a.ue[k] == b.ue[k]
    ensures a == b
  {
    forall k: nat | k < grid.Cells()
      ensures a.h[k] == b.h[k] && a.un[k] == b.un[k] && a.ue[k] == b.ue[k]
    {
      assert CellIn(a, k) == CellIn(b, k);
    }
    assert a.h == b.h && a.un == b.un && a.ue == b.ue;
  }

  function Swept(root: real -> real, grid: Grid, still: seq<real>, f: Field, alongN: bool, dt: real): (r: Field)
    requires Sized(grid, still, f)
    ensures Sized(grid, still, r)
  {
    MapCells(grid, f, (k: nat) requires k < grid.Cells() => SweptCell(root, grid, still, f, alongN, dt, k))
  }

  lemma FaceFluxOfPrefix(root: real -> real, grid: Grid, still: seq<real>, h: seq<real>, u: seq<real>,
                         i: int, j: int, di: int, dj: int)
    requires |still| >= grid.Cells() && |h| >= grid.Cells() && |u| >= grid.Cells()
    ensures FaceFlux(root, grid, still, h[..grid.Cells()], u[..grid.Cells()], i, j, di, dj)
         == FaceFlux(root, grid, still, h, u, i, j, di, dj)
  {
  }

  lemma SweptAt(root: real -> real, grid: Grid, still: seq<real>, f: Field, alongN: bool, dt: real, i: nat, j: nat)
    requires Sized(grid, still, f) && grid.InBounds(i, j)
    ensures grid.Idx(i, j) < grid.Cells()
    ensures var k := grid.Idx(i, j);
            CellIn(Swept(root, grid, still, f, alongN, dt), k)
              == UpdatedCell(still[k], CellIn(f, k), dt, grid.dx, PlusFlux(root, grid, still, f, alongN, i, j),
                             MinusFlux(root, grid, still, f, alongN, i, j), alongN)
  {
    grid.CellOf(i, j);
    var k := grid.Idx(i, j);
    assert CellIn(Swept(root, grid, still, f, alongN, dt), k) == SweptCell(root, grid, still, f, alongN, dt, k);
  }

  // ---- relaxation ----

  function SourcedCell(still: real, c: Cell, dt: real, windN: real, windE: real): Cell
    requires dt >= 0.0
  {
    if still <= 0.0 then c
    else
      var damp := 1.0 / (1.0 + dt * FRICTION);
      var h := Max(c.h, H_DRY);
      Cell(c.h, (c.un + dt * WIND_COEFF * windN / h) * damp, (c.ue + dt * WIND_COEFF * windE / h) * damp)
  }

  function PinnedCell(still: real, c: Cell): Cell {
    if still <= 0.0 then Cell(0.0, 0.0, 0.0)
    else if c.h < H_DRY then Cell(Max(c.h, 0.0), 0.0, 0.0)
    else c
  }

  function Sourced(grid: Grid, still: seq<real>, f: Field, dt: real, windN: real, windE: real): (r: Field)
    requires Sized(grid, still, f) && dt >= 0.0
    ensures Sized(grid, still, r)
  {
    MapCells(grid, f, (k: nat) requires k < grid.Cells() => SourcedCell(still[k], CellIn(f, k), dt, windN, windE))
  }

  function Pinned(grid: Grid, still: seq<real>, f: Field): (r: Field)
    requires Sized(grid, still, f)
    ensures Sized(grid, still, r)
  {
    MapCells(grid, f, (k: nat) requires k < grid.Cells() => PinnedCell(still[k], CellIn(f, k)))
  }

  function Relaxed(grid: Grid, still: seq<real>, f: Field, dt: real, windN: real, windE: real): (r: Field)
    requires Sized(grid, still, f) && dt >= 0.0
    ensures Sized(grid, still, r)
  {
    Pinned(grid, still, Sourced(grid, still, f, dt, windN, windE))
  }

  // ---- one step ----

  function MaxDepth(h: seq<real>, n: nat): real
    requires n <= |h|
  {
    if n == 0 then 0.0 else Max(h[n - 1], MaxDepth(h, n - 1))
  }

  function MaxSpeed(un: seq<real>, ue: seq<real>, n: nat): real
    requires n <= |un| && n <= |ue|
  {
    if n == 0 then 0.0 else Max(Abs(un[n - 1]) + Abs(ue[n - 1]), MaxSpeed(un, ue, n - 1))
  }

  /** Smallest integer not below x, or 0 when x does not fit in 32 bits. */
  function Ceil(x: real): int {
    if x > MAX_I32_AS_F32 || x < -MAX_I32_AS_F32 then 0
    else
      var trunc := if x >= 0.0 then x.Floor else -((-x).Floor);
      if x > 0.0 && x > trunc as real then trunc + 1 else trunc
  }

  function SpeedOf(root: real -> real, g: real, depth: real, speed: real): real {
    root(Max(g * depth, 0.0)) + speed + 0.001
  }

  /** Step length over the length the time step may cover, with the 0.45 safety factor. */
  function CourantNumber(dt: real, speed: real, dx: real): real {
    dt * speed / (0.45 * Max(dx, 0.001))
  }

  /** The signal speed the time step is judged against. */
  function SignalSpeed(root: real -> real, grid: Grid, f: Field): real
    requires |f.h| >= grid.Cells() && |f.un| >= grid.Cells() && |f.ue| >= grid.Cells()
  {
    SpeedOf(root, grid.g, MaxDepth(f.h, grid.Cells()), MaxSpeed(f.un, f.ue, grid.Cells()))
  }

  function CflRatio(root: real -> real, grid: Grid, f: Field, dt: real): real
    requires |f.h| >= grid.Cells() && |f.un| >= grid.Cells() && |f.ue| >= grid.Cells()
  {
    CourantNumber(dt, SignalSpeed(root, grid, f), grid.dx)
  }

  function CflSubsteps(root: real -> real, grid: Grid, f: Field, dt: real): (n: nat)
    requires |f.h| >= grid.Cells() && |f.un| >= grid.Cells() && |f.ue| >= grid.Cells()
    ensures 1 <= n <= 16
  {
    var c := Ceil(CflRatio(root, grid, f, dt));
    if c < 1 then 1 else if c > 16 then 16 else c
  }

  function Substep(root: real -> real, grid: Grid, still: seq<real>, f: Field, dt: real, windN: real,
                   windE: real): (r: Field)
    requires Sized(grid, still, f) && dt >= 0.0
    ensures Sized(grid, still, r)
  {
    Relaxed(grid, still, Swept(root, grid, still, Swept(root, grid, still, f, true, dt), false, dt), dt, windN, windE)
  }

  function Substeps(root: real -> real, grid: Grid, still: seq<real>, f: Field, dt: real, windN: real, windE: real,
                    m: nat): (r: Field)
    requires Sized(grid, still, f) && dt >= 0.0
    ensures Sized(grid, still, r)
  {
    if m == 0 then f
    else Substep(root, grid, still, Substeps(root, grid, still, f, dt, windN, windE, m - 1), dt, windN, windE)
  }

  /** A step with dt outside (0, 1) changes nothing. */
  function Stepped(root: real -> real, grid: Grid, still: seq<real>, f: Field, dt: real, windN: real,
                   windE: real): (r: Field)
    requires Sized(grid, still, f)
    ensures Sized(grid, still, r)
  {
    if !(0.0 < dt < 1.0) then f
    else
      var m := CflSubsteps(root, grid, f, dt);
      Substeps(root, grid, still, f, dt / m as real, windN, windE, m)
  }

  // ---- bookkeeping ----

  function Total(s: seq<real>): real {
    if |s| == 0 then 0.0 else Total(s[..|s| - 1]) + s[|s| - 1]
  }
}
