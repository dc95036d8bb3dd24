/** Still water stays still, and the steps in which conservation ends. */
module HydroRest {
  import opened Options
  import opened Roots
  import opened HydroKernel
  import opened HydroConservation
  import opened HydroCfl

  // ---- lake at rest ----

  function RestCell(still: real, d: real): Cell {
    if still <= 0.0 then Cell(0.0, 0.0, 0.0) else Cell(d, 0.0, 0.0)
  }

  /** Every wet cell holds depth d and nothing moves, whatever the shape of the shore. */
  ghost predicate LakeAtRest(grid: Grid, still: seq<real>, f: Field, d: real)
    requires Sized(grid, still, f)
  {
    d >= 0.0 && forall k: nat :: k < grid.Cells() ==> CellIn(f, k) == RestCell(still[k], d)
  }

  lemma StillFlux(root: real -> real, d: real, g: real)
    requires d >= 0.0
    ensures Rusanov(root, d, 0.0, d, 0.0, g) == Flux(0.0, MomFlux(d, 0.0, g))
  {
  }

  /** Every face of a lake at rest carries the hydrostatic push and no water. */
  lemma RestFace(root: real -> real, grid: Grid, still: seq<real>, f: Field, alongN: bool, d: real, i: int, j: int,
                 di: int, dj: int)
    requires Sized(grid, still, f) && LakeAtRest(grid, still, f, d)
    requires WetCell(grid, still, i, j).Some? || WetCell(grid, still, i + di, j + dj).Some?
    ensures FaceFlux(root, grid, still, f.h, Along(f, alongN), i, j, di, dj) == Flux(0.0, MomFlux(d, 0.0, grid.g))
  {
    StillFlux(root, d, grid.g);
    forall k: nat | k < grid.Cells() && still[k] > 0.0
      ensures f.h[k] == d && Along(f, alongN)[k] == 0.0
    {
      assert CellIn(f, k) == RestCell(still[k], d);
    }
  }

  lemma RestFaces(root: real -> real, grid: Grid, still: seq<real>, f: Field, alongN: bool, d: real, k: nat)
    requires Sized(grid, still, f) && LakeAtRest(grid, still, f, d) && k < grid.Cells() && still[k] > 0.0
    ensures var i: int, j: int := (grid.CellAt(k); grid.Row(k)), grid.Col(k);
            PlusFlux(root, grid, still, f, alongN, i, j) == MinusFlux(root, grid, still, f, alongN, i, j)
            == Flux(0.0, MomFlux(d, 0.0, grid.g))
  {
    grid.CellAt(k);
    var i: int, j: int := grid.Row(k), grid.Col(k);
    assert WetCell(grid, still, i, j) == Some(k);
    if alongN {
      RestFace(root, grid, still, f, alongN, d, i, j, 1, 0);
      RestFace(root, grid, still, f, alongN, d, i - 1, j, 1, 0);
    } else {
      RestFace(root, grid, still, f, alongN, d, i, j, 0, 1);
      RestFace(root, grid, still, f, alongN, d, i, j - 1, 0, 1);
    }
  }

  lemma BalancedCell(still: real, d: real, dt: real, dx: real, p: real, alongN: bool)
    requires d >= 0.0
    ensures UpdatedCell(still, RestCell(still, d), dt, dx, Flux(0.0, p), Flux(0.0, p), alongN) == RestCell(still, d)
  {
  }

  lemma RestCellIsKept(root: real -> real, grid: Grid, still: seq<real>, f: Field, alongN: bool, dt: real, d: real,
                       k: nat)
    requires Sized(grid, still, f) && LakeAtRest(grid, still, f, d) && k < grid.Cells()
    ensures SweptCell(root, grid, still, f, alongN, dt, k) == CellIn(f, k)
  {
    assert CellIn(f, k) == RestCell(still[k], d);
    grid.CellAt(k);
    if still[k] > 0.0 {
      RestFaces(root, grid, still, f, alongN, d, k);
      BalancedCell(still[k], d, dt, grid.dx, MomFlux(d, 0.0, grid.g), alongN);
    }
  }

  lemma RestSurvivesSweep(root: real -> real, grid: Grid, still: seq<real>, f: Field, alongN: bool, dt: real, d: real)
    requires Sized(grid, still, f) && LakeAtRest(grid, still, f, d)
    ensures Swept(root, grid, still, f, alongN, dt) == f
  {
    var r := Swept(root, grid, still, f, alongN, dt);
    forall k: nat | k < grid.Cells()
      ensures CellIn(r, k) == CellIn(f, k)
    {
      RestCellIsKept(root, grid, still, f, alongN, dt, d, k);
    }
    SameCells(grid, r, f);
  }

  lemma CalmCellIsKept(still: real, d: real, dt: real)
    requires d >= 0.0 && dt >= 0.0
    ensures PinnedCell(still, SourcedCell(still, RestCell(still, d), dt, 0.0, 0.0)) == RestCell(still, d)
  {
  }

  lemma RestSurvivesCalm(grid: Grid, still: seq<real>, f: Field, dt: real, d: real)
    requires Sized(grid, still, f) && LakeAtRest(grid, still, f, d) && dt >= 0.0
    ensures Relaxed(grid, still, f, dt, 0.0, 0.0) == f
  {
    var s := Sourced(grid, still, f, dt, 0.0, 0.0);
    var r := Pinned(grid, still, s);
    forall k: nat | k < grid.Cells()
      ensures CellIn(r, k) == CellIn(f, k)
    {
      assert CellIn(s, k) == SourcedCell(still[k], CellIn(f, k), dt, 0.0, 0.0);
      assert CellIn(r, k) == PinnedCell(still[k], CellIn(s, k));
      CalmCellIsKept(still[k], d, dt);
    }
    SameCells(grid, r, f);
  }

  lemma {:induction false} RestSurvivesSubsteps(root: real -> real, grid: Grid, still: seq<real>, f: Field, dt: real,
                                                d: real, m: nat)
    requires Sized(grid, still, f) && LakeAtRest(grid, still, f, d) && dt >= 0.0
    ensures Substeps(root, grid, still, f, dt, 0.0, 0.0, m) == f
  {
    if m > 0 {
      RestSurvivesSubsteps(root, grid, still, f, dt, d, m - 1);
      RestSurvivesSweep(root, grid, still, f, true, dt, d);
      RestSurvivesSweep(root, grid, still, f, false, dt, d);
      RestSurvivesCalm(grid, still, f, dt, d);
    }
  }

  /** Without wind a lake at rest on any wet mask is an exact fixed point, for any time step. */
  lemma LakeIsFixedPoint(root: real -> real, grid: Grid, still: seq<real>, f: Field, dt: real, d: real)
    requires Sized(grid, still, f) && LakeAtRest(grid, still, f, d)
    ensures Stepped(root, grid, still, f, dt, 0.0, 0.0) == f
  {
    if 0.0 < dt < 1.0 {
      var m, dti := StepIsSubsteps(root, grid, still, f, dt, 0.0, 0.0);
      RestSurvivesSubsteps(root, grid, still, f, dti, d, m);
    }
  }

  // ---- where the cap bites ----

  lemma {:induction false} MisfitLasts(root: real -> real, grid: Grid, still: seq<real>, f: Field, dt: real,
                                       windN: real, windE: real, i: nat, m: nat)
    requires Sized(grid, still, f) && dt >= 0.0 && i <= m
    requires !SubstepsFit(root, grid, still, f, dt, windN, windE, i)
    ensures !SubstepsFit(root, grid, still, f, dt, windN, windE, m)
  {
    if i < m {
      MisfitLasts(root, grid, still, f, dt, windN, windE, i, m - 1);
    }
  }

  lemma NextMisfit(root: real -> real, grid: Grid, still: seq<real>, f: Field, dt: real,
                   windN: real, windE: real, j: nat, k: nat)
    requires Sized(grid, still, f) && dt >= 0.0 && k < grid.Cells()
    requires RawDepth(root, grid, still, Substeps(root, grid, still, f, dt, windN, windE, j), true, dt, k) < 0.0
    ensures !SubstepsFit(root, grid, still, f, dt, windN, windE, j + 1)
  {
  }

  lemma OverdrawnMisfit(root: real -> real, grid: Grid, still: seq<real>, f: Field, dt: real,
                        windN: real, windE: real, m: nat, j: nat, k: nat)
    requires Sized(grid, still, f) && dt >= 0.0 && k < grid.Cells() && j < m
    requires RawDepth(root, grid, still, Substeps(root, grid, still, f, dt, windN, windE, j), true, dt, k) < 0.0
    ensures !SubstepsFit(root, grid, still, f, dt, windN, windE, m)
  {
    NextMisfit(root, grid, still, f, dt, windN, windE, j, k);
    MisfitLasts(root, grid, still, f, dt, windN, windE, j + 1, m);
  }

  /** A step in which the north sweep of any sub-step asks some cell for more than it holds gains water. */
  lemma OverdrawnStepGainsWater(root: real -> real, grid: Grid, still: seq<real>, f: Field, dt: real,
                                windN: real, windE: real, m: nat, dti: real, j: nat, k: nat)
    requires Sized(grid, still, f) && Filled(grid, still, f) && 0.0 < dt < 1.0 && k < grid.Cells()
    requires j < m == CflSubsteps(root, grid, f, dt) && 0.0 <= dti == dt / m as real
    requires RawDepth(root, grid, still, Substeps(root, grid, still, f, dti, windN, windE, j), true, dti, k) < 0.0
    ensures Total(Stepped(root, grid, still, f, dt, windN, windE).h) > Total(f.h)
  {
    var _, _ := StepIsSubsteps(root, grid, still, f, dt, windN, windE);
    OverdrawnMisfit(root, grid, still, f, dti, windN, windE, m, j, k);
    StepConservesIff(root, grid, still, f, dt, windN, windE);
    StepNeverLosesWater(root, grid, still, f, dt, windN, windE);
  }

  const RACING_STILL: seq<real> := [1.0, 1.0]

  function RacingGrid(dx: real): Grid { Grid(2, 1, dx, 0.0, 0.0) }

  function Racing(u: real): Field { Field([1.0, 0.0], [u, 0.0], [0.0, 0.0]) }

  lemma RacingRatio(root: real -> real, dx: real, u: real, dt: real)
    requires NearRoot(root) && u > 0.0
    ensures CflRatio(root, RacingGrid(dx), Racing(u), dt) == CourantNumber(dt, u + 0.001, dx)
  {
    var f := Racing(u);
    assert MaxDepth(f.h, 1) == 1.0 && MaxDepth(f.h, 2) == 1.0;
    assert MaxSpeed(f.un, f.ue, 1) == u && MaxSpeed(f.un, f.ue, 2) == u;
    assert root(0.0) == 0.0;
  }

  /** The full cell pours everything it has past the face and more. */
  lemma RacingCellOverdraws(root: real -> real, dx: real, u: real, dti: real)
    requires NearRoot(root) && u > 0.0 && Mul(Courant(dti, dx), u) > 1.0
    ensures Sized(RacingGrid(dx), RACING_STILL, Racing(u))
    ensures RawDepth(root, RacingGrid(dx), RACING_STILL, Racing(u), true, dti, 0) < 0.0
  {
    var grid, f, inv := RacingGrid(dx), Racing(u), Courant(dti, dx);
    assert root(0.0) == 0.0;
    assert PlusFlux(root, grid, RACING_STILL, f, true, 0, 0).mass == u;
    assert MinusFlux(root, grid, RACING_STILL, f, true, 0, 0).mass == 0.0;
    assert RawDepth(root, grid, RACING_STILL, f, true, dti, 0) == Moved(1.0, inv, u, 0.0);
    Overdrawn(inv, u);
  }

  lemma Overdrawn(inv: real, u: real)
    requires Mul(inv, u) > 1.0
    ensures Moved(1.0, inv, u, 0.0) < 0.0
  {
  }

  lemma RacingLegal(dx: real, u: real)
    ensures Sized(RacingGrid(dx), RACING_STILL, Racing(u)) && Legal(RacingGrid(dx), RACING_STILL, Racing(u))
    ensures Filled(RacingGrid(dx), RACING_STILL, Racing(u)) && DryLand(RacingGrid(dx), RACING_STILL, Racing(u))
  {
  }

  /** Any step that asks more of that cell in its first sub-step than it holds gains water. */
  lemma RacingStepGainsWater(root: real -> real, dx: real, u: real, dt: real, m: nat)
    requires NearRoot(root) && u > 0.0 && 0.0 < dt < 1.0
    requires m == CflSubsteps(root, RacingGrid(dx), Racing(u), dt) && m > 0 && Mul(Courant(dt / m as real, dx), u) > 1.0
    ensures Sized(RacingGrid(dx), RACING_STILL, Racing(u)) && Legal(RacingGrid(dx), RACING_STILL, Racing(u))
    ensures Total(Stepped(root, RacingGrid(dx), RACING_STILL, Racing(u), dt, 0.0, 0.0).h) > Total(Racing(u).h)
  {
    var grid, f := RacingGrid(dx), Racing(u);
    RacingLegal(dx, u);
    RacingCellOverdraws(root, dx, u, dt / m as real);
    var _, dti := StepIsSubsteps(root, grid, RACING_STILL, f, dt, 0.0, 0.0);
    assert Substeps(root, grid, RACING_STILL, f, dti, 0.0, 0.0, 0) == f;
    OverdrawnStepGainsWater(root, grid, RACING_STILL, f, dt, 0.0, 0.0, m, dti, 0, 0);
  }

  /** The volume is not conserved in general: with the count capped at 16 the clamp fires on
      this two-cell field and the step gains water. */
  lemma CappedStepGainsWater(root: real -> real)
    requires NearRoot(root)
    ensures CflSubsteps(root, RacingGrid(1.0), Racing(1000.0), 0.9) == 16
    ensures Legal(RacingGrid(1.0), RACING_STILL, Racing(1000.0))
    ensures Total(Stepped(root, RacingGrid(1.0), RACING_STILL, Racing(1000.0), 0.9, 0.0, 0.0).h)
         > Total(Racing(1000.0).h)
  {
    RacingRatio(root, 1.0, 1000.0, 0.9);
    RacingStepGainsWater(root, 1.0, 1000.0, 0.9, 16);
  }

  /** Ten million times faster and the count no longer fits an integer: back to one sub-step. */
  lemma OverflownStepGainsWater(root: real -> real)
    requires NearRoot(root)
    ensures CflRatio(root, RacingGrid(1.0), Racing(10000000000.0), 0.9) > MAX_I32_AS_F32
    ensures CflSubsteps(root, RacingGrid(1.0), Racing(10000000000.0), 0.9) == 1
    ensures Legal(RacingGrid(1.0), RACING_STILL, Racing(10000000000.0))
    ensures Total(Stepped(root, RacingGrid(1.0), RACING_STILL, Racing(10000000000.0), 0.9, 0.0, 0.0).h)
          > Total(Racing(10000000000.0).h)
  {
    RacingRatio(root, 1.0, 10000000000.0, 0.9);
    RacingStepGainsWater(root, 1.0, 10000000000.0, 0.9, 1);
  }

  /** Below a millimetre the count judges cells by a size they do not have: one sub-step, and
      nothing capped, yet the clamp fires. */
  lemma FineGridGainsWater(root: real -> real)
    requires NearRoot(root)
    ensures CflRatio(root, RacingGrid(0.00001), Racing(10.0), 0.00002) <= 1.0
    ensures CflSubsteps(root, RacingGrid(0.00001), Racing(10.0), 0.00002) == 1
    ensures Legal(RacingGrid(0.00001), RACING_STILL, Racing(10.0))
    ensures Total(Stepped(root, RacingGrid(0.00001), RACING_STILL, Racing(10.0), 0.00002, 0.0, 0.0).h)
          > Total(Racing(10.0).h)
  {
    RacingRatio(root, 0.00001, 10.0, 0.00002);
    assert CourantNumber(0.00002, 10.001, 0.00001) <= 1.0;
    SingleSubstepIff(root, RacingGrid(0.00001), Racing(10.0), 0.00002);
    assert Mul(Courant(0.00002, 0.00001), 10.0) > 1.0;
    RacingStepGainsWater(root, 0.00001, 10.0, 0.00002, 1);
  }

  // ---- where wind outruns the count ----

  /** A full cell and one at the dry threshold. */
  function Thin(u: real, v: real): Field { Field([1.0, 0.0001], [u, v], [0.0, 0.0]) }

  lemma ThinLegal(u: real, v: real)
    ensures Sized(RacingGrid(0.001), RACING_STILL, Thin(u, v)) && Legal(RacingGrid(0.001), RACING_STILL, Thin(u, v))
    ensures Filled(RacingGrid(0.001), RACING_STILL, Thin(u, v))
  {
  }

  lemma ThinRatio(root: real -> real)
    requires NearRoot(root)
    ensures CflRatio(root, RacingGrid(0.001), Thin(0.0, 0.0), 0.9) == 2.0
    ensures CflSubsteps(root, RacingGrid(0.001), Thin(0.0, 0.0), 0.9) == 2
  {
    var f := Thin(0.0, 0.0);
    assert MaxSpeed(f.un, f.ue, 1) == 0.0 && MaxSpeed(f.un, f.ue, 2) == 0.0;
    assert root(0.0) == 0.0;
    assert CourantNumber(0.9, 0.001, 0.001) == 2.0;
  }

  /** Water everywhere, at rest and weightless, at whatever depths. */
  ghost predicate Motionless(grid: Grid, still: seq<real>, f: Field)
    requires Sized(grid, still, f)
  {
    grid.g == 0.0 &&
    forall k: nat :: k < grid.Cells() ==> still[k] > 0.0 && f.h[k] >= 0.0 && f.un[k] == 0.0 && f.ue[k] == 0.0
  }

  /** Without gravity or motion nothing flows. */
  lemma StillFace(root: real -> real, hL: real, hR: real)
    requires NearRoot(root)
    ensures Rusanov(root, hL, 0.0, hR, 0.0, 0.0) == Flux(0.0, 0.0)
  {
    assert root(0.0) == 0.0;
  }

  lemma MotionlessFace(root: real -> real, grid: Grid, still: seq<real>, h: seq<real>, u: seq<real>,
                       i: int, j: int, di: int, dj: int)
    requires NearRoot(root) && |still| >= grid.Cells() && |h| >= grid.Cells() && |u| >= grid.Cells() && grid.g == 0.0
    requires forall k: nat :: k < grid.Cells() ==> u[k] == 0.0
    ensures FaceFlux(root, grid, still, h, u, i, j, di, dj) == Flux(0.0, 0.0)
  {
    match (WetCell(grid, still, i, j), WetCell(grid, still, i + di, j + dj))
    case (Some(l), Some(r)) => StillFace(root, h[l], h[r]);
    case (Some(l), None) => StillFace(root, h[l], h[l]);
    case (None, Some(r)) => StillFace(root, h[r], h[r]);
    case (None, None) => StillFace(root, 0.0, 0.0);
  }

  lemma MotionlessCell(root: real -> real, grid: Grid, still: seq<real>, f: Field, alongN: bool, dt: real, k: nat)
    requires NearRoot(root) && Sized(grid, still, f) && Motionless(grid, still, f) && k < grid.Cells()
    ensures SweptCell(root, grid, still, f, alongN, dt, k) == CellIn(f, k)
  {
    grid.CellAt(k);
    var i: int, j: int := grid.Row(k), grid.Col(k);
    if alongN {
      MotionlessFace(root, grid, still, f.h, f.un, i, j, 1, 0);
      MotionlessFace(root, grid, still, f.h, f.un, i - 1, j, 1, 0);
    } else {
      MotionlessFace(root, grid, still, f.h, f.ue, i, j, 0, 1);
      MotionlessFace(root, grid, still, f.h, f.ue, i, j - 1, 0, 1);
    }
    assert CellIn(f, k) == RestCell(still[k], f.h[k]);
    BalancedCell(still[k], f.h[k], dt, grid.dx, 0.0, alongN);
  }

  lemma MotionlessStays(root: real -> real, grid: Grid, still: seq<real>, f: Field, alongN: bool, dt: real)
    requires NearRoot(root) && Sized(grid, still, f) && Motionless(grid, still, f)
    ensures Swept(root, grid, still, f, alongN, dt) == f
  {
    var r := Swept(root, grid, still, f, alongN, dt);
    forall k: nat | k < grid.Cells()
      ensures CellIn(r, k) == CellIn(f, k)
    {
      MotionlessCell(root, grid, still, f, alongN, dt, k);
    }
    SameCells(grid, r, f);
  }

  lemma GustyCell(dt: real, wind: real, h: real, u: real)
    requires dt == 0.45 && wind == 1.036 && h >= H_DRY && u * h == 0.018
    ensures PinnedCell(1.0, SourcedCell(1.0, Cell(h, 0.0, 0.0), dt, wind, 0.0)) == Cell(h, u, 0.0)
  {
    var damp := 1.0 / (1.0 + dt * FRICTION);
    assert dt * FRICTION == 0.036 && dt * WIND_COEFF * wind == 0.018648;
    assert 1.036 * damp == 1.0;
    var push := 0.018648 / h;
    assert push == u * 1.036;
    assert (0.0 + push) * damp == u * (1.036 * damp);
  }

  lemma ThinBlown()
    ensures Relaxed(RacingGrid(0.001), RACING_STILL, Thin(0.0, 0.0), 0.45, 1.036, 0.0) == Thin(0.018, 180.0)
  {
    var grid, f := RacingGrid(0.001), Thin(0.0, 0.0);
    var s := Sourced(grid, RACING_STILL, f, 0.45, 1.036, 0.0);
    var r := Pinned(grid, RACING_STILL, s);
    GustyCell(0.45, 1.036, 1.0, 0.018);
    GustyCell(0.45, 1.036, 0.0001, 180.0);
    forall k: nat | k < grid.Cells()
      ensures CellIn(r, k) == CellIn(Thin(0.018, 180.0), k)
    {
      assert CellIn(s, k) == SourcedCell(RACING_STILL[k], CellIn(f, k), 0.45, 1.036, 0.0);
      assert CellIn(r, k) == PinnedCell(RACING_STILL[k], CellIn(s, k));
    }
    SameCells(grid, r, Thin(0.018, 180.0));
  }

  lemma ThinOverdraws(root: real -> real)
    requires NearRoot(root)
    ensures Sized(RacingGrid(0.001), RACING_STILL, Thin(0.018, 180.0))
    ensures RawDepth(root, RacingGrid(0.001), RACING_STILL, Thin(0.018, 180.0), true, 0.45, 0) < 0.0
  {
    var grid, f, inv := RacingGrid(0.001), Thin(0.018, 180.0), Courant(0.45, 0.001);
    assert root(0.0) == 0.0;
    var plus := PlusFlux(root, grid, RACING_STILL, f, true, 0, 0).mass;
    assert plus == 90.009;
    assert MinusFlux(root, grid, RACING_STILL, f, true, 0, 0).mass == 0.0;
    assert RawDepth(root, grid, RACING_STILL, f, true, 0.45, 0) == Moved(1.0, inv, plus, 0.0);
    assert inv == 450.0;
    Overdrawn(inv, plus);
  }

  lemma ThinSubstep(root: real -> real)
    requires NearRoot(root)
    ensures Sized(RacingGrid(0.001), RACING_STILL, Thin(0.0, 0.0))
    ensures Substep(root, RacingGrid(0.001), RACING_STILL, Thin(0.0, 0.0), 0.45, 1.036, 0.0) == Thin(0.018, 180.0)
  {
    ThinLegal(0.0, 0.0);
    MotionlessStays(root, RacingGrid(0.001), RACING_STILL, Thin(0.0, 0.0), true, 0.45);
    MotionlessStays(root, RacingGrid(0.001), RACING_STILL, Thin(0.0, 0.0), false, 0.45);
    ThinBlown();
  }

  // `one` is a variable here and below so that the recursion is not unrolled on a literal.
  lemma FirstOfSubsteps(root: real -> real, grid: Grid, still: seq<real>, f: Field, dt: real, windN: real, windE: real,
                        one: nat)
    requires Sized(grid, still, f) && dt >= 0.0 && 0 < one < 2
    ensures Substeps(root, grid, still, f, dt, windN, windE, one) == Substep(root, grid, still, f, dt, windN, windE)
  {
    assert Substeps(root, grid, still, f, dt, windN, windE, one - 1) == f;
  }

  lemma SecondSubstepOverdrawn(root: real -> real, grid: Grid, still: seq<real>, f: Field, mid: Field, dt: real,
                               dti: real, windN: real, windE: real, m: nat, one: nat, k: nat)
    requires Sized(grid, still, f) && Filled(grid, still, f) && 0.0 < dt < 1.0 && k < grid.Cells()
    requires 0 < one < 2 <= m == CflSubsteps(root, grid, f, dt) && 0.0 <= dti == dt / m as real
    requires Substep(root, grid, still, f, dti, windN, windE) == mid
    requires Sized(grid, still, mid) && RawDepth(root, grid, still, mid, true, dti, k) < 0.0
    ensures Total(Stepped(root, grid, still, f, dt, windN, windE).h) > Total(f.h)
  {
    FirstOfSubsteps(root, grid, still, f, dti, windN, windE, one);
    OverdrawnStepGainsWater(root, grid, still, f, dt, windN, windE, m, dti, one, k);
  }

  /** The count is taken once, before the wind: within every bound the code puts on it - a ratio of
      exactly two, not capped, cells not below a millimetre - the relaxation of the first sub-step blows
      the thin column past what the count allowed for, and the second gains water. */
  lemma WindOutrunsTheCount(root: real -> real)
    requires NearRoot(root)
    ensures CflRatio(root, RacingGrid(0.001), Thin(0.0, 0.0), 0.9) == 2.0
    ensures CflSubsteps(root, RacingGrid(0.001), Thin(0.0, 0.0), 0.9) == 2
    ensures Legal(RacingGrid(0.001), RACING_STILL, Thin(0.0, 0.0))
    ensures Total(Stepped(root, RacingGrid(0.001), RACING_STILL, Thin(0.0, 0.0), 0.9, 1.036, 0.0).h)
          > Total(Thin(0.0, 0.0).h)
  {
    var grid, f := RacingGrid(0.001), Thin(0.0, 0.0);
    ThinRatio(root);
    ThinLegal(0.0, 0.0);
    ThinSubstep(root);
    ThinOverdraws(root);
    SecondSubstepOverdrawn(root, grid, RACING_STILL, f, Thin(0.018, 180.0), 0.9, 0.45, 1.036, 0.0, 2, 1, 0);
  }
}
