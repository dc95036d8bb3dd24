/** What crosses each face of the grid, from the depths and velocities of the cells beside it, and what
    that does to the momentum of a whole sweep: water loses momentum only to walls and shores. */
module HydroFaces {
  import opened Options
  import opened Roots
  import opened HydroKernel
  import opened HydroFlux
  import opened HydroConservation

  // ---- one side of a face ----

  /** Conserved quantities, fluxes and fastest signal of a cell of depth h at velocity u; below a tenth
      of a millimetre it stands still and pushes on nothing. */
  function SideState(h: real, u: real): Flux { if h < H_DRY then Flux(Max(h, 0.0), 0.0) else Flux(h, h * u) }

  function SideFlux(h: real, u: real, g: real): Flux { if h < H_DRY then Flux(0.0, 0.0) else PhysicalFlux(h, u, g) }

  function SideSignal(root: real -> real, h: real, u: real, g: real): real {
    if h < H_DRY then 0.0 else Abs(u) + root(Max(g * h, 0.0))
  }

  /** Rusanov's form for one conserved quantity: the mean flux less half the signal speed times the jump. */
  function Upwinded(fL: real, fR: real, s: real, qL: real, qR: real): real { 0.5 * (fL + fR) - 0.5 * s * (qR - qL) }

  function BothUpwinded(fL: Flux, fR: Flux, s: real, qL: Flux, qR: Flux): Flux {
    Flux(Upwinded(fL.mass, fR.mass, s, qL.mass, qR.mass), Upwinded(fL.mom, fR.mom, s, qL.mom, qR.mom))
  }

  /** Between cells of depths and velocities (hL, uL) and (hR, uR). */
  function CrossingOf(root: real -> real, hL: real, uL: real, hR: real, uR: real, g: real): Flux {
    BothUpwinded(SideFlux(hL, uL, g), SideFlux(hR, uR, g),
                 Max(SideSignal(root, hL, uL, g), SideSignal(root, hR, uR, g)), SideState(hL, uL), SideState(hR, uR))
  }

  /** Push of a wall on the far side of the cell, water at velocity u running into it. */
  function WallPush(root: real -> real, h: real, u: real, g: real): real {
    SideFlux(h, u, g).mom + SideSignal(root, h, u, g) * SideState(h, u).mom
  }

  lemma MomentumOfSide(h: real, u: real, g: real)
    requires h >= H_DRY
    ensures MomFlux(h, u, g) == PhysicalFlux(h, u, g).mom
  {
  }

  /** A side by the depth d and velocity a that the flux works with. */
  predicate IsSide(root: real -> real, d: real, a: real, g: real, f: Flux, q: Flux, s: real) {
    q == Flux(d, d * a) && f == Flux(d * a, MomFlux(d, a, g)) && s == WaveSpeed(root, d, a, g)
  }

  lemma SideParts(root: real -> real, h: real, u: real, g: real)
    ensures IsSide(root, Max(h, 0.0), EffectiveVelocity(Max(h, 0.0), u), g,
                   SideFlux(h, u, g), SideState(h, u), SideSignal(root, h, u, g))
  {
    if h >= H_DRY {
      WetSide(root, h, u, g);
      assert Max(h, 0.0) == h && EffectiveVelocity(h, u) == u;
    } else {
      DrySide(root, h, Max(h, 0.0), u, g);
    }
  }

  lemma WetSide(root: real -> real, h: real, u: real, g: real)
    requires h >= H_DRY
    ensures IsSide(root, h, u, g, SideFlux(h, u, g), SideState(h, u), SideSignal(root, h, u, g))
  {
    MomentumOfSide(h, u, g);
  }

  lemma DrySide(root: real -> real, h: real, d: real, u: real, g: real)
    requires h < H_DRY && d == Max(h, 0.0)
    ensures IsSide(root, d, EffectiveVelocity(d, u), g, SideFlux(h, u, g), SideState(h, u), SideSignal(root, h, u, g))
  {
    assert EffectiveVelocity(d, u) == 0.0 && d * 0.0 == 0.0;
  }

  lemma MassIsUpwinded(hL: real, uL: real, hR: real, uR: real, s: real, fL: real, fR: real)
    requires fL == hL * uL && fR == hR * uR
    ensures MassFlux(hL, uL, hR, uR, s) == Upwinded(fL, fR, s, hL, hR)
  {
  }

  lemma MomentumIsUpwinded(hL: real, uL: real, hR: real, uR: real, g: real, s: real,
                           fL: real, fR: real, qL: real, qR: real)
    requires fL == MomFlux(hL, uL, g) && fR == MomFlux(hR, uR, g) && qL == hL * uL && qR == hR * uR
    ensures MomentumFlux(hL, uL, hR, uR, g, s) == Upwinded(fL, fR, s, qL, qR)
  {
  }

  lemma SidesMeet(root: real -> real, dL: real, a: real, dR: real, b: real, g: real,
                  fL: Flux, qL: Flux, sL: real, fR: Flux, qR: Flux, sR: real)
    requires IsSide(root, dL, a, g, fL, qL, sL) && IsSide(root, dR, b, g, fR, qR, sR)
    ensures var s := FaceSpeed(root, dL, a, dR, b, g);
            s == Max(sL, sR) &&
            Flux(MassFlux(dL, a, dR, b, s), MomentumFlux(dL, a, dR, b, g, s)) == BothUpwinded(fL, fR, s, qL, qR)
  {
    var s := FaceSpeed(root, dL, a, dR, b, g);
    MassIsUpwinded(dL, a, dR, b, s, fL.mass, fR.mass);
    MomentumIsUpwinded(dL, a, dR, b, g, s, fL.mom, fR.mom, qL.mom, qR.mom);
  }

  lemma RusanovIsCrossing(root: real -> real, hL: real, uL: real, hR: real, uR: real, g: real)
    ensures Rusanov(root, hL, uL, hR, uR, g) == CrossingOf(root, hL, uL, hR, uR, g)
  {
    var dL, dR := Max(hL, 0.0), Max(hR, 0.0);
    SideParts(root, hL, uL, g);
    SideParts(root, hR, uR, g);
    SidesMeet(root, dL, EffectiveVelocity(dL, uL), dR, EffectiveVelocity(dR, uR), g,
              SideFlux(hL, uL, g), SideState(hL, uL), SideSignal(root, hL, uL, g),
              SideFlux(hR, uR, g), SideState(hR, uR), SideSignal(root, hR, uR, g));
  }

  lemma WallIsMirror(root: real -> real, h: real, u: real, g: real)
    ensures CrossingOf(root, h, u, h, -u, g) == Flux(0.0, WallPush(root, h, u, g))
    ensures CrossingOf(root, h, -u, h, u, g) == Flux(0.0, WallPush(root, h, -u, g))
  {
  }

  // ---- the faces of a grid ----

  /** Whether (i, j) is a cell of the grid with water in it. */
  predicate WetAt(grid: Grid, still: seq<real>, i: int, j: int)
    requires |still| >= grid.Cells()
  {
    grid.InBounds(i, j) && (grid.IdxBound(i, j); still[grid.Idx(i, j)] > 0.0)
  }

  function FarRow(alongN: bool, i: int): int { if alongN then i + 1 else i }

  function FarCol(alongN: bool, j: int): int { if alongN then j else j + 1 }

  function NearRow(alongN: bool, i: int): int { if alongN then i - 1 else i }

  function NearCol(alongN: bool, j: int): int { if alongN then j else j - 1 }

  /** Velocity of a cell along the sweep. */
  function AlongAt(f: Field, alongN: bool, k: nat): real
    requires k < |f.un| && k < |f.ue|
  {
    if alongN then f.un[k] else f.ue[k]
  }

  /** Between two wet cells both see the same flux cross, Rusanov's of their depths and velocities. */
  lemma OpenFace(root: real -> real, grid: Grid, still: seq<real>, f: Field, alongN: bool, i: nat, j: nat)
    requires Sized(grid, still, f)
    requires WetAt(grid, still, i, j) && WetAt(grid, still, FarRow(alongN, i), FarCol(alongN, j))
    ensures var a, b := FarRow(alongN, i), FarCol(alongN, j);
            var k, l := grid.Idx(i, j), grid.Idx(a, b);
            && k < grid.Cells() && l < grid.Cells()
            && PlusFlux(root, grid, still, f, alongN, i, j) == MinusFlux(root, grid, still, f, alongN, a, b)
               == CrossingOf(root, f.h[k], AlongAt(f, alongN, k), f.h[l], AlongAt(f, alongN, l), grid.g)
  {
    var a, b := FarRow(alongN, i), FarCol(alongN, j);
    grid.IdxBound(i, j);
    grid.IdxBound(a, b);
    var k, l := grid.Idx(i, j), grid.Idx(a, b);
    RusanovIsCrossing(root, f.h[k], AlongAt(f, alongN, k), f.h[l], AlongAt(f, alongN, l), grid.g);
  }

  /** Against a wall or a shore the cell feels its own pressure and flow, and the reflection of its
      motion; no water crosses. */
  lemma FarWall(root: real -> real, grid: Grid, still: seq<real>, f: Field, alongN: bool, i: nat, j: nat)
    requires Sized(grid, still, f)
    requires WetAt(grid, still, i, j) && !WetAt(grid, still, FarRow(alongN, i), FarCol(alongN, j))
    ensures var k := grid.Idx(i, j);
            k < grid.Cells() &&
            PlusFlux(root, grid, still, f, alongN, i, j)
              == Flux(0.0, WallPush(root, f.h[k], AlongAt(f, alongN, k), grid.g))
  {
    grid.IdxBound(i, j);
    var k := grid.Idx(i, j);
    var u := AlongAt(f, alongN, k);
    RusanovIsCrossing(root, f.h[k], u, f.h[k], -u, grid.g);
    WallIsMirror(root, f.h[k], u, grid.g);
  }

  lemma NearWall(root: real -> real, grid: Grid, still: seq<real>, f: Field, alongN: bool, i: nat, j: nat)
    requires Sized(grid, still, f)
    requires WetAt(grid, still, i, j) && !WetAt(grid, still, NearRow(alongN, i), NearCol(alongN, j))
    ensures var k := grid.Idx(i, j);
            k < grid.Cells() &&
            MinusFlux(root, grid, still, f, alongN, i, j)
              == Flux(0.0, WallPush(root, f.h[k], -AlongAt(f, alongN, k), grid.g))
  {
    grid.IdxBound(i, j);
    var k := grid.Idx(i, j);
    var u := AlongAt(f, alongN, k);
    RusanovIsCrossing(root, f.h[k], -u, f.h[k], u, grid.g);
    WallIsMirror(root, f.h[k], u, grid.g);
  }

  // ---- momentum of a sweep ----

  function MomentumAt(still: real, h: real, u: real): real { if still <= 0.0 then 0.0 else Max(h, 0.0) * u }

  /** Momentum along the sweep, cell by cell over the grid. */
  function Momenta(grid: Grid, still: seq<real>, f: Field, alongN: bool): seq<real>
    requires Sized(grid, still, f)
  {
    seq(grid.Cells(), k requires 0 <= k < grid.Cells() => MomentumAt(still[k], f.h[k], AlongAt(f, alongN, k)))
  }

  /** Push of the wall or shore on the far and on the near side of a cell, if there is one. */
  function FarPush(root: real -> real, grid: Grid, still: seq<real>, f: Field, alongN: bool, i: int, j: int,
                   k: nat): real
    requires Sized(grid, still, f) && k < grid.Cells()
  {
    if WetAt(grid, still, FarRow(alongN, i), FarCol(alongN, j)) then 0.0
    else WallPush(root, f.h[k], AlongAt(f, alongN, k), grid.g)
  }

  function NearPush(root: real -> real, grid: Grid, still: seq<real>, f: Field, alongN: bool, i: int, j: int,
                    k: nat): real
    requires Sized(grid, still, f) && k < grid.Cells()
  {
    if WetAt(grid, still, NearRow(alongN, i), NearCol(alongN, j)) then 0.0
    else WallPush(root, f.h[k], -AlongAt(f, alongN, k), grid.g)
  }

  /** Push of the walls and shores beside a cell, against the direction of the sweep. */
  function PushAt(root: real -> real, grid: Grid, still: seq<real>, f: Field, alongN: bool, k: nat): real
    requires Sized(grid, still, f) && k < grid.Cells()
  {
    grid.CellAt(k);
    var i, j := grid.Row(k), grid.Col(k);
    if still[k] <= 0.0 then 0.0
    else FarPush(root, grid, still, f, alongN, i, j, k) - NearPush(root, grid, still, f, alongN, i, j, k)
  }

  function Pushes(root: real -> real, grid: Grid, still: seq<real>, f: Field, alongN: bool): seq<real>
    requires Sized(grid, still, f)
  {
    seq(grid.Cells(), k requires 0 <= k < grid.Cells() => PushAt(root, grid, still, f, alongN, k))
  }

  function MovedMomentum(still: real, h: real, u: real, inv: real, plus: Flux, minus: Flux): real {
    if still <= 0.0 then 0.0 else Moved(MomentumAt(still, h, u), inv, plus.mom, minus.mom)
  }

  /** Momentum of a cell before it is known whether the cell dries. */
  function RawMomentum(root: real -> real, grid: Grid, still: seq<real>, f: Field, alongN: bool, dt: real, k: nat): real
    requires Sized(grid, still, f) && k < grid.Cells()
  {
    grid.CellAt(k);
    MovedMomentum(still[k], f.h[k], AlongAt(f, alongN, k), Courant(dt, grid.dx),
                  PlusFlux(root, grid, still, f, alongN, grid.Row(k), grid.Col(k)),
                  MinusFlux(root, grid, still, f, alongN, grid.Row(k), grid.Col(k)))
  }

  /** Momentum across the faces between wet cells. */
  ghost function OpenMomentum(root: real -> real, grid: Grid, still: seq<real>, f: Field, alongN: bool):
    (int, int) -> real
    requires Sized(grid, still, f)
  {
    (i: int, j: int) =>
      if WetAt(grid, still, i, j) && WetAt(grid, still, FarRow(alongN, i), FarCol(alongN, j))
      then PlusFlux(root, grid, still, f, alongN, i, j).mom else 0.0
  }

  lemma FarShare(root: real -> real, grid: Grid, still: seq<real>, f: Field, alongN: bool, i: nat, j: nat, k: nat)
    requires Sized(grid, still, f) && WetAt(grid, still, i, j) && k == grid.Idx(i, j) && k < grid.Cells()
    ensures PlusFlux(root, grid, still, f, alongN, i, j).mom
         == OpenMomentum(root, grid, still, f, alongN)(i, j) + FarPush(root, grid, still, f, alongN, i, j, k)
  {
    if !WetAt(grid, still, FarRow(alongN, i), FarCol(alongN, j)) {
      FarWall(root, grid, still, f, alongN, i, j);
    }
  }

  lemma NearShare(root: real -> real, grid: Grid, still: seq<real>, f: Field, alongN: bool, i: nat, j: nat, k: nat)
    requires Sized(grid, still, f) && WetAt(grid, still, i, j) && k == grid.Idx(i, j) && k < grid.Cells()
    ensures MinusFlux(root, grid, still, f, alongN, i, j).mom
         == Near(alongN, OpenMomentum(root, grid, still, f, alongN), i, j)
            + NearPush(root, grid, still, f, alongN, i, j, k)
  {
    if WetAt(grid, still, NearRow(alongN, i), NearCol(alongN, j)) {
      OpenFace(root, grid, still, f, alongN, NearRow(alongN, i), NearCol(alongN, j));
    } else {
      NearWall(root, grid, still, f, alongN, i, j);
    }
  }

  lemma LandIsClosed(root: real -> real, grid: Grid, still: seq<real>, f: Field, alongN: bool, i: int, j: int)
    requires Sized(grid, still, f) && !WetAt(grid, still, i, j)
    ensures var m := OpenMomentum(root, grid, still, f, alongN); m(i, j) == 0.0 && Near(alongN, m, i, j) == 0.0
  {
  }

  /** What the open faces of a cell bring it. */
  function OpenNetAt(root: real -> real, grid: Grid, still: seq<real>, f: Field, alongN: bool, k: nat): real
    requires Sized(grid, still, f) && k < grid.Cells()
  {
    grid.CellAt(k);
    var i, j := grid.Row(k), grid.Col(k);
    if still[k] <= 0.0 then 0.0
    else
      PlusFlux(root, grid, still, f, alongN, i, j).mom - MinusFlux(root, grid, still, f, alongN, i, j).mom
      - PushAt(root, grid, still, f, alongN, k)
  }

  lemma OpenNetIsDifference(root: real -> real, grid: Grid, still: seq<real>, f: Field, alongN: bool, i: nat, j: nat)
    requires Sized(grid, still, f) && grid.InBounds(i, j)
    ensures grid.Idx(i, j) < grid.Cells()
    ensures var m := OpenMomentum(root, grid, still, f, alongN);
            OpenNetAt(root, grid, still, f, alongN, grid.Idx(i, j)) == m(i, j) - Near(alongN, m, i, j)
  {
    grid.CellOf(i, j);
    var k := grid.Idx(i, j);
    if still[k] > 0.0 {
      FarShare(root, grid, still, f, alongN, i, j, k);
      NearShare(root, grid, still, f, alongN, i, j, k);
    } else {
      LandIsClosed(root, grid, still, f, alongN, i, j);
    }
  }

  function OpenNets(root: real -> real, grid: Grid, still: seq<real>, f: Field, alongN: bool): seq<real>
    requires Sized(grid, still, f)
  {
    seq(grid.Cells(), k requires 0 <= k < grid.Cells() => OpenNetAt(root, grid, still, f, alongN, k))
  }

  /** Whatever the mask, the faces between wet cells only pass momentum on. */
  lemma OpenFacesCancel(root: real -> real, grid: Grid, still: seq<real>, f: Field, alongN: bool)
    requires Sized(grid, still, f)
    ensures Total(OpenNets(root, grid, still, f, alongN)) == 0.0
  {
    var d, m := OpenNets(root, grid, still, f, alongN), OpenMomentum(root, grid, still, f, alongN);
    forall a: nat, b: nat | grid.InBounds(a, b)
      ensures grid.Idx(a, b) < |d| && d[grid.Idx(a, b)] == m(a, b) - Near(alongN, m, a, b)
    {
      OpenNetIsDifference(root, grid, still, f, alongN, a, b);
    }
    forall b: nat
      ensures if alongN then m(-1, b) == m(grid.nx - 1, b) == 0.0 else m(b, -1) == m(b, grid.ny - 1) == 0.0
    {
    }
    Telescope(grid, alongN, m, d);
  }

  function RawMomenta(root: real -> real, grid: Grid, still: seq<real>, f: Field, alongN: bool, dt: real): seq<real>
    requires Sized(grid, still, f)
  {
    seq(grid.Cells(), k requires 0 <= k < grid.Cells() => RawMomentum(root, grid, still, f, alongN, dt, k))
  }

  function Nets(root: real -> real, grid: Grid, still: seq<real>, f: Field, alongN: bool): seq<real>
    requires Sized(grid, still, f)
  {
    seq(grid.Cells(), k requires 0 <= k < grid.Cells() =>
      OpenNetAt(root, grid, still, f, alongN, k) + PushAt(root, grid, still, f, alongN, k))
  }

  lemma RawIsMoved(root: real -> real, grid: Grid, still: seq<real>, f: Field, alongN: bool, dt: real, k: nat,
                   inv: real, net: real)
    requires Sized(grid, still, f) && k < grid.Cells() && inv == Courant(dt, grid.dx)
    requires net == OpenNetAt(root, grid, still, f, alongN, k) + PushAt(root, grid, still, f, alongN, k)
    ensures RawMomentum(root, grid, still, f, alongN, dt, k)
         == MomentumAt(still[k], f.h[k], AlongAt(f, alongN, k)) - Mul(inv, net)
  {
    grid.CellAt(k);
    if still[k] > 0.0 {
      MovedBy(MomentumAt(still[k], f.h[k], AlongAt(f, alongN, k)), inv,
              PlusFlux(root, grid, still, f, alongN, grid.Row(k), grid.Col(k)).mom,
              MinusFlux(root, grid, still, f, alongN, grid.Row(k), grid.Col(k)).mom, net);
    }
  }

  lemma RawMomentaTotal(root: real -> real, grid: Grid, still: seq<real>, f: Field, alongN: bool, dt: real, inv: real)
    requires Sized(grid, still, f) && inv == Courant(dt, grid.dx)
    ensures Total(RawMomenta(root, grid, still, f, alongN, dt))
         == Total(Momenta(grid, still, f, alongN)) - Mul(inv, Total(Pushes(root, grid, still, f, alongN)))
  {
    var raw, was := RawMomenta(root, grid, still, f, alongN, dt), Momenta(grid, still, f, alongN);
    var nets, open := Nets(root, grid, still, f, alongN), OpenNets(root, grid, still, f, alongN);
    forall k | 0 <= k < grid.Cells()
      ensures raw[k] == was[k] - Mul(inv, nets[k])
    {
      RawIsMoved(root, grid, still, f, alongN, dt, k, inv, nets[k]);
    }
    TotalCombine(raw, was, inv, nets);
    TotalAdds(nets, open, Pushes(root, grid, still, f, alongN));
    OpenFacesCancel(root, grid, still, f, alongN);
  }

  lemma {:induction false} TotalAdds(r: seq<real>, a: seq<real>, b: seq<real>)
    requires |r| == |a| == |b| && forall k :: 0 <= k < |r| ==> r[k] == a[k] + b[k]
    ensures Total(r) == Total(a) + Total(b)
  {
    if |r| > 0 {
      TotalAdds(r[..|r| - 1], a[..|r| - 1], b[..|r| - 1]);
    }
  }

  // ---- what the sweep leaves ----

  /** Momentum that a cell of new depth h loses by drying: all of it, or none. */
  function LostBelow(h: real, raw: real): real { if h < H_DRY then raw else 0.0 }

  /** Momentum lost with cells that the sweep leaves too shallow to move. */
  function DroppedAt(root: real -> real, grid: Grid, still: seq<real>, f: Field, alongN: bool, dt: real, k: nat): real
    requires Sized(grid, still, f) && k < grid.Cells()
  {
    LostBelow(SweptCell(root, grid, still, f, alongN, dt, k).h, RawMomentum(root, grid, still, f, alongN, dt, k))
  }

  function Dropped(root: real -> real, grid: Grid, still: seq<real>, f: Field, alongN: bool, dt: real): seq<real>
    requires Sized(grid, still, f)
  {
    seq(grid.Cells(), k requires 0 <= k < grid.Cells() => DroppedAt(root, grid, still, f, alongN, dt, k))
  }

  lemma KeptOrDropped(still: real, h: real, u: real, raw: real)
    requires still > 0.0 && if h < H_DRY then u == 0.0 else h * u == raw
    ensures raw == MomentumAt(still, h, u) + LostBelow(h, raw)
  {
  }

  lemma CellMomentum(still: real, c: Cell, dt: real, dx: real, plus: Flux, minus: Flux, alongN: bool)
    ensures var n := UpdatedCell(still, c, dt, dx, plus, minus, alongN);
            var raw := MovedMomentum(still, c.h, if alongN then c.un else c.ue, Courant(dt, dx), plus, minus);
            raw == MomentumAt(still, n.h, if alongN then n.un else n.ue) + LostBelow(n.h, raw)
  {
    if still > 0.0 {
      var n := UpdatedCell(still, c, dt, dx, plus, minus, alongN);
      CellMovesMomentum(still, c, dt, dx, plus, minus, alongN);
      KeptOrDropped(still, n.h, if alongN then n.un else n.ue,
                    MovedMomentum(still, c.h, if alongN then c.un else c.ue, Courant(dt, dx), plus, minus));
    }
  }

  lemma SweptMomentum(root: real -> real, grid: Grid, still: seq<real>, f: Field, alongN: bool, dt: real, k: nat)
    requires Sized(grid, still, f) && k < grid.Cells()
    ensures RawMomentum(root, grid, still, f, alongN, dt, k)
         == Momenta(grid, still, Swept(root, grid, still, f, alongN, dt), alongN)[k]
            + DroppedAt(root, grid, still, f, alongN, dt, k)
  {
    assert CellIn(Swept(root, grid, still, f, alongN, dt), k) == SweptCell(root, grid, still, f, alongN, dt, k);
    grid.CellAt(k);
    CellMomentum(still[k], CellIn(f, k), dt, grid.dx,
                 PlusFlux(root, grid, still, f, alongN, grid.Row(k), grid.Col(k)),
                 MinusFlux(root, grid, still, f, alongN, grid.Row(k), grid.Col(k)), alongN);
  }

  /** Momentum of a sweep, over any grid, mask and field: what it has after, and what went with cells that
      dried, is what it had before less dt/dx times the pushes of walls and shores.  Water on water only
      passes momentum on. */
  lemma SweepMovesMomentum(root: real -> real, grid: Grid, still: seq<real>, f: Field, alongN: bool, dt: real)
    requires Sized(grid, still, f)
    ensures Total(Momenta(grid, still, Swept(root, grid, still, f, alongN, dt), alongN))
            + Total(Dropped(root, grid, still, f, alongN, dt))
         == Total(Momenta(grid, still, f, alongN))
            - Mul(Courant(dt, grid.dx), Total(Pushes(root, grid, still, f, alongN)))
  {
    var after := Momenta(grid, still, Swept(root, grid, still, f, alongN, dt), alongN);
    var raw, lost := RawMomenta(root, grid, still, f, alongN, dt), Dropped(root, grid, still, f, alongN, dt);
    forall k | 0 <= k < grid.Cells()
      ensures raw[k] == after[k] + lost[k]
    {
      SweptMomentum(root, grid, still, f, alongN, dt, k);
    }
    TotalAdds(raw, after, lost);
    RawMomentaTotal(root, grid, still, f, alongN, dt, Courant(dt, grid.dx));
  }
}
