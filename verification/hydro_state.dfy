/** The shallow-water buffers and the passes that update them in place.  Every pass is
    proved to leave exactly the field its function in `HydroKernel` computes. */
module HydroState {
  import opened Roots
  import opened HydroKernel

  class State {
    const grid: Grid
    const root: real -> real
    const h: array<real>
    const un: array<real>
    const ue: array<real>
    const still: array<real>
    const scratch: array<real>

    constructor (grid: Grid, root: real -> real, h: array<real>, un: array<real>, ue: array<real>,
                 still: array<real>, scratch: array<real>)
      ensures this.grid == grid && this.root == root && this.h == h && this.un == un && this.ue == ue
      ensures this.still == still && this.scratch == scratch
    {
      this.grid, this.root, this.h, this.un, this.ue := grid, root, h, un, ue;
      this.still, this.scratch := still, scratch;
    }

    /** No two buffers alias. */
    ghost predicate Separate() {
      h != un && h != ue && h != still && h != scratch && un != ue && un != still && un != scratch &&
      ue != still && ue != scratch && still != scratch
    }

    ghost predicate Spacious() {
      var n := grid.Cells();
      h.Length >= n && un.Length >= n && ue.Length >= n && still.Length >= n
    }

    /** Long enough for the grid; `scratch` holds the three snapshots exactly. */
    ghost predicate Ready() { Separate() && Spacious() && scratch.Length == 3 * grid.Cells() }

    ghost function Contents(): Field
      reads h, un, ue
    {
      Field(h[..], un[..], ue[..])
    }

    static lemma UpdatedParts(still: real, c: Cell, dt: real, dx: real, plus: Flux, minus: Flux, alongN: bool,
                              inv: real, h1: real, q1: real)
      requires still > 0.0 && inv == dt / Max(dx, 0.000001)
      requires h1 == Max(Max(c.h, 0.0) - inv * (plus.mass - minus.mass), 0.0)
      requires q1 == Max(c.h, 0.0) * (if alongN then c.un else c.ue) - inv * (plus.mom - minus.mom)
      ensures var u1 := if h1 < H_DRY then 0.0 else q1 / h1;
              UpdatedCell(still, c, dt, dx, plus, minus, alongN)
                == if alongN then Cell(h1, u1, c.ue) else Cell(h1, c.un, u1)
    {
      assert inv == Courant(dt, dx);
      assert h1 == Max(Moved(Max(c.h, 0.0), inv, plus.mass, minus.mass), 0.0);
      if alongN {
        assert q1 == Moved(Max(c.h, 0.0) * c.un, inv, plus.mom, minus.mom);
      } else {
        assert q1 == Moved(Max(c.h, 0.0) * c.ue, inv, plus.mom, minus.mom);
      }
    }

    method UpdateCell(k: nat, dt: real, plus: Flux, minus: Flux, alongN: bool)
      requires Separate() && k < h.Length && k < un.Length && k < ue.Length && k < still.Length
      modifies h, un, ue
      ensures var c := UpdatedCell(still[k], old(CellIn(Contents(), k)), dt, grid.dx, plus, minus, alongN);
              h[..] == old(h[..])[k := c.h] && un[..] == old(un[..])[k := c.un] && ue[..] == old(ue[..])[k := c.ue]
    {
      if still[k] <= 0.0 {
        h[k] := 0.0;
        un[k] := 0.0;
        ue[k] := 0.0;
        return;
      }
      var inv := dt / Max(grid.dx, 0.000001);
      var h0 := Max(h[k], 0.0);
      var h1 := h0 - inv * (plus.mass - minus.mass);
      h1 := Max(h1, 0.0);
      var u := if alongN then un[k] else ue[k];
      var q0 := h0 * u;
      var q1 := q0 - inv * (plus.mom - minus.mom);
      var u1 := if h1 < H_DRY then 0.0 else q1 / h1;
      UpdatedParts(still[k], CellIn(Contents(), k), dt, grid.dx, plus, minus, alongN, inv, h1, q1);
      h[k] := h1;
      if alongN {
        un[k] := u1;
      } else {
        ue[k] := u1;
      }
    }

    method Snapshot()
      requires Ready()
      modifies scratch
      ensures Snapped(Contents())
    {
      var n := grid.Cells();
      forall k | 0 <= k < n { scratch[k] := h[k]; }
      forall k | 0 <= k < n { scratch[n + k] := un[k]; }
      forall k | 0 <= k < n { scratch[2 * n + k] := ue[k]; }
    }

    /** What the buffers look like while a sweep has updated exactly the cells in `done`. */
    ghost predicate Partly(before: Field, after: Field, done: iset<nat>)
      requires |after.h| == |before.h| && |after.un| == |before.un| && |after.ue| == |before.ue|
      reads h, un, ue
    {
      h.Length == |before.h| && un.Length == |before.un| && ue.Length == |before.ue| &&
      (forall k: nat :: k < h.Length ==> h[k] == if k in done then after.h[k] else before.h[k]) &&
      (forall k: nat :: k < un.Length ==> un[k] == if k in done then after.un[k] else before.un[k]) &&
      (forall k: nat :: k < ue.Length ==> ue[k] == if k in done then after.ue[k] else before.ue[k])
    }

    /** The snapshots in `scratch` are those of `before`. */
    ghost predicate Snapped(before: Field)
      requires scratch.Length == 3 * grid.Cells()
      reads scratch
    {
      var n := grid.Cells();
      |before.h| >= n && |before.un| >= n && |before.ue| >= n &&
      scratch[0..n] == before.h[..n] && scratch[n..2 * n] == before.un[..n] && scratch[2 * n..] == before.ue[..n]
    }

    method FacePair(i: nat, j: nat, alongN: bool, ghost before: Field) returns (plus: Flux, minus: Flux)
      requires Ready() && Sized(grid, still[..], before) && Snapped(before)
      ensures plus == PlusFlux(root, grid, still[..], before, alongN, i, j)
      ensures minus == MinusFlux(root, grid, still[..], before, alongN, i, j)
    {
      var n := grid.Cells();
      var hs := scratch[0..n];
      if alongN {
        var us := scratch[n..2 * n];
        plus := FaceFlux(root, grid, still[..], hs, us, i, j, 1, 0);
        minus := FaceFlux(root, grid, still[..], hs, us, i - 1, j, 1, 0);
        FaceFluxOfPrefix(root, grid, still[..], before.h, before.un, i, j, 1, 0);
        FaceFluxOfPrefix(root, grid, still[..], before.h, before.un, i - 1, j, 1, 0);
      } else {
        var us := scratch[2 * n..];
        plus := FaceFlux(root, grid, still[..], hs, us, i, j, 0, 1);
        minus := FaceFlux(root, grid, still[..], hs, us, i, j - 1, 0, 1);
        FaceFluxOfPrefix(root, grid, still[..], before.h, before.ue, i, j, 0, 1);
        FaceFluxOfPrefix(root, grid, still[..], before.h, before.ue, i, j - 1, 0, 1);
      }
    }

    method SweepCell(i: nat, j: nat, alongN: bool, dt: real, ghost before: Field, ghost after: Field,
                     ghost done: iset<nat>)
      requires Ready() && grid.InBounds(i, j) && Sized(grid, still[..], before) && Snapped(before)
      requires after == Swept(root, grid, still[..], before, alongN, dt)
      requires Partly(before, after, done) && grid.Idx(i, j) !in done
      modifies h, un, ue
      ensures Partly(before, after, done + iset{grid.Idx(i, j)})
    {
      grid.CellOf(i, j);
      var k := grid.Idx(i, j);
      var plus, minus := FacePair(i, j, alongN, before);
      assert CellIn(Contents(), k) == CellIn(before, k);
      UpdateCell(k, dt, plus, minus, alongN);
      SweptAt(root, grid, still[..], before, alongN, dt, i, j);
      assert h[k] == h[..][k] && un[k] == un[..][k] && ue[k] == ue[..][k];
    }

    ghost function ColumnsDone(j: nat, i: nat): iset<nat>
    {
      iset k: nat | k < grid.Cells() && grid.ny > 0 && (grid.Col(k) < j || (grid.Col(k) == j && grid.Row(k) < i))
    }

    ghost function RowsDone(i: nat, j: nat): iset<nat>
    {
      iset k: nat | k < grid.Cells() && grid.ny > 0 && (grid.Row(k) < i || (grid.Row(k) == i && grid.Col(k) < j))
    }

    lemma AllCells()
      ensures grid.Cells() > 0 ==> grid.ny > 0
      ensures forall k: nat :: k < grid.Cells() ==> grid.InBounds(grid.Row(k), grid.Col(k))
      ensures forall k: nat :: k < grid.Cells() ==> k == grid.Idx(grid.Row(k), grid.Col(k))
    {
      forall k: nat | k < grid.Cells()
        ensures grid.ny > 0 && grid.InBounds(grid.Row(k), grid.Col(k)) && k == grid.Idx(grid.Row(k), grid.Col(k))
      {
        grid.CellAt(k);
      }
    }

    lemma ColumnsDoneNext(j: nat, i: nat)
      requires grid.InBounds(i, j)
      ensures grid.Idx(i, j) !in ColumnsDone(j, i)
      ensures ColumnsDone(j, i + 1) == ColumnsDone(j, i) + iset{grid.Idx(i, j)}
    {
      AllCells();
      grid.CellOf(i, j);
    }

    lemma RowsDoneNext(i: nat, j: nat)
      requires grid.InBounds(i, j)
      ensures grid.Idx(i, j) !in RowsDone(i, j)
      ensures RowsDone(i, j + 1) == RowsDone(i, j) + iset{grid.Idx(i, j)}
    {
      AllCells();
      grid.CellOf(i, j);
    }

    lemma LineDone(a: nat)
      ensures ColumnsDone(a + 1, 0) == ColumnsDone(a, grid.nx)
      ensures RowsDone(a + 1, 0) == RowsDone(a, grid.ny)
      ensures ColumnsDone(0, 0) == RowsDone(0, 0) == iset{}
    {
    }

    lemma GridDone()
      ensures forall k: nat :: k in ColumnsDone(grid.ny, 0) <==> k < grid.Cells()
      ensures forall k: nat :: k in RowsDone(grid.nx, 0) <==> k < grid.Cells()
    {
    }

    method Sweep(alongN: bool, dt: real)
      requires Ready()
      modifies h, un, ue, scratch
      ensures Contents() == Swept(root, grid, still[..], old(Contents()), alongN, dt)
    {
      ghost var before := Contents();
      ghost var after := Swept(root, grid, still[..], before, alongN, dt);
      Snapshot();
      LineDone(0);
      if alongN {
        for j := 0 to grid.ny
          invariant Snapped(before)
          invariant Partly(before, after, ColumnsDone(j, 0))
        {
          for i := 0 to grid.nx
            invariant Snapped(before)
            invariant Partly(before, after, ColumnsDone(j, i))
          {
            ColumnsDoneNext(j, i);
            SweepCell(i, j, true, dt, before, after, ColumnsDone(j, i));
          }
          LineDone(j);
        }
      } else {
        for i := 0 to grid.nx
          invariant Snapped(before)
          invariant Partly(before, after, RowsDone(i, 0))
        {
          for j := 0 to grid.ny
            invariant Snapped(before)
            invariant Partly(before, after, RowsDone(i, j))
          {
            RowsDoneNext(i, j);
            SweepCell(i, j, false, dt, before, after, RowsDone(i, j));
          }
          LineDone(i);
        }
      }
      GridDone();
      assert h[..] == after.h && un[..] == after.un && ue[..] == after.ue;
    }

    method ApplySource(dt: real, windN: real, windE: real)
      requires Ready() && dt >= 0.0
      modifies un, ue
      ensures Contents() == Sourced(grid, still[..], old(Contents()), dt, windN, windE)
    {
      ghost var before := Contents();
      var n := grid.Cells();
      var damp := 1.0 / (1.0 + dt * FRICTION);
      for k := 0 to n
        invariant forall m :: 0 <= m < k ==>
                  CellIn(Contents(), m) == SourcedCell(still[m], CellIn(before, m), dt, windN, windE)
        invariant forall m :: k <= m < un.Length ==> un[m] == before.un[m]
        invariant forall m :: k <= m < ue.Length ==> ue[m] == before.ue[m]
      {
        if !(still[k] <= 0.0) {
          var hk := Max(h[k], H_DRY);
          ghost var c := SourcedCell(still[k], CellIn(before, k), dt, windN, windE);
          assert h[k] == before.h[k] && un[k] == before.un[k] && ue[k] == before.ue[k];
          var kickedN := (un[k] + dt * WIND_COEFF * windN / hk) * damp;
          var kickedE := (ue[k] + dt * WIND_COEFF * windE / hk) * damp;
          assert c == Cell(h[k], kickedN, kickedE);
          un[k] := kickedN;
          ue[k] := kickedE;
        }
      }
      ghost var after := Sourced(grid, still[..], before, dt, windN, windE);
      SameCells(grid, Contents(), after);
    }

    method PinLandAndDry()
      requires Ready()
      modifies h, un, ue
      ensures Contents() == Pinned(grid, still[..], old(Contents()))
    {
      ghost var before := Contents();
      var n := grid.Cells();
      for k := 0 to n
        invariant forall m :: 0 <= m < k ==> CellIn(Contents(), m) == PinnedCell(still[m], CellIn(before, m))
        invariant forall m :: k <= m < h.Length ==> h[m] == before.h[m]
        invariant forall m :: k <= m < un.Length ==> un[m] == before.un[m]
        invariant forall m :: k <= m < ue.Length ==> ue[m] == before.ue[m]
      {
        if still[k] <= 0.0 || h[k] < H_DRY {
          h[k] := if still[k] <= 0.0 then 0.0 else Max(h[k], 0.0);
          if h[k] < H_DRY {
            un[k] := 0.0;
            ue[k] := 0.0;
          }
        }
        if still[k] <= 0.0 {
          h[k] := 0.0;
          un[k] := 0.0;
          ue[k] := 0.0;
        }
      }
      ghost var after := Pinned(grid, still[..], before);
      SameCells(grid, Contents(), after);
    }

    method Relax(dt: real, windN: real, windE: real)
      requires Ready() && dt >= 0.0
      modifies h, un, ue
      ensures Contents() == Relaxed(grid, still[..], old(Contents()), dt, windN, windE)
    {
      ApplySource(dt, windN, windE);
      PinLandAndDry();
    }

    method CountSubsteps(dt: real) returns (nsub: nat)
      requires Ready()
      ensures nsub == CflSubsteps(root, grid, Contents(), dt)
    {
      var n := grid.Cells();
      var hmax, umax := 0.0, 0.0;
      for k := 0 to n
        invariant hmax == MaxDepth(h[..], k)
        invariant umax == MaxSpeed(un[..], ue[..], k)
      {
        if h[k] > hmax {
          hmax := h[k];
        }
        var u := Abs(un[k]) + Abs(ue[k]);
        if u > umax {
          umax := u;
        }
      }
      var c := SpeedOf(root, grid.g, hmax, umax);
      var count := Ceil(CourantNumber(dt, c, grid.dx));
      nsub := if count < 1 then 1 else if count > 16 then 16 else count;
    }

    method Substep(dt: real, windN: real, windE: real)
      requires Ready() && dt >= 0.0
      modifies h, un, ue, scratch
      ensures Contents() == HydroKernel.Substep(root, grid, still[..], old(Contents()), dt, windN, windE)
    {
      Sweep(true, dt);
      Sweep(false, dt);
      Relax(dt, windN, windE);
    }

    static lemma ShareOfStep(dt: real, n: nat)
      requires dt > 0.0 && n >= 1
      ensures dt / n as real >= 0.0
    {
    }

    method RunSubsteps(nsub: nat, dt: real, windN: real, windE: real)
      requires Ready() && dt >= 0.0
      modifies h, un, ue, scratch
      ensures Contents() == Substeps(root, grid, still[..], old(Contents()), dt, windN, windE, nsub)
    {
      ghost var before := Contents();
      for m := 0 to nsub
        invariant Contents() == Substeps(root, grid, still[..], before, dt, windN, windE, m)
      {
        Substep(dt, windN, windE);
      }
    }

    /** One call of the solver.  Buffers shorter than the grid make it a no-op; a step that gets past
        its guards panics on a scratch buffer of more than three grids, in the third copy of the first
        snapshot. */
    method Step(dt: real, windN: real, windE: real) returns (panicked: bool)
      requires Separate()
      modifies h, un, ue, scratch
      ensures if Ready() then Contents() == Stepped(root, grid, still[..], old(Contents()), dt, windN, windE)
              else Contents() == old(Contents())
      ensures panicked <==> 0.0 < dt < 1.0 && Spacious() && scratch.Length > 3 * grid.Cells()
    {
      panicked := false;
      if !(dt > 0.0 && dt < 1.0) {
        return;
      }
      var n := grid.Cells();
      if h.Length < n || un.Length < n || ue.Length < n || still.Length < n || scratch.Length < 3 * n {
        return;
      }
      if scratch.Length > 3 * n {
        return true;
      }
      var nsub := CountSubsteps(dt);
      ShareOfStep(dt, nsub);
      RunSubsteps(nsub, dt / nsub as real, windN, windE);
    }

    /** Water volume over every stored cell. */
    method Volume() returns (v: real)
      ensures v == Total(h[..]) * grid.dx * grid.dx
    {
      v := 0.0;
      for k := 0 to h.Length
        invariant v == Total(h[..k])
      {
        assert h[..k + 1][..k] == h[..k];
        v := v + h[k];
      }
      assert h[..h.Length] == h[..];
      v := v * grid.dx * grid.dx;
    }
  }
}
