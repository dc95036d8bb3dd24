/** The standing-wave initialiser: a sinusoidal perturbation of the wet columns, made zero-mean
    and then cut off at zero depth. */
module HydroWaves {
  import opened Roots
  import opened HydroKernel
  import opened HydroConservation

  /** Amplitude, wave number, phase, and the sine the caller has. */
  datatype Wave = Wave(amp: real, number: real, phase: real, sin: real -> real)

  function North(grid: Grid, i: nat): real { grid.originN + (i as real + 0.5) * grid.dx }

  function WaveAt(w: Wave, north: real): real { w.amp * w.sin(w.number * north + w.phase) }

  function Perturbation(grid: Grid, w: Wave, i: nat): real { WaveAt(w, North(grid, i)) }

  function IfWet(still: real, x: real): real { if still <= 0.0 then 0.0 else x }

  function PerturbationAt(grid: Grid, w: Wave, k: nat): real
    requires k < grid.Cells()
  {
    grid.CellAt(k);
    Perturbation(grid, w, grid.Row(k))
  }

  // Cell by cell over the grid: perturbations, wet marks and still depths, all zero on land.

  function Perturbations(grid: Grid, still: seq<real>, w: Wave): seq<real>
    requires |still| >= grid.Cells()
  {
    seq(grid.Cells(), k requires 0 <= k < grid.Cells() => IfWet(still[k], PerturbationAt(grid, w, k)))
  }

  function WetMarks(grid: Grid, still: seq<real>): seq<real>
    requires |still| >= grid.Cells()
  {
    seq(grid.Cells(), k requires 0 <= k < grid.Cells() => IfWet(still[k], 1.0))
  }

  function StillDepths(grid: Grid, still: seq<real>): seq<real>
    requires |still| >= grid.Cells()
  {
    seq(grid.Cells(), k requires 0 <= k < grid.Cells() => IfWet(still[k], still[k]))
  }

  function Mean(grid: Grid, still: seq<real>, w: Wave): real
    requires |still| >= grid.Cells()
  {
    var wet := Total(WetMarks(grid, still));
    if wet > 0.0 then Total(Perturbations(grid, still, w)) / wet else 0.0
  }

  /** Depth before the cut: still water, raised by the perturbation less its mean. */
  function WaveDepth(grid: Grid, still: seq<real>, w: Wave, k: nat): real
    requires |still| >= grid.Cells() && k < grid.Cells()
  {
    IfWet(still[k], still[k] + PerturbationAt(grid, w, k) - Mean(grid, still, w))
  }

  function WaveDepths(grid: Grid, still: seq<real>, w: Wave): seq<real>
    requires |still| >= grid.Cells()
  {
    seq(grid.Cells(), k requires 0 <= k < grid.Cells() => WaveDepth(grid, still, w, k))
  }

  function CutDepths(grid: Grid, still: seq<real>, w: Wave): seq<real>
    requires |still| >= grid.Cells()
  {
    seq(grid.Cells(), k requires 0 <= k < grid.Cells() => Max(WaveDepth(grid, still, w, k), 0.0))
  }

  predicate Raised(grid: Grid, still: seq<real>, w: Wave, h: seq<real>, was: seq<real>, m: nat)
    requires |still| >= grid.Cells() && |h| == |was| >= grid.Cells() >= m
  {
    && (forall k :: 0 <= k < m ==> h[k] == IfWet(still[k], still[k] + PerturbationAt(grid, w, k)))
    && (forall k :: m <= k < |h| ==> h[k] == was[k])
  }

  /** Raises cell (i, j) and adds it to the running count and sum. */
  method RaiseCell(grid: Grid, h: array<real>, still: array<real>, w: Wave, i: nat, j: nat, wet0: real, sum0: real)
    returns (wet: real, sum: real)
    requires h != still && h.Length >= grid.Cells() && still.Length >= grid.Cells() && grid.InBounds(i, j)
    requires grid.Idx(i, j) < grid.Cells()
    modifies h
    ensures var k := grid.Idx(i, j);
            && h[..] == old(h[..])[k := IfWet(still[k], still[k] + PerturbationAt(grid, w, k))]
            && wet == wet0 + WetMarks(grid, still[..])[k] && sum == sum0 + Perturbations(grid, still[..], w)[k]
  {
    grid.CellOf(i, j);
    var k := grid.Idx(i, j);
    wet, sum := wet0, sum0;
    if still[k] <= 0.0 {
      h[k] := 0.0;
      return;
    }
    var pert := Perturbation(grid, w, i);
    wet := wet + 1.0;
    sum := sum + pert;
    h[k] := still[k] + pert;
  }

  /** Cells before m are raised and tallied, the rest as they were. */
  ghost predicate Tallied(grid: Grid, still: seq<real>, w: Wave, h: seq<real>, was: seq<real>, m: nat, wet: real,
                          sum: real)
    requires |still| >= grid.Cells() && |h| == |was| >= grid.Cells()
  {
    && m <= grid.Cells() && Raised(grid, still, w, h, was, m)
    && wet == Total(WetMarks(grid, still)[..m]) && sum == Total(Perturbations(grid, still, w)[..m])
  }

  lemma TallyOne(grid: Grid, still: seq<real>, w: Wave, h: seq<real>, next: seq<real>, was: seq<real>, m: nat,
                 wet: real, sum: real, wet1: real, sum1: real)
    requires |still| >= grid.Cells() && |h| == |was| >= grid.Cells() && m < grid.Cells()
    requires Tallied(grid, still, w, h, was, m, wet, sum)
    requires next == h[m := IfWet(still[m], still[m] + PerturbationAt(grid, w, m))]
    requires wet1 == wet + WetMarks(grid, still)[m] && sum1 == sum + Perturbations(grid, still, w)[m]
    ensures Tallied(grid, still, w, next, was, m + 1, wet1, sum1)
  {
    TotalStep(WetMarks(grid, still), m);
    TotalStep(Perturbations(grid, still, w), m);
  }

  method TallyCell(grid: Grid, h: array<real>, still: array<real>, w: Wave, i: nat, j: nat, wet0: real, sum0: real,
                   ghost was: seq<real>)
    returns (wet: real, sum: real)
    requires h != still && h.Length == |was| >= grid.Cells() && still.Length >= grid.Cells()
    requires grid.InBounds(i, j) && grid.Idx(i, j) < grid.Cells()
    requires Tallied(grid, still[..], w, h[..], was, grid.Idx(i, j), wet0, sum0)
    modifies h
    ensures Tallied(grid, still[..], w, h[..], was, grid.Idx(i, j + 1), wet, sum)
  {
    ghost var s, before := still[..], h[..];
    wet, sum := RaiseCell(grid, h, still, w, i, j, wet0, sum0);
    assert still[..] == s;
    TallyOne(grid, s, w, before, h[..], was, grid.Idx(i, j), wet0, sum0, wet, sum);
    assert grid.Idx(i, j + 1) == grid.Idx(i, j) + 1;
  }

  method RaiseRow(grid: Grid, h: array<real>, still: array<real>, w: Wave, i: nat, wet0: real, sum0: real,
                  ghost was: seq<real>)
    returns (wet: real, sum: real)
    requires h != still && h.Length == |was| >= grid.Cells() && still.Length >= grid.Cells() && i < grid.nx
    requires Tallied(grid, still[..], w, h[..], was, grid.Idx(i, 0), wet0, sum0)
    modifies h
    ensures Tallied(grid, still[..], w, h[..], was, grid.Idx(i, grid.ny), wet, sum)
  {
    ghost var s := still[..];
    wet, sum := wet0, sum0;
    var j := 0;
    while j < grid.ny
      invariant j <= grid.ny && still[..] == s
      invariant Tallied(grid, s, w, h[..], was, grid.Idx(i, j), wet, sum)
    {
      grid.IdxBound(i, j);
      wet, sum := TallyCell(grid, h, still, w, i, j, wet, sum, was);
      assert still[..] == s;
      j := j + 1;
    }
  }

  method LowerAll(grid: Grid, h: array<real>, still: array<real>, w: Wave, mean: real, ghost was: seq<real>)
    requires h != still && h.Length == |was| >= grid.Cells() && still.Length >= grid.Cells()
    requires Raised(grid, still[..], w, h[..], was, grid.Cells()) && mean == Mean(grid, still[..], w)
    modifies h
    ensures h[..] == CutDepths(grid, still[..], w) + was[grid.Cells()..]
  {
    var n := grid.Cells();
    ghost var s := still[..];
    var k := 0;
    while k < n
      invariant k <= n && still[..] == s
      invariant forall c :: 0 <= c < k ==> h[c] == Max(WaveDepth(grid, s, w, c), 0.0)
      invariant forall c :: k <= c < n ==> h[c] == IfWet(s[c], s[c] + PerturbationAt(grid, w, c))
      invariant forall c :: n <= c < h.Length ==> h[c] == was[c]
    {
      if still[k] > 0.0 {
        h[k] := Max(h[k] - mean, 0.0);
      }
      k := k + 1;
    }
  }

  method ApplyWaveMode(grid: Grid, h: array<real>, still: array<real>, w: Wave)
    requires h != still
    modifies h
    ensures if h.Length < grid.Cells() || still.Length < grid.Cells() then h[..] == old(h[..])
            else h[..] == CutDepths(grid, still[..], w) + old(h[grid.Cells()..])
  {
    var n := grid.Cells();
    if h.Length < n || still.Length < n {
      return;
    }
    ghost var s, was := still[..], h[..];
    var wet, sum := 0.0, 0.0;
    var i := 0;
    while i < grid.nx
      invariant i <= grid.nx && still[..] == s
      invariant Tallied(grid, s, w, h[..], was, grid.Idx(i, 0), wet, sum)
    {
      wet, sum := RaiseRow(grid, h, still, w, i, wet, sum, was);
      assert still[..] == s;
      NextRow(grid, i);
      i := i + 1;
    }
    assert grid.Idx(grid.nx, 0) == n;
    assert WetMarks(grid, s)[..n] == WetMarks(grid, s) && Perturbations(grid, s, w)[..n] == Perturbations(grid, s, w);
    var mean := if wet > 0.0 then sum / wet else 0.0;
    LowerAll(grid, h, still, w, mean, was);
  }

  // ---- volume ----

  lemma {:induction false} TotalAdd(r: seq<real>, a: seq<real>, b: seq<real>)
    requires |r| == |a| == |b| && forall k :: 0 <= k < |r| ==> r[k] == a[k] + b[k]
    ensures Total(r) == Total(a) + Total(b)
  {
    if |r| > 0 {
      var m := |r| - 1;
      TotalAdd(r[..m], a[..m], b[..m]);
    }
  }

  lemma {:induction false} NoMarksNoSum(marks: seq<real>, xs: seq<real>)
    requires |marks| == |xs| && forall k :: 0 <= k < |xs| ==> marks[k] >= 0.0 && (marks[k] == 0.0 ==> xs[k] == 0.0)
    ensures Total(marks) >= 0.0 && (Total(marks) == 0.0 ==> Total(xs) == 0.0)
  {
    if |xs| > 0 {
      NoMarksNoSum(marks[..|xs| - 1], xs[..|xs| - 1]);
    }
  }

  lemma MeanTimesCount(sum: real, wet: real)
    requires wet > 0.0
    ensures Mul(sum / wet, wet) == sum
  {
  }

  /** The mean taken out of every wet cell is exactly what the perturbation brought in. */
  lemma PerturbationIsZeroMean(grid: Grid, still: seq<real>, w: Wave)
    requires |still| >= grid.Cells()
    ensures Total(Perturbations(grid, still, w)) == Mul(Mean(grid, still, w), Total(WetMarks(grid, still)))
  {
    var marks, perts := WetMarks(grid, still), Perturbations(grid, still, w);
    NoMarksNoSum(marks, perts);
    if Total(marks) > 0.0 {
      MeanTimesCount(Total(perts), Total(marks));
    } else {
      assert Mul(0.0, Total(marks)) == 0.0;
    }
  }

  /** Before the cut the wave holds exactly the still-water volume. */
  lemma WaveHoldsStillWater(grid: Grid, still: seq<real>, w: Wave)
    requires |still| >= grid.Cells()
    ensures Total(WaveDepths(grid, still, w)) == Total(StillDepths(grid, still))
  {
    var marks, perts, depths := WetMarks(grid, still), Perturbations(grid, still, w), StillDepths(grid, still);
    var mean := Mean(grid, still, w);
    var raised := seq(grid.Cells(), k requires 0 <= k < grid.Cells() => depths[k] + perts[k]);
    TotalAdd(raised, depths, perts);
    var waves := WaveDepths(grid, still, w);
    forall k | 0 <= k < |waves|
      ensures waves[k] == raised[k] - Mul(mean, marks[k])
    {
      WaveSplits(still[k], PerturbationAt(grid, w, k), mean);
    }
    TotalCombine(waves, raised, mean, marks);
    PerturbationIsZeroMean(grid, still, w);
  }

  lemma WaveSplits(still: real, p: real, mean: real)
    ensures IfWet(still, still + p - mean) == IfWet(still, still) + IfWet(still, p) - Mul(mean, IfWet(still, 1.0))
  {
  }

  /** The initialiser never starts with less water than the still pool, and with exactly as much -
      the zero-mean promise - if and only if no trough reaches below the bottom. */
  lemma VolumeUnchangedIff(grid: Grid, still: seq<real>, w: Wave)
    requires |still| >= grid.Cells()
    ensures Total(CutDepths(grid, still, w)) >= Total(StillDepths(grid, still))
    ensures Total(CutDepths(grid, still, w)) == Total(StillDepths(grid, still))
       <==> forall k: nat :: k < grid.Cells() ==> WaveDepth(grid, still, w, k) >= 0.0
    ensures forall k: nat :: k < grid.Cells() ==>
              CutDepths(grid, still, w)[k] >= 0.0 && (still[k] <= 0.0 ==> CutDepths(grid, still, w)[k] == 0.0)
  {
    var waves, cut := WaveDepths(grid, still, w), CutDepths(grid, still, w);
    TotalOrder(waves, cut);
    WaveHoldsStillWater(grid, still, w);
    if waves == cut {
      forall k: nat | k < grid.Cells() ensures WaveDepth(grid, still, w, k) >= 0.0 { assert waves[k] == cut[k]; }
    }
    if forall k: nat :: k < grid.Cells() ==> WaveDepth(grid, still, w, k) >= 0.0 {
      assert forall k :: 0 <= k < |waves| ==> waves[k] == cut[k];
    }
  }

  /** The wave stands still in the world, not on the grid: a grid that starts m cells further north has the same
      perturbation m rows earlier. */
  lemma WaveIsFixedInTheWorld(grid: Grid, other: Grid, w: Wave, i: nat, m: nat)
    requires other.dx == grid.dx && other.originN == grid.originN + m as real * grid.dx
    ensures Perturbation(other, w, i) == Perturbation(grid, w, i + m)
  {
    CentresAgree(grid.originN, i as real, m as real, grid.dx);
    assert (i + m) as real == i as real + m as real;
    assert North(other, i) == North(grid, i + m);
  }

  lemma CentresAgree(origin: real, i: real, m: real, dx: real)
    ensures origin + m * dx + (i + 0.5) * dx == origin + (i + m + 0.5) * dx
  {
    Distributes(m, i + 0.5, dx);
  }

  lemma Distributes(a: real, b: real, dx: real)
    ensures a * dx + b * dx == (b + a) * dx
  {
  }

  const POND := Grid(2, 1, 1.0, 9.81, 0.0)
  const POND_STILL: seq<real> := [1.0, 1.0]

  /** A crest and a trough nearly twice as high as the water is deep, near half and three halves of pi
      where the sine is at least nine tenths in size: the trough is cut at the bottom and the pond ends
      up two fifths fuller or more. */
  lemma DeepTroughAddsWater(w: Wave)
    requires w.amp == 2.0
    requires w.sin(w.number * 0.5 + w.phase) >= 0.9 && w.sin(w.number * 1.5 + w.phase) <= -0.9
    ensures |POND_STILL| == POND.Cells()
    ensures Total(StillDepths(POND, POND_STILL)) == 2.0 && Total(CutDepths(POND, POND_STILL, w)) >= 2.8
  {
    assert POND.Row(0) == 0 && POND.Row(1) == 1;
    assert North(POND, 0) == 0.5 && North(POND, 1) == 1.5;
    var crest, trough := w.sin(w.number * 0.5 + w.phase), w.sin(w.number * 1.5 + w.phase);
    assert PerturbationAt(POND, w, 0) == 2.0 * crest;
    assert PerturbationAt(POND, w, 1) == 2.0 * trough;
    assert WetMarks(POND, POND_STILL) == [1.0, 1.0];
    assert Perturbations(POND, POND_STILL, w) == [2.0 * crest, 2.0 * trough];
    PairTotal(1.0, 1.0);
    PairTotal(2.0 * crest, 2.0 * trough);
    assert Mean(POND, POND_STILL, w) == crest + trough;
    var deep := 1.0 + crest - trough;
    assert StillDepths(POND, POND_STILL) == [1.0, 1.0] && CutDepths(POND, POND_STILL, w) == [deep, 0.0];
    PairTotal(deep, 0.0);
  }

  lemma PairTotal(a: real, b: real)
    ensures Total([a, b]) == a + b
  {
    var none: seq<real>, one: seq<real>, both: seq<real> := [], [a], [a, b];
    assert both[..1] == one && one[..0] == none;
    assert Total(one) == Total(none) + a && Total(both) == Total(one) + b;
  }
}
