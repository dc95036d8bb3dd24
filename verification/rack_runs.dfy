/** What every run of rack operations keeps: the invariants of all four machines, and a true count of frames
    and misses. */
module RackRuns {
  import opened Options
  import opened Clock
  import opened Timing
  import opened Rack
  import opened RackCalls
  import Authority
  import Safety
  import SafetyRuns
  import Ground
  import Marine

  // ---- machines ----

  predicate DroneSane(u: Drone) { SafetyRuns.Possible(u.machine) }

  predicate RoverSane(s: Option<Chassis>) { s.Some? ==> Ground.Invariants(s.value.machine) }

  predicate HullSane(s: Option<Hull>) { s.Some? ==> Marine.Invariants(s.value.machine) }

  lemma PostingIsSane(u: Drone, e: Safety.Event)
    requires DroneSane(u)
    ensures DroneSane(Posted(u, e))
  {
    Safety.StepIsSound(u.machine, e);
    SafetyRuns.StepArmsInPlace(u.machine, e);
  }

  lemma {:induction false} WalkingIsSane(u: Drone, events: seq<Safety.Event>, next: Option<Setpoint>)
    requires DroneSane(u)
    ensures DroneSane(Walked(u, events, next).0)
    decreases |events|
  {
    if |events| > 0 && Safety.Accepts(u.machine, events[0]) {
      PostingIsSane(u, events[0]);
      WalkingIsSane(Posted(u, events[0]), events[1..], next);
    }
  }

  lemma ChainIsSane(p: (Rack, Reply), f: Chassis -> (Chassis, Reply), g: Hull -> (Hull, Reply))
    requires Possible(p.0)
    requires forall u: Chassis :: RoverSane(Some(u)) ==> RoverSane(Some(f(u).0))
    requires forall u: Hull :: HullSane(Some(u)) ==> HullSane(Some(g(u).0))
    ensures Possible(ThenHulls(ThenRover(p, f), g).0)
  {
    Chained(p, f, g);
    assert RoverSane(p.0.rover) && HullSane(p.0.skiff) && HullSane(p.0.surveyor);
  }

  lemma HullsAreSane(p: (Rack, Reply), g: Hull -> (Hull, Reply))
    requires Possible(p.0) && forall u: Hull :: HullSane(Some(u)) ==> HullSane(Some(g(u).0))
    ensures Possible(ThenHulls(p, g).0)
  {
    ChainedHulls(p, g);
    assert HullSane(p.0.skiff) && HullSane(p.0.surveyor);
  }

  lemma WritingIsSane(r: Rack, c: Commands)
    requires Possible(r)
    ensures Possible(Written(r, c).0)
  {
    if !r.lastMissed {
      var air, ground := CommandAfterDeadline(false, c.aerial), CommandAfterDeadline(false, c.ground);
      var marine, deep := CommandAfterDeadline(false, c.marine), CommandAfterDeadline(false, c.underwater);
      var p1 := ThenDrone((r, Done), u => WriteDrone(u, air));
      WalkingIsSane(r.drone, [Safety.HeartbeatFresh, Safety.MissionCommand], Some(Velocity(air)));
      var p2 := ThenRover(p1, u => WriteRover(u, ground));
      RoverStages(p1, ground);
      var p3 := ThenSkiff(p2, u => WriteHull(u, marine));
      SkiffStages(p2, marine);
      SurveyorStages(p3, deep);
    }
  }

  lemma PlantIsSane(r: Rack, i: Frame)
    requires Possible(r)
    ensures Possible(FlushedAll(r)) && Possible(PlantStepped(r, i))
  {
  }

  lemma TrippingIsSane(r: Rack)
    requires Possible(r)
    ensures Possible(Tripped(r))
  {
    PostingIsSane(r.drone, Safety.TriggerFailsafe);
  }

  lemma FrameIsSane(r: Rack, i: Frame)
    requires Possible(r)
    ensures Possible(FrameOf(r, i).0)
  {
    WritingIsSane(r, i.cmd);
    var w := Written(r, i.cmd).0;
    PlantIsSane(w, i);
    PlantIsSane(FlushedAll(w), i);
    TrippingIsSane(PlantStepped(FlushedAll(w), i));
  }

  lemma GrantIsSane(r: Rack)
    requires Possible(r)
    ensures Possible(Granted(r).0)
  {
    WalkingIsSane(r.drone, CLIMB, Some(Velocity(ZERO)));
    ChainIsSane(ThenDrone((r, Done), u => TakeOffDrone(u)), u => DriveRover(u), u => UndockHull(u));
  }

  lemma DroneRecoveryIsSane(u: Drone)
    requires DroneSane(u)
    ensures DroneSane(RecoverDrone(u).0)
  {
    DroneRecovers(u);
  }

  lemma RecoveryIsSane(r: Rack)
    requires Possible(r)
    ensures Possible(Recovered(r).0)
  {
    DroneRecoveryIsSane(r.drone);
    RecoveredBodies(r);
    var p := ThenDrone((r, Done), u => RecoverDrone(u));
    assert Possible(p.0);
    ChainIsSane(p, u => ResetRover(u), u => RecoverHull(u));
  }

  lemma ReturnIsSane(r: Rack)
    requires Possible(r)
    ensures Possible(Returned(r).0)
  {
    WalkingIsSane(r.drone, [Safety.Land], None);
    var landed := ThenDrone((r, Done), u => LandDrone(u));
    WalkingIsSane(landed.0.drone, [Safety.Touchdown], None);
    ChainIsSane(ThenDrone(landed, u => TouchdownDrone(u)), u => ParkRover(u), u => DockHull(u));
  }

  lemma HullCallIsSane(r: Rack, op: Op)
    requires Possible(r) && (op.StationAll? || op.ResumeAll? || op.DockAll?)
    ensures Possible(Next(r, op).0)
  {
    match op
    case StationAll => HullsAreSane((r, Done), u => StationHull(u));
    case ResumeAll => HullsAreSane((r, Done), u => ResumeHull(u));
    case DockAll => HullsAreSane((r, Done), u => DockHull(u));
  }

  lemma DroneCallIsSane(r: Rack, op: Op)
    requires Possible(r) && (op.Climb? || op.Hold? || op.InjectRevoke?)
    ensures Possible(Next(r, op).0)
  {
    match op
    case Climb => WalkingIsSane(r.drone, [Safety.ReachedAltitude], None);
    case Hold(pose) => DroneHolds(r.drone, pose);
    case InjectRevoke(e) => PostingIsSane(r.drone, e);
  }

  lemma OpIsSane(r: Rack, op: Op)
    requires Possible(r)
    ensures Possible(Next(r, op).0)
  {
    match op
    case RunFrame(i) => FrameIsSane(r, i);
    case GrantAll => GrantIsSane(r);
    case RecoverDeadline => RecoveryIsSane(r);
    case ReturnAll => ReturnIsSane(r);
    case StationAll => HullCallIsSane(r, op);
    case ResumeAll => HullCallIsSane(r, op);
    case DockAll => HullCallIsSane(r, op);
    case ParkAll => ParkingIsSane(r);
    case WithSpec(spec) => SpecIsSane(r, spec);
    case _ => DroneCallIsSane(r, op);
  }

  lemma ParkingIsSane(r: Rack)
    requires Possible(r)
    ensures Possible(Next(r, ParkAll).0)
  {
  }

  lemma SpecIsSane(r: Rack, spec: DeadlineSpec)
    requires Possible(r)
    ensures Possible(Next(r, WithSpec(spec)).0)
  {
  }

  /** Whatever is called in whatever order, every machine keeps its invariants. */
  lemma {:induction false} RunIsPossible(r: Rack, ops: seq<Op>)
    requires Possible(r)
    ensures Possible(Run(r, ops))
  {
    if |ops| > 0 {
      RunIsPossible(r, ops[..|ops| - 1]);
      OpIsSane(Run(r, ops[..|ops| - 1]), ops[|ops| - 1]);
    }
  }

  // ---- counts ----

  /** A frame that is scored, and one that overran its budget as well or had no whole rate. */
  predicate Scores(r: Rack, op: Op) { op.RunFrame? && Next(r, op).1.Done? }

  ghost predicate ComesLate(r: Rack, op: Op) {
    Scores(r, op) && (op.i.compute > r.spec.budget || !RatePeriod(r.spec.period))
  }

  ghost function Scored(r: Rack, ops: seq<Op>): nat {
    if |ops| == 0 then 0
    else Scored(r, ops[..|ops| - 1]) + if Scores(Run(r, ops[..|ops| - 1]), ops[|ops| - 1]) then 1 else 0
  }

  ghost function Late(r: Rack, ops: seq<Op>): nat {
    if |ops| == 0 then 0
    else Late(r, ops[..|ops| - 1]) + if ComesLate(Run(r, ops[..|ops| - 1]), ops[|ops| - 1]) then 1 else 0
  }

  function Long(n: nat): nat { if n <= 0xffff_ffff_ffff_ffff then n else 0xffff_ffff_ffff_ffff }

  lemma WritingKeepsCounts(r: Rack, c: Commands)
    ensures Written(r, c).0.frames == r.frames && Written(r, c).0.missed == r.missed
  {
  }

  predicate Tallied(r: Rack, t: Rack, scored: bool, late: bool) {
    && t.frames == (if scored then Counted(r.frames) else r.frames)
    && t.missed == if late then Counted(r.missed) else r.missed
  }

  lemma FrameCounts(r: Rack, op: Op)
    requires RateAgrees(r) && op.RunFrame?
    ensures Tallied(r, Next(r, op).0, Scores(r, op), ComesLate(r, op))
  {
    WritingKeepsSpec(r, op.i.cmd);
    WritingKeepsCounts(r, op.i.cmd);
    FrameMissedIff(op.i.compute, r.spec);
  }

  lemma CallsKeepCounts(r: Rack, op: Op)
    requires !op.RunFrame?
    ensures Tallied(r, Next(r, op).0, false, false)
  {
  }

  lemma OpCounts(r: Rack, op: Op)
    requires RateAgrees(r)
    ensures Tallied(r, Next(r, op).0, Scores(r, op), ComesLate(r, op))
  {
    if op.RunFrame? {
      FrameCounts(r, op);
    } else {
      CallsKeepCounts(r, op);
    }
  }

  /** Counters that started as in r and have counted n frames and m misses. */
  predicate Counts(r: Rack, t: Rack, n: nat, m: nat) {
    t.frames == Long(r.frames + n) && t.missed == Long(r.missed + m)
  }

  lemma OneMore(r: Rack, s: Rack, t: Rack, n: nat, m: nat, scored: bool, late: bool)
    requires Counts(r, s, n, m) && Tallied(s, t, scored, late)
    ensures Counts(r, t, n + (if scored then 1 else 0), m + if late then 1 else 0)
  {
  }

  lemma CountOn(r: Rack, s: Rack, op: Op, n: nat, m: nat)
    requires RateAgrees(s) && Counts(r, s, n, m)
    ensures Counts(r, Next(s, op).0, n + (if Scores(s, op) then 1 else 0), m + if ComesLate(s, op) then 1 else 0)
  {
    OpCounts(s, op);
    OneMore(r, s, Next(s, op).0, n, m, Scores(s, op), ComesLate(s, op));
  }

  /** The rack's two counters are what they say, over any run and whatever the deadline was at each frame. */
  lemma {:induction false} CountsAreTrue(r: Rack, ops: seq<Op>)
    requires RateAgrees(r) && r.frames <= U64_MAX && r.missed <= U64_MAX
    ensures Counts(r, Run(r, ops), Scored(r, ops), Late(r, ops))
  {
    if |ops| > 0 {
      var front := ops[..|ops| - 1];
      CountsAreTrue(r, front);
      RunKeepsRate(r, front);
      CountOn(r, Run(r, front), ops[|ops| - 1], Scored(r, front), Late(r, front));
    }
  }
}
