/** The deadline rack: one drone, and possibly a rover and two hulls, commanded frame by frame.
    A frame that overruns trips every machine; the next one may step but not command. */
module Rack {
  import opened Options
  import opened Roots
  import opened Clock
  import opened Timing
  import Authority
  import Safety
  import Ground
  import Marine

  datatype Setpoint = Velocity(v: Triple) | Position(p: Triple)

  /** A body and the handle that commands it: its machine, the command the plant follows, and
      the setpoint the handle will flush. */
  datatype Unit<M> = Unit(machine: M, live: Option<Setpoint>, staged: Option<Setpoint>)

  type Drone = Unit<Safety.State>
  type Chassis = Unit<Ground.State>
  type Hull = Unit<Marine.State>

  datatype Reply = Done | Protocol | Rejected | Stale

  // ---- what attaching finds ----

  datatype AerialKind =
    | Disconnected | Disarmed | PreflightReady | Armed | Offboard | Takeoff | Airborne | Landing | Failsafe | Recovery

  function AerialKindOf(s: Safety.State): AerialKind {
    if s.phase.Recovery? then Recovery
    else if s.failsafe then Failsafe
    else
      match s.phase
      case Disconnected => Disconnected
      case Connected => Disarmed
      case Initializing => Disarmed
      case Preflight => Disarmed
      case Ready => PreflightReady
      case Armed => if s.offboard then Offboard else Armed
      case Takeoff => Takeoff
      case Airborne => Airborne
      case Landing => Landing
      case Failsafe => Failsafe
      case Recovery => Recovery
  }

  predicate OffboardControl(k: AerialKind) { k.Offboard? || k.Takeoff? || k.Airborne? || k.Landing? }

  /** Moving, as the chassis handle sees it. */
  predicate Drives(s: Ground.State) { !s.estop && s.phase.Moving? }

  predicate Stopped(s: Ground.State) { s.estop || s.phase.EStop? }

  predicate Thrusts(s: Marine.State) { !s.failsafe && (s.phase.Underway? || s.phase.StationKeep?) }

  predicate Failed(s: Marine.State) { s.failsafe || s.phase.Failsafe? }

  // ---- drone ----

  /** One kernel event on the body; failsafe, touchdown and recovery drop its command. */
  function Posted(u: Drone, e: Safety.Event): Drone {
    if !Safety.Accepts(u.machine, e) then u
    else
      var n := Safety.Effect(u.machine, e);
      Unit(n, if n.failsafe || e.Touchdown? || e.Recover? then None else u.live, u.staged)
  }

  /** Events in turn until one is refused; a finished walk leaves a new handle that stages `next`. */
  function Walked(u: Drone, events: seq<Safety.Event>, next: Option<Setpoint>): (Drone, Reply)
    decreases |events|
  {
    if |events| == 0 then (u.(staged := next), Done)
    else if !Safety.Accepts(u.machine, events[0]) then (u, Rejected)
    else Walked(Posted(u, events[0]), events[1..], next)
  }

  const CLIMB: seq<Safety.Event> :=
    [Safety.Arm, Safety.HeartbeatFresh, Safety.EnterOffboard, Safety.EnableActuators, Safety.TakeOff,
     Safety.EnableActuators]

  /** Ready to takeoff; the walk through offboard leaves a zero hover staged. */
  function TakeOffDrone(u: Drone): (Drone, Reply) {
    if !AerialKindOf(u.machine).PreflightReady? then (u, Protocol) else Walked(u, CLIMB, Some(Velocity(ZERO)))
  }

  function LandDrone(u: Drone): (Drone, Reply) {
    var k := AerialKindOf(u.machine);
    if !(k.Takeoff? || k.Airborne?) then (u, Protocol)
    else if !u.machine.heartbeatFresh then (u, Stale)
    else Walked(u, [Safety.Land], None)
  }

  function TouchdownDrone(u: Drone): (Drone, Reply) {
    var k := AerialKindOf(u.machine);
    if !(k.Landing? || k.Failsafe?) then (u, Protocol) else Walked(u, [Safety.Touchdown], None)
  }

  function ClimbDrone(u: Drone): (Drone, Reply) {
    if !AerialKindOf(u.machine).Takeoff? then (u, Protocol)
    else if !u.machine.heartbeatFresh then (u, Stale)
    else Walked(u, [Safety.ReachedAltitude], None)
  }

  function HoldDrone(u: Drone, pose: Triple): (Drone, Reply) {
    if !OffboardControl(AerialKindOf(u.machine)) then (u, Protocol)
    else if !u.machine.heartbeatFresh then (u, Stale)
    else
      var (w, r) := Walked(u, [Safety.HeartbeatFresh, Safety.MissionCommand], Some(Position(pose)));
      (if r.Done? then w.(live := w.staged) else w, r)
  }

  /** Failsafe disarms into recovery first. */
  function RecoverDrone(u: Drone): (Drone, Reply) {
    match AerialKindOf(u.machine)
    case Failsafe => Walked(u, [Safety.Disarm, Safety.Recover], None)
    case Recovery => Walked(u, [Safety.Recover], None)
    case _ => (u, Protocol)
  }

  /** Live kinds bind and trip, the others re-trip through the handle: the same either way. */
  function TripDrone(u: Drone): Drone { Posted(u, Safety.TriggerFailsafe).(staged := None) }

  function CommandDrone(u: Drone, s: Setpoint): (Drone, Reply) {
    if u.machine.failsafe then (u, Rejected)
    else Walked(u, [Safety.HeartbeatFresh, Safety.MissionCommand], Some(s))
  }

  predicate Speaks(v: Triple) { Abs(v.0) > 0.000001 || Abs(v.1) > 0.000001 || Abs(v.2) > 0.000001 }

  /** A frame's velocity, unless a hold is standing and the frame has nothing to say. */
  function WriteDrone(u: Drone, v: Triple): (Drone, Reply) {
    if !OffboardControl(AerialKindOf(u.machine)) then (u, Done)
    else if Speaks(v) || !(u.live.Some? && u.live.value.Position?) then CommandDrone(u, Velocity(v))
    else (u, Done)
  }

  // ---- rover ----

  function Grounded(u: Chassis, e: Ground.Event): Chassis {
    var n := Ground.Effect(u.machine, e);
    Unit(n, if n.estop || e.Halt? then None else u.live, None)
  }

  function DriveRover(u: Chassis): (Chassis, Reply) {
    if Stopped(u.machine) || !u.machine.phase.Parked? then (u, Protocol) else (Grounded(u, Ground.Release), Done)
  }

  function ParkRover(u: Chassis): (Chassis, Reply) {
    if !Drives(u.machine) then (u, Protocol) else (Grounded(u, Ground.Halt), Done)
  }

  function ResetRover(u: Chassis): (Chassis, Reply) {
    if !Stopped(u.machine) then (u, Protocol)
    else if !Ground.Accepts(u.machine, Ground.ClearEstop) then (u, Rejected)
    else (Grounded(u, Ground.ClearEstop), Done)
  }

  function TripRover(u: Chassis): Chassis { Grounded(u, Ground.Stop) }

  function WriteRover(u: Chassis, v: Triple): (Chassis, Reply) {
    if !Drives(u.machine) then (u, Done)
    else if !Ground.Accepts(u.machine, Ground.DriveCommand) then (u, Rejected)
    else (u.(staged := Some(Velocity(v))), Done)
  }

  // ---- hulls ----

  function Sailed(u: Hull, e: Marine.Event): Hull {
    var n := Marine.Effect(u.machine, e);
    Unit(n, if n.failsafe || !n.thrust then None else u.live, None)
  }

  function UndockHull(u: Hull): (Hull, Reply) {
    if Failed(u.machine) || !u.machine.phase.Docked? then (u, Protocol) else (Sailed(u, Marine.Undock), Done)
  }

  function StationHull(u: Hull): (Hull, Reply) {
    if !Thrusts(u.machine) || !u.machine.phase.Underway? then (u, Protocol) else (Sailed(u, Marine.Station), Done)
  }

  function ResumeHull(u: Hull): (Hull, Reply) {
    if !Thrusts(u.machine) || !u.machine.phase.StationKeep? then (u, Protocol) else (Sailed(u, Marine.Resume), Done)
  }

  function DockHull(u: Hull): (Hull, Reply) {
    if !Thrusts(u.machine) then (u, Protocol) else (Sailed(u, Marine.Dock), Done)
  }

  function RecoverHull(u: Hull): (Hull, Reply) {
    if !Failed(u.machine) then (u, Protocol)
    else if !Marine.Accepts(u.machine, Marine.Recover) then (u, Rejected)
    else (Sailed(u, Marine.Recover), Done)
  }

  function TripHull(u: Hull): Hull { Sailed(u, Marine.Fail) }

  function WriteHull(u: Hull, v: Triple): (Hull, Reply) {
    if !Thrusts(u.machine) then (u, Done)
    else if !Marine.Accepts(u.machine, Marine.ThrustCommand) then (u, Rejected)
    else (u.(staged := Some(Velocity(v))), Done)
  }

  function Flushed<M>(u: Unit<M>): Unit<M> { if u.staged.Some? then u.(live := u.staged) else u }

  // The plant lets a body act only if its machine grants actuation.

  predicate DroneActs(s: Safety.State) { s.actuators && s.armed && !s.failsafe }

  predicate RoverActs(s: Ground.State) { s.drive && !s.estop }

  predicate HullActs(s: Marine.State) { s.thrust && !s.failsafe }

  /** Where a body is and what it has left: charge in its battery, ground under it, water around it. */
  datatype Site = Site(charged: bool, grounded: bool, wet: bool)

  // And only with charge, and in its own element: rotors dry, wheels on the ground, hulls in the water.

  predicate DroneRuns(s: Safety.State, at: Site) { DroneActs(s) && at.charged && !at.wet }

  predicate RoverRuns(s: Ground.State, at: Site) { RoverActs(s) && at.charged && at.grounded }

  predicate HullRuns(s: Marine.State, at: Site) { HullActs(s) && at.charged && at.wet }

  /** A plant step drops the command of a body it does not let act. */
  function Plant<M>(u: Unit<M>, acts: bool): Unit<M> { if acts then u else u.(live := None) }

  // ---- the rack ----

  datatype Rack = Rack(drone: Drone, rover: Option<Chassis>, skiff: Option<Hull>, surveyor: Option<Hull>,
                       lastMissed: bool, missed: nat, frames: nat, spec: DeadlineSpec, hz: nat)

  datatype Commands = Commands(aerial: Triple, ground: Triple, marine: Triple, underwater: Triple)

  /** A frame's inputs: commands, measured compute time, whether the plant step verified, and where
      the step finds each body. */
  datatype Frame = Frame(cmd: Commands, compute: nat, stepOk: bool,
                         air: Site, ground: Site, skiff: Site, surveyor: Site)

  // Each body in turn, up to the first error; what came before it stays done.

  function ThenDrone(p: (Rack, Reply), f: Drone -> (Drone, Reply)): (Rack, Reply) {
    if p.1 != Done then p
    else
      var (u, r) := f(p.0.drone);
      (p.0.(drone := u), r)
  }

  function ThenRover(p: (Rack, Reply), f: Chassis -> (Chassis, Reply)): (Rack, Reply) {
    if p.1 != Done || p.0.rover.None? then p
    else
      var (u, r) := f(p.0.rover.value);
      (p.0.(rover := Some(u)), r)
  }

  function ThenSkiff(p: (Rack, Reply), f: Hull -> (Hull, Reply)): (Rack, Reply) {
    if p.1 != Done || p.0.skiff.None? then p
    else
      var (u, r) := f(p.0.skiff.value);
      (p.0.(skiff := Some(u)), r)
  }

  function ThenSurveyor(p: (Rack, Reply), f: Hull -> (Hull, Reply)): (Rack, Reply) {
    if p.1 != Done || p.0.surveyor.None? then p
    else
      var (u, r) := f(p.0.surveyor.value);
      (p.0.(surveyor := Some(u)), r)
  }

  function ThenHulls(p: (Rack, Reply), f: Hull -> (Hull, Reply)): (Rack, Reply) { ThenSurveyor(ThenSkiff(p, f), f) }

  function Mapped<M>(s: Option<Unit<M>>, f: Unit<M> -> Unit<M>): Option<Unit<M>> {
    if s.None? then s else Some(f(s.value))
  }

  function Tripped(r: Rack): Rack {
    r.(drone := TripDrone(r.drone), rover := Mapped(r.rover, u => TripRover(u)),
       skiff := Mapped(r.skiff, u => TripHull(u)),
       surveyor := Mapped(r.surveyor, u => TripHull(u)))
  }

  function Written(r: Rack, c: Commands): (Rack, Reply) {
    if r.lastMissed then (r, Done)
    else
      ThenSurveyor(
        ThenSkiff(
          ThenRover(
            ThenDrone((r, Done), u => WriteDrone(u, CommandAfterDeadline(r.lastMissed, c.aerial))),
            u => WriteRover(u, CommandAfterDeadline(r.lastMissed, c.ground))),
          u => WriteHull(u, CommandAfterDeadline(r.lastMissed, c.marine))),
        u => WriteHull(u, CommandAfterDeadline(r.lastMissed, c.underwater)))
  }

  function FlushedAll(r: Rack): Rack {
    r.(drone := Flushed(r.drone), rover := Mapped(r.rover, u => Flushed(u)), skiff := Mapped(r.skiff, u => Flushed(u)),
       surveyor := Mapped(r.surveyor, u => Flushed(u)))
  }

  function PlantStepped(r: Rack, i: Frame): Rack {
    r.(drone := Plant(r.drone, DroneRuns(r.drone.machine, i.air)),
       rover := Mapped(r.rover, (u: Chassis) => Plant(u, RoverRuns(u.machine, i.ground))),
       skiff := Mapped(r.skiff, (u: Hull) => Plant(u, HullRuns(u.machine, i.skiff))),
       surveyor := Mapped(r.surveyor, (u: Hull) => Plant(u, HullRuns(u.machine, i.surveyor))))
  }

  function Counted(n: nat): nat { if n < U64_MAX then n + 1 else n }

  function Finished(r: Rack, compute: nat): Rack {
    var t := if FrameMissed(compute, r.spec, r.hz) then Tripped(r).(missed := Counted(r.missed), lastMissed := true)
             else r.(lastMissed := false);
    t.(frames := Counted(r.frames))
  }

  function FrameOf(r: Rack, i: Frame): (Rack, Reply) {
    var (w, e) := Written(r, i.cmd);
    if e != Done then (w, e)
    else
      var f := FlushedAll(w);
      if !i.stepOk then (f, Rejected) else (Finished(PlantStepped(f, i), i.compute), Done)
  }

  function Recovered(r: Rack): (Rack, Reply) {
    var (t, e) := ThenHulls(ThenRover(ThenDrone((r, Done), u => RecoverDrone(u)), u => ResetRover(u)),
                            u => RecoverHull(u));
    (if e.Done? then t.(lastMissed := false) else t, e)
  }

  function Granted(r: Rack): (Rack, Reply) {
    ThenHulls(ThenRover(ThenDrone((r, Done), u => TakeOffDrone(u)), u => DriveRover(u)), u => UndockHull(u))
  }

  function Returned(r: Rack): (Rack, Reply) {
    ThenHulls(ThenRover(ThenDrone(ThenDrone((r, Done), u => LandDrone(u)), u => TouchdownDrone(u)), u => ParkRover(u)),
              u => DockHull(u))
  }

  predicate NoHull(r: Rack) { r.skiff.None? && r.surveyor.None? }

  datatype Op =
    | RunFrame(i: Frame)
    | RecoverDeadline | GrantAll | ReturnAll
    | Climb | StationAll | ResumeAll | DockAll | ParkAll
    | Hold(pose: Triple)
    | InjectRevoke(e: Safety.Event)
    | WithSpec(spec: DeadlineSpec)

  function Next(r: Rack, op: Op): (Rack, Reply) {
    match op
    case RunFrame(i) => FrameOf(r, i)
    case RecoverDeadline => Recovered(r)
    case GrantAll => Granted(r)
    case ReturnAll => Returned(r)
    case Climb => ThenDrone((r, Done), u => ClimbDrone(u))
    case StationAll => if NoHull(r) then (r, Protocol) else ThenHulls((r, Done), u => StationHull(u))
    case ResumeAll => if NoHull(r) then (r, Protocol) else ThenHulls((r, Done), u => ResumeHull(u))
    case DockAll => if NoHull(r) then (r, Protocol) else ThenHulls((r, Done), u => DockHull(u))
    case ParkAll => if r.rover.None? then (r, Protocol) else ThenRover((r, Done), u => ParkRover(u))
    case Hold(pose) => ThenDrone((r, Done), u => HoldDrone(u, pose))
    case InjectRevoke(e) =>
      if !Authority.RevokesAuthority(e) || !Safety.Accepts(r.drone.machine, e) then (r, Rejected)
      else (r.(drone := Posted(r.drone, e)), Done)
    case WithSpec(spec) => (if spec.Valid() then r.(spec := spec, hz := FromPeriod(spec.period)) else r, Done)
  }

  function Run(r: Rack, ops: seq<Op>): Rack {
    if |ops| == 0 then r else Next(Run(r, ops[..|ops| - 1]), ops[|ops| - 1]).0
  }

  // ---- the rack as it is written ----

  const READY: Safety.State := Safety.State(Safety.Ready, false, false, true, true, false, false, false)
  const PARKED: Ground.State := Ground.PARKED
  const DOCKED: Marine.State := Marine.DOCKED

  // And as the grants leave them.

  const CLIMBING: Safety.State := Safety.State(Safety.Takeoff, true, true, true, true, true, true, false)
  const DRIVING: Ground.State := Ground.State(Ground.Moving, true, false)
  const SAILING: Marine.State := Marine.State(Marine.Underway, true, false)

  /** Every body attached at rest, then granted. */
  method Attached() returns (d: Drone, g: Chassis, m: Hull)
    ensures d == Unit(CLIMBING, None, Some(Velocity(ZERO)))
    ensures g == Unit(DRIVING, None, None)
    ensures m == Unit(SAILING, None, None)
  {
    TakeOffFromReady(Unit(READY, None, None));
    d := TakeOffDrone(Unit(READY, None, None)).0;
    g := DriveRover(Unit(PARKED, None, None)).0;
    m := UndockHull(Unit(DOCKED, None, None)).0;
  }

  class WorldRack {
    var drone: Drone
    var rover: Option<Chassis>
    var skiff: Option<Hull>
    var surveyor: Option<Hull>
    var spec: DeadlineSpec
    var hz: nat
    var lastMissed: bool
    var missed: nat
    var frames: nat

    function View(): Rack
      reads this
    {
      Rack(drone, rover, skiff, surveyor, lastMissed, missed, frames, spec, hz)
    }

    /** A scene's bodies at rest, then the grants. */
    constructor (withRover: bool, withHulls: bool)
      ensures spec == HZ_50 && hz == FromPeriod(HZ_50.period) && !lastMissed && missed == 0 && frames == 0
      ensures drone == Unit(CLIMBING, None, Some(Velocity(ZERO)))
      ensures AerialKindOf(CLIMBING).Takeoff? && DroneActs(CLIMBING)
      ensures rover == if withRover then Some(Unit(DRIVING, None, None)) else None
      ensures Drives(DRIVING) && RoverActs(DRIVING)
      ensures skiff == surveyor == if withHulls then Some(Unit(SAILING, None, None)) else None
      ensures Thrusts(SAILING) && HullActs(SAILING)
    {
      spec, hz, lastMissed, missed, frames := HZ_50, 50, false, 0, 0;
      var d, g, m := Attached();
      drone := d;
      rover := if withRover then Some(g) else None;
      skiff := if withHulls then Some(m) else None;
      surveyor := if withHulls then Some(m) else None;
    }

    method OnDrone(f: Drone -> (Drone, Reply)) returns (r: Reply)
      modifies this`drone
      ensures (View(), r) == ThenDrone((old(View()), Done), f)
    {
      drone, r := f(drone).0, f(drone).1;
    }

    method OnRover(f: Chassis -> (Chassis, Reply)) returns (r: Reply)
      modifies this`rover
      ensures (View(), r) == ThenRover((old(View()), Done), f)
    {
      if rover.None? {
        return Done;
      }
      var (u, reply) := f(rover.value);
      rover := Some(u);
      r := reply;
    }

    method OnHulls(f: Hull -> (Hull, Reply), g: Hull -> (Hull, Reply)) returns (r: Reply)
      modifies this`skiff, this`surveyor
      ensures (View(), r) == ThenSurveyor(ThenSkiff((old(View()), Done), f), g)
    {
      r := Done;
      if skiff.Some? {
        var (u, reply) := f(skiff.value);
        skiff := Some(u);
        if reply != Done {
          return reply;
        }
      }
      if surveyor.Some? {
        var (u, reply) := g(surveyor.value);
        surveyor := Some(u);
        r := reply;
      }
    }

    method WriteGrantedSetpoints(aerial: Triple, ground: Triple, marine: Triple, underwater: Triple) returns (r: Reply)
      modifies this`drone, this`rover, this`skiff, this`surveyor
      ensures (View(), r) == ThenSurveyor(ThenSkiff(ThenRover(ThenDrone((old(View()), Done),
                u => WriteDrone(u, aerial)), u => WriteRover(u, ground)), u => WriteHull(u, marine)),
                u => WriteHull(u, underwater))
    {
      r := OnDrone(u => WriteDrone(u, aerial));
      if r != Done {
        return;
      }
      r := OnRover(u => WriteRover(u, ground));
      if r != Done {
        return;
      }
      r := OnHulls(u => WriteHull(u, marine), u => WriteHull(u, underwater));
    }

    method Flush()
      modifies this`drone, this`rover, this`skiff, this`surveyor
      ensures View() == FlushedAll(old(View()))
    {
      drone := Flushed(drone);
      if rover.Some? {
        rover := Some(Flushed(rover.value));
      }
      if skiff.Some? {
        skiff := Some(Flushed(skiff.value));
      }
      if surveyor.Some? {
        surveyor := Some(Flushed(surveyor.value));
      }
    }

    /** The plant's own step, as far as the rack can see it. */
    method StepPlant(i: Frame)
      modifies this`drone, this`rover, this`skiff, this`surveyor
      ensures View() == PlantStepped(old(View()), i)
    {
      drone := Plant(drone, DroneRuns(drone.machine, i.air));
      rover := Mapped(rover, (u: Chassis) => Plant(u, RoverRuns(u.machine, i.ground)));
      skiff := Mapped(skiff, (u: Hull) => Plant(u, HullRuns(u.machine, i.skiff)));
      surveyor := Mapped(surveyor, (u: Hull) => Plant(u, HullRuns(u.machine, i.surveyor)));
    }

    method TripDeadlineFailsafe()
      modifies this`drone, this`rover, this`skiff, this`surveyor
      ensures View() == Tripped(old(View()))
    {
      drone := TripDrone(drone);
      if rover.Some? {
        rover := Some(TripRover(rover.value));
      }
      if skiff.Some? {
        skiff := Some(TripHull(skiff.value));
      }
      if surveyor.Some? {
        surveyor := Some(TripHull(surveyor.value));
      }
    }

    method Finish(compute: nat)
      modifies this
      ensures View() == Finished(old(View()), compute)
    {
      var outcome := DeadlineOutcome(compute, spec);
      var due := compute <= spec.budget;
      var rateOk := PeriodOf(hz) == spec.period && Admits(hz, compute);
      if outcome.Missed? || !due || !rateOk {
        missed := Counted(missed);
        lastMissed := true;
        TripDeadlineFailsafe();
      } else {
        lastMissed := false;
      }
      frames := Counted(frames);
    }

    method FrameTimed(i: Frame) returns (r: Reply)
      modifies this
      ensures (View(), r) == FrameOf(old(View()), i)
    {
      var late := lastMissed;
      var aerial, ground := CommandAfterDeadline(late, i.cmd.aerial), CommandAfterDeadline(late, i.cmd.ground);
      var marine, underwater := CommandAfterDeadline(late, i.cmd.marine), CommandAfterDeadline(late, i.cmd.underwater);
      if !late {
        r := WriteGrantedSetpoints(aerial, ground, marine, underwater);
        if r != Done {
          return;
        }
      }
      assert (View(), Done) == Written(old(View()), i.cmd);
      Flush();
      if !i.stepOk {
        return Rejected;
      }
      StepPlant(i);
      Finish(i.compute);
      r := Done;
    }

    method RecoverDeadline() returns (r: Reply)
      modifies this
      ensures (View(), r) == Recovered(old(View()))
    {
      r := OnDrone(u => RecoverDrone(u));
      if r != Done {
        return;
      }
      r := OnRover(u => ResetRover(u));
      if r != Done {
        return;
      }
      r := OnHulls(u => RecoverHull(u), u => RecoverHull(u));
      if r != Done {
        return;
      }
      lastMissed := false;
    }

    method GrantAll() returns (r: Reply)
      modifies this
      ensures (View(), r) == Granted(old(View()))
    {
      r := OnDrone(u => TakeOffDrone(u));
      if r != Done {
        return;
      }
      r := OnRover(u => DriveRover(u));
      if r != Done {
        return;
      }
      r := OnHulls(u => UndockHull(u), u => UndockHull(u));
    }

    method ReturnAll() returns (r: Reply)
      modifies this
      ensures (View(), r) == Returned(old(View()))
    {
      r := OnDrone(u => LandDrone(u));
      if r != Done {
        return;
      }
      r := OnDrone(u => TouchdownDrone(u));
      if r != Done {
        return;
      }
      r := OnRover(u => ParkRover(u));
      if r != Done {
        return;
      }
      r := OnHulls(u => DockHull(u), u => DockHull(u));
    }
  }

  // ---- cut bodies ----

  /** Nothing staged, nothing live, and a machine no frame will write to. */
  predicate DroneCut(u: Drone) { u.live.None? && u.staged.None? && !OffboardControl(AerialKindOf(u.machine)) }

  predicate RoverCut(u: Chassis) { u.live.None? && u.staged.None? && !Drives(u.machine) }

  predicate HullCut(u: Hull) { u.live.None? && u.staged.None? && !Thrusts(u.machine) }

  predicate Cut(r: Rack) {
    && DroneCut(r.drone)
    && (r.rover.Some? ==> RoverCut(r.rover.value))
    && (r.skiff.Some? ==> HullCut(r.skiff.value))
    && (r.surveyor.Some? ==> HullCut(r.surveyor.value))
  }

  /** Cut, and in the failsafe of each machine: not even a grant applies. */
  predicate DroneDown(u: Drone) { DroneCut(u) && (u.machine.failsafe || u.machine.phase.Disconnected?) }

  predicate Down(r: Rack) {
    && DroneDown(r.drone)
    && (r.rover.Some? ==> RoverCut(r.rover.value) && Stopped(r.rover.value.machine))
    && (r.skiff.Some? ==> HullCut(r.skiff.value) && Failed(r.skiff.value.machine))
    && (r.surveyor.Some? ==> HullCut(r.surveyor.value) && Failed(r.surveyor.value.machine))
  }

  /** Every overrun frame that gets as far as being scored leaves the whole rack down. */
  lemma MissedFrameDowns(r: Rack, i: Frame)
    requires FrameOf(r, i).1.Done? && FrameMissed(i.compute, r.spec, r.hz)
    ensures Down(FrameOf(r, i).0) && FrameOf(r, i).0.lastMissed
  {
    TripDowns(PlantStepped(FlushedAll(Written(r, i.cmd).0), i));
    WritingKeepsSpec(r, i.cmd);
  }

  lemma TripDowns(r: Rack)
    ensures Down(Tripped(r))
  {
  }

  lemma WritingKeepsSpec(r: Rack, c: Commands)
    ensures var w := Written(r, c).0; w.spec == r.spec && w.hz == r.hz
  {
  }

  // A cut body is left alone by everything but its own grant.

  lemma WritingSkipsCut(r: Rack, c: Commands)
    requires Cut(r)
    ensures Written(r, c) == (r, Done)
  {
  }

  lemma FlushingSkipsCut(r: Rack, i: Frame)
    requires Cut(r)
    ensures FlushedAll(r) == r && PlantStepped(r, i) == r
  {
  }

  /** A frame on a cut rack delivers nothing: it only scores its own deadline. */
  lemma FrameSkipsCut(r: Rack, i: Frame)
    requires Cut(r)
    ensures FrameOf(r, i) == if i.stepOk then (Finished(r, i.compute), Done) else (r, Rejected)
  {
    WritingSkipsCut(r, i.cmd);
    FlushingSkipsCut(r, i);
  }

  /** So the first on-time frame after a miss clears the latch and does nothing else. */
  lemma OnTimeFrameOnlyClearsLatch(r: Rack, i: Frame)
    requires Cut(r) && i.stepOk && !FrameMissed(i.compute, r.spec, r.hz)
    ensures FrameOf(r, i) == (r.(lastMissed := false, frames := Counted(r.frames)), Done)
  {
    FrameSkipsCut(r, i);
  }

  /** Which machines a frame writes to, in the machine's own fields. */
  predicate Commanded(s: Safety.State) {
    !s.failsafe && (s.phase.Takeoff? || s.phase.Airborne? || s.phase.Landing? || (s.phase.Armed? && s.offboard))
  }

  lemma CommandedIsOffboardControl(s: Safety.State)
    ensures OffboardControl(AerialKindOf(s)) <==> Commanded(s)
  {
  }

  lemma InjectionCommandsNothing(s: Safety.State, e: Safety.Event)
    requires Authority.RevokesAuthority(e) && !Commanded(s)
    ensures !Commanded(Safety.Next(s, e))
    ensures s.failsafe || s.phase.Disconnected? ==> Safety.Next(s, e).failsafe || Safety.Next(s, e).phase.Disconnected?
  {
  }

  lemma PostingKeepsCut(u: Drone, e: Safety.Event)
    requires DroneCut(u) && Authority.RevokesAuthority(e)
    ensures DroneCut(Posted(u, e)) && (DroneDown(u) ==> DroneDown(Posted(u, e)))
  {
    CommandedIsOffboardControl(u.machine);
    InjectionCommandsNothing(u.machine, e);
    CommandedIsOffboardControl(Posted(u, e).machine);
  }

  lemma DroneStaysCut(u: Drone, pose: Triple)
    requires DroneCut(u)
    ensures LandDrone(u) == (u, Protocol) && ClimbDrone(u) == (u, Protocol) && HoldDrone(u, pose) == (u, Protocol)
    ensures DroneDown(u) ==> TakeOffDrone(u) == (u, Protocol)
  {
  }

  lemma RecoveringKeepsCut(u: Drone)
    requires DroneCut(u)
    ensures DroneCut(RecoverDrone(u).0)
  {
    match AerialKindOf(u.machine)
    case Failsafe =>
      RecoverWalkKeepsCut(Posted(u, Safety.Disarm));
      PostingKeepsCut(u, Safety.Disarm);
    case Recovery => RecoverWalkKeepsCut(u);
    case _ =>
  }

  lemma RecoverWalkKeepsCut(u: Drone)
    requires DroneCut(u)
    ensures DroneCut(Walked(u, [Safety.Recover], None).0)
  {
  }

  predicate Routine(op: Op) {
    op.ReturnAll? || op.Climb? || op.StationAll? || op.ResumeAll? || op.DockAll? || op.ParkAll? || op.Hold?
  }

  /** The daily round of a granted rack is refused outright by a cut one. */
  lemma RoutineIsRefused(r: Rack, op: Op)
    requires Cut(r) && Routine(op)
    ensures Next(r, op) == (r, Protocol)
  {
  }

  // ---- body by body ----

  datatype Place = Air | Land | Surface | Deep

  predicate RoverOut(s: Option<Chassis>) { s.Some? ==> RoverCut(s.value) }

  predicate HullOut(s: Option<Hull>) { s.Some? ==> HullCut(s.value) }

  predicate CutAt(r: Rack, b: Place) {
    match b
    case Air => DroneCut(r.drone)
    case Land => RoverOut(r.rover)
    case Surface => HullOut(r.skiff)
    case Deep => HullOut(r.surveyor)
  }

  predicate DownAt(r: Rack, b: Place) {
    match b
    case Air => DroneDown(r.drone)
    case Land => RoverOut(r.rover) && (r.rover.Some? ==> Stopped(r.rover.value.machine))
    case Surface => HullOut(r.skiff) && (r.skiff.Some? ==> Failed(r.skiff.value.machine))
    case Deep => HullOut(r.surveyor) && (r.surveyor.Some? ==> Failed(r.surveyor.value.machine))
  }

  predicate RoverPasses(s: Option<Chassis>, f: Chassis -> (Chassis, Reply)) { s.Some? ==> f(s.value).1.Done? }

  predicate HullPasses(s: Option<Hull>, f: Hull -> (Hull, Reply)) { s.Some? ==> f(s.value).1.Done? }

  /** The walk of every body up to this one goes through, this one's included. */
  predicate Reaches(r: Rack, d: Drone -> (Drone, Reply), f: Chassis -> (Chassis, Reply), g: Hull -> (Hull, Reply),
                    b: Place) {
    && d(r.drone).1.Done?
    && (b.Air? || RoverPasses(r.rover, f))
    && (b.Air? || b.Land? || HullPasses(r.skiff, g))
    && (b.Deep? ==> HullPasses(r.surveyor, g))
  }

  predicate Present(r: Rack, b: Place) {
    match b
    case Air => true
    case Land => r.rover.Some?
    case Surface => r.skiff.Some?
    case Deep => r.surveyor.Some?
  }

  /** A grant in which the body's own take-off, drive or undock goes through. */
  predicate Grants(r: Rack, op: Op, b: Place) {
    op.GrantAll? && Present(r, b) && Reaches(r, u => TakeOffDrone(u), u => DriveRover(u), u => UndockHull(u), b)
  }

  predicate Recovers(r: Rack, op: Op, b: Place) {
    op.RecoverDeadline? && Reaches(r, u => RecoverDrone(u), u => ResetRover(u), u => RecoverHull(u), b)
  }

  lemma WritingSkipsAir(r: Rack, c: Commands)
    requires DroneCut(r.drone)
    ensures Written(r, c).0.drone == r.drone
  {
  }

  lemma WritingSkipsLand(r: Rack, c: Commands)
    requires RoverOut(r.rover)
    ensures Written(r, c).0.rover == r.rover
  {
  }

  lemma WritingSkipsSurface(r: Rack, c: Commands)
    requires HullOut(r.skiff)
    ensures Written(r, c).0.skiff == r.skiff
  {
  }

  lemma WritingSkipsDeep(r: Rack, c: Commands)
    requires HullOut(r.surveyor)
    ensures Written(r, c).0.surveyor == r.surveyor
  {
  }

  lemma FlushSkipsPlace(r: Rack, b: Place)
    requires CutAt(r, b)
    ensures CutAt(FlushedAll(r), b) && CommandAt(FlushedAll(r), b).None? && (DownAt(r, b) ==> DownAt(FlushedAll(r), b))
  {
  }

  lemma PlantSkipsPlace(r: Rack, i: Frame, b: Place)
    requires CutAt(r, b)
    ensures CutAt(PlantStepped(r, i), b) && (DownAt(r, b) ==> DownAt(PlantStepped(r, i), b))
  {
  }

  lemma FinishSkipsPlace(r: Rack, compute: nat, b: Place)
    requires CutAt(r, b)
    ensures CutAt(Finished(r, compute), b) && (DownAt(r, b) ==> DownAt(Finished(r, compute), b))
  {
    TripDowns(r);
    DownIsDownAt(Tripped(r), b);
  }

  /** The command the plant follows at a body. */
  function CommandAt(r: Rack, b: Place): Option<Setpoint> {
    match b
    case Air => r.drone.live
    case Land => if r.rover.Some? then r.rover.value.live else None
    case Surface => if r.skiff.Some? then r.skiff.value.live else None
    case Deep => if r.surveyor.Some? then r.surveyor.value.live else None
  }

  lemma DownIsDownAt(r: Rack, b: Place)
    requires Down(r)
    ensures DownAt(r, b)
  {
  }

  /** A frame neither hands a cut body a setpoint nor lets it out. */
  lemma FrameSkipsPlace(r: Rack, i: Frame, b: Place)
    requires CutAt(r, b)
    ensures CommandAt(FlushedAll(Written(r, i.cmd).0), b).None? && CutAt(FrameOf(r, i).0, b)
    ensures DownAt(r, b) ==> DownAt(FrameOf(r, i).0, b)
  {
    match b {
      case Air => WritingSkipsAir(r, i.cmd);
      case Land => WritingSkipsLand(r, i.cmd);
      case Surface => WritingSkipsSurface(r, i.cmd);
      case Deep => WritingSkipsDeep(r, i.cmd);
    }
    var w := Written(r, i.cmd).0;
    FlushSkipsPlace(w, b);
    PlantSkipsPlace(FlushedAll(w), i, b);
    FinishSkipsPlace(PlantStepped(FlushedAll(w), i), i.compute, b);
  }

  /** The drone stays cut through everything but a grant in which it climbs, and down through
      everything but a recovery of its own. */
  lemma AirLasts(r: Rack, op: Op)
    requires DroneCut(r.drone) && !Grants(r, op, Air)
    ensures DroneCut(Next(r, op).0.drone)
    ensures DroneDown(r.drone) && !Recovers(r, op, Air) ==> DroneDown(Next(r, op).0.drone)
  {
    match op
    case RunFrame(i) => FrameSkipsPlace(r, i, Air);
    case GrantAll =>
      if AerialKindOf(r.drone.machine).PreflightReady? {
        TakeOffFromReady(r.drone);
      }
    case RecoverDeadline =>
      RecoveringKeepsCut(r.drone);
      if DroneDown(r.drone) && !Recovers(r, op, Air) {
        FailedRecoveryKeepsDown(r.drone);
      }
    case InjectRevoke(e) =>
      if Authority.RevokesAuthority(e) {
        PostingKeepsCut(r.drone, e);
      }
    case Hold(pose) => DroneStaysCut(r.drone, pose);
    case ReturnAll => DroneStaysCut(r.drone, ZERO);
    case Climb => DroneStaysCut(r.drone, ZERO);
    case _ =>
  }

  lemma FailedRecoveryKeepsDown(u: Drone)
    requires DroneDown(u) && !RecoverDrone(u).1.Done?
    ensures DroneDown(RecoverDrone(u).0)
  {
  }

  /** Where a walk of the rover and the hulls gets to. */
  lemma Chained(p: (Rack, Reply), f: Chassis -> (Chassis, Reply), g: Hull -> (Hull, Reply))
    ensures var t := ThenHulls(ThenRover(p, f), g).0;
            var ashore := p.1.Done? && RoverPasses(p.0.rover, f);
            && t.drone == p.0.drone
            && t.rover == (if p.1.Done? then Mapped(p.0.rover, u => f(u).0) else p.0.rover)
            && t.skiff == (if ashore then Mapped(p.0.skiff, u => g(u).0) else p.0.skiff)
            && t.surveyor ==
               if ashore && HullPasses(p.0.skiff, g) then Mapped(p.0.surveyor, u => g(u).0) else p.0.surveyor
  {
  }

  lemma ChainedHulls(p: (Rack, Reply), g: Hull -> (Hull, Reply))
    ensures var t := ThenHulls(p, g).0;
            && t.drone == p.0.drone && t.rover == p.0.rover
            && t.skiff == (if p.1.Done? then Mapped(p.0.skiff, u => g(u).0) else p.0.skiff)
            && t.surveyor ==
               if p.1.Done? && HullPasses(p.0.skiff, g) then Mapped(p.0.surveyor, u => g(u).0) else p.0.surveyor
  {
  }

  lemma HullStaysCut(u: Hull)
    requires HullCut(u)
    ensures StationHull(u) == (u, Protocol) && ResumeHull(u) == (u, Protocol) && DockHull(u) == (u, Protocol)
    ensures HullCut(RecoverHull(u).0) && (!UndockHull(u).1.Done? ==> HullCut(UndockHull(u).0))
    ensures Failed(u.machine) ==> UndockHull(u) == (u, Protocol)
    ensures Failed(u.machine) && !RecoverHull(u).1.Done? ==> RecoverHull(u).0 == u
  {
  }

  lemma RoverStaysCut(u: Chassis)
    requires RoverCut(u)
    ensures ParkRover(u) == (u, Protocol) && RoverCut(ResetRover(u).0)
    ensures !DriveRover(u).1.Done? ==> RoverCut(DriveRover(u).0)
    ensures Stopped(u.machine) ==> DriveRover(u) == (u, Protocol)
    ensures Stopped(u.machine) && !ResetRover(u).1.Done? ==> ResetRover(u).0 == u
  {
  }

  lemma LandLasts(r: Rack, op: Op)
    requires RoverOut(r.rover) && !Grants(r, op, Land)
    ensures RoverOut(Next(r, op).0.rover)
    ensures DownAt(r, Land) && !Recovers(r, op, Land) ==> DownAt(Next(r, op).0, Land)
  {
    if r.rover.Some? {
      RoverStaysCut(r.rover.value);
    }
    match op
    case RunFrame(i) => FrameSkipsPlace(r, i, Land);
    case GrantAll => Chained(ThenDrone((r, Done), u => TakeOffDrone(u)), u => DriveRover(u), u => UndockHull(u));
    case RecoverDeadline =>
      Chained(ThenDrone((r, Done), u => RecoverDrone(u)), u => ResetRover(u), u => RecoverHull(u));
    case ReturnAll => ReturnedChain(r);
    case StationAll => ChainedHulls((r, Done), u => StationHull(u));
    case ResumeAll => ChainedHulls((r, Done), u => ResumeHull(u));
    case DockAll => ChainedHulls((r, Done), u => DockHull(u));
    case _ =>
  }

  lemma ReturnedChain(r: Rack)
    ensures var t := Returned(r).0;
            && (t.rover == r.rover || t.rover == Mapped(r.rover, u => ParkRover(u).0))
            && (t.skiff == r.skiff || t.skiff == Mapped(r.skiff, u => DockHull(u).0))
            && (t.surveyor == r.surveyor || t.surveyor == Mapped(r.surveyor, u => DockHull(u).0))
  {
    Chained(ThenDrone(ThenDrone((r, Done), u => LandDrone(u)), u => TouchdownDrone(u)),
            u => ParkRover(u), u => DockHull(u));
  }

  lemma SurfaceLasts(r: Rack, op: Op)
    requires HullOut(r.skiff) && !Grants(r, op, Surface)
    ensures HullOut(Next(r, op).0.skiff)
    ensures DownAt(r, Surface) && !Recovers(r, op, Surface) ==> DownAt(Next(r, op).0, Surface)
  {
    if r.skiff.Some? {
      HullStaysCut(r.skiff.value);
    }
    match op
    case RunFrame(i) => FrameSkipsPlace(r, i, Surface);
    case GrantAll => Chained(ThenDrone((r, Done), u => TakeOffDrone(u)), u => DriveRover(u), u => UndockHull(u));
    case RecoverDeadline =>
      Chained(ThenDrone((r, Done), u => RecoverDrone(u)), u => ResetRover(u), u => RecoverHull(u));
    case ReturnAll => ReturnedChain(r);
    case StationAll => ChainedHulls((r, Done), u => StationHull(u));
    case ResumeAll => ChainedHulls((r, Done), u => ResumeHull(u));
    case DockAll => ChainedHulls((r, Done), u => DockHull(u));
    case _ =>
  }

  lemma DeepLasts(r: Rack, op: Op)
    requires HullOut(r.surveyor) && !Grants(r, op, Deep)
    ensures HullOut(Next(r, op).0.surveyor)
    ensures DownAt(r, Deep) && !Recovers(r, op, Deep) ==> DownAt(Next(r, op).0, Deep)
  {
    if r.surveyor.Some? {
      HullStaysCut(r.surveyor.value);
    }
    match op
    case RunFrame(i) => FrameSkipsPlace(r, i, Deep);
    case GrantAll => Chained(ThenDrone((r, Done), u => TakeOffDrone(u)), u => DriveRover(u), u => UndockHull(u));
    case RecoverDeadline =>
      Chained(ThenDrone((r, Done), u => RecoverDrone(u)), u => ResetRover(u), u => RecoverHull(u));
    case ReturnAll => ReturnedChain(r);
    case StationAll => ChainedHulls((r, Done), u => StationHull(u));
    case ResumeAll => ChainedHulls((r, Done), u => ResumeHull(u));
    case DockAll => ChainedHulls((r, Done), u => DockHull(u));
    case _ =>
  }

  /** Each body stays cut until a grant in which its own walk goes through, and down until a recovery in
      which its own walk does. A grant does not reach a body that is down. */
  lemma PlaceLasts(r: Rack, op: Op, b: Place)
    requires CutAt(r, b)
    ensures !Grants(r, op, b) ==> CutAt(Next(r, op).0, b)
    ensures DownAt(r, b) && !Recovers(r, op, b) ==> DownAt(Next(r, op).0, b)
    ensures DownAt(r, b) ==> !Grants(r, op, b)
  {
    if DownAt(r, b) && b.Air? {
      DroneStaysCut(r.drone, ZERO);
    }
    if !Grants(r, op, b) {
      match b
      case Air => AirLasts(r, op);
      case Land => LandLasts(r, op);
      case Surface => SurfaceLasts(r, op);
      case Deep => DeepLasts(r, op);
    }
  }

  /** Nothing but a grant gives any body of a cut rack its command back. */
  lemma CutLasts(r: Rack, op: Op)
    requires Cut(r) && !op.GrantAll?
    ensures Cut(Next(r, op).0)
  {
    PlaceLasts(r, op, Air);
    PlaceLasts(r, op, Land);
    PlaceLasts(r, op, Surface);
    PlaceLasts(r, op, Deep);
  }

  /** Nothing but a recovery - not even a grant - changes that a rack is down. */
  lemma DownLasts(r: Rack, op: Op)
    requires Down(r) && !op.RecoverDeadline?
    ensures Down(Next(r, op).0)
  {
    PlaceLasts(r, op, Air);
    PlaceLasts(r, op, Land);
    PlaceLasts(r, op, Surface);
    PlaceLasts(r, op, Deep);
  }

  // ---- runs ----

  /** Some operation of the run granted the body. */
  predicate GrantedAt(r: Rack, ops: seq<Op>, b: Place) {
    |ops| > 0 && (GrantedAt(r, ops[..|ops| - 1], b) || Grants(Run(r, ops[..|ops| - 1]), ops[|ops| - 1], b))
  }

  /** Some operation of the run recovered the body. */
  predicate RecoveredAt(r: Rack, ops: seq<Op>, b: Place) {
    |ops| > 0 && (RecoveredAt(r, ops[..|ops| - 1], b) || Recovers(Run(r, ops[..|ops| - 1]), ops[|ops| - 1], b))
  }

  /** A body that is down stays down until its own recovery, is not granted before that, and stays cut
      until its own grant - whatever operations are named, and whatever happens to the other bodies. */
  lemma {:induction false} CutUntilRegranted(r: Rack, ops: seq<Op>, b: Place)
    requires DownAt(r, b)
    ensures !GrantedAt(r, ops, b) ==> CutAt(Run(r, ops), b)
    ensures !RecoveredAt(r, ops, b) ==> DownAt(Run(r, ops), b) && !GrantedAt(r, ops, b)
  {
    if |ops| > 0 {
      var front, last := ops[..|ops| - 1], ops[|ops| - 1];
      CutUntilRegranted(r, front, b);
      if CutAt(Run(r, front), b) {
        PlaceLasts(Run(r, front), last, b);
      }
    }
  }

  /** After a missed frame, in any run and for each body by itself: until a grant in which its own walk
      goes through no frame hands the body a setpoint - not even once the latch has cleared. */
  lemma NoSetpointUntilRegranted(r: Rack, i: Frame, ops: seq<Op>, j: Frame, b: Place)
    requires FrameOf(r, i).1.Done? && FrameMissed(i.compute, r.spec, r.hz) && !GrantedAt(FrameOf(r, i).0, ops, b)
    ensures var later := Run(FrameOf(r, i).0, ops);
            && CutAt(later, b)
            && CommandAt(FlushedAll(Written(later, j.cmd).0), b).None?
            && CutAt(FrameOf(later, j).0, b)
  {
    MissedFrameDowns(r, i);
    DownIsDownAt(FrameOf(r, i).0, b);
    CutUntilRegranted(FrameOf(r, i).0, ops, b);
    FrameSkipsPlace(Run(FrameOf(r, i).0, ops), j, b);
  }

  // ---- only a machine that grants actuation keeps a command ----

  function Follow(live: Option<Setpoint>, acts: bool): Option<Setpoint> { if acts then live else None }

  /** What a scored frame leaves each body to follow: what the handles flushed, if the frame was on time
      and the machine and the plant let the body act, and nothing otherwise. */
  lemma FrameDeliversIff(r: Rack, i: Frame)
    requires FrameOf(r, i).1.Done?
    ensures var w, t := FlushedAll(Written(r, i.cmd).0), FrameOf(r, i).0;
            var onTime := !FrameMissed(i.compute, r.spec, r.hz);
            && CommandAt(t, Air) == Follow(w.drone.live, onTime && DroneRuns(w.drone.machine, i.air))
            && (w.rover.Some? ==>
                  CommandAt(t, Land)
                  == Follow(w.rover.value.live, onTime && RoverRuns(w.rover.value.machine, i.ground)))
            && (w.skiff.Some? ==>
                  CommandAt(t, Surface)
                  == Follow(w.skiff.value.live, onTime && HullRuns(w.skiff.value.machine, i.skiff)))
            && (w.surveyor.Some? ==>
                  CommandAt(t, Deep)
                  == Follow(w.surveyor.value.live, onTime && HullRuns(w.surveyor.value.machine, i.surveyor)))
  {
    WritingKeepsSpec(r, i.cmd);
    var p := PlantStepped(FlushedAll(Written(r, i.cmd).0), i);
    TripDowns(p);
  }

  /** So after any scored frame a failsafed, e-stopped or otherwise ungranted body holds no command. */
  lemma ScoredFrameNeedsGrant(r: Rack, i: Frame)
    requires FrameOf(r, i).1.Done?
    ensures Acting(FrameOf(r, i).0)
  {
    PlantNeedsGrant(FlushedAll(Written(r, i.cmd).0), i);
    FinishingNeedsGrant(PlantStepped(FlushedAll(Written(r, i.cmd).0), i), i.compute);
  }

  /** Every command is one that its body's machine lets it act on. */
  predicate Acting(r: Rack) {
    && (r.drone.live.Some? ==> DroneActs(r.drone.machine))
    && (r.rover.Some? && r.rover.value.live.Some? ==> RoverActs(r.rover.value.machine))
    && (r.skiff.Some? && r.skiff.value.live.Some? ==> HullActs(r.skiff.value.machine))
    && (r.surveyor.Some? && r.surveyor.value.live.Some? ==> HullActs(r.surveyor.value.machine))
  }

  lemma PlantNeedsGrant(r: Rack, i: Frame)
    ensures Acting(PlantStepped(r, i))
  {
  }

  lemma FinishingNeedsGrant(r: Rack, compute: nat)
    requires Acting(r)
    ensures Acting(Finished(r, compute))
  {
    TripDowns(r);
  }

  predicate DroneQuiet(u: Drone) { u.machine.failsafe ==> u.live.None? }

  predicate RoverQuiet(s: Option<Chassis>) { s.Some? && s.value.machine.estop ==> s.value.live.None? }

  predicate HullQuiet(s: Option<Hull>) { s.Some? && s.value.machine.failsafe ==> s.value.live.None? }

  /** No tripped body follows a command. */
  predicate Quiet(r: Rack) { DroneQuiet(r.drone) && RoverQuiet(r.rover) && HullQuiet(r.skiff) && HullQuiet(r.surveyor) }

  predicate Verified(op: Op) { op.RunFrame? ==> op.i.stepOk }

  lemma PostingKeepsQuiet(u: Drone, e: Safety.Event)
    requires DroneQuiet(u)
    ensures DroneQuiet(Posted(u, e))
  {
  }

  lemma {:induction false} WalkingKeepsQuiet(u: Drone, events: seq<Safety.Event>, next: Option<Setpoint>)
    requires DroneQuiet(u)
    ensures DroneQuiet(Walked(u, events, next).0)
    decreases |events|
  {
    if |events| > 0 && Safety.Accepts(u.machine, events[0]) {
      PostingKeepsQuiet(u, events[0]);
      WalkingKeepsQuiet(Posted(u, events[0]), events[1..], next);
    }
  }

  /** Over any run in which every plant step verifies - injected failsafes, missed frames, recoveries and
      grants included - no tripped body is left with a command. */
  lemma {:induction false} TrippedBodiesHoldNothing(r: Rack, ops: seq<Op>)
    requires Quiet(r) && forall op :: op in ops ==> Verified(op)
    ensures Quiet(Run(r, ops))
  {
    if |ops| > 0 {
      TrippedBodiesHoldNothing(r, ops[..|ops| - 1]);
      QuietLasts(Run(r, ops[..|ops| - 1]), ops[|ops| - 1]);
    }
  }

  lemma ChainKeepsQuiet(p: (Rack, Reply), f: Chassis -> (Chassis, Reply), g: Hull -> (Hull, Reply))
    requires Quiet(p.0) && forall u: Chassis :: RoverQuiet(Some(u)) ==> RoverQuiet(Some(f(u).0))
    requires forall u: Hull :: HullQuiet(Some(u)) ==> HullQuiet(Some(g(u).0))
    ensures Quiet(ThenHulls(ThenRover(p, f), g).0)
  {
    Chained(p, f, g);
    if p.0.rover.Some? {
      assert RoverQuiet(Some(p.0.rover.value));
    }
    if p.0.skiff.Some? {
      assert HullQuiet(Some(p.0.skiff.value));
    }
    if p.0.surveyor.Some? {
      assert HullQuiet(Some(p.0.surveyor.value));
    }
  }

  lemma HullsKeepQuiet(p: (Rack, Reply), g: Hull -> (Hull, Reply))
    requires Quiet(p.0) && forall u: Hull :: HullQuiet(Some(u)) ==> HullQuiet(Some(g(u).0))
    ensures Quiet(ThenHulls(p, g).0)
  {
    ChainedHulls(p, g);
    if p.0.skiff.Some? {
      assert HullQuiet(Some(p.0.skiff.value));
    }
    if p.0.surveyor.Some? {
      assert HullQuiet(Some(p.0.surveyor.value));
    }
  }

  lemma GrantKeepsQuiet(r: Rack)
    requires Quiet(r)
    ensures Quiet(Granted(r).0)
  {
    WalkingKeepsQuiet(r.drone, CLIMB, Some(Velocity(ZERO)));
    ChainKeepsQuiet(ThenDrone((r, Done), u => TakeOffDrone(u)), u => DriveRover(u), u => UndockHull(u));
  }

  lemma RecoveryKeepsQuiet(r: Rack)
    requires Quiet(r)
    ensures Quiet(Recovered(r).0)
  {
    WalkingKeepsQuiet(r.drone, [Safety.Disarm, Safety.Recover], None);
    WalkingKeepsQuiet(r.drone, [Safety.Recover], None);
    ChainKeepsQuiet(ThenDrone((r, Done), u => RecoverDrone(u)), u => ResetRover(u), u => RecoverHull(u));
  }

  lemma ReturnKeepsQuiet(r: Rack)
    requires Quiet(r)
    ensures Quiet(Returned(r).0)
  {
    WalkingKeepsQuiet(r.drone, [Safety.Land], None);
    var landed := ThenDrone((r, Done), u => LandDrone(u));
    WalkingKeepsQuiet(landed.0.drone, [Safety.Touchdown], None);
    ChainKeepsQuiet(ThenDrone(landed, u => TouchdownDrone(u)), u => ParkRover(u), u => DockHull(u));
  }

  lemma QuietLasts(r: Rack, op: Op)
    requires Quiet(r) && Verified(op)
    ensures Quiet(Next(r, op).0)
  {
    match op
    case RunFrame(i) => FrameKeepsQuiet(r, i);
    case GrantAll => GrantKeepsQuiet(r);
    case RecoverDeadline => RecoveryKeepsQuiet(r);
    case ReturnAll => ReturnKeepsQuiet(r);
    case Climb => WalkingKeepsQuiet(r.drone, [Safety.ReachedAltitude], None);
    case StationAll => HullsKeepQuiet((r, Done), u => StationHull(u));
    case ResumeAll => HullsKeepQuiet((r, Done), u => ResumeHull(u));
    case DockAll => HullsKeepQuiet((r, Done), u => DockHull(u));
    case ParkAll =>
    case Hold(pose) => HoldKeepsQuiet(r.drone, pose);
    case InjectRevoke(e) => PostingKeepsQuiet(r.drone, e);
    case WithSpec(spec) =>
  }

  /** A walk that ends in a mission command ends out of failsafe. */
  lemma MissionWalk(u: Drone, s: Setpoint)
    ensures var (w, r) := Walked(u, [Safety.HeartbeatFresh, Safety.MissionCommand], Some(s));
            r.Done? ==> !w.machine.failsafe
  {
    var rest := [Safety.MissionCommand];
    if Safety.Accepts(u.machine, Safety.HeartbeatFresh) {
      WalkStep(u, Safety.HeartbeatFresh, rest, Some(s));
      assert [Safety.HeartbeatFresh] + rest == [Safety.HeartbeatFresh, Safety.MissionCommand];
    }
  }

  lemma HoldKeepsQuiet(u: Drone, pose: Triple)
    requires DroneQuiet(u)
    ensures DroneQuiet(HoldDrone(u, pose).0)
  {
    WalkingKeepsQuiet(u, [Safety.HeartbeatFresh, Safety.MissionCommand], Some(Position(pose)));
    MissionWalk(u, Position(pose));
  }

  lemma WritingKeepsQuiet(u: Drone, v: Triple)
    requires DroneQuiet(u)
    ensures DroneQuiet(WriteDrone(u, v).0)
  {
    WalkingKeepsQuiet(u, [Safety.HeartbeatFresh, Safety.MissionCommand], Some(Velocity(v)));
  }

  lemma ActingIsQuiet(r: Rack)
    requires Acting(r)
    ensures Quiet(r)
  {
  }

  lemma FrameKeepsQuiet(r: Rack, i: Frame)
    requires Quiet(r) && i.stepOk
    ensures Quiet(FrameOf(r, i).0)
  {
    if FrameOf(r, i).1.Done? {
      ScoredFrameNeedsGrant(r, i);
      ActingIsQuiet(FrameOf(r, i).0);
    } else {
      WritingIsQuiet(r, i.cmd);
    }
  }

  /** Same body, same machine, same command: at most its handle holds something else. */
  predicate StagedOnly<M(==)>(s: Option<Unit<M>>, t: Option<Unit<M>>) {
    match s
    case None => t.None?
    case Some(u) => t.Some? && t.value.machine == u.machine && t.value.live == u.live
  }

  lemma RoverStages(p: (Rack, Reply), v: Triple)
    ensures var t := ThenRover(p, u => WriteRover(u, v)).0;
            StagedOnly(p.0.rover, t.rover) && t.(rover := p.0.rover) == p.0
  {
  }

  lemma SkiffStages(p: (Rack, Reply), v: Triple)
    ensures var t := ThenSkiff(p, u => WriteHull(u, v)).0;
            StagedOnly(p.0.skiff, t.skiff) && t.(skiff := p.0.skiff) == p.0
  {
  }

  lemma SurveyorStages(p: (Rack, Reply), v: Triple)
    ensures var t := ThenSurveyor(p, u => WriteHull(u, v)).0;
            StagedOnly(p.0.surveyor, t.surveyor) && t.(surveyor := p.0.surveyor) == p.0
  {
  }

  lemma WritingIsQuiet(r: Rack, c: Commands)
    requires Quiet(r)
    ensures Quiet(Written(r, c).0)
  {
    if !r.lastMissed {
      var p1 := ThenDrone((r, Done), u => WriteDrone(u, CommandAfterDeadline(r.lastMissed, c.aerial)));
      WritingKeepsQuiet(r.drone, CommandAfterDeadline(r.lastMissed, c.aerial));
      var p2 := ThenRover(p1, u => WriteRover(u, CommandAfterDeadline(r.lastMissed, c.ground)));
      RoverStages(p1, CommandAfterDeadline(r.lastMissed, c.ground));
      var p3 := ThenSkiff(p2, u => WriteHull(u, CommandAfterDeadline(r.lastMissed, c.marine)));
      SkiffStages(p2, CommandAfterDeadline(r.lastMissed, c.marine));
      SurveyorStages(p3, CommandAfterDeadline(r.lastMissed, c.underwater));
    }
  }

  lemma WrittenDrone(r: Rack, c: Commands)
    requires r.drone.machine.failsafe
    ensures Written(r, c).0.drone == r.drone
  {
  }

  /** An injected failsafe trips the machine but not the handle, which flushes its setpoint all the same;
      the plant step drops it. Only when that step is rejected does the setpoint stay with the body. */
  lemma InjectedFailsafeKeepsSetpointIff(r: Rack, e: Safety.Event, i: Frame)
    requires Next(r, InjectRevoke(e)).1.Done? && Next(r, InjectRevoke(e)).0.drone.machine.failsafe
    requires Written(Next(r, InjectRevoke(e)).0, i.cmd).1.Done?
    ensures var tripped := Next(r, InjectRevoke(e)).0;
            var after := FrameOf(tripped, i).0.drone;
            && tripped.drone.live.None?
            && (after.live.Some? <==> !i.stepOk && r.drone.staged.Some?)
            && (after.live.Some? ==> after.live == r.drone.staged)
  {
    var tripped := Next(r, InjectRevoke(e)).0;
    WrittenDrone(tripped, i.cmd);
    if i.stepOk {
      FrameDeliversIff(tripped, i);
    }
  }

  /** It happens to a rack fresh from its grants: the takeoff left a zero hover staged, a failsafe is
      injected, the next plant step is rejected, and the tripped drone is left following the hover. */
  lemma FreshRackKeepsSetpoint(i: Frame)
    requires !i.stepOk
    ensures var start := Rack(Unit(CLIMBING, None, Some(Velocity(ZERO))), None, None, None, false, 0, 0, HZ_50, 50);
            var (tripped, r) := Next(start, InjectRevoke(Safety.TriggerFailsafe));
            var (after, e) := FrameOf(tripped, i);
            && r.Done? && tripped.drone.machine.failsafe && tripped.drone.live.None?
            && e.Rejected? && after.drone.machine.failsafe && after.drone.live == Some(Velocity(ZERO))
  {
    var start := Rack(Unit(CLIMBING, None, Some(Velocity(ZERO))), None, None, None, false, 0, 0, HZ_50, 50);
    assert Safety.Accepts(CLIMBING, Safety.TriggerFailsafe);
    WrittenDrone(Next(start, InjectRevoke(Safety.TriggerFailsafe)).0, i.cmd);
    InjectedFailsafeKeepsSetpointIff(start, Safety.TriggerFailsafe, i);
  }

  // ---- granting again ----

  lemma WalkStep(u: Drone, e: Safety.Event, rest: seq<Safety.Event>, next: Option<Setpoint>)
    requires Safety.Accepts(u.machine, e)
    ensures Walked(u, [e] + rest, next) == Walked(Posted(u, e), rest, next)
  {
  }

  lemma ClimbInSteps()
    ensures CLIMB == [Safety.Arm] + ([Safety.HeartbeatFresh] + ([Safety.EnterOffboard] + ([Safety.EnableActuators]
                     + ([Safety.TakeOff] + ([Safety.EnableActuators] + [])))))
  {
  }

  /** Healthy, out of failsafe, in this phase. */
  predicate Fit(u: Drone, p: Safety.Phase) {
    u.machine.phase == p && !u.machine.failsafe && u.machine.imuHealthy && u.machine.estimatorValid
  }

  /** A machine with one event posted, when the event is accepted and stays out of failsafe. */
  predicate Hops(u: Drone, e: Safety.Event, n: Safety.State) {
    Safety.Accepts(u.machine, e) && Posted(u, e) == u.(machine := n)
  }

  lemma ArmHops(u: Drone)
    requires Fit(u, Safety.Ready)
    ensures Hops(u, Safety.Arm, u.machine.(phase := Safety.Armed, armed := true))
  {
  }

  lemma HeartbeatHops(u: Drone)
    requires Fit(u, Safety.Armed)
    ensures Hops(u, Safety.HeartbeatFresh, u.machine.(heartbeatFresh := true))
  {
  }

  lemma OffboardHops(u: Drone)
    requires Fit(u, Safety.Armed) && u.machine.armed && u.machine.heartbeatFresh
    ensures Hops(u, Safety.EnterOffboard, u.machine.(offboard := true))
  {
  }

  lemma ActuatorsHop(u: Drone)
    requires !u.machine.failsafe && u.machine.armed
    ensures Hops(u, Safety.EnableActuators, u.machine.(actuators := true))
  {
  }

  lemma TakeOffHops(u: Drone)
    requires Fit(u, Safety.Armed) && u.machine.armed
    ensures Hops(u, Safety.TakeOff, u.machine.(phase := Safety.Takeoff, actuators := true))
  {
  }

  lemma Hop(u: Drone, e: Safety.Event, n: Safety.State, rest: seq<Safety.Event>, next: Option<Setpoint>)
    requires Hops(u, e, n)
    ensures Walked(u, [e] + rest, next) == Walked(u.(machine := n), rest, next)
  {
    WalkStep(u, e, rest, next);
  }

  /** Where the climb ends: with these fields set and the others as they were. */
  lemma ClimbEnds(s: Safety.State)
    requires s.imuHealthy && s.estimatorValid && !s.failsafe
    ensures s.(phase := Safety.Armed, armed := true).(heartbeatFresh := true).(offboard := true).(actuators := true)
             .(phase := Safety.Takeoff, actuators := true).(actuators := true) == CLIMBING
  {
  }

  lemma WalkOut(u: Drone, rest: seq<Safety.Event>, next: Option<Setpoint>)
    requires Fit(u, Safety.Ready)
    ensures var s := u.machine.(phase := Safety.Armed, armed := true).(heartbeatFresh := true).(offboard := true);
            Walked(u, [Safety.Arm] + ([Safety.HeartbeatFresh] + ([Safety.EnterOffboard] + rest)), next)
              == Walked(u.(machine := s), rest, next)
  {
    ArmHops(u);
    var s1 := u.machine.(phase := Safety.Armed, armed := true);
    Hop(u, Safety.Arm, s1, [Safety.HeartbeatFresh] + ([Safety.EnterOffboard] + rest), next);
    HeartbeatHops(u.(machine := s1));
    var s2 := s1.(heartbeatFresh := true);
    Hop(u.(machine := s1), Safety.HeartbeatFresh, s2, [Safety.EnterOffboard] + rest, next);
    OffboardHops(u.(machine := s2));
    Hop(u.(machine := s2), Safety.EnterOffboard, s2.(offboard := true), rest, next);
  }

  lemma WalkUp(u: Drone, rest: seq<Safety.Event>, next: Option<Setpoint>)
    requires Fit(u, Safety.Armed) && u.machine.armed
    ensures var s := u.machine.(actuators := true).(phase := Safety.Takeoff, actuators := true).(actuators := true);
            Walked(u, [Safety.EnableActuators] + ([Safety.TakeOff] + ([Safety.EnableActuators] + rest)), next)
              == Walked(u.(machine := s), rest, next)
  {
    ActuatorsHop(u);
    var s1 := u.machine.(actuators := true);
    Hop(u, Safety.EnableActuators, s1, [Safety.TakeOff] + ([Safety.EnableActuators] + rest), next);
    TakeOffHops(u.(machine := s1));
    var s2 := s1.(phase := Safety.Takeoff, actuators := true);
    Hop(u.(machine := s1), Safety.TakeOff, s2, [Safety.EnableActuators] + rest, next);
    ActuatorsHop(u.(machine := s2));
    Hop(u.(machine := s2), Safety.EnableActuators, s2.(actuators := true), rest, next);
  }

  /** The climb, event by event: a healthy ready machine always ends in the same state. */
  lemma TakeOffWalk(u: Drone, events: seq<Safety.Event>, next: Option<Setpoint>)
    requires Fit(u, Safety.Ready) && events == CLIMB
    ensures Walked(u, events, next) == (Unit(CLIMBING, u.live, next), Done)
  {
    var up := [Safety.EnableActuators] + ([Safety.TakeOff] + ([Safety.EnableActuators] + []));
    var s := u.machine.(phase := Safety.Armed, armed := true).(heartbeatFresh := true).(offboard := true);
    ClimbInSteps();
    WalkOut(u, up, next);
    WalkUp(u.(machine := s), [], next);
    ClimbEnds(u.machine);
  }

  lemma WalkRefused(u: Drone, events: seq<Safety.Event>, next: Option<Setpoint>)
    requires |events| > 0 && !Safety.Accepts(u.machine, events[0])
    ensures Walked(u, events, next) == (u, Rejected)
  {
  }

  lemma KindReady(u: Drone)
    ensures AerialKindOf(u.machine).PreflightReady? <==> u.machine.phase.Ready? && !u.machine.failsafe
  {
  }

  lemma ReadyWalk(u: Drone, events: seq<Safety.Event>, next: Option<Setpoint>)
    requires u.machine.phase.Ready? && !u.machine.failsafe && events == CLIMB
    ensures var (w, r) := Walked(u, events, next);
            if u.machine.imuHealthy && u.machine.estimatorValid then (w, r) == (Unit(CLIMBING, u.live, next), Done)
            else (w, r) == (u, Rejected)
  {
    if Fit(u, Safety.Ready) {
      TakeOffWalk(u, events, next);
    } else {
      WalkRefused(u, events, next);
    }
  }

  lemma TakeOffWalks(u: Drone, events: seq<Safety.Event>, next: Option<Setpoint>)
    requires u.machine.phase.Ready? && !u.machine.failsafe && events == CLIMB && next == Some(Velocity(ZERO))
    ensures TakeOffDrone(u) == Walked(u, events, next)
  {
    KindReady(u);
  }

  /** A ready drone with healthy sensors climbs; any other ready drone is not touched. */
  lemma TakeOffFromReady(u: Drone)
    requires AerialKindOf(u.machine).PreflightReady?
    ensures var (w, r) := TakeOffDrone(u);
            if u.machine.imuHealthy && u.machine.estimatorValid
            then r.Done? && w == Unit(CLIMBING, u.live, Some(Velocity(ZERO))) && AerialKindOf(w.machine).Takeoff?
            else (w, r) == (u, Rejected)
  {
    KindReady(u);
    TakeOffWalks(u, CLIMB, Some(Velocity(ZERO)));
    ReadyWalk(u, CLIMB, Some(Velocity(ZERO)));
    KindClimbing(CLIMBING);
  }

  lemma KindClimbing(s: Safety.State)
    ensures s.phase.Takeoff? && !s.failsafe ==> AerialKindOf(s).Takeoff?
  {
  }

  /** A grant changes a rover or hull only from its rest phase, and only after the drone has climbed. */
  lemma GrantReachesInOrder(r: Rack)
    ensures var (t, e) := Granted(r);
            var climbed := AerialKindOf(r.drone.machine).PreflightReady? && AerialKindOf(t.drone.machine).Takeoff?;
            && (climbed || t.drone == r.drone)
            && (t.rover == r.rover || (climbed && r.rover.value.machine.phase.Parked?))
            && (t.skiff == r.skiff || (climbed && r.skiff.value.machine.phase.Docked?))
            && (t.surveyor == r.surveyor || (climbed && r.surveyor.value.machine.phase.Docked?))
  {
    if AerialKindOf(r.drone.machine).PreflightReady? {
      TakeOffFromReady(r.drone);
    }
  }

  lemma RecoverFromFailsafe(u: Drone)
    requires u.machine.failsafe && u.machine.phase.Failsafe?
    ensures var (w, r) := RecoverDrone(u);
            && r.Done? && AerialKindOf(w.machine).PreflightReady?
            && w.machine.imuHealthy == u.machine.imuHealthy && w.machine.estimatorValid == u.machine.estimatorValid
  {
  }

  function Rack3(r: Rack, d: Drone, f: Chassis -> Chassis, g: Hull -> Hull): Rack {
    r.(drone := d, rover := Mapped(r.rover, f), skiff := Mapped(r.skiff, g), surveyor := Mapped(r.surveyor, g))
  }

  /** When every body's own walk goes through, so does the rack's. */
  lemma AllThrough(r: Rack, d: Drone -> (Drone, Reply), f: Chassis -> (Chassis, Reply), g: Hull -> (Hull, Reply))
    requires d(r.drone).1.Done? && (r.rover.Some? ==> f(r.rover.value).1.Done?)
    requires (r.skiff.Some? ==> g(r.skiff.value).1.Done?) && (r.surveyor.Some? ==> g(r.surveyor.value).1.Done?)
    ensures ThenHulls(ThenRover(ThenDrone((r, Done), d), f), g)
         == (Rack3(r, d(r.drone).0, u => f(u).0, u => g(u).0), Done)
  {
  }

  /** The way back exists: straight after a miss, a healthy rack recovers and can be granted in
      full, which undoes the trip on every machine. */
  lemma RecoverThenGrant(r: Rack)
    requires r.drone.machine.imuHealthy && r.drone.machine.estimatorValid
    ensures var (t, e) := Recovered(Tripped(r));
            var (g, f) := Granted(t);
            && e.Done? && f.Done? && !g.lastMissed
            && AerialKindOf(g.drone.machine).Takeoff?
            && (g.rover.Some? ==> Drives(g.rover.value.machine))
            && (g.skiff.Some? ==> Thrusts(g.skiff.value.machine))
            && (g.surveyor.Some? ==> Thrusts(g.surveyor.value.machine))
  {
    DroneComesBack(r.drone);
    RoverComesBack(r.rover);
    HullComesBack(r.skiff);
    HullComesBack(r.surveyor);
    AllThrough(Tripped(r), u => RecoverDrone(u), u => ResetRover(u), u => RecoverHull(u));
    AllThrough(Recovered(Tripped(r)).0, u => TakeOffDrone(u), u => DriveRover(u), u => UndockHull(u));
  }

  lemma RoverComesBack(s: Option<Chassis>)
    ensures s.Some? ==>
              var (u, e) := ResetRover(TripRover(s.value));
              var (w, f) := DriveRover(u);
              e.Done? && f.Done? && Drives(w.machine)
  {
  }

  lemma HullComesBack(s: Option<Hull>)
    ensures s.Some? ==>
              var (u, e) := RecoverHull(TripHull(s.value));
              var (w, f) := UndockHull(u);
              e.Done? && f.Done? && Thrusts(w.machine)
  {
  }

  lemma DroneComesBack(u: Drone)
    requires u.machine.imuHealthy && u.machine.estimatorValid
    ensures var (d, e) := RecoverDrone(TripDrone(u));
            var (w, f) := TakeOffDrone(d);
            e.Done? && f.Done? && AerialKindOf(w.machine).Takeoff?
  {
    RecoverFromFailsafe(TripDrone(u));
    TakeOffFromReady(RecoverDrone(TripDrone(u)).0);
  }

  // ---- the rate stays the spec's ----

  predicate RateAgrees(r: Rack) { r.spec.Valid() && r.hz == FromPeriod(r.spec.period) }

  lemma OpKeepsRate(r: Rack, op: Op)
    requires RateAgrees(r)
    ensures RateAgrees(Next(r, op).0)
  {
  }

  lemma {:induction false} RunKeepsRate(r: Rack, ops: seq<Op>)
    requires RateAgrees(r)
    ensures RateAgrees(Run(r, ops))
  {
    if |ops| > 0 {
      RunKeepsRate(r, ops[..|ops| - 1]);
      OpKeepsRate(Run(r, ops[..|ops| - 1]), ops[|ops| - 1]);
    }
  }

  /** At any point of any run a scored frame is counted missed exactly when it overran its budget
      or the period is that of no whole rate. */
  lemma FrameCountsIff(r: Rack, ops: seq<Op>, i: Frame)
    requires RateAgrees(r) && FrameOf(Run(r, ops), i).1.Done?
    ensures var before := Run(r, ops);
            var after := FrameOf(before, i).0;
            after.lastMissed <==> i.compute > before.spec.budget || !RatePeriod(before.spec.period)
  {
    var before := Run(r, ops);
    RunKeepsRate(r, ops);
    WritingKeepsSpec(before, i.cmd);
    FrameMissedIff(i.compute, before.spec);
  }
}
