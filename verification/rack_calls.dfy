/** Every call on a body of the rack in closed form - when it goes through and what it leaves - and from that
    when a grant, a return or a recovery of the whole rack does. */
module RackCalls {
  import opened Options
  import opened Timing
  import opened Rack
  import Safety
  import SafetyRuns
  import Ground
  import Marine

  // ---- drone ----

  predicate InAir(s: Safety.State) { !s.failsafe && (s.phase.Takeoff? || s.phase.Airborne?) }

  /** Armed into offboard, or in flight. */
  predicate Piloted(s: Safety.State) {
    !s.failsafe && (s.phase.Takeoff? || s.phase.Airborne? || s.phase.Landing? || (s.phase.Armed? && s.offboard))
  }

  /** On the ground, ready, with nothing on but what the sensors say. */
  function Standing(s: Safety.State): Safety.State {
    Safety.State(Safety.Ready, false, false, s.imuHealthy, s.estimatorValid, s.heartbeatFresh, false, false)
  }

  lemma DroneTakesOff(u: Drone)
    ensures TakeOffDrone(u)
         == if !u.machine.phase.Ready? || u.machine.failsafe then (u, Protocol)
            else if u.machine.imuHealthy && u.machine.estimatorValid
            then (Unit(CLIMBING, u.live, Some(Velocity(ZERO))), Done)
            else (u, Rejected)
  {
    if u.machine.phase.Ready? && !u.machine.failsafe {
      TakeOffFromReady(u);
    }
  }

  lemma DroneLands(u: Drone)
    ensures LandDrone(u)
         == if !InAir(u.machine) then (u, Protocol)
            else if !u.machine.heartbeatFresh then (u, Stale)
            else (Unit(u.machine.(phase := Safety.Landing), u.live, None), Done)
  {
  }

  lemma DroneTouchesDown(u: Drone)
    requires SafetyRuns.Possible(u.machine)
    ensures TouchdownDrone(u)
         == if u.machine.phase.Landing? || u.machine.phase.Failsafe? then (Unit(Standing(u.machine), None, None), Done)
            else (u, Protocol)
  {
  }

  lemma DroneClimbs(u: Drone)
    ensures ClimbDrone(u)
         == if !u.machine.phase.Takeoff? || u.machine.failsafe then (u, Protocol)
            else if !u.machine.heartbeatFresh then (u, Stale)
            else (Unit(u.machine.(phase := Safety.Airborne), u.live, None), Done)
  {
  }

  lemma DroneHolds(u: Drone, pose: Triple)
    requires SafetyRuns.Possible(u.machine)
    ensures HoldDrone(u, pose)
         == if !Piloted(u.machine) then (u, Protocol)
            else if !u.machine.heartbeatFresh then (u, Stale)
            else if !u.machine.actuators then (u, Rejected)
            else (Unit(u.machine, Some(Position(pose)), Some(Position(pose))), Done)
  {
  }

  lemma DroneRecovers(u: Drone)
    requires SafetyRuns.Possible(u.machine)
    ensures RecoverDrone(u)
         == if u.machine.failsafe || u.machine.phase.Recovery? then (Unit(Standing(u.machine), None, None), Done)
            else (u, Protocol)
  {
  }

  // ---- rover and hulls ----

  predicate Parked(s: Ground.State) { s.phase.Parked? && !s.estop }

  predicate Moving(s: Ground.State) { s.phase.Moving? && !s.estop }

  lemma RoverCalls(u: Chassis)
    requires Ground.Invariants(u.machine)
    ensures DriveRover(u) == if Parked(u.machine) then (Unit(DRIVING, u.live, None), Done) else (u, Protocol)
    ensures ParkRover(u) == if Moving(u.machine) then (Unit(PARKED, None, None), Done) else (u, Protocol)
    ensures ResetRover(u) == if u.machine.estop then (Unit(PARKED, u.live, None), Done) else (u, Protocol)
  {
  }

  predicate Sailing(s: Marine.State) { !s.failsafe && (s.phase.Underway? || s.phase.StationKeep?) }

  const KEEPING: Marine.State := Marine.State(Marine.StationKeep, true, false)

  lemma HullCalls(u: Hull)
    requires Marine.Invariants(u.machine)
    ensures UndockHull(u)
         == if u.machine.phase.Docked? then (Unit(SAILING, u.live, None), Done) else (u, Protocol)
    ensures StationHull(u)
         == if u.machine.phase.Underway? then (Unit(KEEPING, u.live, None), Done) else (u, Protocol)
    ensures ResumeHull(u)
         == if u.machine.phase.StationKeep? then (Unit(SAILING, u.live, None), Done) else (u, Protocol)
    ensures DockHull(u)
         == if u.machine.phase.Underway? || u.machine.phase.StationKeep? then (Unit(DOCKED, None, None), Done)
            else (u, Protocol)
    ensures RecoverHull(u)
         == if u.machine.failsafe then (Unit(DOCKED, None, None), Done) else (u, Protocol)
  {
  }

  // ---- the whole rack ----

  /** Machines as they can be: each keeps its own invariants. */
  predicate Possible(r: Rack) {
    && SafetyRuns.Possible(r.drone.machine)
    && (r.rover.Some? ==> Ground.Invariants(r.rover.value.machine))
    && (r.skiff.Some? ==> Marine.Invariants(r.skiff.value.machine))
    && (r.surveyor.Some? ==> Marine.Invariants(r.surveyor.value.machine))
  }

  predicate SameBodies(r: Rack, t: Rack) {
    (t.rover.Some? <==> r.rover.Some?) && (t.skiff.Some? <==> r.skiff.Some?) && (t.surveyor.Some? <==> r.surveyor.Some?)
  }

  // Each rest, by the machines alone.

  predicate Launchable(r: Rack) {
    && r.drone.machine.phase.Ready? && !r.drone.machine.failsafe
    && r.drone.machine.imuHealthy && r.drone.machine.estimatorValid
    && (r.rover.Some? ==> Parked(r.rover.value.machine))
    && (r.skiff.Some? ==> r.skiff.value.machine.phase.Docked?)
    && (r.surveyor.Some? ==> r.surveyor.value.machine.phase.Docked?)
  }

  predicate Returnable(r: Rack) {
    && InAir(r.drone.machine) && r.drone.machine.heartbeatFresh
    && (r.rover.Some? ==> Moving(r.rover.value.machine))
    && (r.skiff.Some? ==> Sailing(r.skiff.value.machine))
    && (r.surveyor.Some? ==> Sailing(r.surveyor.value.machine))
  }

  predicate Recoverable(r: Rack) {
    && (r.drone.machine.failsafe || r.drone.machine.phase.Recovery?)
    && (r.rover.Some? ==> r.rover.value.machine.estop)
    && (r.skiff.Some? ==> r.skiff.value.machine.failsafe)
    && (r.surveyor.Some? ==> r.surveyor.value.machine.failsafe)
  }

  /** The same bodies as in r, with these machines. */
  predicate Ends(r: Rack, t: Rack, d: Safety.State, g: Ground.State, m: Marine.State) {
    && t.drone.machine == d && (t.rover.Some? <==> r.rover.Some?) && (t.skiff.Some? <==> r.skiff.Some?)
    && (t.surveyor.Some? <==> r.surveyor.Some?) && (t.rover.Some? ==> t.rover.value.machine == g)
    && (t.skiff.Some? ==> t.skiff.value.machine == m) && (t.surveyor.Some? ==> t.surveyor.value.machine == m)
  }

  /** A call on every body goes through if and only if it does on each. */
  lemma ThroughIff(r: Rack, d: Drone -> (Drone, Reply), f: Chassis -> (Chassis, Reply), g: Hull -> (Hull, Reply))
    ensures ThenHulls(ThenRover(ThenDrone((r, Done), d), f), g).1.Done?
       <==> d(r.drone).1.Done? && RoverPasses(r.rover, f) && HullPasses(r.skiff, g) && HullPasses(r.surveyor, g)
  {
  }

  lemma ThroughTo(r: Rack, d: Drone -> (Drone, Reply), f: Chassis -> (Chassis, Reply), g: Hull -> (Hull, Reply),
                  x: Safety.State, y: Ground.State, z: Marine.State)
    requires d(r.drone).1.Done? && d(r.drone).0.machine == x
    requires r.rover.Some? ==> f(r.rover.value).1.Done? && f(r.rover.value).0.machine == y
    requires r.skiff.Some? ==> g(r.skiff.value).1.Done? && g(r.skiff.value).0.machine == z
    requires r.surveyor.Some? ==> g(r.surveyor.value).1.Done? && g(r.surveyor.value).0.machine == z
    ensures Ends(r, ThenHulls(ThenRover(ThenDrone((r, Done), d), f), g).0, x, y, z)
  {
    AllThrough(r, d, f, g);
  }

  lemma RoverStarts(s: Option<Chassis>)
    requires s.Some? ==> Ground.Invariants(s.value.machine)
    ensures s.Some? ==> (DriveRover(s.value).1.Done? <==> Parked(s.value.machine))
                        && (Parked(s.value.machine) ==> DriveRover(s.value).0.machine == DRIVING)
  {
    if s.Some? {
      RoverCalls(s.value);
    }
  }

  lemma HullStarts(s: Option<Hull>)
    requires s.Some? ==> Marine.Invariants(s.value.machine)
    ensures s.Some? ==> (UndockHull(s.value).1.Done? <==> s.value.machine.phase.Docked?)
                        && (s.value.machine.phase.Docked? ==> UndockHull(s.value).0.machine == SAILING)
  {
    if s.Some? {
      HullCalls(s.value);
    }
  }

  /** A grant goes through if and only if the drone is ready with good sensors, the rover parked and the hulls
      docked; then all of them are out. */
  lemma GrantIff(r: Rack)
    requires Possible(r)
    ensures Granted(r).1.Done? <==> Launchable(r)
    ensures Launchable(r) ==> Ends(r, Granted(r).0, CLIMBING, DRIVING, SAILING)
  {
    DroneTakesOff(r.drone);
    RoverStarts(r.rover);
    HullStarts(r.skiff);
    HullStarts(r.surveyor);
    ThroughIff(r, u => TakeOffDrone(u), u => DriveRover(u), u => UndockHull(u));
    if Launchable(r) {
      ThroughTo(r, u => TakeOffDrone(u), u => DriveRover(u), u => UndockHull(u), CLIMBING, DRIVING, SAILING);
    }
  }

  lemma RoverResets(s: Option<Chassis>)
    requires s.Some? ==> Ground.Invariants(s.value.machine)
    ensures s.Some? ==> (ResetRover(s.value).1.Done? <==> s.value.machine.estop)
                        && (s.value.machine.estop ==> ResetRover(s.value).0.machine == PARKED)
  {
    if s.Some? {
      RoverCalls(s.value);
    }
  }

  lemma HullRecovers(s: Option<Hull>)
    requires s.Some? ==> Marine.Invariants(s.value.machine)
    ensures s.Some? ==> (RecoverHull(s.value).1.Done? <==> s.value.machine.failsafe)
                        && (s.value.machine.failsafe ==> RecoverHull(s.value).0.machine == DOCKED)
  {
    if s.Some? {
      HullCalls(s.value);
    }
  }

  lemma RecoveredBodies(r: Rack)
    ensures var (t, e) := ThenHulls(ThenRover(ThenDrone((r, Done), u => RecoverDrone(u)), u => ResetRover(u)),
                                    u => RecoverHull(u));
            Recovered(r) == (if e.Done? then t.(lastMissed := false) else t, e)
  {
  }

  /** A recovery goes through if and only if every body is tripped; then all are at rest and the next frame may
      command again. Short of that the latch stays. */
  lemma RecoverIff(r: Rack)
    requires Possible(r)
    ensures Recovered(r).1.Done? <==> Recoverable(r)
    ensures Recoverable(r) ==> Ends(r, Recovered(r).0, Standing(r.drone.machine), PARKED, DOCKED)
    ensures Recovered(r).0.lastMissed <==> r.lastMissed && !Recoverable(r)
  {
    DroneRecovers(r.drone);
    RoverResets(r.rover);
    HullRecovers(r.skiff);
    HullRecovers(r.surveyor);
    RecoveredBodies(r);
    ThroughIff(r, u => RecoverDrone(u), u => ResetRover(u), u => RecoverHull(u));
    if Recoverable(r) {
      ThroughTo(r, u => RecoverDrone(u), u => ResetRover(u), u => RecoverHull(u),
                Standing(r.drone.machine), PARKED, DOCKED);
    }
  }

  // ---- the way home ----

  /** Landing and, if that went through, touching down. */
  function HomeDrone(u: Drone): (Drone, Reply) {
    var (v, r) := LandDrone(u);
    if r.Done? then TouchdownDrone(v) else (v, r)
  }

  lemma LandingIsPossible(s: Safety.State)
    requires SafetyRuns.Possible(s) && InAir(s)
    ensures SafetyRuns.Possible(s.(phase := Safety.Landing))
  {
  }

  lemma DroneComesHome(u: Drone)
    requires SafetyRuns.Possible(u.machine)
    ensures HomeDrone(u).1.Done? <==> InAir(u.machine) && u.machine.heartbeatFresh
    ensures HomeDrone(u).1.Done? ==> HomeDrone(u).0 == Unit(Standing(u.machine), None, None)
  {
    DroneLands(u);
    if InAir(u.machine) && u.machine.heartbeatFresh {
      LandingIsPossible(u.machine);
      DroneTouchesDown(LandDrone(u).0);
    }
  }

  lemma ReturnedBodies(r: Rack)
    ensures Returned(r)
         == ThenHulls(ThenRover(ThenDrone((r, Done), u => HomeDrone(u)), u => ParkRover(u)), u => DockHull(u))
  {
    var p := ThenDrone((r, Done), u => LandDrone(u));
    assert ThenDrone(p, u => TouchdownDrone(u)) == ThenDrone((r, Done), u => HomeDrone(u));
  }

  lemma RoverParks(s: Option<Chassis>)
    requires s.Some? ==> Ground.Invariants(s.value.machine)
    ensures s.Some? ==> (ParkRover(s.value).1.Done? <==> Moving(s.value.machine))
                        && (Moving(s.value.machine) ==> ParkRover(s.value).0 == Unit(PARKED, None, None))
  {
    if s.Some? {
      RoverCalls(s.value);
    }
  }

  lemma HullDocks(s: Option<Hull>)
    requires s.Some? ==> Marine.Invariants(s.value.machine)
    ensures s.Some? ==> (DockHull(s.value).1.Done? <==> Sailing(s.value.machine))
                        && (Sailing(s.value.machine) ==> DockHull(s.value).0 == Unit(DOCKED, None, None))
  {
    if s.Some? {
      HullCalls(s.value);
    }
  }

  lemma ThroughHome(r: Rack, d: Drone -> (Drone, Reply), f: Chassis -> (Chassis, Reply), g: Hull -> (Hull, Reply))
    requires d(r.drone).1.Done? && d(r.drone).0.live.None? && d(r.drone).0.staged.None?
    requires AerialKindOf(d(r.drone).0.machine).PreflightReady?
    requires r.rover.Some? ==> f(r.rover.value) == (Unit(PARKED, None, None), Done)
    requires r.skiff.Some? ==> g(r.skiff.value) == (Unit(DOCKED, None, None), Done)
    requires r.surveyor.Some? ==> g(r.surveyor.value) == (Unit(DOCKED, None, None), Done)
    ensures Cut(ThenHulls(ThenRover(ThenDrone((r, Done), d), f), g).0)
  {
    AllThrough(r, d, f, g);
  }

  /** A return goes through if and only if the drone is in the air with a fresh heartbeat, the rover moving and
      the hulls under way or keeping station; then all are at rest and hold no command. */
  lemma ReturnIff(r: Rack)
    requires Possible(r)
    ensures Returned(r).1.Done? <==> Returnable(r)
    ensures Returnable(r) ==> Ends(r, Returned(r).0, Standing(r.drone.machine), PARKED, DOCKED) && Cut(Returned(r).0)
  {
    DroneComesHome(r.drone);
    RoverParks(r.rover);
    HullDocks(r.skiff);
    HullDocks(r.surveyor);
    ReturnedBodies(r);
    ThroughIff(r, u => HomeDrone(u), u => ParkRover(u), u => DockHull(u));
    if Returnable(r) {
      ThroughTo(r, u => HomeDrone(u), u => ParkRover(u), u => DockHull(u), Standing(r.drone.machine), PARKED, DOCKED);
      ThroughHome(r, u => HomeDrone(u), u => ParkRover(u), u => DockHull(u));
    }
  }

  lemma OutIsReturnable(r: Rack, t: Rack)
    requires Ends(r, t, CLIMBING, DRIVING, SAILING)
    ensures Possible(t) && Returnable(t)
  {
  }

  lemma HomeIsLaunchable(r: Rack, t: Rack)
    requires Ends(r, t, Standing(CLIMBING), PARKED, DOCKED)
    ensures Possible(t) && Launchable(t)
  {
  }

  lemma EndsOnward(r: Rack, s: Rack, t: Rack, d: Safety.State, g: Ground.State, m: Marine.State)
    requires SameBodies(r, s) && Ends(s, t, d, g, m)
    ensures Ends(r, t, d, g, m)
  {
  }

  /** Out and home again, as often as wanted: a rack that can be granted can then be returned, and after that
      stands as if it had never left, without a command, and can be granted again. */
  lemma ReturnUndoesGrant(r: Rack)
    requires Possible(r) && Launchable(r)
    ensures var (out, e) := Granted(r);
            var (home, f) := Returned(out);
            && e.Done? && f.Done? && Cut(home) && Possible(home) && Launchable(home)
            && Ends(r, home, Standing(CLIMBING), PARKED, DOCKED)
  {
    GrantIff(r);
    var out := Granted(r).0;
    OutIsReturnable(r, out);
    ReturnIff(out);
    assert Standing(out.drone.machine) == Standing(CLIMBING);
    EndsOnward(r, out, Returned(out).0, Standing(CLIMBING), PARKED, DOCKED);
    HomeIsLaunchable(r, Returned(out).0);
  }

  // ---- routine operations ----

  /** Both hulls, if there, are in this phase. */
  predicate HullsIn(r: Rack, p: Marine.Phase) {
    && (r.skiff.Some? ==> r.skiff.value.machine.phase == p)
    && (r.surveyor.Some? ==> r.surveyor.value.machine.phase == p)
  }

  predicate HullsSail(r: Rack) {
    && (r.skiff.Some? ==> Sailing(r.skiff.value.machine)) && (r.surveyor.Some? ==> Sailing(r.surveyor.value.machine))
  }

  /** The hulls with this machine, following what they did; all else as in r. */
  predicate HullsTo(r: Rack, t: Rack, m: Marine.State) {
    && t == r.(skiff := t.skiff, surveyor := t.surveyor)
    && t.skiff == Mapped(r.skiff, (u: Hull) => Unit(m, u.live, None))
    && t.surveyor == Mapped(r.surveyor, (u: Hull) => Unit(m, u.live, None))
  }

  lemma HullCallsOf(s: Option<Hull>)
    requires s.Some? ==> Marine.Invariants(s.value.machine)
    ensures s.Some? ==>
              var u := s.value;
              && (StationHull(u) == if u.machine.phase.Underway? then (Unit(KEEPING, u.live, None), Done)
                                    else (u, Protocol))
              && (ResumeHull(u) == if u.machine.phase.StationKeep? then (Unit(SAILING, u.live, None), Done)
                                   else (u, Protocol))
              && (DockHull(u) == if Sailing(u.machine) then (Unit(DOCKED, None, None), Done) else (u, Protocol))
  {
    if s.Some? {
      HullCalls(s.value);
    }
  }

  /** Keeping station and resuming go through if and only if every hull is under way, or keeps station; they
      move the hulls alone and leave them what they follow. */
  lemma StationIff(r: Rack)
    requires Possible(r) && !NoHull(r)
    ensures Next(r, StationAll).1.Done? <==> HullsIn(r, Marine.Underway)
    ensures Next(r, ResumeAll).1.Done? <==> HullsIn(r, Marine.StationKeep)
    ensures HullsIn(r, Marine.Underway) ==> HullsTo(r, Next(r, StationAll).0, KEEPING)
    ensures HullsIn(r, Marine.StationKeep) ==> HullsTo(r, Next(r, ResumeAll).0, SAILING)
  {
    HullCallsOf(r.skiff);
    HullCallsOf(r.surveyor);
  }

  /** Docking goes through if and only if every hull sails, parking if and only if there is a rover that moves. */
  lemma DockAndParkIff(r: Rack)
    requires Possible(r)
    ensures Next(r, DockAll).1.Done? <==> !NoHull(r) && HullsSail(r)
    ensures Next(r, DockAll).1.Done? ==>
              Next(r, DockAll).0 == r.(skiff := Mapped(r.skiff, (u: Hull) => Unit(DOCKED, None, None)),
                                       surveyor := Mapped(r.surveyor, (u: Hull) => Unit(DOCKED, None, None)))
    ensures Next(r, ParkAll).1.Done? <==> r.rover.Some? && Moving(r.rover.value.machine)
    ensures Next(r, ParkAll).1.Done? ==> Next(r, ParkAll).0 == r.(rover := Some(Unit(PARKED, None, None)))
  {
    HullCallsOf(r.skiff);
    HullCallsOf(r.surveyor);
    RoverParks(r.rover);
  }

  /** Climbing goes through if and only if the drone is taking off with a fresh heartbeat, holding if and only if
      it is under control, fresh and driven; holding replaces what the drone follows, at once. */
  lemma ClimbAndHoldIff(r: Rack, pose: Triple)
    requires Possible(r)
    ensures var s := r.drone.machine;
            && (Next(r, Climb).1.Done? <==> s.phase.Takeoff? && !s.failsafe && s.heartbeatFresh)
            && (Next(r, Hold(pose)).1.Done? <==> Piloted(s) && s.heartbeatFresh && s.actuators)
    ensures Next(r, Climb).1.Done? ==>
              Next(r, Climb).0 == r.(drone := Unit(r.drone.machine.(phase := Safety.Airborne), r.drone.live, None))
    ensures Next(r, Hold(pose)).1.Done? ==>
              Next(r, Hold(pose)).0
                == r.(drone := Unit(r.drone.machine, Some(Position(pose)), Some(Position(pose))))
  {
    DroneClimbs(r.drone);
    DroneHolds(r.drone, pose);
  }

  /** A revocation can be injected if and only if it is one of the six, and a disarm only while connected. */
  lemma InjectIff(r: Rack, e: Safety.Event)
    ensures Next(r, InjectRevoke(e)).1.Done?
       <==> e.TriggerFailsafe? || e.Disconnect? || e.HeartbeatStale? || e.EstimatorInvalid? || e.ImuUnhealthy?
            || (e.Disarm? && !r.drone.machine.phase.Disconnected?)
  {
  }

  lemma KeptIsPossible(r: Rack, t: Rack)
    requires Possible(r) && HullsTo(r, t, KEEPING)
    ensures Possible(t) && HullsIn(t, Marine.StationKeep) && (NoHull(t) <==> NoHull(r))
  {
  }

  lemma ThereAndBack(r: Rack, kept: Rack, back: Rack)
    requires Possible(r) && HullsIn(r, Marine.Underway) && HullsThrust(r)
    requires HullsTo(r, kept, KEEPING) && HullsTo(kept, back, SAILING)
    ensures back == r
  {
  }

  /** Nothing staged, and thrust on. */
  predicate HullsThrust(r: Rack) {
    && (r.skiff.Some? ==> r.skiff.value.staged.None? && r.skiff.value.machine.thrust)
    && (r.surveyor.Some? ==> r.surveyor.value.staged.None? && r.surveyor.value.machine.thrust)
  }

  /** Hulls under way that keep station and resume are as they were. */
  lemma ResumeUndoesStation(r: Rack)
    requires Possible(r) && !NoHull(r) && HullsIn(r, Marine.Underway) && HullsThrust(r)
    ensures var (kept, e) := Next(r, StationAll);
            e.Done? && Next(kept, ResumeAll) == (r, Done)
  {
    var kept := Next(r, StationAll).0;
    StationIff(r);
    KeptIsPossible(r, kept);
    StationIff(kept);
    ThereAndBack(r, kept, Next(kept, ResumeAll).0);
  }
}
