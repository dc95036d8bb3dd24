/** Which command reaches which body of the rack: a frame's own, or a standing hold. */
module RackCommands {
  import opened Options
  import opened Roots
  import opened Timing
  import opened Rack
  import opened RackCalls
  import Safety
  import Ground
  import Marine

  // ---- one frame ----

  /** A velocity of at most a micrometre per second on every axis says nothing. */
  predicate Idle(v: Triple) { Abs(v.0) <= 0.000001 && Abs(v.1) <= 0.000001 && Abs(v.2) <= 0.000001 }

  /** What a handle flushes to its body: what it has staged, or nothing new. */
  function Pending<M>(u: Unit<M>): Option<Setpoint> { if u.staged.Some? then u.staged else u.live }

  /** What an on-time frame leaves the drone to follow: its velocity, unless that is idle and a position
      hold stands; nothing at all if the drone may not act where it is. */
  function AirCommand(u: Drone, v: Triple, at: Site): Option<Setpoint> {
    var holds := Idle(v) && u.live.Some? && u.live.value.Position?;
    if !(u.machine.armed && u.machine.actuators && !u.machine.failsafe && at.charged && !at.wet) then None
    else if Piloted(u.machine) && !holds then Some(Velocity(v))
    else Pending(u)
  }

  function LandCommand(u: Chassis, v: Triple, at: Site): Option<Setpoint> {
    if !(u.machine.drive && !u.machine.estop && at.charged && at.grounded) then None
    else if Moving(u.machine) then Some(Velocity(v))
    else Pending(u)
  }

  function WaterCommand(u: Hull, v: Triple, at: Site): Option<Setpoint> {
    if !(u.machine.thrust && !u.machine.failsafe && at.charged && at.wet) then None
    else if Sailing(u.machine) then Some(Velocity(v))
    else Pending(u)
  }

  lemma DroneWritten(u: Drone, v: Triple, at: Site)
    requires WriteDrone(u, v).1.Done?
    ensures var w := Flushed(WriteDrone(u, v).0); Follow(w.live, DroneRuns(w.machine, at)) == AirCommand(u, v, at)
  {
  }

  lemma RoverWritten(u: Chassis, v: Triple, at: Site)
    requires WriteRover(u, v).1.Done?
    ensures var w := Flushed(WriteRover(u, v).0); Follow(w.live, RoverRuns(w.machine, at)) == LandCommand(u, v, at)
  {
  }

  lemma HullWritten(u: Hull, v: Triple, at: Site)
    requires WriteHull(u, v).1.Done?
    ensures var w := Flushed(WriteHull(u, v).0); Follow(w.live, HullRuns(w.machine, at)) == WaterCommand(u, v, at)
  {
  }

  lemma WrittenBodies(r: Rack, c: Commands)
    requires !r.lastMissed && Written(r, c).1.Done?
    ensures var w := Written(r, c).0;
            && w.drone == WriteDrone(r.drone, c.aerial).0 && WriteDrone(r.drone, c.aerial).1.Done?
            && (if r.rover.None? then w.rover.None?
                else WriteRover(r.rover.value, c.ground).1.Done?
                     && w.rover == Some(WriteRover(r.rover.value, c.ground).0))
            && (if r.skiff.None? then w.skiff.None?
                else WriteHull(r.skiff.value, c.marine).1.Done?
                     && w.skiff == Some(WriteHull(r.skiff.value, c.marine).0))
            && (if r.surveyor.None? then w.surveyor.None?
                else WriteHull(r.surveyor.value, c.underwater).1.Done?
                     && w.surveyor == Some(WriteHull(r.surveyor.value, c.underwater).0))
  {
  }

  /** A scored frame that is on time, on a rack that did not miss the last one: each body ends up following
      its own command of the frame, from the machines before it and the frame alone. */
  lemma FrameCommands(r: Rack, i: Frame)
    requires !r.lastMissed && FrameOf(r, i).1.Done? && !FrameMissed(i.compute, r.spec, r.hz)
    ensures var t := FrameOf(r, i).0;
            && CommandAt(t, Air) == AirCommand(r.drone, i.cmd.aerial, i.air)
            && (r.rover.Some? ==> CommandAt(t, Land) == LandCommand(r.rover.value, i.cmd.ground, i.ground))
            && (r.skiff.Some? ==> CommandAt(t, Surface) == WaterCommand(r.skiff.value, i.cmd.marine, i.skiff))
            && (r.surveyor.Some? ==>
                  CommandAt(t, Deep) == WaterCommand(r.surveyor.value, i.cmd.underwater, i.surveyor))
  {
    WrittenBodies(r, i.cmd);
    FrameDeliversIff(r, i);
    DroneWritten(r.drone, i.cmd.aerial, i.air);
    if r.rover.Some? {
      RoverWritten(r.rover.value, i.cmd.ground, i.ground);
    }
    if r.skiff.Some? {
      HullWritten(r.skiff.value, i.cmd.marine, i.skiff);
    }
    if r.surveyor.Some? {
      HullWritten(r.surveyor.value, i.cmd.underwater, i.surveyor);
    }
  }

  // ---- a standing hold ----

  /** An idle frame that the drone may act in. */
  predicate Restful(i: Frame) { Idle(i.cmd.aerial) && i.air.charged && !i.air.wet }

  predicate Holding(u: Drone, pose: Triple) {
    && u.live == u.staged == Some(Position(pose))
    && u.machine.armed && u.machine.actuators && !u.machine.failsafe
  }

  lemma HoldTakes(u: Drone, pose: Triple)
    requires HoldDrone(u, pose).1.Done?
    ensures Holding(HoldDrone(u, pose).0, pose)
  {
  }

  lemma HoldOutlastsFrame(r: Rack, i: Frame, pose: Triple)
    requires Holding(r.drone, pose) && Restful(i)
    requires FrameOf(r, i).1.Done? && !FrameMissed(i.compute, r.spec, r.hz)
    ensures FrameOf(r, i).0.drone == r.drone
  {
    IdleWrite(r, i.cmd, pose);
    WritingKeepsSpec(r, i.cmd);
  }

  lemma IdleWrite(r: Rack, c: Commands, pose: Triple)
    requires Holding(r.drone, pose) && Idle(c.aerial)
    ensures Written(r, c).0.drone == r.drone
  {
  }

  /** All of these frames are scored and on time. */
  predicate OnTime(r: Rack, frames: seq<Frame>) {
    |frames| > 0 ==>
      var front, last := frames[..|frames| - 1], frames[|frames| - 1];
      var before := Run(r, Framed(front));
      OnTime(r, front) && FrameOf(before, last).1.Done? && !FrameMissed(last.compute, before.spec, before.hz)
  }

  function Framed(frames: seq<Frame>): seq<Op> { seq(|frames|, k requires 0 <= k < |frames| => RunFrame(frames[k])) }

  lemma FramedFront(frames: seq<Frame>)
    requires |frames| > 0
    ensures var ops, m := Framed(frames), |frames| - 1;
            |ops| == |frames| && ops[..m] == Framed(frames[..m]) && ops[m] == RunFrame(frames[m])
  {
  }

  lemma {:induction false} HoldingRun(r: Rack, pose: Triple, frames: seq<Frame>)
    requires Holding(r.drone, pose) && OnTime(r, frames)
    requires forall k :: 0 <= k < |frames| ==> Restful(frames[k])
    ensures Run(r, Framed(frames)).drone == r.drone
  {
    if |frames| > 0 {
      var front := frames[..|frames| - 1];
      HoldingRun(r, pose, front);
      FramedFront(frames);
      HoldOutlastsFrame(Run(r, Framed(front)), frames[|frames| - 1], pose);
    }
  }

  lemma HoldIsTaken(r: Rack, pose: Triple, held: Rack)
    requires Next(r, Hold(pose)) == (held, Done)
    ensures Holding(held.drone, pose)
  {
    HoldTakes(r.drone, pose);
  }

  /** A hold that was taken stands: over any run of idle frames, whatever they command the other bodies,
      the drone goes on following the pose. */
  lemma HoldStands(r: Rack, pose: Triple, held: Rack, frames: seq<Frame>)
    requires Next(r, Hold(pose)) == (held, Done) && OnTime(held, frames)
    requires forall k :: 0 <= k < |frames| ==> Restful(frames[k])
    ensures CommandAt(held, Air) == CommandAt(Run(held, Framed(frames)), Air) == Some(Position(pose))
  {
    HoldIsTaken(r, pose, held);
    HoldingRun(held, pose, frames);
  }
}
