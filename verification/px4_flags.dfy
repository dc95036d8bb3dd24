/** The backend's flags and epoch after any operation, flag by flag: from the operation, whether it completed,
    and what the messages it heard come to. */
module Px4Flags {
  import opened Options
  import opened Clock
  import opened Px4
  import opened Px4Heard
  import Authority
  import Safety

  predicate Injects(op: Op, e: Safety.Event) { op.Inject? && op.e == e }

  predicate SetsPoint(op: Op) { op.SetVelocity? || op.SetPosition? }

  /** A setpoint call that finds the position estimate 250 ms old or more. */
  predicate TooLate(s: State, op: Op, d: Digest) {
    SetsPoint(op) && !d.report && s.positionAt.Some? && op.now - s.positionAt.value >= 250
  }

  /** Armed by arming alone; disarmed by a disarm that was sent, by a heartbeat that says so, and by an injected
      disarm or disconnect. */
  predicate ArmedAfter(s: State, op: Op, done: bool, d: Digest) {
    || (op.Arm? && done)
    || (s.armed && !d.disarm && !(op.Disarm? && done) && !Injects(op, Safety.Disarm) && !Injects(op, Safety.Disconnect))
  }

  /** Revoked by losing the arming otherwise than by choice, and by a disarm, until a restore or an arming. */
  predicate RevokedAfter(s: State, op: Op, done: bool, d: Digest) {
    && !op.RestoreActuation? && !(op.Arm? && done)
    && (s.revoked || (s.armed && d.disarm) || (op.Disarm? && done)
        || Injects(op, Safety.Disarm) || Injects(op, Safety.Disconnect))
  }

  /** Faults that latch: all but that of an IMU on an unarmed vehicle. */
  predicate LatchingFault(s: State, op: Op) {
    || Injects(op, Safety.HeartbeatStale) || Injects(op, Safety.EstimatorInvalid)
    || (Injects(op, Safety.ImuUnhealthy) && s.armed)
  }

  /** Latched by any failsafe, own or reported, by a fault and by an old estimate; released by a disconnect. */
  predicate LatchedAfter(s: State, op: Op, d: Digest) {
    && !Injects(op, Safety.Disconnect)
    && (s.latched || d.failsafe || op.TriggerFailsafe? || Injects(op, Safety.TriggerFailsafe)
        || LatchingFault(s, op) || TooLate(s, op, d))
  }

  /** Offboard by entering it, until arming is lost or a failsafe strikes; a fault or an old estimate that finds
      the backend latched already leaves it. */
  predicate OffboardAfter(s: State, op: Op, done: bool, d: Digest) {
    || (op.EnterOffboard? && done)
    || (s.offboard && !d.failsafe && !(s.armed && d.disarm) && !(op.Disarm? && done) && !op.TriggerFailsafe?
        && !Injects(op, Safety.TriggerFailsafe) && !Injects(op, Safety.Disarm) && !Injects(op, Safety.Disconnect)
        && (s.latched || (!LatchingFault(s, op) && !TooLate(s, op, d))))
  }

  /** A connect that is bound makes a link if it hears a heartbeat and drops the old one if not; an injected
      disconnect drops it too. */
  predicate LinkedAfter(s: State, op: Op, d: Digest) {
    if op.Connect? && op.bound then d.beat else s.link && !Injects(op, Safety.Disconnect)
  }

  /** How often the epoch moves: once for every connect, completed disarm, failsafe call, revoking injection and
      estimate found too old, and for the heartbeats on the way. */
  function Moved(s: State, op: Op, done: bool, d: Digest): nat {
    DigestBumps(s, d)
    + One(op.Connect? || (op.Disarm? && done) || op.TriggerFailsafe?
          || (op.Inject? && Authority.RevokesAuthority(op.e))
          || (TooLate(s, op, d) && !s.latched && !d.failsafe))
  }

  predicate FlagsHold(s: State, op: Op, t: State, done: bool, d: Digest) {
    && (t.armed <==> ArmedAfter(s, op, done, d))
    && (t.revoked <==> RevokedAfter(s, op, done, d))
    && (t.latched <==> LatchedAfter(s, op, d))
    && (t.offboard <==> OffboardAfter(s, op, done, d))
    && (t.link <==> LinkedAfter(s, op, d))
  }

  predicate EpochHolds(s: State, op: Op, t: State, done: bool, d: Digest) {
    s.epoch <= U32_MAX ==> t.epoch == Capped(s.epoch + Moved(s, op, done, d))
  }

  /** Flags and epoch are what they should be after an operation, given what it heard. */
  predicate Holds(s: State, op: Op, d: Digest) {
    var (t, r) := Next(s, op);
    FlagsHold(s, op, t, r == Done, d) && EpochHolds(s, op, t, r == Done, d)
  }

  predicate Quiet(op: Op) {
    op.Disarm? || op.Takeoff? || op.ReachedAltitude? || op.EnableActuators? || op.TriggerFailsafe?
    || op.RestoreActuation?
  }

  lemma QuietFlags(s: State, op: Op)
    requires Quiet(op)
    ensures FlagsHold(s, op, Next(s, op).0, Next(s, op).1 == Done, NOTHING)
  {
  }

  lemma QuietEpoch(s: State, op: Op)
    requires Quiet(op)
    ensures EpochHolds(s, op, Next(s, op).0, Next(s, op).1 == Done, NOTHING)
  {
  }

  predicate SameFlags(u: State, t: State) {
    && t.armed == u.armed && t.revoked == u.revoked && t.latched == u.latched && t.offboard == u.offboard
    && t.link == u.link
  }

  lemma FailedFlags(s: State, op: Op, done: bool)
    requires Injects(op, Safety.TriggerFailsafe)
    ensures FlagsHold(s, op, Failed(s), done, NOTHING)
  {
  }

  lemma DisarmingFlags(s: State, op: Op, done: bool)
    requires Injects(op, Safety.Disarm)
    ensures FlagsHold(s, op, Disarming(s, op.now), done, NOTHING)
  {
  }

  lemma UnlinkedFlags(s: State, op: Op, done: bool)
    requires Injects(op, Safety.Disconnect)
    ensures FlagsHold(s, op, Unlinked(s), done, NOTHING)
  {
  }

  lemma SilencedFlags(s: State, op: Op, done: bool)
    requires Injects(op, Safety.HeartbeatStale)
    ensures FlagsHold(s, op, Silenced(s, op.now), done, NOTHING)
  {
  }

  lemma UnlocatedFlags(s: State, op: Op, done: bool)
    requires Injects(op, Safety.EstimatorInvalid)
    ensures FlagsHold(s, op, Unlocated(s, op.now), done, NOTHING)
  {
  }

  lemma BlindedFlags(s: State, op: Op, done: bool)
    requires Injects(op, Safety.ImuUnhealthy)
    ensures FlagsHold(s, op, Blinded(s), done, NOTHING)
  {
  }

  lemma StruckFlags(s: State, op: Op, done: bool)
    requires op.Inject? && Authority.RevokesAuthority(op.e)
    ensures FlagsHold(s, op, Struck(s, op.e, op.now), done, NOTHING)
  {
    if op.e.TriggerFailsafe? {
      FailedFlags(s, op, done);
    } else if op.e.Disarm? {
      DisarmingFlags(s, op, done);
    } else if op.e.Disconnect? {
      UnlinkedFlags(s, op, done);
    } else if op.e.HeartbeatStale? {
      SilencedFlags(s, op, done);
    } else if op.e.EstimatorInvalid? {
      UnlocatedFlags(s, op, done);
    } else {
      BlindedFlags(s, op, done);
    }
  }

  lemma BumpKeepsFlags(s: State, e: Safety.Event, now: int)
    requires Authority.RevokesAuthority(e)
    ensures SameFlags(Struck(s, e, now), Injected(s, e, now).0)
  {
    var t := Struck(s, e, now);
    assert SameFlags(t, Bumped(t));
  }

  lemma SameFlagsHold(s: State, op: Op, u: State, t: State, done: bool, d: Digest)
    requires SameFlags(u, t) && FlagsHold(s, op, u, done, d)
    ensures FlagsHold(s, op, t, done, d)
  {
  }

  lemma InjectFlags(s: State, op: Op)
    requires op.Inject?
    ensures FlagsHold(s, op, Next(s, op).0, Next(s, op).1 == Done, NOTHING)
  {
    var done := Next(s, op).1 == Done;
    if Authority.RevokesAuthority(op.e) {
      StruckFlags(s, op, done);
      BumpKeepsFlags(s, op.e, op.now);
      SameFlagsHold(s, op, Struck(s, op.e, op.now), Next(s, op).0, done, NOTHING);
    }
  }

  lemma InjectEpoch(s: State, op: Op)
    requires op.Inject?
    ensures EpochHolds(s, op, Next(s, op).0, Next(s, op).1 == Done, NOTHING)
  {
    if s.epoch <= U32_MAX {
      InjectBumpsOnce(s, op.e, op.now, op.sent);
    }
  }

  lemma ConnectedFrom(s: State, op: Op, u: State, t: State, done: bool, d: Digest)
    requires op.Connect? && op.bound && Digested(Listening(Bumped(s)), u, d)
    requires t == if u.seenPx4 then u else u.(link := false)
    ensures FlagsHold(s, op, t, done, d)
  {
  }

  lemma ConnectedEpoch(s: State, op: Op, u: State, t: State, done: bool, d: Digest)
    requires op.Connect? && op.bound && Digested(Listening(Bumped(s)), u, d)
    requires t == if u.seenPx4 then u else u.(link := false)
    ensures EpochHolds(s, op, t, done, d)
  {
  }

  lemma ConnectHolds(s: State, op: Op, u: State, d: Digest)
    requires op.Connect? && op.bound && u == Waited(Listening(Bumped(s)), op.waits)
    requires Digested(Listening(Bumped(s)), u, d)
    ensures Holds(s, op, d)
  {
    var (t, r) := Next(s, op);
    assert t == if u.seenPx4 then u else u.(link := false);
    ConnectedFrom(s, op, u, t, r == Done, d);
    ConnectedEpoch(s, op, u, t, r == Done, d);
  }

  lemma UnboundHolds(s: State, op: Op)
    requires op.Connect? && !op.bound
    ensures Holds(s, op, NOTHING)
  {
  }

  lemma HearHolds(s: State, op: Op, d: Digest)
    requires (op.Beat? || op.Tick?) && Digested(s, Next(s, op).0, d)
    ensures Holds(s, op, d)
  {
  }

  lemma ArmHolds(s: State, op: Op, u: State, d: Digest)
    requires op.Arm? && u == Streamed(s, op.rounds).0 && Digested(s, u, d)
    ensures Holds(s, op, d)
  {
    var (t, r) := Next(s, op);
    var done := r == Done;
    assert t == if done then u.(armed := true, revoked := false) else u;
    ArmedFrom(s, op, u, t, done, d);
  }

  lemma ArmedFrom(s: State, op: Op, u: State, t: State, done: bool, d: Digest)
    requires op.Arm? && Digested(s, u, d) && t == if done then u.(armed := true, revoked := false) else u
    ensures FlagsHold(s, op, t, done, d) && EpochHolds(s, op, t, done, d)
  {
  }

  lemma EnterHolds(s: State, op: Op, u: State, d: Digest)
    requires op.EnterOffboard? && !Blocked(s) && u == Streamed(s, op.rounds).0 && Digested(s, u, d)
    ensures Holds(s, op, d)
  {
  }

  lemma RefusedHolds(s: State, op: Op)
    requires op.EnterOffboard? && Blocked(s)
    ensures Holds(s, op, NOTHING)
  {
  }

  lemma SetpointIsChecked(s: State, op: Op, u: State, late: bool, d: Digest)
    requires SetsPoint(op) && u == Drained(s, op.inbox, op.now) && late == TooLate(s, op, d)
    requires u.positionAt == if d.report then Some(op.now) else s.positionAt
    ensures var w := if late && !u.latched then Bumped(u.(latched := true, offboard := false)) else u;
            SameFlags(w, Next(s, op).0) && w.epoch == Next(s, op).0.epoch
  {
  }

  lemma SetpointHolds(s: State, op: Op, u: State, w: State, late: bool, done: bool, d: Digest)
    requires SetsPoint(op) && Digested(s, u, d) && late == TooLate(s, op, d)
    requires w == if late && !u.latched then Bumped(u.(latched := true, offboard := false)) else u
    ensures FlagsHold(s, op, w, done, d)
  {
  }

  lemma SetpointEpoch(s: State, op: Op, u: State, w: State, late: bool, done: bool, d: Digest)
    requires SetsPoint(op) && Digested(s, u, d) && late == TooLate(s, op, d)
    requires w == if late && !u.latched then Bumped(u.(latched := true, offboard := false)) else u
    ensures EpochHolds(s, op, w, done, d)
  {
  }

  lemma DigestOfDrain(s: State, inbox: seq<Msg>, now: int)
    ensures Digested(s, Drained(s, inbox, now), DigestOf(HeardOnce(s.link, inbox)))
  {
    Draining(s, inbox, now);
    Digesting(s, Drained(s, inbox, now), HeardOnce(s.link, inbox));
  }

  lemma DigestOfStream(s: State, rounds: seq<Round>)
    ensures Digested(s, Streamed(s, rounds).0, DigestOf(HeardStreaming(s, rounds)))
  {
    Streaming(s, rounds);
    Digesting(s, Streamed(s, rounds).0, HeardStreaming(s, rounds));
  }

  lemma DigestOfWait(s: State, waits: seq<Round>)
    ensures Digested(s, Waited(s, waits), DigestOf(HeardWaiting(s, waits)))
  {
    Waiting(s, waits);
    Digesting(s, Waited(s, waits), HeardWaiting(s, waits));
  }

  lemma DigestOfBeat(s: State, armed: bool, failsafe: bool, now: int)
    ensures Digested(s, Beaten(s, armed, failsafe, now), DigestOf([Heartbeat(armed, failsafe)]))
  {
    OneMessage(s, Heartbeat(armed, failsafe), now);
    Digesting(s, Beaten(s, armed, failsafe, now), [Heartbeat(armed, failsafe)]);
  }

  lemma SetpointHoldsToo(s: State, op: Op, inbox: seq<Msg>, now: int, d: Digest)
    requires SetsPoint(op) && inbox == op.inbox && now == op.now && d == DigestOf(HeardOnce(s.link, inbox))
    ensures Holds(s, op, d)
  {
    var u := Drained(s, inbox, now);
    DigestOfDrain(s, inbox, now);
    HearingDates(s, HeardOnce(s.link, inbox), now);
    var late, done := TooLate(s, op, d), Next(s, op).1 == Done;
    var w := if late && !u.latched then Bumped(u.(latched := true, offboard := false)) else u;
    SetpointIsChecked(s, op, u, late, d);
    SetpointHolds(s, op, u, w, late, done, d);
    SetpointEpoch(s, op, u, w, late, done, d);
    SameFlagsHold(s, op, w, Next(s, op).0, done, d);
  }

  lemma HearingHolds(s: State, op: Op)
    requires !Quiet(op) && !op.Inject?
    ensures Holds(s, op, DigestOf(HeardIn(s, op)))
  {
    NothingHeard();
    var d := DigestOf(HeardIn(s, op));
    match op
    case Connect(bound, waits) =>
      if bound {
        DigestOfWait(Listening(Bumped(s)), waits);
        ConnectHolds(s, op, Waited(Listening(Bumped(s)), waits), d);
      } else {
        UnboundHolds(s, op);
      }
    case Beat(armed, failsafe, now) =>
      DigestOfBeat(s, armed, failsafe, now);
      HearHolds(s, op, d);
    case Tick(inbox, now) =>
      DigestOfDrain(s, inbox, now);
      HearHolds(s, op, d);
    case Arm(rounds, _) =>
      DigestOfStream(s, rounds);
      ArmHolds(s, op, Streamed(s, rounds).0, d);
    case EnterOffboard(rounds, _) =>
      if Blocked(s) {
        RefusedHolds(s, op);
      } else {
        DigestOfStream(s, rounds);
        EnterHolds(s, op, Streamed(s, rounds).0, d);
      }
    case SetVelocity(_, inbox, now, _) => SetpointHoldsToo(s, op, inbox, now, d);
    case SetPosition(_, inbox, now, _) => SetpointHoldsToo(s, op, inbox, now, d);
  }

  /** Flags and epoch after any operation, exactly. */
  lemma OpHolds(s: State, op: Op)
    ensures Holds(s, op, DigestOf(HeardIn(s, op)))
  {
    NothingHeard();
    if Quiet(op) {
      QuietFlags(s, op);
      QuietEpoch(s, op);
    } else if op.Inject? {
      InjectFlags(s, op);
      InjectEpoch(s, op);
    } else {
      HearingHolds(s, op);
    }
  }

  /** A connect goes through if and only if its socket is bound and a heartbeat is among what it hears. */
  lemma ConnectsIff(s: State, op: Op)
    requires op.Connect?
    ensures var r := Next(s, op).1;
            && (r == Done <==> op.bound && DigestOf(HeardIn(s, op)).beat)
            && (r == Io <==> !op.bound) && (r == Done || r == Io || r == Timeout)
  {
    if op.bound {
      DigestOfWait(Listening(Bumped(s)), op.waits);
    }
  }

  // ---- what an unmoved epoch tells ----

  /** Nothing that s had of authority is lost at t. */
  predicate Intact(s: State, t: State) {
    !Blocked(t) && (s.armed ==> t.armed) && (s.offboard ==> t.offboard) && (s.link ==> t.link)
  }

  lemma DisarmShows(msgs: seq<Msg>)
    ensures var d := DigestOf(msgs); d.disarm && !d.failsafe ==> d.first
  {
    FirstSplits(BeatsOf(msgs), []);
  }

  lemma OpIntact(s: State, op: Op)
    requires !Blocked(s) && s.epoch < U32_MAX && Next(s, op).0.epoch == s.epoch
    ensures Intact(s, Next(s, op).0)
  {
    OpHolds(s, op);
    DisarmShows(HeardIn(s, op));
    NothingMoved(s, op, Next(s, op).1 == Done, DigestOf(HeardIn(s, op)));
  }

  lemma NothingMoved(s: State, op: Op, done: bool, d: Digest)
    requires !Blocked(s) && s.epoch < U32_MAX && Capped(s.epoch + Moved(s, op, done, d)) == s.epoch
    requires d.disarm && !d.failsafe ==> d.first
    ensures !LatchedAfter(s, op, d) && !RevokedAfter(s, op, done, d)
    ensures (s.armed ==> ArmedAfter(s, op, done, d)) && (s.offboard ==> OffboardAfter(s, op, done, d))
    ensures s.link ==> LinkedAfter(s, op, d)
  {
    assert Moved(s, op, done, d) == 0;
  }

  /** Authority that a permit of this epoch stands for is really there: if the epoch after any run is still the
      one before it, short of its maximum, then nothing was latched or revoked on the way, and arming,
      offboard and link are not lost. */
  lemma {:induction false} UnmovedEpochIsIntact(s: State, ops: seq<Op>)
    requires !Blocked(s) && s.epoch < U32_MAX && Run(s, ops).epoch == s.epoch
    ensures Intact(s, Run(s, ops))
  {
    if |ops| > 0 {
      var front, last := ops[..|ops| - 1], ops[|ops| - 1];
      EpochNeverFalls(s, front);
      OpKeeps(Run(s, front), last);
      UnmovedEpochIsIntact(s, front);
      OpIntact(Run(s, front), last);
    }
  }
}
