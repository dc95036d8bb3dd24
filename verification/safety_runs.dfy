/** Whole sessions of the safety kernel: why an event is refused, what the flags and the phase say of the
    session's history, and whether an armed vehicle has been through its preflight check. */
module SafetyRuns {
  import opened Safety

  /** Where every session begins. */
  const DISCONNECTED: State := State(Disconnected, false, false, false, false, false, false, false)

  // ---- where it is armed ----

  predicate ArmedInItsPlace(s: State) {
    s.armed ==> s.phase.Armed? || Flying(s.phase) || s.phase.Failsafe?
  }

  lemma StepArmsInPlace(s: State, e: Event)
    requires ArmedInItsPlace(s)
    ensures ArmedInItsPlace(Next(s, e))
  {
  }

  lemma {:induction false} RunArmsInPlace(events: seq<Event>)
    ensures ArmedInItsPlace(RunOf(DISCONNECTED, events))
  {
    if |events| > 0 {
      var front := events[..|events| - 1];
      RunArmsInPlace(front);
      StepArmsInPlace(RunOf(DISCONNECTED, front), events[|events| - 1]);
    }
  }

  /** What every state of every session is. */
  predicate Possible(s: State) { CheckInvariants(s) && OffboardIsSound(s) && ArmedInItsPlace(s) }

  lemma RunIsPossible(events: seq<Event>)
    ensures Possible(RunOf(DISCONNECTED, events))
  {
    RunIsSound(DISCONNECTED, events);
    RunArmsInPlace(events);
  }

  // ---- refusals ----

  /** Events that any phase hears; whatever else they need, they never come at the wrong time. */
  predicate HeardAnywhere(e: Event) {
    e.Disconnect? || e.ImuHealthy? || e.ImuUnhealthy? || e.EstimatorValid? || e.EstimatorInvalid? || e.HeartbeatFresh?
    || e.HeartbeatStale? || e.EnableActuators? || e.MissionCommand? || e.TriggerFailsafe?
  }

  /** The other events of each phase. */
  predicate HeardIn(p: Phase, e: Event) {
    match p
    case Disconnected => e.Connect? || e.DisableActuators?
    case Connected => e.InitComplete? || e.Disarm? || e.DisableActuators?
    case Initializing => e.Initialized? || e.Disarm? || e.DisableActuators?
    case Preflight => e.PreflightPassed? || e.PreflightFailed? || e.Disarm? || e.DisableActuators?
    case Ready => e.Arm? || e.Disarm? || e.DisableActuators?
    case Armed => e.TakeOff? || e.EnterOffboard? || e.Disarm? || e.DisableActuators?
    case Takeoff => e.ReachedAltitude? || e.Land? || e.EnterOffboard? || e.Disarm?
    case Airborne => e.Land? || e.EnterOffboard? || e.Disarm?
    case Landing => e.Touchdown? || e.EnterOffboard? || e.Disarm?
    case Failsafe => e.Touchdown? || e.Disarm? || e.DisableActuators?
    case Recovery => e.Recover? || e.Disarm? || e.DisableActuators?
  }

  /** Events that a failsafe shuts out whatever the phase. */
  predicate ShutOut(e: Event) {
    e.PreflightPassed? || e.Arm? || e.TakeOff? || e.ReachedAltitude? || e.Land? || e.EnterOffboard?
    || e.EnableActuators? || e.MissionCommand?
  }

  /** Events that look at the sensors, each in the one phase that hears it. */
  predicate LooksAtSensors(p: Phase, e: Event) { (p.Ready? && e.Arm?) || (p.Preflight? && e.PreflightPassed?) }

  /** At any point of any session, why an event is refused: by each reason, if and only if. The arming checks of
      take-off, offboard and recovery never fire, nor does the heartbeat check of a mission command. */
  lemma RefusedBecause(s: State, e: Event)
    requires Possible(s)
    ensures var v := Judged(s, e);
            && (v == Refuse(InFailsafe) <==> s.failsafe && ShutOut(e))
            && (v == Refuse(IllegalPhase) <==>
                  !(s.failsafe && ShutOut(e)) && !HeardAnywhere(e) && !HeardIn(s.phase, e))
            && (v == Refuse(NoImu) <==> LooksAtSensors(s.phase, e) && !s.imuHealthy)
            && (v == Refuse(NoEstimator) <==> LooksAtSensors(s.phase, e) && s.imuHealthy && !s.estimatorValid)
            && (v == Refuse(NotArmed) <==> (e.MissionCommand? || e.EnableActuators?) && !s.armed && !s.failsafe)
            && (v == Refuse(NoActuators) <==> e.MissionCommand? && s.armed && !s.actuators && !s.failsafe)
            && (v == Refuse(StaleHeartbeat) <==> e.EnterOffboard? && s.armed && !s.heartbeatFresh && !s.failsafe)
  {
  }

  // ---- flags ----

  datatype Flag = IsArmed | IsDriven | IsOffboard | ImuGood | EstimateGood | LinkFresh

  predicate On(f: Flag, s: State) {
    match f
    case IsArmed => s.armed
    case IsDriven => s.actuators
    case IsOffboard => s.offboard
    case ImuGood => s.imuHealthy
    case EstimateGood => s.estimatorValid
    case LinkFresh => s.heartbeatFresh
  }

  predicate Sets(f: Flag, e: Event) {
    match f
    case IsArmed => e.Arm?
    case IsDriven => e.EnableActuators? || e.TakeOff?
    case IsOffboard => e.EnterOffboard?
    case ImuGood => e.ImuHealthy?
    case EstimateGood => e.EstimatorValid?
    case LinkFresh => e.HeartbeatFresh?
  }

  predicate Clears(f: Flag, e: Event) {
    match f
    case IsArmed => e.Disarm? || e.Touchdown? || e.Disconnect?
    case IsDriven => e.DisableActuators? || e.Disarm? || e.Touchdown? || e.Disconnect?
    case IsOffboard =>
      e.Disarm? || e.Touchdown? || e.Disconnect? || e.TriggerFailsafe? || e.HeartbeatStale? || e.ImuUnhealthy?
      || e.EstimatorInvalid?
    case ImuGood => e.ImuUnhealthy?
    case EstimateGood => e.EstimatorInvalid?
    case LinkFresh => e.HeartbeatStale?
  }

  /** Of the accepted events that set or clear the flag the last one set it. */
  predicate Latest(f: Flag, events: seq<Event>) {
    |events| > 0 &&
    var front, e := events[..|events| - 1], events[|events| - 1];
    if Accepts(RunOf(DISCONNECTED, front), e) && (Sets(f, e) || Clears(f, e)) then Sets(f, e) else Latest(f, front)
  }

  /** Of the accepted events that latch or release the failsafe the last one latched it: a fault counts only
      when it strikes an armed vehicle, a lost link only under offboard control. */
  predicate LatchedLast(events: seq<Event>) {
    |events| > 0 &&
    var front, e := events[..|events| - 1], events[|events| - 1];
    if !Accepts(RunOf(DISCONNECTED, front), e) then LatchedLast(front)
    else if e.Disconnect? || e.Touchdown? || e.Recover? then false
    else
      || e.TriggerFailsafe?
      || ((e.ImuUnhealthy? || e.EstimatorInvalid?) && Latest(IsArmed, front))
      || (e.HeartbeatStale? && Latest(IsOffboard, front))
      || LatchedLast(front)
  }

  lemma StepFlags(f: Flag, s: State, e: Event)
    requires CheckInvariants(s) && OffboardIsSound(s) && Accepts(s, e)
    ensures On(f, Effect(s, e)) <==> if Sets(f, e) || Clears(f, e) then Sets(f, e) else On(f, s)
  {
  }

  /** The history of a session decides every flag of its state. */
  lemma {:induction false} FlagsAreHistory(f: Flag, events: seq<Event>)
    ensures On(f, RunOf(DISCONNECTED, events)) <==> Latest(f, events)
  {
    if |events| > 0 {
      var front, e := events[..|events| - 1], events[|events| - 1];
      FlagsAreHistory(f, front);
      RunIsPossible(front);
      if Accepts(RunOf(DISCONNECTED, front), e) {
        StepFlags(f, RunOf(DISCONNECTED, front), e);
      }
    }
  }

  lemma {:induction false} FailsafeIsHistory(events: seq<Event>)
    ensures RunOf(DISCONNECTED, events).failsafe <==> LatchedLast(events)
  {
    if |events| > 0 {
      var front, e := events[..|events| - 1], events[|events| - 1];
      FailsafeIsHistory(front);
      FlagsAreHistory(IsArmed, front);
      FlagsAreHistory(IsOffboard, front);
    }
  }

  // ---- phases ----

  /** Accepted events that move the vehicle on, in order. */
  function Moves(events: seq<Event>): seq<Event> {
    if |events| == 0 then []
    else
      var front, e := events[..|events| - 1], events[|events| - 1];
      if Accepts(RunOf(DISCONNECTED, front), e) && Moving(RunOf(DISCONNECTED, front), e) then Moves(front) + [e]
      else Moves(front)
  }

  predicate Moving(s: State, e: Event) {
    e.Connect? || e.Disconnect? || e.InitComplete? || e.Initialized? || e.PreflightPassed? || e.Arm? || e.Disarm?
    || e.TakeOff? || e.ReachedAltitude? || e.Land? || e.Touchdown? || e.Recover? || Fault(s, e)
  }

  /** A failsafe that is triggered, a sensor lost while armed, or a link lost under offboard control. */
  predicate Fault(s: State, e: Event) {
    e.TriggerFailsafe? || ((e.ImuUnhealthy? || e.EstimatorInvalid?) && s.armed) || (e.HeartbeatStale? && s.offboard)
  }

  /** The last moves were these two, or the last one was. */
  predicate Two(m: seq<Event>, a: Event, b: Event) { |m| > 1 && m[|m| - 2] == a && m[|m| - 1] == b }

  predicate Three(m: seq<Event>, a: Event, b: Event, c: Event) {
    |m| > 2 && m[|m| - 1] == c && Two(m[..|m| - 1], a, b)
  }

  /** What the moves behind a phase must have been: a vehicle in the air, for one, was armed, then took off,
      then reached its altitude, with nothing in between. */
  predicate Told(p: Phase, m: seq<Event>) {
    if |m| == 0 then p.Disconnected?
    else
      var last, front := m[|m| - 1], m[..|m| - 1];
      match p
      case Disconnected => last.Disconnect?
      case Connected => last.Connect?
      case Initializing => Two(m, Connect, InitComplete)
      case Preflight => Three(m, Connect, InitComplete, Initialized)
      case Ready => last.PreflightPassed? || last.Touchdown? || last.Recover? || last.Disarm?
      case Armed => last.Arm?
      case Takeoff => Two(m, Arm, TakeOff)
      case Airborne => Three(m, Arm, TakeOff, ReachedAltitude)
      case Landing =>
        Three(m, Arm, TakeOff, Land) || (last.Land? && Three(front, Arm, TakeOff, ReachedAltitude))
      case Failsafe => last.TriggerFailsafe? || last.ImuUnhealthy? || last.EstimatorInvalid? || last.HeartbeatStale?
      case Recovery => last.Disarm?
  }

  lemma StepTells(s: State, e: Event, m: seq<Event>)
    requires CheckInvariants(s) && Told(s.phase, m) && Accepts(s, e)
    ensures Told(Effect(s, e).phase, if Moving(s, e) then m + [e] else m)
  {
    assert (m + [e])[..|m|] == m;
  }

  lemma {:induction false} PhaseIsTold(events: seq<Event>)
    ensures Told(RunOf(DISCONNECTED, events).phase, Moves(events))
  {
    if |events| > 0 {
      var front, e := events[..|events| - 1], events[|events| - 1];
      PhaseIsTold(front);
      RunIsPossible(front);
      if Accepts(RunOf(DISCONNECTED, front), e) {
        StepTells(RunOf(DISCONNECTED, front), e, Moves(front));
      }
    }
  }

  // ---- preflight ----

  /** The preflight check has been passed since the last disconnection. */
  predicate Checked(events: seq<Event>) {
    |events| > 0 &&
    var front, e := events[..|events| - 1], events[|events| - 1];
    if !Accepts(RunOf(DISCONNECTED, front), e) then Checked(front)
    else e.PreflightPassed? || (!e.Disconnect? && Checked(front))
  }

  /** A disarm or a touchdown was accepted since the last disconnection while the check was still to come. */
  predicate Slipped(events: seq<Event>) {
    |events| > 0 &&
    var front, e := events[..|events| - 1], events[|events| - 1];
    if !Accepts(RunOf(DISCONNECTED, front), e) then Slipped(front)
    else ((e.Disarm? || e.Touchdown?) && !Checked(front)) || (!e.Disconnect? && Slipped(front))
  }

  predicate BeforeReady(p: Phase) {
    p.Disconnected? || p.Connected? || p.Initializing? || p.Preflight?
  }

  /** What `checked` and `slipped` can be at a state of the machine. */
  predicate Accounted(s: State, checked: bool, slipped: bool) {
    && !(checked && slipped)
    && (BeforeReady(s.phase) ==> !checked && !slipped)
    && (!BeforeReady(s.phase) && !s.phase.Failsafe? ==> checked || slipped)
    && (s.armed ==> checked || slipped)
  }

  lemma StepAccounts(s: State, e: Event, checked: bool, slipped: bool)
    requires Accounted(s, checked, slipped) && ArmedInItsPlace(s) && Accepts(s, e)
    ensures Accounted(Effect(s, e), e.PreflightPassed? || (!e.Disconnect? && checked),
                      ((e.Disarm? || e.Touchdown?) && !checked) || (!e.Disconnect? && slipped))
  {
  }

  lemma {:induction false} RunAccounts(events: seq<Event>)
    ensures Accounted(RunOf(DISCONNECTED, events), Checked(events), Slipped(events))
  {
    if |events| > 0 {
      var front, e := events[..|events| - 1], events[|events| - 1];
      RunAccounts(front);
      RunArmsInPlace(front);
      if Accepts(RunOf(DISCONNECTED, front), e) {
        StepAccounts(RunOf(DISCONNECTED, front), e, Checked(front), Slipped(front));
      }
    }
  }

  /** A vehicle that is armed, or could be with good sensors, has passed its preflight check in this session
      if and only if no disarm and no touchdown came before that check. */
  lemma ArmedIsCheckedIff(events: seq<Event>)
    requires var r := RunOf(DISCONNECTED, events); r.armed || r.phase.Ready?
    ensures Checked(events) <==> !Slipped(events)
  {
    RunAccounts(events);
  }

  lemma RunGrows(s: State, events: seq<Event>, k: nat)
    requires k < |events| && AllAccepted(s, events[..k]) && Accepts(RunOf(s, events[..k]), events[k])
    ensures AllAccepted(s, events[..k + 1])
    ensures RunOf(s, events[..k + 1]) == Effect(RunOf(s, events[..k]), events[k])
  {
    assert events[..k + 1][..k] == events[..k];
  }

  /** `t` follows `s` by an accepted event. */
  predicate Follows(s: State, e: Event, t: State) { Accepts(s, e) && t == Effect(s, e) }

  lemma FiveSteps(s: State, events: seq<Event>, a: State, b: State, c: State, d: State, t: State)
    requires |events| == 5
    requires Follows(s, events[0], a) && Follows(a, events[1], b) && Follows(b, events[2], c)
    requires Follows(c, events[3], d) && Follows(d, events[4], t)
    ensures AllAccepted(s, events) && RunOf(s, events) == t
  {
    RunGrows(s, events, 0);
    RunGrows(s, events, 1);
    RunGrows(s, events, 2);
    RunGrows(s, events, 3);
    RunGrows(s, events, 4);
    assert events[..5] == events;
  }

  /** Sensors and estimate are good, nothing else is set. */
  function Healthy(p: Phase): State { State(p, false, false, true, true, false, false, false) }

  const ARMED: State := Healthy(Armed).(armed := true)

  lemma ArmsFromReady()
    ensures Follows(Healthy(Ready), Arm, ARMED)
  {
  }

  /** A disarm just after connecting leads round the check, every event accepted. */
  lemma DisarmSkipsCheck()
    ensures var events := [Connect, ImuHealthy, EstimatorValid, Disarm, Arm];
            AllAccepted(DISCONNECTED, events) && RunOf(DISCONNECTED, events) == ARMED && !Checked(events)
  {
    var a := DISCONNECTED.(phase := Connected);
    var b := a.(imuHealthy := true);
    ArmsFromReady();
    var events := [Connect, ImuHealthy, EstimatorValid, Disarm, Arm];
    FiveSteps(DISCONNECTED, events, a, b, Healthy(Connected), Healthy(Ready), ARMED);
    NeverPassed(events);
  }

  /** So does a touchdown from a failsafe triggered before there was any connection. */
  lemma TouchdownSkipsCheck()
    ensures var events := [TriggerFailsafe, Touchdown, ImuHealthy, EstimatorValid, Arm];
            AllAccepted(DISCONNECTED, events) && RunOf(DISCONNECTED, events) == ARMED && !Checked(events)
  {
    var a := DISCONNECTED.(phase := Failsafe, failsafe := true);
    var b := DISCONNECTED.(phase := Ready);
    ArmsFromReady();
    var events := [TriggerFailsafe, Touchdown, ImuHealthy, EstimatorValid, Arm];
    FiveSteps(DISCONNECTED, events, a, b, b.(imuHealthy := true), Healthy(Ready), ARMED);
    NeverPassed(events);
  }

  lemma {:induction false} NeverPassed(events: seq<Event>)
    requires PreflightPassed !in events
    ensures !Checked(events)
  {
    if |events| > 0 {
      NeverPassed(events[..|events| - 1]);
    }
  }
}
