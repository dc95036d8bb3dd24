/** The aerial safety machine, twice: as a table of what each event needs and how each field
    follows, and as the transition that assigns its fields event by event, proved to be the table. */
module Safety {
  datatype Phase =
    | Disconnected | Connected | Initializing | Preflight | Ready
    | Armed | Takeoff | Airborne | Landing | Failsafe | Recovery

  datatype State = State(phase: Phase, armed: bool, actuators: bool, imuHealthy: bool, estimatorValid: bool,
                         heartbeatFresh: bool, offboard: bool, failsafe: bool)

  datatype Event =
    | Connect | Disconnect | InitComplete | Initialized | PreflightPassed | PreflightFailed
    | ImuHealthy | ImuUnhealthy | EstimatorValid | EstimatorInvalid | Arm | Disarm | EnterOffboard
    | HeartbeatFresh | HeartbeatStale | EnableActuators | DisableActuators | TakeOff | ReachedAltitude
    | Land | Touchdown | MissionCommand | TriggerFailsafe | Recover

  datatype Reject = IllegalPhase | NoImu | NoEstimator | NotArmed | StaleHeartbeat | InFailsafe | NoActuators

  datatype Result = Ok(state: State) | Err(reason: Reject)

  // ---- the table ----

  datatype Verdict = Admit | Refuse(why: Reject)

  /** `why` when `wrong`, otherwise whatever comes next. */
  function Unless(wrong: bool, why: Reject, next: Verdict): Verdict {
    if wrong then Refuse(why) else next
  }

  predicate MissionEvent(e: Event) {
    e.MissionCommand? || e.Arm? || e.TakeOff? || e.EnterOffboard? || e.Land? || e.EnableActuators?
    || e.PreflightPassed? || e.ReachedAltitude?
  }

  predicate Flying(p: Phase) { p.Takeoff? || p.Airborne? || p.Landing? }

  /** Phases an event may start from. */
  predicate PhaseAllows(p: Phase, e: Event) {
    match e
    case Connect => p.Disconnected?
    case InitComplete => p.Connected?
    case Initialized => p.Initializing?
    case PreflightPassed => p.Preflight?
    case PreflightFailed => p.Preflight?
    case Arm => p.Ready?
    case Disarm => !p.Disconnected?
    case EnterOffboard => p.Armed? || Flying(p)
    case DisableActuators => !Flying(p)
    case TakeOff => p.Armed?
    case ReachedAltitude => p.Takeoff?
    case Land => p.Airborne? || p.Takeoff?
    case Touchdown => p.Landing? || p.Failsafe?
    case Recover => p.Recovery?
    case _ => true
  }

  /** Conditions beyond the phase, in the order they are tried. */
  function Conditions(s: State, e: Event): Verdict {
    match e
    case PreflightPassed => Unless(!s.imuHealthy, NoImu, Unless(!s.estimatorValid, NoEstimator, Admit))
    case Arm => Unless(!s.imuHealthy, NoImu, Unless(!s.estimatorValid, NoEstimator, Admit))
    case EnterOffboard => Unless(!s.armed, NotArmed, Unless(!s.heartbeatFresh, StaleHeartbeat, Admit))
    case EnableActuators => Unless(!s.armed, NotArmed, Admit)
    case TakeOff => Unless(!s.armed, NotArmed, Admit)
    case MissionCommand =>
      Unless(!s.armed, NotArmed,
        Unless(!s.actuators, NoActuators, Unless(s.offboard && !s.heartbeatFresh, StaleHeartbeat, Admit)))
    case Recover => Unless(s.armed, NotArmed, Admit)
    case _ => Admit
  }

  function Judged(s: State, e: Event): Verdict {
    Unless(s.failsafe && MissionEvent(e), InFailsafe, Unless(!PhaseAllows(s.phase, e), IllegalPhase, Conditions(s, e)))
  }

  /** Events that drop the machine into failsafe from where it is. */
  predicate Latches(s: State, e: Event) {
    e.TriggerFailsafe? || ((e.ImuUnhealthy? || e.EstimatorInvalid?) && s.armed) || (e.HeartbeatStale? && s.offboard)
  }

  /** Events after which nothing is armed, driven or under offboard control. */
  predicate Stands(e: Event) { e.Disconnect? || e.Disarm? || e.Touchdown? }

  function NextPhase(s: State, e: Event): Phase {
    if Latches(s, e) then Failsafe
    else
      match e
      case Connect => Connected
      case Disconnect => Disconnected
      case InitComplete => Initializing
      case Initialized => Preflight
      case PreflightPassed => Ready
      case Arm => Armed
      case Disarm => if s.failsafe then Recovery else Ready
      case TakeOff => Takeoff
      case ReachedAltitude => Airborne
      case Land => Landing
      case Touchdown => Ready
      case Recover => Ready
      case _ => s.phase
  }

  /** What an accepted event does, field by field. */
  function Effect(s: State, e: Event): State {
    State(
      NextPhase(s, e),
      e.Arm? || (s.armed && !Stands(e)),
      e.EnableActuators? || e.TakeOff? || (s.actuators && !e.DisableActuators? && !Stands(e)),
      e.ImuHealthy? || (s.imuHealthy && !e.ImuUnhealthy?),
      e.EstimatorValid? || (s.estimatorValid && !e.EstimatorInvalid?),
      e.HeartbeatFresh? || (s.heartbeatFresh && !e.HeartbeatStale?),
      e.EnterOffboard? || (s.offboard && !Stands(e) && !Latches(s, e)),
      Latches(s, e) || (s.failsafe && !e.Disconnect? && !e.Touchdown? && !e.Recover?))
  }

  predicate Accepts(s: State, e: Event) { Judged(s, e).Admit? }

  /** The successor when the event is accepted, the state itself when it is refused. */
  function Next(s: State, e: Event): State { if Accepts(s, e) then Effect(s, e) else s }

  function Outcome(s: State, e: Event): Result {
    match Judged(s, e)
    case Admit => Ok(Effect(s, e))
    case Refuse(why) => Err(why)
  }

  // ---- the transition as it is written ----

  method EnterFailsafe(s: State) returns (n: State)
    ensures n == State(Failsafe, s.armed, s.actuators, s.imuHealthy, s.estimatorValid, s.heartbeatFresh, false, true)
  {
    n := s.(failsafe := true, phase := Failsafe, offboard := false);
  }

  predicate Session(e: Event) {
    e.Connect? || e.Disconnect? || e.InitComplete? || e.Initialized? || e.PreflightPassed? || e.PreflightFailed?
    || e.Recover?
  }

  predicate Health(e: Event) {
    e.ImuHealthy? || e.ImuUnhealthy? || e.EstimatorValid? || e.EstimatorInvalid?
  }

  predicate Link(e: Event) { e.HeartbeatFresh? || e.HeartbeatStale? || e.TriggerFailsafe? }

  predicate Arming(e: Event) { e.Arm? || e.Disarm? || e.TakeOff? }

  predicate Flight(e: Event) { e.ReachedAltitude? || e.Land? || e.Touchdown? }

  predicate Control(e: Event) { e.EnterOffboard? || e.EnableActuators? || e.DisableActuators? || e.MissionCommand? }

  method StepSession(s: State, e: Event) returns (r: Result)
    requires Session(e) && !(s.failsafe && MissionEvent(e))
    ensures r == Outcome(s, e)
  {
    var n := s;
    match e {
      case Connect =>
        if !n.phase.Disconnected? { return Err(IllegalPhase); }
        n := n.(phase := Connected);
      case Disconnect =>
        n := n.(phase := Disconnected, armed := false, actuators := false, offboard := false, failsafe := false);
      case InitComplete =>
        if !n.phase.Connected? { return Err(IllegalPhase); }
        n := n.(phase := Initializing);
      case Initialized =>
        if !n.phase.Initializing? { return Err(IllegalPhase); }
        n := n.(phase := Preflight);
      case PreflightPassed =>
        if !n.phase.Preflight? { return Err(IllegalPhase); }
        if !n.imuHealthy { return Err(NoImu); }
        if !n.estimatorValid { return Err(NoEstimator); }
        n := n.(phase := Ready);
      case PreflightFailed =>
        if !n.phase.Preflight? { return Err(IllegalPhase); }
      case Recover =>
        if !n.phase.Recovery? { return Err(IllegalPhase); }
        if n.armed { return Err(NotArmed); }
        n := n.(failsafe := false, phase := Ready);
    }
    return Ok(n);
  }

  method StepHealth(s: State, e: Event) returns (r: Result)
    requires Health(e) && !(s.failsafe && MissionEvent(e))
    ensures r == Outcome(s, e)
  {
    var n := s;
    match e {
      case ImuHealthy =>
        n := n.(imuHealthy := true);
      case ImuUnhealthy =>
        if n.armed { n := EnterFailsafe(n); }
        n := n.(imuHealthy := false);
      case EstimatorValid =>
        n := n.(estimatorValid := true);
      case EstimatorInvalid =>
        if n.armed { n := EnterFailsafe(n); }
        n := n.(estimatorValid := false);
    }
    return Ok(n);
  }

  method StepLink(s: State, e: Event) returns (r: Result)
    requires Link(e) && !(s.failsafe && MissionEvent(e))
    ensures r == Outcome(s, e)
  {
    var n := s;
    match e {
      case HeartbeatFresh =>
        n := n.(heartbeatFresh := true);
      case HeartbeatStale =>
        n := n.(heartbeatFresh := false);
        if n.offboard { n := EnterFailsafe(n); }
      case TriggerFailsafe =>
        n := EnterFailsafe(n);
    }
    return Ok(n);
  }

  method StepArming(s: State, e: Event) returns (r: Result)
    requires Arming(e) && !(s.failsafe && MissionEvent(e))
    ensures r == Outcome(s, e)
  {
    var n := s;
    match e {
      case Arm =>
        if !n.phase.Ready? { return Err(IllegalPhase); }
        if !n.imuHealthy { return Err(NoImu); }
        if !n.estimatorValid { return Err(NoEstimator); }
        n := n.(armed := true, phase := Armed);
      case Disarm =>
        if n.phase.Disconnected? { return Err(IllegalPhase); }
        n := n.(armed := false, actuators := false, offboard := false);
        if n.failsafe {
          n := n.(phase := Recovery);
        } else {
          n := n.(phase := Ready, failsafe := false);
        }
      case TakeOff =>
        if !n.phase.Armed? { return Err(IllegalPhase); }
        if !n.armed { return Err(NotArmed); }
        n := n.(actuators := true, phase := Takeoff);
    }
    return Ok(n);
  }

  method StepFlight(s: State, e: Event) returns (r: Result)
    requires Flight(e) && !(s.failsafe && MissionEvent(e))
    ensures r == Outcome(s, e)
  {
    var n := s;
    match e {
      case ReachedAltitude =>
        if !n.phase.Takeoff? { return Err(IllegalPhase); }
        n := n.(phase := Airborne);
      case Land =>
        if !n.phase.Airborne? && !n.phase.Takeoff? { return Err(IllegalPhase); }
        n := n.(phase := Landing);
      case Touchdown =>
        if !n.phase.Landing? && !n.phase.Failsafe? { return Err(IllegalPhase); }
        n := n.(actuators := false, armed := false, offboard := false, failsafe := false, phase := Ready);
    }
    return Ok(n);
  }

  method StepControl(s: State, e: Event) returns (r: Result)
    requires Control(e) && !(s.failsafe && MissionEvent(e))
    ensures r == Outcome(s, e)
  {
    var n := s;
    match e {
      case EnterOffboard =>
        if !n.phase.Armed? && !n.phase.Takeoff? && !n.phase.Airborne? && !n.phase.Landing? { return Err(IllegalPhase); }
        if !n.armed { return Err(NotArmed); }
        if !n.heartbeatFresh { return Err(StaleHeartbeat); }
        n := n.(offboard := true);
      case EnableActuators =>
        if !n.armed { return Err(NotArmed); }
        n := n.(actuators := true);
      case DisableActuators =>
        if n.phase.Takeoff? || n.phase.Airborne? || n.phase.Landing? { return Err(IllegalPhase); }
        n := n.(actuators := false);
      case MissionCommand =>
        if n.failsafe { return Err(InFailsafe); }
        if !n.armed { return Err(NotArmed); }
        if !n.actuators { return Err(NoActuators); }
        if n.offboard && !n.heartbeatFresh { return Err(StaleHeartbeat); }
    }
    return Ok(n);
  }

  /** The failsafe gate, then the transition of the event's own group. */
  method Step(s: State, e: Event) returns (r: Result)
    ensures r == Outcome(s, e)
  {
    if s.failsafe && MissionEvent(e) {
      return Err(InFailsafe);
    }
    if Session(e) {
      r := StepSession(s, e);
    } else if Health(e) {
      r := StepHealth(s, e);
    } else if Link(e) {
      r := StepLink(s, e);
    } else if Arming(e) {
      r := StepArming(s, e);
    } else if Flight(e) {
      r := StepFlight(s, e);
    } else {
      r := StepControl(s, e);
    }
  }

  function RunOf(s: State, events: seq<Event>): State {
    if |events| == 0 then s else Next(RunOf(s, events[..|events| - 1]), events[|events| - 1])
  }

  /** All events of the run are accepted. */
  predicate AllAccepted(s: State, events: seq<Event>) {
    |events| > 0 ==>
      var front := events[..|events| - 1];
      AllAccepted(s, front) && Accepts(RunOf(s, front), events[|events| - 1])
  }

  lemma {:induction false} AcceptedPrefix(s: State, events: seq<Event>, k: nat)
    requires k <= |events| && AllAccepted(s, events)
    ensures AllAccepted(s, events[..k])
    decreases |events|
  {
    if k < |events| {
      var front := events[..|events| - 1];
      assert front[..k] == events[..k];
      AcceptedPrefix(s, front, k);
    } else {
      assert events[..k] == events;
    }
  }

  /** Stops at the first refusal; otherwise ends where the run ends. */
  method StepAll(s0: State, events: seq<Event>) returns (r: Result)
    ensures r.Ok? <==> AllAccepted(s0, events)
    ensures r.Ok? ==> r.state == RunOf(s0, events)
    ensures r.Err? ==> exists i :: 0 <= i < |events| && AllAccepted(s0, events[..i])
                                   && Judged(RunOf(s0, events[..i]), events[i]) == Refuse(r.reason)
  {
    var s := s0;
    assert events[..0] == [];
    for i := 0 to |events|
      invariant AllAccepted(s0, events[..i]) && s == RunOf(s0, events[..i])
    {
      var next := Step(s, events[i]);
      var upto := events[..i + 1];
      assert upto[..i] == events[..i] && upto[i] == events[i];
      match next {
        case Err(why) =>
          assert !AllAccepted(s0, upto);
          if AllAccepted(s0, events) {
            AcceptedPrefix(s0, events, i + 1);
          }
          return Err(why);
        case Ok(n) => s := n;
      }
    }
    assert events[..|events|] == events;
    return Ok(s);
  }

  // ---- invariants ----

  /** What the machine's own checker demands. */
  predicate CheckInvariants(s: State) {
    && (s.actuators ==> s.armed)
    && (s.offboard ==> s.armed)
    && (s.phase.Failsafe? ==> s.failsafe)
    && (s.failsafe ==> s.phase.Failsafe? || s.phase.Recovery?)
    && (s.phase.Disconnected? ==> !s.armed && !s.actuators && !s.failsafe && !s.offboard)
    && (s.phase.Armed? || Flying(s.phase) ==> s.armed)
    && (Flying(s.phase) ==> s.actuators)
    && (s.armed && !s.failsafe ==> s.imuHealthy && s.estimatorValid)
  }

  /** Offboard control is held only by a machine that is armed, out of failsafe and fresh. */
  predicate OffboardIsSound(s: State) {
    s.offboard ==> s.armed && !s.failsafe && s.heartbeatFresh
  }

  lemma {:induction false} RunIsSound(s: State, events: seq<Event>)
    requires CheckInvariants(s) && OffboardIsSound(s)
    ensures CheckInvariants(RunOf(s, events)) && OffboardIsSound(RunOf(s, events))
  {
    if |events| > 0 {
      RunIsSound(s, events[..|events| - 1]);
      StepIsSound(RunOf(s, events[..|events| - 1]), events[|events| - 1]);
    }
  }

  lemma StepIsSound(s: State, e: Event)
    requires CheckInvariants(s) && OffboardIsSound(s)
    ensures CheckInvariants(Next(s, e)) && OffboardIsSound(Next(s, e))
  {
    StepKeepsChecks(s, e);
    StepKeepsOffboardSound(s, e);
  }

  lemma StepKeepsChecks(s: State, e: Event)
    requires CheckInvariants(s) && OffboardIsSound(s)
    ensures CheckInvariants(Next(s, e))
  {
  }

  lemma StepKeepsOffboardSound(s: State, e: Event)
    requires CheckInvariants(s) && OffboardIsSound(s)
    ensures OffboardIsSound(Next(s, e))
  {
  }
}
