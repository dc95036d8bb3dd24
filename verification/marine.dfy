/** The surface and underwater hull machine. */
module Marine {
  datatype Phase = Docked | Underway | StationKeep | Failsafe

  datatype State = State(phase: Phase, thrust: bool, failsafe: bool)

  datatype Event = Undock | Dock | Station | Resume | ThrustCommand | Fail | Recover

  datatype Reject = IllegalPhase | InFailsafe

  datatype Result = Ok(state: State) | Err(why: Reject)

  predicate Invariants(s: State) {
    match s.phase
    case Failsafe => s.failsafe && !s.thrust
    case Underway => !s.failsafe
    case StationKeep => !s.failsafe
    case Docked => !s.failsafe && !s.thrust
  }

  /** In failsafe only docking, recovery and a further failsafe are heard. */
  predicate Heard(s: State, e: Event) { s.failsafe ==> e.Recover? || e.Fail? || e.Dock? }

  predicate Accepts(s: State, e: Event) {
    Heard(s, e) &&
    match e
    case Undock => s.phase.Docked?
    case Dock => true
    case Station => s.phase.Underway?
    case Resume => s.phase.StationKeep?
    case ThrustCommand => s.thrust
    case Fail => true
    case Recover => s.phase.Failsafe?
  }

  function Effect(s: State, e: Event): State {
    match e
    case Undock => State(Underway, true, s.failsafe)
    case Dock => State(Docked, false, false)
    case Station => State(StationKeep, true, s.failsafe)
    case Resume => State(Underway, true, s.failsafe)
    case ThrustCommand => s
    case Fail => State(Failsafe, false, true)
    case Recover => State(Docked, false, false)
  }

  method Step(s: State, e: Event) returns (r: Result)
    ensures r.Ok? <==> Accepts(s, e)
    ensures r.Ok? ==> r.state == Effect(s, e)
    ensures r == Err(InFailsafe) <==> !Heard(s, e)
    ensures Invariants(s) && r.Ok? ==> Invariants(r.state)
  {
    if s.failsafe && !(e.Recover? || e.Fail? || e.Dock?) {
      return Err(InFailsafe);
    }
    var n := s;
    match e {
      case Undock =>
        if !n.phase.Docked? { return Err(IllegalPhase); }
        n := n.(phase := Underway, thrust := true);
      case Dock =>
        n := n.(phase := Docked, thrust := false, failsafe := false);
      case Station =>
        if !n.phase.Underway? { return Err(IllegalPhase); }
        n := n.(phase := StationKeep, thrust := true);
      case Resume =>
        if !n.phase.StationKeep? { return Err(IllegalPhase); }
        n := n.(phase := Underway, thrust := true);
      case ThrustCommand =>
        if !n.thrust { return Err(IllegalPhase); }
      case Fail =>
        n := n.(phase := Failsafe, failsafe := true, thrust := false);
      case Recover =>
        if !n.phase.Failsafe? { return Err(IllegalPhase); }
        n := n.(failsafe := false, phase := Docked, thrust := false);
    }
    return Ok(n);
  }

  // ---- runs ----

  function Next(s: State, e: Event): State { if Accepts(s, e) then Effect(s, e) else s }

  function RunOf(s: State, events: seq<Event>): State {
    if |events| == 0 then s else Next(RunOf(s, events[..|events| - 1]), events[|events| - 1])
  }

  const DOCKED: State := State(Docked, false, false)

  /** Thrust and failsafe follow from the phase. */
  predicate Possible(s: State) {
    (s.thrust <==> s.phase.Underway? || s.phase.StationKeep?) && (s.failsafe <==> s.phase.Failsafe?)
  }

  lemma {:induction false} RunIsPossible(events: seq<Event>)
    ensures Possible(RunOf(DOCKED, events))
  {
    if |events| > 0 {
      RunIsPossible(events[..|events| - 1]);
    }
  }

  /** In any session, what each event needs. */
  lemma AcceptsIff(s: State, e: Event)
    requires Possible(s)
    ensures Accepts(s, e) <==> match e
                               case Undock => !s.thrust && !s.failsafe
                               case Dock => true
                               case Station => s.phase.Underway?
                               case Resume => s.phase.StationKeep?
                               case ThrustCommand => s.thrust
                               case Fail => true
                               case Recover => s.failsafe
  {
  }

  /** Of the accepted events that give or take thrust the last one gave it. */
  predicate Granted(events: seq<Event>) {
    |events| > 0 &&
    var front, e := events[..|events| - 1], events[|events| - 1];
    if !Accepts(RunOf(DOCKED, front), e) || e.ThrustCommand? then Granted(front)
    else e.Undock? || e.Station? || e.Resume?
  }

  /** Of all failures, recoveries and dockings, accepted or not, the last one was a failure. */
  predicate FailedLast(events: seq<Event>) {
    |events| > 0 &&
    var e := events[|events| - 1];
    if e.Fail? || e.Recover? || e.Dock? then e.Fail? else FailedLast(events[..|events| - 1])
  }

  /** The hull may thrust if and only if the last word on it was an undocking, a station or a resumption, and
      is in failsafe from a failure to a recovery or docking whatever else is asked of it. */
  lemma {:induction false} HistoryDecides(events: seq<Event>)
    ensures var s := RunOf(DOCKED, events); (s.thrust <==> Granted(events)) && (s.failsafe <==> FailedLast(events))
  {
    if |events| > 0 {
      HistoryDecides(events[..|events| - 1]);
      RunIsPossible(events[..|events| - 1]);
    }
  }
}
