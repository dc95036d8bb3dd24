/** The ground-vehicle machine. */
module Ground {
  datatype Phase = Parked | Moving | EStop

  datatype State = State(phase: Phase, drive: bool, estop: bool)

  datatype Event = Release | Halt | Stop | ClearEstop | DriveCommand

  datatype Reject = IllegalPhase | EStopped

  datatype Result = Ok(state: State) | Err(why: Reject)

  predicate Invariants(s: State) {
    match s.phase
    case EStop => s.estop && !s.drive
    case Moving => !s.estop
    case Parked => !s.estop && !s.drive
  }

  /** Which events each phase takes, and the one phase and grant they lead to. */
  predicate Accepts(s: State, e: Event) {
    match e
    case Release => s.phase.Parked?
    case Halt => s.phase.Moving?
    case Stop => true
    case ClearEstop => s.phase.EStop?
    case DriveCommand => !s.estop && s.phase.Moving? && s.drive
  }

  function Effect(s: State, e: Event): State {
    match e
    case Release => State(Moving, true, s.estop)
    case Halt => State(Parked, false, s.estop)
    case Stop => State(EStop, false, true)
    case ClearEstop => State(Parked, false, false)
    case DriveCommand => s
  }

  method Step(s: State, e: Event) returns (r: Result)
    ensures r.Ok? <==> Accepts(s, e)
    ensures r.Ok? ==> r.state == Effect(s, e)
    ensures r == Err(EStopped) <==> e.DriveCommand? && s.estop
    ensures Invariants(s) && r.Ok? ==> Invariants(r.state)
  {
    var n := s;
    match e {
      case Release =>
        if !n.phase.Parked? { return Err(IllegalPhase); }
        n := n.(phase := Moving);
        n := n.(drive := true);
      case Halt =>
        if !n.phase.Moving? { return Err(IllegalPhase); }
        n := n.(phase := Parked);
        n := n.(drive := false);
      case Stop =>
        n := n.(phase := EStop);
        n := n.(estop := true);
        n := n.(drive := false);
      case ClearEstop =>
        if !n.phase.EStop? { return Err(IllegalPhase); }
        n := n.(estop := false);
        n := n.(phase := Parked);
        n := n.(drive := false);
      case DriveCommand =>
        if n.estop { return Err(EStopped); }
        if !n.phase.Moving? || !n.drive { return Err(IllegalPhase); }
    }
    return Ok(n);
  }

  // ---- runs ----

  function Next(s: State, e: Event): State { if Accepts(s, e) then Effect(s, e) else s }

  function RunOf(s: State, events: seq<Event>): State {
    if |events| == 0 then s else Next(RunOf(s, events[..|events| - 1]), events[|events| - 1])
  }

  const PARKED: State := State(Parked, false, false)

  /** Grant and stop tell the phase. */
  predicate Possible(s: State) {
    s.phase == (if s.estop then EStop else if s.drive then Moving else Parked) && !(s.estop && s.drive)
  }

  lemma {:induction false} RunIsPossible(events: seq<Event>)
    ensures Possible(RunOf(PARKED, events))
  {
    if |events| > 0 {
      RunIsPossible(events[..|events| - 1]);
    }
  }

  /** In any session, what each event needs: of the grant and the stop alone. */
  lemma AcceptsIff(s: State, e: Event)
    requires Possible(s)
    ensures Accepts(s, e) <==> match e
                               case Release => !s.drive && !s.estop
                               case Halt => s.drive
                               case Stop => true
                               case ClearEstop => s.estop
                               case DriveCommand => s.drive
  {
  }

  /** Of the accepted events that grant or take the drive the last one granted it. */
  predicate Granted(events: seq<Event>) {
    |events| > 0 &&
    var front, e := events[..|events| - 1], events[|events| - 1];
    if !Accepts(RunOf(PARKED, front), e) || e.DriveCommand? then Granted(front) else e.Release?
  }

  /** Of all stops and clearances, accepted or not, the last one was a stop. */
  predicate StoppedLast(events: seq<Event>) {
    |events| > 0 &&
    var e := events[|events| - 1];
    if e.Stop? || e.ClearEstop? then e.Stop? else StoppedLast(events[..|events| - 1])
  }

  /** The rover may drive if and only if the last word on it was a release, and stands still from a stop to
      its clearance whatever else is asked of it. */
  lemma {:induction false} HistoryDecides(events: seq<Event>)
    ensures var s := RunOf(PARKED, events); (s.drive <==> Granted(events)) && (s.estop <==> StoppedLast(events))
  {
    if |events| > 0 {
      HistoryDecides(events[..|events| - 1]);
      RunIsPossible(events[..|events| - 1]);
    }
  }
}
