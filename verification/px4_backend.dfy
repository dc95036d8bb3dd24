/** The PX4 companion backend: a failsafe latch, a revocation bit and a safety epoch, driven by
    heartbeats from the vehicle, by age of the position estimate and by the caller.  Datagrams,
    their delivery and the clock are parameters. */
module Px4 {
  import opened Options
  import opened Clock
  import opened Authority
  import Safety

  const ESTIMATE_MAX_AGE_MS: nat := 250
  const HEARTBEAT_MAX_AGE_MS: nat := 250
  const DRAIN_LIMIT: nat := 64

  type Triple = (real, real, real)

  /** What the inbox can hold.  A heartbeat counts by what it says of arming and failsafe. */
  datatype Msg = LocalPosition(p: Triple, v: Triple) | Heartbeat(armed: bool, failsafe: bool) | Other

  /** One pass of a loop that streams a setpoint and then drains the inbox. */
  datatype Round = Round(sent: bool, inbox: seq<Msg>, now: int)

  datatype Reply = Done | Refused | Disconnected | Io | Timeout | NotInjectable | NotBumped

  datatype State = State(
    link: bool, armed: bool, offboard: bool, latched: bool, revoked: bool, epoch: nat,
    seenPx4: bool, seenPosition: bool, heartbeatAt: Option<int>, positionAt: Option<int>,
    velocity: Triple, position: Triple, streamPosition: bool)

  const FRESH: State := State(false, false, false, false, false, 0, false, false, None, None,
                              (0.0, 0.0, 0.0), (0.0, 0.0, 0.0), false)

  // ---- what each message and each check does ----

  function Bumped(s: State): State { s.(epoch := SaturatingNext(s.epoch)) }

  /** Leaving offboard authority: one bump per latch, so a stream of heartbeats cannot count on. */
  function Reported(s: State, armed: bool, failsafe: bool): State {
    var disarmed := s.armed && !armed;
    var t := s.(armed := s.armed && !disarmed, offboard := s.offboard && !disarmed && !failsafe,
                revoked := s.revoked || disarmed,
                latched := s.latched || failsafe);
    if (failsafe || disarmed) && !s.latched then Bumped(t) else t
  }

  function Beaten(s: State, armed: bool, failsafe: bool, now: int): State {
    Reported(s.(heartbeatAt := Some(now), seenPx4 := true), armed, failsafe)
  }

  function Heard(s: State, m: Msg, now: int): State {
    match m
    case LocalPosition(p, v) => s.(position := p, velocity := v, seenPosition := true, positionAt := Some(now))
    case Heartbeat(armed, failsafe) => Beaten(s, armed, failsafe, now)
    case Other => s
  }

  /** All of these messages, in order. */
  function HeardAll(s: State, msgs: seq<Msg>, now: int): State {
    if |msgs| == 0 then s else Heard(HeardAll(s, msgs[..|msgs| - 1], now), msgs[|msgs| - 1], now)
  }

  /** What one drain reads of its inbox. */
  function Taken(inbox: seq<Msg>): seq<Msg> { if |inbox| <= DRAIN_LIMIT then inbox else inbox[..DRAIN_LIMIT] }

  function Drained(s: State, inbox: seq<Msg>, now: int): State {
    if !s.link then s else HeardAll(s, Taken(inbox), now)
  }

  predicate StaleEstimate(s: State, now: int) {
    s.positionAt.Some? && now - s.positionAt.value >= ESTIMATE_MAX_AGE_MS
  }

  function EstimateChecked(s: State, now: int): State {
    if StaleEstimate(s, now) && !s.latched then Bumped(s.(latched := true, offboard := false)) else s
  }

  predicate Blocked(s: State) { s.latched || s.revoked }

  function Sent(s: State, ok: bool): Reply {
    if !s.link then Disconnected else if !ok then Io else Done
  }

  /** The state after the rounds that ran, and whether all of them did. */
  function Streamed(s: State, rounds: seq<Round>): (State, Reply) {
    if |rounds| == 0 then (s, Done)
    else
      var (t, r) := Streamed(s, rounds[..|rounds| - 1]);
      var last := rounds[|rounds| - 1];
      if r != Done then (t, r)
      else if Sent(t, last.sent) != Done then (t, Sent(t, last.sent))
      else (Drained(t, last.inbox, last.now), Done)
  }

  // ---- operations ----

  datatype Op =
    | Connect(bound: bool, waits: seq<Round>)
    | Beat(armed: bool, failsafe: bool, now: int)
    | Tick(inbox: seq<Msg>, now: int)
    | Arm(rounds: seq<Round>, sent: bool)
    | Disarm(sent: bool)
    | EnterOffboard(rounds: seq<Round>, sent: bool)
    | SetVelocity(v: Triple, inbox: seq<Msg>, now: int, sent: bool)
    | SetPosition(p: Triple, inbox: seq<Msg>, now: int, sent: bool)
    | Takeoff(sent: bool)
    | ReachedAltitude(sent: bool)
    | EnableActuators
    | TriggerFailsafe(sent: bool)
    | Inject(e: Safety.Event, now: int, sent: bool)
    | RestoreActuation

  /** Entry points that actuate or lead to actuation. */
  predicate Gated(op: Op) {
    op.EnterOffboard? || op.SetVelocity? || op.SetPosition? || op.Takeoff? || op.ReachedAltitude? || op.EnableActuators?
  }

  /** Drain the inbox until a vehicle has been seen. */
  function Waited(s: State, waits: seq<Round>): State {
    if |waits| == 0 then s
    else
      var t := Waited(s, waits[..|waits| - 1]);
      if t.seenPx4 then t else Drained(t, waits[|waits| - 1].inbox, waits[|waits| - 1].now)
  }

  function Listening(s: State): State { s.(link := true, seenPx4 := false, seenPosition := false) }

  function Connected(s: State, bound: bool, waits: seq<Round>): (State, Reply) {
    var t := Bumped(s);
    if !bound then (t, Io)
    else
      var u := Waited(Listening(t), waits);
      if u.seenPx4 then (u, Done) else (u.(link := false), Timeout)
  }

  function Terminated(s: State, sent: bool): (State, Reply) {
    (Failed(s), Sent(s, sent))
  }

  function Unlinked(s: State): State {
    Bumped(s.(link := false, offboard := false, armed := false, latched := false, revoked := true))
  }

  function Silenced(s: State, now: int): State {
    Bumped(s.(heartbeatAt := Some(now - HEARTBEAT_MAX_AGE_MS), latched := true, offboard := s.offboard && s.latched))
  }

  function Blinded(s: State): State {
    Bumped(s.(seenPx4 := false, latched := s.latched || s.armed, offboard := s.offboard && (s.latched || !s.armed)))
  }

  function Disarming(s: State, now: int): State { Beaten(s.(armed := true), false, false, now) }

  function Unlocated(s: State, now: int): State {
    EstimateChecked(s.(seenPosition := true, positionAt := Some(now - ESTIMATE_MAX_AGE_MS)), now)
  }

  function Failed(s: State): State { Bumped(s.(latched := true, offboard := false)) }

  /** The body of a revoke injection, before the fallback bump. */
  function Struck(s: State, e: Safety.Event, now: int): State
    requires RevokesAuthority(e)
  {
    if e.TriggerFailsafe? then Failed(s)
    else if e.Disarm? then Disarming(s, now)
    else if e.Disconnect? then Unlinked(s)
    else if e.HeartbeatStale? then Silenced(s, now)
    else if e.EstimatorInvalid? then Unlocated(s, now)
    else Blinded(s)
  }

  function Injected(s: State, e: Safety.Event, now: int): (State, Reply) {
    if !RevokesAuthority(e) then (s, NotInjectable)
    else
      var t := Struck(s, e, now);
      var u := if t.epoch == s.epoch then Bumped(t) else t;
      (u, if u.epoch == s.epoch then NotBumped else Done)
  }

  function Setpoint(s: State, inbox: seq<Msg>, now: int): State { EstimateChecked(Drained(s, inbox, now), now) }

  function Next(s: State, op: Op): (State, Reply) {
    match op
    case Connect(bound, waits) => Connected(s, bound, waits)
    case Beat(armed, failsafe, now) => (Beaten(s, armed, failsafe, now), Done)
    case Tick(inbox, now) => (Drained(s, inbox, now), Done)
    case Arm(rounds, sent) =>
      var (t, r) := Streamed(s, rounds);
      if r != Done then (t, r)
      else if Sent(t, sent) != Done then (t, Sent(t, sent))
      else (t.(armed := true, revoked := false), Done)
    case Disarm(sent) =>
      if Sent(s, sent) != Done then (s, Sent(s, sent))
      else (Bumped(s.(armed := false, offboard := false, revoked := true)), Done)
    case EnterOffboard(rounds, sent) =>
      if Blocked(s) then (s, Refused)
      else
        var (t, r) := Streamed(s, rounds);
        if r != Done then (t, r)
        else if Sent(t, sent) != Done then (t, Sent(t, sent))
        else (t.(offboard := true), Done)
    case SetVelocity(v, inbox, now, sent) =>
      var t := Setpoint(s, inbox, now);
      if Blocked(t) then (t, Refused) else (t.(velocity := v, streamPosition := false), Sent(t, sent))
    case SetPosition(p, inbox, now, sent) =>
      var t := Setpoint(s, inbox, now);
      if Blocked(t) then (t, Refused) else (t.(position := p, streamPosition := true), Sent(t, sent))
    case Takeoff(sent) => if Blocked(s) then (s, Refused) else (s, Sent(s, sent))
    case ReachedAltitude(sent) => if Blocked(s) then (s, Refused) else (s, Sent(s, sent))
    case EnableActuators => if Blocked(s) then (s, Refused) else (s, Done)
    case TriggerFailsafe(sent) => Terminated(s, sent)
    case Inject(e, now, sent) => Injected(s, e, now)
    case RestoreActuation => (s.(revoked := false), Done)
  }

  function Run(s: State, ops: seq<Op>): State {
    if |ops| == 0 then s else Next(Run(s, ops[..|ops| - 1]), ops[|ops| - 1]).0
  }

  // ---- the backend as it is written ----

  class Backend {
    var link: bool
    var armed: bool
    var offboard: bool
    var failsafeLatched: bool
    var actuationRevoked: bool
    var authorityEpoch: nat
    var seenPx4: bool
    var seenLocalPosition: bool
    var lastHeartbeat: Option<int>
    var lastLocalPositionAt: Option<int>
    var lastVelocity: Triple
    var lastPosition: Triple
    var streamPosition: bool

    function View(): State
      reads this
    {
      State(link, armed, offboard, failsafeLatched, actuationRevoked, authorityEpoch, seenPx4, seenLocalPosition,
            lastHeartbeat, lastLocalPositionAt, lastVelocity, lastPosition, streamPosition)
    }

    constructor ()
      ensures View() == FRESH
    {
      link, armed, offboard, failsafeLatched, actuationRevoked, authorityEpoch := false, false, false, false, false, 0;
      seenPx4, seenLocalPosition, lastHeartbeat, lastLocalPositionAt := false, false, None, None;
      lastVelocity, lastPosition, streamPosition := (0.0, 0.0, 0.0), (0.0, 0.0, 0.0), false;
    }

    method RevokeAuthority()
      modifies this
      ensures View() == Bumped(old(View()))
    {
      authorityEpoch := if authorityEpoch < U32_MAX then authorityEpoch + 1 else authorityEpoch;
    }

    method ApplyVehicleHeartbeat(hbArmed: bool, vehicleFailsafe: bool)
      modifies this
      ensures View() == Reported(old(View()), hbArmed, vehicleFailsafe)
    {
      var unexpectedDisarm := armed && !hbArmed;
      if !(vehicleFailsafe || unexpectedDisarm) {
        return;
      }
      if unexpectedDisarm {
        armed := false;
        offboard := false;
        actuationRevoked := true;
      }
      if vehicleFailsafe {
        offboard := false;
      }
      if !failsafeLatched {
        if vehicleFailsafe {
          failsafeLatched := true;
        }
        RevokeAuthority();
      }
    }

    method IngestHeartbeat(hbArmed: bool, vehicleFailsafe: bool, now: int)
      modifies this
      ensures View() == Beaten(old(View()), hbArmed, vehicleFailsafe, now)
    {
      lastHeartbeat := Some(now);
      seenPx4 := true;
      ApplyVehicleHeartbeat(hbArmed, vehicleFailsafe);
    }

    method IngestInbox(inbox: seq<Msg>, now: int)
      modifies this
      ensures View() == Drained(old(View()), inbox, now)
    {
      if !link {
        return;
      }
      ghost var start := View();
      var i := 0;
      while i < DRAIN_LIMIT && i < |inbox|
        invariant i <= DRAIN_LIMIT && i <= |inbox|
        invariant View() == HeardAll(start, inbox[..i], now)
      {
        match inbox[i] {
          case LocalPosition(p, v) =>
            lastPosition := p;
            lastVelocity := v;
            seenLocalPosition := true;
            lastLocalPositionAt := Some(now);
          case Heartbeat(a, f) =>
            IngestHeartbeat(a, f, now);
          case Other =>
        }
        assert inbox[..i + 1][..i] == inbox[..i];
        i := i + 1;
      }
      assert inbox[..i] == if |inbox| <= DRAIN_LIMIT then inbox else inbox[..DRAIN_LIMIT];
    }

    method MaybeRevokeStaleEstimator(now: int)
      modifies this
      ensures View() == EstimateChecked(old(View()), now)
    {
      if lastLocalPositionAt.None? {
        return;
      }
      if now - lastLocalPositionAt.value < ESTIMATE_MAX_AGE_MS {
        return;
      }
      if !failsafeLatched {
        failsafeLatched := true;
        offboard := false;
        RevokeAuthority();
      }
    }

    method RefuseRevokedSetpoint() returns (ok: bool)
      ensures ok <==> !Blocked(View())
    {
      ok := !(failsafeLatched || actuationRevoked);
    }

    /** Setpoints streamed before a mode change, draining the inbox in between. */
    method Stream(rounds: seq<Round>) returns (r: Reply)
      modifies this
      ensures (View(), r) == Streamed(old(View()), rounds)
    {
      ghost var start := View();
      var i := 0;
      assert rounds[..0] == [];
      while i < |rounds|
        invariant i <= |rounds| && (View(), Done) == Streamed(start, rounds[..i])
      {
        assert rounds[..i + 1][..i] == rounds[..i];
        if Sent(View(), rounds[i].sent) != Done {
          r := Sent(View(), rounds[i].sent);
          StreamStops(start, rounds, i + 1);
          return;
        }
        IngestInbox(rounds[i].inbox, rounds[i].now);
        i := i + 1;
      }
      assert rounds[..i] == rounds;
      r := Done;
    }

    /** Drains until a vehicle has been seen or the waiting is over. */
    method WaitInbox(waits: seq<Round>)
      modifies this
      ensures View() == Waited(old(View()), waits)
    {
      ghost var start := View();
      var i := 0;
      assert waits[..0] == [];
      while i < |waits| && !seenPx4
        invariant i <= |waits| && View() == Waited(start, waits[..i])
      {
        assert waits[..i + 1][..i] == waits[..i];
        IngestInbox(waits[i].inbox, waits[i].now);
        i := i + 1;
      }
      if i < |waits| {
        WaitedStays(start, waits, i);
      } else {
        assert waits[..i] == waits;
      }
    }

    method Connect(bound: bool, waits: seq<Round>) returns (r: Reply)
      modifies this
      ensures (View(), r) == Connected(old(View()), bound, waits)
    {
      RevokeAuthority();
      if !bound {
        return Io;
      }
      link := true;
      seenPx4 := false;
      seenLocalPosition := false;
      assert View() == Listening(Bumped(old(View())));
      WaitInbox(waits);
      if !seenPx4 {
        link := false;
        return Timeout;
      }
      r := Done;
    }

    method Arm(rounds: seq<Round>, sent: bool) returns (r: Reply)
      modifies this
      ensures (View(), r) == Next(old(View()), Op.Arm(rounds, sent))
    {
      r := Stream(rounds);
      if r != Done {
        return;
      }
      r := Sent(View(), sent);
      if r != Done {
        return;
      }
      armed := true;
      actuationRevoked := false;
    }

    method Disarm(sent: bool) returns (r: Reply)
      modifies this
      ensures (View(), r) == Next(old(View()), Op.Disarm(sent))
    {
      r := Sent(View(), sent);
      if r != Done {
        return;
      }
      armed := false;
      offboard := false;
      actuationRevoked := true;
      RevokeAuthority();
    }

    method EnterOffboard(rounds: seq<Round>, sent: bool) returns (r: Reply)
      modifies this
      ensures (View(), r) == Next(old(View()), Op.EnterOffboard(rounds, sent))
    {
      var ok := RefuseRevokedSetpoint();
      if !ok {
        return Refused;
      }
      r := Stream(rounds);
      if r != Done {
        return;
      }
      r := Sent(View(), sent);
      if r != Done {
        return;
      }
      offboard := true;
    }

    method SetVelocity(v: Triple, inbox: seq<Msg>, now: int, sent: bool) returns (r: Reply)
      modifies this
      ensures (View(), r) == Next(old(View()), Op.SetVelocity(v, inbox, now, sent))
    {
      IngestInbox(inbox, now);
      MaybeRevokeStaleEstimator(now);
      var ok := RefuseRevokedSetpoint();
      if !ok {
        return Refused;
      }
      lastVelocity := v;
      streamPosition := false;
      r := Sent(View(), sent);
    }

    method SetPosition(p: Triple, inbox: seq<Msg>, now: int, sent: bool) returns (r: Reply)
      modifies this
      ensures (View(), r) == Next(old(View()), Op.SetPosition(p, inbox, now, sent))
    {
      IngestInbox(inbox, now);
      MaybeRevokeStaleEstimator(now);
      var ok := RefuseRevokedSetpoint();
      if !ok {
        return Refused;
      }
      lastPosition := p;
      streamPosition := true;
      r := Sent(View(), sent);
    }

    method TriggerFailsafe(sent: bool) returns (r: Reply)
      modifies this
      ensures (View(), r) == Terminated(old(View()), sent)
    {
      failsafeLatched := true;
      offboard := false;
      RevokeAuthority();
      r := Sent(View(), sent);
    }

    method LoseLink()
      modifies this
      ensures View() == Unlinked(old(View()))
    {
      link := false;
      offboard := false;
      armed := false;
      failsafeLatched := false;
      actuationRevoked := true;
      RevokeAuthority();
    }

    method LoseHeartbeat(now: int)
      modifies this
      ensures View() == Silenced(old(View()), now)
    {
      lastHeartbeat := Some(now - HEARTBEAT_MAX_AGE_MS);
      if !failsafeLatched {
        failsafeLatched := true;
        offboard := false;
      }
      RevokeAuthority();
    }

    method ReportDisarm(now: int)
      modifies this
      ensures View() == Disarming(old(View()), now)
    {
      armed := true;
      IngestHeartbeat(false, false, now);
    }

    method LoseEstimate(now: int)
      modifies this
      ensures View() == Unlocated(old(View()), now)
    {
      seenLocalPosition := true;
      lastLocalPositionAt := Some(now - ESTIMATE_MAX_AGE_MS);
      MaybeRevokeStaleEstimator(now);
    }

    method LoseImu()
      modifies this
      ensures View() == Blinded(old(View()))
    {
      seenPx4 := false;
      if armed && !failsafeLatched {
        failsafeLatched := true;
        offboard := false;
      }
      RevokeAuthority();
    }

    /** What each revoke event does to the backend, before the epoch is looked at again. */
    method Strike(e: Safety.Event, now: int, sent: bool)
      requires RevokesAuthority(e)
      modifies this
      ensures View() == Struck(old(View()), e, now)
    {
      if e.TriggerFailsafe? {
        var _ := TriggerFailsafe(sent);
      } else if e.Disarm? {
        ReportDisarm(now);
      } else if e.Disconnect? {
        LoseLink();
      } else if e.HeartbeatStale? {
        LoseHeartbeat(now);
      } else if e.EstimatorInvalid? {
        LoseEstimate(now);
      } else {
        LoseImu();
      }
    }

    method InjectRevoke(e: Safety.Event, now: int, sent: bool) returns (r: Reply)
      modifies this
      ensures (View(), r) == Injected(old(View()), e, now)
    {
      if !RevokesAuthority(e) {
        return NotInjectable;
      }
      var before := authorityEpoch;
      Strike(e, now, sent);
      if authorityEpoch == before {
        RevokeAuthority();
      }
      if authorityEpoch == before {
        return NotBumped;
      }
      r := Done;
    }
  }

  /** A failed round ends the stream. */
  lemma {:induction false} StreamStops(s: State, rounds: seq<Round>, k: nat)
    requires k <= |rounds| && Streamed(s, rounds[..k]).1 != Done
    ensures Streamed(s, rounds) == Streamed(s, rounds[..k])
    decreases |rounds| - k
  {
    if k == |rounds| {
      assert rounds[..k] == rounds;
    } else {
      assert rounds[..k + 1][..k] == rounds[..k];
      StreamStops(s, rounds, k + 1);
    }
  }

  lemma {:induction false} WaitedStays(s: State, waits: seq<Round>, k: nat)
    requires k <= |waits| && Waited(s, waits[..k]).seenPx4
    ensures Waited(s, waits) == Waited(s, waits[..k])
    decreases |waits| - k
  {
    if k == |waits| {
      assert waits[..k] == waits;
    } else {
      assert waits[..k + 1][..k] == waits[..k];
      WaitedStays(s, waits, k + 1);
    }
  }

  // ---- the latch ----

  lemma {:induction false} HearingKeeps(s: State, msgs: seq<Msg>, now: int)
    ensures var t := HeardAll(s, msgs, now);
            && (s.latched ==> t.latched) && (s.revoked ==> t.revoked) && t.link == s.link && s.epoch <= t.epoch
            && (s.latched ==> t.epoch == s.epoch)
  {
    if |msgs| > 0 {
      HearingKeeps(s, msgs[..|msgs| - 1], now);
    }
  }

  lemma DrainingKeeps(s: State, inbox: seq<Msg>, now: int)
    ensures var t := Drained(s, inbox, now);
            && (s.latched ==> t.latched) && (s.revoked ==> t.revoked) && t.link == s.link && s.epoch <= t.epoch
  {
    HearingKeeps(s, Taken(inbox), now);
  }

  lemma {:induction false} StreamingKeeps(s: State, rounds: seq<Round>)
    ensures var t := Streamed(s, rounds).0;
            (s.latched ==> t.latched) && (s.revoked ==> t.revoked) && s.epoch <= t.epoch
  {
    if |rounds| > 0 {
      StreamingKeeps(s, rounds[..|rounds| - 1]);
      DrainingKeeps(Streamed(s, rounds[..|rounds| - 1]).0, rounds[|rounds| - 1].inbox, rounds[|rounds| - 1].now);
    }
  }

  lemma {:induction false} WaitingKeeps(s: State, waits: seq<Round>)
    ensures var t := Waited(s, waits); (s.latched ==> t.latched) && (s.revoked ==> t.revoked) && s.epoch <= t.epoch
  {
    if |waits| > 0 {
      WaitingKeeps(s, waits[..|waits| - 1]);
      DrainingKeeps(Waited(s, waits[..|waits| - 1]), waits[|waits| - 1].inbox, waits[|waits| - 1].now);
    }
  }

  predicate Disconnects(op: Op) { op.Inject? && op.e.Disconnect? }

  /** Operations that may lift the revocation bit: a restore, and an arm that went through. */
  predicate Reopens(s: State, op: Op) { op.RestoreActuation? || (op.Arm? && Next(s, op).1 == Done) }

  /** The epoch never falls, the latch yields only to a disconnect (which sets the revocation
      bit), that bit only to a restore or an arm, and a blocked backend refuses every gated call. */
  predicate Kept(s: State, op: Op, t: State, r: Reply) {
    && s.epoch <= t.epoch
    && (s.latched && !Disconnects(op) ==> t.latched)
    && (Disconnects(op) ==> t.revoked)
    && (s.revoked && !Reopens(s, op) ==> t.revoked)
    && (Blocked(s) && Gated(op) ==> r == Refused)
  }

  lemma LoopsKeep(s: State, op: Op)
    requires op.Connect? || op.Arm? || op.EnterOffboard? || op.Tick?
    ensures Kept(s, op, Next(s, op).0, Next(s, op).1)
  {
    match op
    case Connect(bound, waits) => WaitingKeeps(Listening(Bumped(s)), waits);
    case Arm(rounds, sent) => StreamingKeeps(s, rounds);
    case EnterOffboard(rounds, sent) => StreamingKeeps(s, rounds);
    case Tick(inbox, now) => DrainingKeeps(s, inbox, now);
  }

  lemma SetpointsKeep(s: State, op: Op)
    requires op.SetVelocity? || op.SetPosition?
    ensures Kept(s, op, Next(s, op).0, Next(s, op).1)
  {
    DrainingKeeps(s, op.inbox, op.now);
  }

  predicate NoWeaker(s: State, t: State) {
    s.epoch <= t.epoch && (s.latched ==> t.latched) && (s.revoked ==> t.revoked)
  }

  lemma StrikesKeep(s: State, now: int)
    ensures NoWeaker(s, Failed(s)) && NoWeaker(s, Disarming(s, now)) && NoWeaker(s, Silenced(s, now))
    ensures NoWeaker(s, Unlocated(s, now)) && NoWeaker(s, Blinded(s))
    ensures Unlinked(s).revoked && s.epoch <= Unlinked(s).epoch
  {
  }

  lemma BumpKeeps(s: State, t: State)
    requires NoWeaker(s, t)
    ensures NoWeaker(s, Bumped(t))
  {
  }

  lemma StruckKeeps(s: State, e: Safety.Event, now: int)
    requires RevokesAuthority(e) && !e.Disconnect?
    ensures NoWeaker(s, Struck(s, e, now))
  {
  }

  lemma InjectedKeeps(s: State, e: Safety.Event, now: int)
    ensures if e.Disconnect? then Injected(s, e, now).0.revoked && s.epoch <= Injected(s, e, now).0.epoch
            else NoWeaker(s, Injected(s, e, now).0)
  {
    if e.Disconnect? {
      StrikesKeep(s, now);
    } else if RevokesAuthority(e) {
      StruckKeeps(s, e, now);
      BumpKeeps(s, Struck(s, e, now));
    }
  }

  lemma InjectionsKeep(s: State, op: Op)
    requires op.Inject?
    ensures Kept(s, op, Next(s, op).0, Next(s, op).1)
  {
    InjectedKeeps(s, op.e, op.now);
  }

  lemma OpKeeps(s: State, op: Op)
    ensures Kept(s, op, Next(s, op).0, Next(s, op).1)
  {
    if op.Connect? || op.Arm? || op.EnterOffboard? || op.Tick? {
      LoopsKeep(s, op);
    } else if op.SetVelocity? || op.SetPosition? {
      SetpointsKeep(s, op);
    } else if op.Inject? {
      InjectionsKeep(s, op);
    }
  }

  lemma {:induction false} EpochNeverFalls(s: State, ops: seq<Op>)
    ensures s.epoch <= Run(s, ops).epoch
  {
    if |ops| > 0 {
      EpochNeverFalls(s, ops[..|ops| - 1]);
      OpKeeps(Run(s, ops[..|ops| - 1]), ops[|ops| - 1]);
    }
  }

  predicate HasDisconnect(ops: seq<Op>) {
    |ops| > 0 && (HasDisconnect(ops[..|ops| - 1]) || Disconnects(ops[|ops| - 1]))
  }

  /** A disconnect at some point of the run and, later, a restore or an arm that went through. */
  predicate Reopened(s: State, ops: seq<Op>) {
    |ops| > 0 &&
    (Reopened(s, ops[..|ops| - 1])
     || (HasDisconnect(ops[..|ops| - 1]) && Reopens(Run(s, ops[..|ops| - 1]), ops[|ops| - 1])))
  }

  lemma {:induction false} LatchBlocks(s: State, ops: seq<Op>)
    requires s.latched && !Reopened(s, ops)
    ensures if HasDisconnect(ops) then Blocked(Run(s, ops)) else Run(s, ops).latched
  {
    if |ops| > 0 {
      var front, last := ops[..|ops| - 1], ops[|ops| - 1];
      LatchBlocks(s, front);
      OpKeeps(Run(s, front), last);
    }
  }

  /** From a failsafe latch every setpoint, offboard and climb call of the run is refused until a
      disconnect has been injected and, after it, an arm or a restore has gone through. */
  lemma LatchedRefuses(s: State, ops: seq<Op>, k: nat)
    requires s.latched && k < |ops| && Gated(ops[k]) && !Reopened(s, ops[..k])
    ensures Next(Run(s, ops[..k]), ops[k]).1 == Refused
  {
    LatchBlocks(s, ops[..k]);
    OpKeeps(Run(s, ops[..k]), ops[k]);
  }

  // ---- injected revocations ----

  /** Every revoke event moves an unsaturated epoch by exactly one, latched or not; only a
      saturated counter is reported as not bumped, and other events are not injectable at all. */
  lemma InjectBumpsOnce(s: State, e: Safety.Event, now: int, sent: bool)
    requires s.epoch <= U32_MAX
    ensures var (t, r) := Next(s, Inject(e, now, sent));
            if !RevokesAuthority(e) then t == s && r == NotInjectable
            else if s.epoch < U32_MAX then t.epoch == s.epoch + 1 && r == Done
            else t.epoch == U32_MAX && r == NotBumped
  {
  }

  /** After an injection gated calls are refused, with one exception: losing the IMU of a
      vehicle that is neither armed nor blocked already. */
  lemma InjectBlocksIff(s: State, e: Safety.Event, now: int, sent: bool)
    requires RevokesAuthority(e)
    ensures Blocked(Next(s, Inject(e, now, sent)).0) <==> !(e.ImuUnhealthy? && !s.armed && !Blocked(s))
  {
  }

  // ---- heartbeat streams ----

  datatype Beat = Beat(armed: bool, failsafe: bool, now: int)

  function Beats(s: State, hbs: seq<Beat>): State {
    if |hbs| == 0 then s
    else
      var b := hbs[|hbs| - 1];
      Beaten(Beats(s, hbs[..|hbs| - 1]), b.armed, b.failsafe, b.now)
  }

  predicate AnyFailsafe(hbs: seq<Beat>) { exists i :: 0 <= i < |hbs| && hbs[i].failsafe }

  /** The vehicle reports disarmed before it first reports failsafe. */
  predicate DisarmsFirst(hbs: seq<Beat>) {
    exists i :: 0 <= i < |hbs| && !hbs[i].armed && forall j :: 0 <= j <= i ==> !hbs[j].failsafe
  }

  predicate AnyDisarm(hbs: seq<Beat>) { exists i :: 0 <= i < |hbs| && !hbs[i].armed }

  function One(b: bool): nat { if b then 1 else 0 }

  /** A stream of heartbeats of any length moves the epoch by at most two, short of its maximum: once for
      an unexpected disarm that precedes any failsafe, once for the first failsafe; not at all once latched. */
  lemma {:induction false} BeatsBumpAtMostTwice(s: State, hbs: seq<Beat>)
    requires s.epoch <= U32_MAX
    ensures var t := Beats(s, hbs);
            var bumps := if s.latched then 0 else One(s.armed && DisarmsFirst(hbs)) + One(AnyFailsafe(hbs));
            && t.epoch == (if s.epoch + bumps <= U32_MAX then s.epoch + bumps else U32_MAX)
            && (t.latched <==> s.latched || AnyFailsafe(hbs))
            && (t.armed <==> s.armed && !AnyDisarm(hbs))
  {
    if |hbs| > 0 {
      var m := |hbs| - 1;
      var front, last := hbs[..m], hbs[m];
      BeatsBumpAtMostTwice(s, front);
      FailsafeSplits(hbs);
      DisarmSplits(hbs);
      FirstDisarmSplits(hbs);
    }
  }

  lemma FailsafeSplits(hbs: seq<Beat>)
    requires |hbs| > 0
    ensures AnyFailsafe(hbs) <==> AnyFailsafe(hbs[..|hbs| - 1]) || hbs[|hbs| - 1].failsafe
  {
  }

  lemma DisarmSplits(hbs: seq<Beat>)
    requires |hbs| > 0
    ensures AnyDisarm(hbs) <==> AnyDisarm(hbs[..|hbs| - 1]) || !hbs[|hbs| - 1].armed
  {
  }

  lemma FirstDisarmSplits(hbs: seq<Beat>)
    requires |hbs| > 0
    ensures var front, last := hbs[..|hbs| - 1], hbs[|hbs| - 1];
            DisarmsFirst(hbs) <==> DisarmsFirst(front) || (!last.armed && !last.failsafe && !AnyFailsafe(front))
    ensures AnyDisarm(hbs[..|hbs| - 1]) && !AnyFailsafe(hbs[..|hbs| - 1]) ==> DisarmsFirst(hbs[..|hbs| - 1])
  {
  }

  /** A heartbeat that takes authority from a backend armed as given. */
  predicate Stops(armed: bool, m: Msg) { m.Heartbeat? && (m.failsafe || (armed && !m.armed)) }

  predicate StopsAny(armed: bool, msgs: seq<Msg>) { exists i :: 0 <= i < |msgs| && Stops(armed, msgs[i]) }

  predicate StopsStream(armed: bool, rounds: seq<Round>) {
    exists i :: 0 <= i < |rounds| && StopsAny(armed, Taken(rounds[i].inbox))
  }

  lemma StopsSplits(armed: bool, msgs: seq<Msg>)
    requires |msgs| > 0
    ensures StopsAny(armed, msgs) <==> StopsAny(armed, msgs[..|msgs| - 1]) || Stops(armed, msgs[|msgs| - 1])
  {
  }

  lemma StreamSplits(armed: bool, rounds: seq<Round>)
    requires |rounds| > 0
    ensures StopsStream(armed, rounds)
       <==> StopsStream(armed, rounds[..|rounds| - 1]) || StopsAny(armed, Taken(rounds[|rounds| - 1].inbox))
  {
  }

  lemma {:induction false} HearingBlocksIff(s: State, msgs: seq<Msg>, now: int)
    requires !Blocked(s)
    ensures var t := HeardAll(s, msgs, now);
            (Blocked(t) <==> StopsAny(s.armed, msgs)) && (!Blocked(t) ==> t.armed == s.armed)
  {
    if |msgs| > 0 {
      HearingBlocksIff(s, msgs[..|msgs| - 1], now);
      StopsSplits(s.armed, msgs);
    }
  }

  lemma {:induction false} StreamingBlocksIff(s: State, rounds: seq<Round>)
    requires !Blocked(s) && s.link && Streamed(s, rounds).1.Done?
    ensures var t := Streamed(s, rounds).0;
            && t.link && (Blocked(t) <==> StopsStream(s.armed, rounds)) && (!Blocked(t) ==> t.armed == s.armed)
  {
    if |rounds| > 0 {
      var front, last := rounds[..|rounds| - 1], rounds[|rounds| - 1];
      StreamingBlocksIff(s, front);
      var t := Streamed(s, front).0;
      StreamSplits(s.armed, rounds);
      HearingKeeps(t, Taken(last.inbox), last.now);
      if !Blocked(t) {
        HearingBlocksIff(t, Taken(last.inbox), last.now);
      }
    }
  }

  /** Entering offboard checks latch and revocation only before it streams: a completed entry leaves
      the backend offboard and yet blocked exactly when a heartbeat that reports failsafe, or an
      unexpected disarm, was among the messages its rounds drained. */
  lemma OffboardIsBlockedIff(s: State, rounds: seq<Round>, sent: bool)
    requires s.link && Next(s, EnterOffboard(rounds, sent)).1.Done?
    ensures var t := Next(s, EnterOffboard(rounds, sent)).0;
            t.offboard && (Blocked(t) <==> StopsStream(s.armed, rounds))
  {
    StreamingBlocksIff(s, rounds);
  }

  /** One failsafe heartbeat during the stream: offboard and latch end up set together. */
  lemma OffboardCanOutlastLatch()
    ensures var s := FRESH.(link := true, armed := true);
            var (t, r) := Next(s, EnterOffboard([Round(true, [Heartbeat(true, true)], 0)], true));
            r == Done && t.offboard && t.latched && Blocked(t)
  {
  }
}
