/** Revocable actuation authority: a permit is bound to a vehicle, to the safety epoch it was
    issued in and possibly to a lease, and the epoch moves on with every accepted revocation. */
module Authority {
  import opened Options
  import opened Clock
  import Safety

  datatype Permit = Permit(vehicle: nat, epoch: nat, issuedAt: Instant, maxAge: Option<Duration>)

  /** The backend a permit is checked against. */
  datatype Live = Live(state: Safety.State, vehicle: nat, epoch: nat, now: Instant)

  datatype Verdict = Granted | WrongVehicle | StaleEpoch | Expired | Missing

  function Issue(l: Live): Permit { Permit(l.vehicle, l.epoch, l.now, None) }

  function IssueBounded(l: Live, maxAge: Duration): Permit { Permit(l.vehicle, l.epoch, l.now, Some(maxAge)) }

  predicate LeaseLive(p: Permit, now: Instant) {
    match p.maxAge
    case None => true
    case Some(max) => Since(now, p.issuedAt) < max
  }

  function Check(p: Permit, l: Live): Verdict {
    if p.vehicle != l.vehicle then WrongVehicle
    else if p.epoch != l.epoch then StaleEpoch
    else if !LeaseLive(p, l.now) then Expired
    else Granted
  }

  function Require(p: Option<Permit>, l: Live): Verdict {
    match p
    case None => Missing
    case Some(permit) => Check(permit, l)
  }

  // ---- the plant's side ----

  predicate RevokesAuthority(e: Safety.Event) {
    e.TriggerFailsafe? || e.Disarm? || e.Disconnect? || e.HeartbeatStale? || e.EstimatorInvalid? || e.ImuUnhealthy?
  }

  /** What can happen to a backend while permits are out. */
  datatype Op = Post(e: Safety.Event) | Tick(dt: Duration)

  /** An accepted event that revokes, by its own name or by the failsafe it causes. */
  predicate Revokes(s: Safety.State, e: Safety.Event) {
    Safety.Accepts(s, e) && (RevokesAuthority(e) || (Safety.Effect(s, e).failsafe && !s.failsafe))
  }

  function Apply(l: Live, op: Op): Live {
    match op
    case Tick(dt) => l.(now := Later(l.now, dt))
    case Post(e) =>
      Live(Safety.Next(l.state, e), l.vehicle, if Revokes(l.state, e) then SaturatingNext(l.epoch) else l.epoch, l.now)
  }

  function Run(l: Live, ops: seq<Op>): Live {
    if |ops| == 0 then l else Apply(Run(l, ops[..|ops| - 1]), ops[|ops| - 1])
  }

  /** The simulated body that owns the kernel state and the epoch. */
  class Body {
    var aerial: Safety.State
    var authorityEpoch: nat
    var command: Option<(real, real, real)>

    constructor (s: Safety.State)
      ensures aerial == s && authorityEpoch == 0 && command == None
    {
      aerial, authorityEpoch, command := s, 0, None;
    }

    method BumpAuthority()
      modifies this`authorityEpoch
      ensures authorityEpoch == SaturatingNext(old(authorityEpoch))
    {
      authorityEpoch := if authorityEpoch < U32_MAX then authorityEpoch + 1 else authorityEpoch;
    }

    /** One kernel event: a refused one touches nothing, a revoking one moves the epoch on, and
        a failsafe, a touchdown or a recovery drops the standing command. */
    method Post(e: Safety.Event) returns (ok: bool)
      modifies this
      ensures ok <==> Safety.Accepts(old(aerial), e)
      ensures forall vehicle, now :: Live(aerial, vehicle, authorityEpoch, now)
                                  == Apply(Live(old(aerial), vehicle, old(authorityEpoch), now), Op.Post(e))
      ensures command == if ok && (aerial.failsafe || e.Touchdown? || e.Recover?) then None else old(command)
    {
      var s := aerial;
      var r := Safety.Step(s, e);
      if r.Err? {
        return false;
      }
      var n := r.state;
      var revoke := RevokesAuthority(e) || (n.failsafe && !s.failsafe);
      aerial := n;
      if revoke {
        BumpAuthority();
      }
      if n.failsafe || e.Touchdown? || e.Recover? {
        command := None;
      }
      ok := true;
    }
  }

  // ---- runs ----

  /** Some operation of the run is an accepted revocation. */
  predicate RunRevokes(l: Live, ops: seq<Op>) {
    |ops| > 0 &&
    (RunRevokes(l, ops[..|ops| - 1])
     || (ops[|ops| - 1].Post? && Revokes(Run(l, ops[..|ops| - 1]).state, ops[|ops| - 1].e)))
  }

  predicate RunTouchesDown(l: Live, ops: seq<Op>) {
    |ops| > 0 &&
    (RunTouchesDown(l, ops[..|ops| - 1])
     || (ops[|ops| - 1] == Post(Safety.Touchdown) && Safety.Accepts(Run(l, ops[..|ops| - 1]).state, Safety.Touchdown)))
  }

  predicate Sound(s: Safety.State) { Safety.CheckInvariants(s) && Safety.OffboardIsSound(s) }

  /** Nothing moves backwards, and the epoch of an unsaturated counter moves exactly when the
      run revokes. */
  lemma {:induction false} EpochMovesIff(l: Live, ops: seq<Op>)
    requires l.epoch <= U32_MAX
    ensures var r := Run(l, ops);
            && r.vehicle == l.vehicle && l.now <= r.now
            && l.epoch <= r.epoch <= U32_MAX
            && (r.epoch == l.epoch <==> !RunRevokes(l, ops) || l.epoch == U32_MAX)
  {
    if |ops| > 0 {
      EpochMovesIff(l, ops[..|ops| - 1]);
    }
  }

  /** A permit for one vehicle never passes at another, whatever has happened there. */
  lemma {:induction false} OtherVehicleNeverGranted(p: Permit, l: Live, ops: seq<Op>)
    requires p.vehicle != l.vehicle
    ensures Run(l, ops).vehicle == l.vehicle && Check(p, Run(l, ops)) == WrongVehicle
  {
    if |ops| > 0 {
      OtherVehicleNeverGranted(p, l, ops[..|ops| - 1]);
    }
  }

  /** A permit issued at the start of a run is still good at its end exactly when the lease has
      not run out and nothing was revoked - or the epoch counter was already saturated. */
  lemma PermitSurvivesIff(l: Live, maxAge: Option<Duration>, ops: seq<Op>)
    requires l.epoch <= U32_MAX
    ensures var p := if maxAge.None? then Issue(l) else IssueBounded(l, maxAge.value);
            var r := Run(l, ops);
            Check(p, r).Granted? <==>
              (!RunRevokes(l, ops) || l.epoch == U32_MAX) && (maxAge.None? || r.now - l.now < maxAge.value)
  {
    EpochMovesIff(l, ops);
  }

  /** Once refused, refused for the rest of the run, whatever happens. */
  lemma DeadPermitStaysDead(p: Permit, l: Live, ops: seq<Op>)
    requires p.epoch <= l.epoch <= U32_MAX && !Check(p, l).Granted?
    ensures !Check(p, Run(l, ops)).Granted?
  {
    EpochMovesIff(l, ops);
  }

  /** While nothing is revoked and no touchdown is accepted, offboard control is never lost. */
  lemma {:induction false} OffboardLasts(l: Live, ops: seq<Op>)
    requires Sound(l.state) && l.state.offboard
    ensures Sound(Run(l, ops).state)
    ensures !RunRevokes(l, ops) && !RunTouchesDown(l, ops) ==> Run(l, ops).state.offboard
  {
    if |ops| > 0 {
      var before, op := Run(l, ops[..|ops| - 1]), ops[|ops| - 1];
      OffboardLasts(l, ops[..|ops| - 1]);
      if op.Post? {
        Safety.StepIsSound(before.state, op.e);
        if before.state.offboard {
          OffboardLostOnlyBy(before.state, op.e);
        }
      }
    }
  }

  lemma OffboardLostOnlyBy(s: Safety.State, e: Safety.Event)
    requires s.offboard && !s.failsafe
    ensures Safety.Next(s, e).offboard || Revokes(s, e) || (e.Touchdown? && Safety.Accepts(s, e))
  {
  }

  /** A permit taken under offboard control that still passes vouches for the kernel: armed,
      offboard, out of failsafe and fresh - unless a touchdown came in between, which lands and
      disarms without moving the epoch. */
  lemma GrantedMeansControl(l: Live, p: Permit, ops: seq<Op>)
    requires Sound(l.state) && l.state.offboard && l.epoch < U32_MAX
    requires p.vehicle == l.vehicle && p.epoch == l.epoch
    requires Require(Some(p), Run(l, ops)).Granted?
    ensures var s := Run(l, ops).state;
            (s.armed && s.offboard && !s.failsafe && s.heartbeatFresh) || RunTouchesDown(l, ops)
  {
    EpochMovesIff(l, ops);
    OffboardLasts(l, ops);
  }

  const CRUISING: Safety.State := Safety.State(Safety.Landing, true, true, true, true, true, true, false)

  /** The touchdown exception is real: the permit outlives the landing. */
  lemma PermitOutlivesTouchdown(vehicle: nat, epoch: nat, now: Instant)
    requires epoch <= U32_MAX
    ensures var l := Live(CRUISING, vehicle, epoch, now);
            var r := Run(l, [Post(Safety.Touchdown)]);
            Sound(l.state) && l.state.offboard && Check(Issue(l), r).Granted? && !r.state.armed && !r.state.offboard
  {
  }

  /** So is the saturation exception: at the last epoch a failsafe revokes nothing. */
  lemma LastEpochCannotRevoke(vehicle: nat, now: Instant)
    ensures var l := Live(CRUISING, vehicle, U32_MAX, now);
            var r := Run(l, [Post(Safety.TriggerFailsafe)]);
            Check(Issue(l), r).Granted? && r.state.failsafe
  {
  }
}
