/** The setpoint the backend streams: it shares its fields with the vehicle's own position reports, so
    what goes out is whichever was written last. */
module Px4Setpoints {
  import opened Options
  import opened Timing
  import opened Px4
  import opened Px4Heard
  import Authority
  import Safety

  /** What the next pump sends. */
  datatype Outgoing = Velocity(v: Triple) | Position(p: Triple)

  function OutgoingOf(s: State): Outgoing { if s.streamPosition then Position(s.position) else Velocity(s.velocity) }

  lemma FollowsOn(s: State, t: State, u: State, a: seq<Msg>, b: seq<Msg>)
    requires Follows(s, t, LastReport(a)) && Follows(t, u, LastReport(b))
    ensures Follows(s, u, LastReport(a + b))
  {
    LastReportOfBoth(a, b);
  }

  // ---- one operation ----

  /** A call that stages its setpoint: one that is not refused. */
  predicate Stages(s: State, op: Op) { (op.SetVelocity? || op.SetPosition?) && Next(s, op).1 != Refused }

  lemma QuietFollows(s: State, op: Op)
    requires !op.Connect? && !op.Beat? && !op.Tick? && !op.Arm? && !op.EnterOffboard?
    requires !op.SetVelocity? && !op.SetPosition?
    ensures Follows(s, Next(s, op).0, None)
  {
    if op.Inject? && Authority.RevokesAuthority(op.e) {
      StruckFollows(s, op.e, op.now);
    }
  }

  lemma StruckFollows(s: State, e: Safety.Event, now: int)
    requires Authority.RevokesAuthority(e)
    ensures Follows(s, Struck(s, e, now), None)
  {
  }

  lemma DrainFollows(s: State, inbox: seq<Msg>, now: int)
    ensures Follows(s, Drained(s, inbox, now), LastReport(HeardOnce(s.link, inbox)))
  {
    Draining(s, inbox, now);
  }

  lemma LoopFollows(s: State, op: Op)
    requires op.Connect? || op.Beat? || op.Tick? || op.Arm? || op.EnterOffboard?
    ensures Follows(s, Next(s, op).0, LastReport(HeardIn(s, op)))
  {
    match op
    case Connect(bound, waits) => Waiting(Listening(Bumped(s)), waits);
    case Beat(armed, failsafe, now) => OneMessage(s, Heartbeat(armed, failsafe), now);
    case Tick(inbox, now) => Draining(s, inbox, now);
    case Arm(rounds, _) => Streaming(s, rounds);
    case EnterOffboard(rounds, _) => Streaming(s, rounds);
  }

  /** What an operation leaves in the setpoint fields: the last report it heard and, over that, its own
      setpoint if it stages one. */
  lemma OpWrites(s: State, op: Op)
    ensures var t, report := Next(s, op).0, LastReport(HeardIn(s, op));
            if Stages(s, op) && op.SetVelocity?
            then OutgoingOf(t) == Velocity(op.v)
                 && t.position == if report.Some? then report.value.0 else s.position
            else if Stages(s, op)
            then OutgoingOf(t) == Position(op.p)
                 && t.velocity == if report.Some? then report.value.1 else s.velocity
            else Follows(s, t, report)
  {
    if op.SetVelocity? || op.SetPosition? {
      DrainFollows(s, op.inbox, op.now);
    } else if op.Connect? || op.Beat? || op.Tick? || op.Arm? || op.EnterOffboard? {
      LoopFollows(s, op);
    } else {
      QuietFollows(s, op);
    }
  }

  // ---- the gate ----

  /** When a setpoint call of either kind goes through, from the state before it and the messages it drains: it
      is unblocked, no message takes authority, and the last position report came with this drain or is
      less than 250 ms old - or there never was one. */
  lemma SetpointPassesIff(s: State, op: Op)
    requires op.SetVelocity? || op.SetPosition?
    ensures Next(s, op).1 != Refused
       <==> !s.latched && !s.revoked && (var heard := HeardOnce(s.link, op.inbox);
            && !StopsAny(s.armed, heard)
            && (LastReport(heard).Some? || s.positionAt.None? || op.now - s.positionAt.value < 250))
  {
    var heard := HeardOnce(s.link, op.inbox);
    assert Drained(s, op.inbox, op.now) == HeardAll(s, heard, op.now);
    HearingDates(s, heard, op.now);
    if Blocked(s) {
      HearingKeeps(s, heard, op.now);
    } else {
      HearingBlocksIff(s, heard, op.now);
    }
  }

  // ---- runs ----

  /** Every message of a run. */
  function HeardInRun(s: State, ops: seq<Op>): seq<Msg> {
    if |ops| == 0 then []
    else HeardInRun(s, ops[..|ops| - 1]) + HeardIn(Run(s, ops[..|ops| - 1]), ops[|ops| - 1])
  }

  predicate NoneStages(s: State, ops: seq<Op>) {
    |ops| > 0 ==>
      NoneStages(s, ops[..|ops| - 1]) && !Stages(Run(s, ops[..|ops| - 1]), ops[|ops| - 1])
  }

  lemma {:induction false} RunFollows(s: State, ops: seq<Op>)
    requires NoneStages(s, ops)
    ensures Follows(s, Run(s, ops), LastReport(HeardInRun(s, ops)))
  {
    if |ops| > 0 {
      var front, last := ops[..|ops| - 1], ops[|ops| - 1];
      RunFollows(s, front);
      OpWrites(Run(s, front), last);
      FollowsOn(s, Run(s, front), Run(s, ops), HeardInRun(s, front), HeardIn(Run(s, front), last));
    }
  }

  /** A staged velocity is still what goes out after a run without another setpoint if and only if the run
      heard no position report, or the last one happened to carry that velocity. */
  lemma VelocityOutlastsIff(s: State, v: Triple, inbox: seq<Msg>, now: int, sent: bool, ops: seq<Op>)
    requires var (t, r) := Next(s, SetVelocity(v, inbox, now, sent)); r != Refused && NoneStages(t, ops)
    ensures var t := Next(s, SetVelocity(v, inbox, now, sent)).0;
            var report := LastReport(HeardInRun(t, ops));
            OutgoingOf(Run(t, ops)) == Velocity(v) <==> report.None? || report.value.1 == v
  {
    var op := SetVelocity(v, inbox, now, sent);
    OpWrites(s, op);
    RunFollows(Next(s, op).0, ops);
  }

  lemma PositionOutlastsIff(s: State, p: Triple, inbox: seq<Msg>, now: int, sent: bool, ops: seq<Op>)
    requires var (t, r) := Next(s, SetPosition(p, inbox, now, sent)); r != Refused && NoneStages(t, ops)
    ensures var t := Next(s, SetPosition(p, inbox, now, sent)).0;
            var report := LastReport(HeardInRun(t, ops));
            OutgoingOf(Run(t, ops)) == Position(p) <==> report.None? || report.value.0 == p
  {
    var op := SetPosition(p, inbox, now, sent);
    OpWrites(s, op);
    RunFollows(Next(s, op).0, ops);
  }

  const LINKED: State := FRESH.(link := true, armed := true)

  /** A vehicle told to climb reports that it stands still, and from then on is streamed standing still. */
  lemma ReportReplacesSetpoint(now: int)
    ensures var up, still := (0.0, 0.0, -1.0), (0.0, 0.0, 0.0);
            var (t, r) := Next(LINKED, SetVelocity(up, [], now, true));
            && r == Done && OutgoingOf(t) == Velocity(up)
            && OutgoingOf(Next(t, Tick([LocalPosition(still, still)], now)).0) == Velocity(still)
  {
    var up, still := (0.0, 0.0, -1.0), (0.0, 0.0, 0.0);
    var climb, report := SetVelocity(up, [], now, true), LocalPosition(still, still);
    var t := Next(LINKED, climb).0;
    OpWrites(LINKED, climb);
    OpWrites(t, Tick([report], now));
    assert LastReport([report]) == Some((still, still));
  }
}
