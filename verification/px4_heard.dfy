/** What the backend hears in one operation, and all that hearing does to it: the exact flags, epoch and
    setpoint fields after any messages, drained in any number of rounds. */
module Px4Heard {
  import opened Options
  import opened Clock
  import opened Px4

  // ---- position reports ----

  /** The last position report among some messages. */
  function LastReport(msgs: seq<Msg>): Option<(Triple, Triple)> {
    if |msgs| == 0 then None
    else
      match msgs[|msgs| - 1]
      case LocalPosition(p, v) => Some((p, v))
      case _ => LastReport(msgs[..|msgs| - 1])
  }

  lemma {:induction false} LastReportOfBoth(a: seq<Msg>, b: seq<Msg>)
    ensures LastReport(a + b) == if LastReport(b).Some? then LastReport(b) else LastReport(a)
  {
    if |b| == 0 {
      assert a + b == a;
    } else {
      assert (a + b)[..|a + b| - 1] == a + b[..|b| - 1];
      LastReportOfBoth(a, b[..|b| - 1]);
    }
  }

  /** Setpoint fields after these messages were heard: the report's, or as they were. */
  predicate Follows(s: State, t: State, report: Option<(Triple, Triple)>) {
    && t.streamPosition == s.streamPosition
    && t.position == (if report.Some? then report.value.0 else s.position)
    && t.velocity == if report.Some? then report.value.1 else s.velocity
  }

  // ---- heartbeats ----

  /** The heartbeats among some messages. */
  function BeatsOf(msgs: seq<Msg>): seq<Beat> {
    if |msgs| == 0 then []
    else
      match msgs[|msgs| - 1]
      case Heartbeat(armed, failsafe) => BeatsOf(msgs[..|msgs| - 1]) + [Beat.Beat(armed, failsafe, 0)]
      case _ => BeatsOf(msgs[..|msgs| - 1])
  }

  lemma {:induction false} BeatsOfBoth(a: seq<Msg>, b: seq<Msg>)
    ensures BeatsOf(a + b) == BeatsOf(a) + BeatsOf(b)
  {
    if |b| == 0 {
      assert a + b == a;
    } else {
      assert (a + b)[..|a + b| - 1] == a + b[..|b| - 1];
      BeatsOfBoth(a, b[..|b| - 1]);
    }
  }

  /** An unexpected disarm among the heartbeats of a backend armed as given. */
  predicate Loses(armed: bool, hbs: seq<Beat>) { armed && AnyDisarm(hbs) }

  /** How often these heartbeats move the epoch. */
  function Bumps(s: State, hbs: seq<Beat>): nat {
    if s.latched then 0 else One(s.armed && DisarmsFirst(hbs)) + One(AnyFailsafe(hbs))
  }

  /** Flags and epoch after these heartbeats. */
  predicate Flagged(s: State, t: State, hbs: seq<Beat>) {
    && t.link == s.link
    && (t.seenPx4 <==> s.seenPx4 || |hbs| > 0)
    && (t.armed <==> s.armed && !AnyDisarm(hbs))
    && (t.latched <==> s.latched || AnyFailsafe(hbs))
    && (t.revoked <==> s.revoked || Loses(s.armed, hbs))
    && (t.offboard <==> s.offboard && !AnyFailsafe(hbs) && !Loses(s.armed, hbs))
    && (s.epoch <= U32_MAX ==> t.epoch == Capped(s.epoch + Bumps(s, hbs)))
  }

  lemma BeatsSplit(a: seq<Beat>, b: seq<Beat>)
    ensures AnyDisarm(a + b) <==> AnyDisarm(a) || AnyDisarm(b)
    ensures AnyFailsafe(a + b) <==> AnyFailsafe(a) || AnyFailsafe(b)
  {
    var c := a + b;
    assert forall i :: 0 <= i < |a| ==> c[i] == a[i];
    assert forall i :: 0 <= i < |b| ==> c[|a| + i] == b[i];
  }

  lemma FirstSplits(a: seq<Beat>, b: seq<Beat>)
    ensures DisarmsFirst(a + b) <==> DisarmsFirst(a) || (!AnyFailsafe(a) && DisarmsFirst(b))
    ensures !AnyFailsafe(a) ==> (DisarmsFirst(a) <==> AnyDisarm(a))
  {
    var c := a + b;
    assert forall i :: 0 <= i < |a| ==> c[i] == a[i];
    assert forall i :: 0 <= i < |b| ==> c[|a| + i] == b[i];
  }

  lemma FlagsOn(s: State, t: State, u: State, a: seq<Beat>, b: seq<Beat>)
    requires Flagged(s, t, a) && Flagged(t, u, b)
    ensures Flagged(s, u, a + b)
  {
    BeatsSplit(a, b);
    FirstSplits(a, b);
  }

  lemma OneBeat(s: State, armed: bool, failsafe: bool, now: int)
    ensures Flagged(s, Beaten(s, armed, failsafe, now), [Beat.Beat(armed, failsafe, 0)])
  {
    var hbs := [Beat.Beat(armed, failsafe, 0)];
    assert hbs[0] == Beat.Beat(armed, failsafe, 0);
  }

  lemma NoBeat(s: State, t: State)
    requires t == s.(position := t.position, velocity := t.velocity, seenPosition := t.seenPosition,
                     positionAt := t.positionAt)
    ensures Flagged(s, t, [])
  {
  }

  // ---- messages ----

  /** What hearing these messages makes of s. */
  predicate Became(s: State, t: State, msgs: seq<Msg>) {
    && Follows(s, t, LastReport(msgs)) && Flagged(s, t, BeatsOf(msgs))
    && (t.seenPosition <==> s.seenPosition || LastReport(msgs).Some?)
  }

  lemma BecameOn(s: State, t: State, u: State, a: seq<Msg>, b: seq<Msg>)
    requires Became(s, t, a) && Became(t, u, b)
    ensures Became(s, u, a + b)
  {
    LastReportOfBoth(a, b);
    BeatsOfBoth(a, b);
    FlagsOn(s, t, u, BeatsOf(a), BeatsOf(b));
  }

  lemma OfOne(m: Msg)
    ensures BeatsOf([m]) == if m.Heartbeat? then [Beat.Beat(m.armed, m.failsafe, 0)] else []
    ensures LastReport([m]) == if m.LocalPosition? then Some((m.p, m.v)) else None
  {
    var none: seq<Msg>, empty: seq<Beat> := [], [];
    assert [m][..0] == none;
    if m.Heartbeat? {
      assert empty + [Beat.Beat(m.armed, m.failsafe, 0)] == [Beat.Beat(m.armed, m.failsafe, 0)];
    }
  }

  lemma OneMessage(s: State, m: Msg, now: int)
    ensures Became(s, Heard(s, m, now), [m])
  {
    OfOne(m);
    if m.Heartbeat? {
      OneBeat(s, m.armed, m.failsafe, now);
    } else {
      NoBeat(s, Heard(s, m, now));
    }
  }

  lemma {:induction false} Hearing(s: State, msgs: seq<Msg>, now: int)
    ensures Became(s, HeardAll(s, msgs, now), msgs)
  {
    if |msgs| == 0 {
      NoBeat(s, s);
    } else {
      var front, m := msgs[..|msgs| - 1], msgs[|msgs| - 1];
      Hearing(s, front, now);
      OneMessage(HeardAll(s, front, now), m, now);
      BecameOn(s, HeardAll(s, front, now), HeardAll(s, msgs, now), front, [m]);
      assert front + [m] == msgs;
    }
  }

  lemma {:induction false} HearingDates(s: State, msgs: seq<Msg>, now: int)
    ensures HeardAll(s, msgs, now).positionAt == if LastReport(msgs).Some? then Some(now) else s.positionAt
    ensures HeardAll(s, msgs, now).heartbeatAt == if |BeatsOf(msgs)| > 0 then Some(now) else s.heartbeatAt
  {
    if |msgs| > 0 {
      HearingDates(s, msgs[..|msgs| - 1], now);
    }
  }

  /** What one drain hears: nothing without a link, and no more than 64 messages. */
  function HeardOnce(link: bool, inbox: seq<Msg>): seq<Msg> {
    if !link then [] else if |inbox| <= 64 then inbox else inbox[..64]
  }

  lemma Draining(s: State, inbox: seq<Msg>, now: int)
    ensures Became(s, Drained(s, inbox, now), HeardOnce(s.link, inbox))
  {
    if s.link {
      Hearing(s, Taken(inbox), now);
    } else {
      NoBeat(s, s);
    }
  }

  /** What a stream hears: the inboxes of its rounds up to the first send that fails. */
  function HeardStreaming(s: State, rounds: seq<Round>): seq<Msg> {
    if |rounds| == 0 then []
    else
      var front, last := rounds[..|rounds| - 1], rounds[|rounds| - 1];
      var (t, r) := Streamed(s, front);
      HeardStreaming(s, front) +
      if r == Done && Sent(t, last.sent) == Done then HeardOnce(t.link, last.inbox) else []
  }

  lemma {:induction false} Streaming(s: State, rounds: seq<Round>)
    ensures Became(s, Streamed(s, rounds).0, HeardStreaming(s, rounds))
  {
    if |rounds| == 0 {
      NoBeat(s, s);
    } else {
      var front, last := rounds[..|rounds| - 1], rounds[|rounds| - 1];
      var (t, r) := Streamed(s, front);
      Streaming(s, front);
      if r == Done && Sent(t, last.sent) == Done {
        Draining(t, last.inbox, last.now);
        BecameOn(s, t, Drained(t, last.inbox, last.now), HeardStreaming(s, front), HeardOnce(t.link, last.inbox));
      } else {
        assert HeardStreaming(s, rounds) == HeardStreaming(s, front);
      }
    }
  }

  /** What a wait hears: the inboxes up to the one that a vehicle is first seen in. */
  function HeardWaiting(s: State, waits: seq<Round>): seq<Msg> {
    if |waits| == 0 then []
    else
      var front, last := waits[..|waits| - 1], waits[|waits| - 1];
      HeardWaiting(s, front) +
      if Waited(s, front).seenPx4 then [] else HeardOnce(Waited(s, front).link, last.inbox)
  }

  lemma {:induction false} Waiting(s: State, waits: seq<Round>)
    ensures Became(s, Waited(s, waits), HeardWaiting(s, waits))
  {
    if |waits| == 0 {
      NoBeat(s, s);
    } else {
      var front, last := waits[..|waits| - 1], waits[|waits| - 1];
      var t := Waited(s, front);
      Waiting(s, front);
      if t.seenPx4 {
        assert HeardWaiting(s, waits) == HeardWaiting(s, front);
      } else {
        Draining(t, last.inbox, last.now);
        BecameOn(s, t, Drained(t, last.inbox, last.now), HeardWaiting(s, front), HeardOnce(t.link, last.inbox));
      }
    }
  }

  /** Every message an operation takes in. */
  function HeardIn(s: State, op: Op): seq<Msg> {
    match op
    case Connect(bound, waits) => if bound then HeardWaiting(Listening(Bumped(s)), waits) else []
    case Beat(armed, failsafe, _) => [Heartbeat(armed, failsafe)]
    case Tick(inbox, _) => HeardOnce(s.link, inbox)
    case Arm(rounds, _) => HeardStreaming(s, rounds)
    case EnterOffboard(rounds, _) => if Blocked(s) then [] else HeardStreaming(s, rounds)
    case SetVelocity(_, inbox, _, _) => HeardOnce(s.link, inbox)
    case SetPosition(_, inbox, _, _) => HeardOnce(s.link, inbox)
    case _ => []
  }

  // ---- digests ----

  /** All that the flags can tell of some messages: whether there was a heartbeat, a disarm, a failsafe, a disarm
      before any failsafe, and a position report. */
  datatype Digest = Digest(beat: bool, disarm: bool, failsafe: bool, first: bool, report: bool)

  const NOTHING: Digest := Digest(false, false, false, false, false)

  function DigestOf(msgs: seq<Msg>): Digest {
    var hbs := BeatsOf(msgs);
    Digest(|hbs| > 0, AnyDisarm(hbs), AnyFailsafe(hbs), DisarmsFirst(hbs), LastReport(msgs).Some?)
  }

  function DigestBumps(s: State, d: Digest): nat {
    if s.latched then 0 else One(s.armed && d.first) + One(d.failsafe)
  }

  predicate Digested(s: State, t: State, d: Digest) {
    && t.link == s.link
    && (t.seenPx4 <==> s.seenPx4 || d.beat)
    && (t.armed <==> s.armed && !d.disarm)
    && (t.latched <==> s.latched || d.failsafe)
    && (t.revoked <==> s.revoked || (s.armed && d.disarm))
    && (t.offboard <==> s.offboard && !d.failsafe && !(s.armed && d.disarm))
    && (s.epoch <= U32_MAX ==> t.epoch == Capped(s.epoch + DigestBumps(s, d)))
  }

  lemma Digesting(s: State, t: State, msgs: seq<Msg>)
    requires Became(s, t, msgs)
    ensures Digested(s, t, DigestOf(msgs))
  {
  }

  lemma NothingHeard()
    ensures DigestOf([]) == NOTHING
  {
  }
}
