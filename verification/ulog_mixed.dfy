/** Logs of both topics, and of messages the reader does not know: the traces are what counts, and only a
    file without any reads as its status records. */
module UlogMixed {
  import opened Options
  import opened Bytes
  import opened Ulog

  /** What a file holds behind its subscriptions: a trace sample, a status record that reads as a sample, a data
      message of an id that was never subscribed, a second subscription of one that was, or a message of
      another type. */
  datatype Entry = Trace(s: Sample) | Status(data: seq<Byte>, x: Sample) | Stray(id: Half, data: seq<Byte>)
                 | Again(id: Half, name: seq<Byte>) | Foreign(m: Message)

  function Nulls(n: nat): seq<Byte> { if n == 0 then [] else Nulls(n - 1) + [0] }

  /** A subscription, its topic padded with zero bytes on either side. */
  datatype Padding = Padding(multi: Byte, before: nat, after: nat)

  function Padded(name: seq<Byte>, p: Padding): seq<Byte> { Nulls(p.before) + name + Nulls(p.after) }

  function Add(id: Half, name: seq<Byte>, multi: Byte): Message { Message(MSG_ADD, [multi] + Le(id, 2) + name) }

  function MessageOf(e: Entry): Message {
    match e
    case Trace(s) => Message(MSG_DATA, DataOf(s))
    case Status(data, _) => Message(MSG_DATA, Le(1, 2) + data)
    case Stray(id, data) => Message(MSG_DATA, Le(id, 2) + data)
    case Again(id, name) => Add(id, name, 0)
    case Foreign(m) => m
  }

  function Mixed(fc: Padding, status: Padding, es: seq<Entry>): seq<Message> {
    if |es| == 0 then [Add(0, Padded(FC_TRACE, fc), fc.multi), Add(1, Padded(VEHICLE_STATUS, status), status.multi)]
    else Mixed(fc, status, es[..|es| - 1]) + [MessageOf(es[|es| - 1])]
  }

  predicate Fair(r: Reader, e: Entry) {
    match e
    case Trace(_) => true
    case Status(data, x) => |data| < 0xfffe && r.status(data, []) == Some(x)
    case Stray(id, data) => |data| < 0xfffe && id > 1
    case Again(id, name) => |name| < 0xfffd && id <= 1
    case Foreign(m) => Sized(m) && m.ty != MSG_FORMAT && m.ty != MSG_ADD && m.ty != MSG_DATA
  }

  /** The trace samples as the file keeps them, and the status samples. */
  function Traces(es: seq<Entry>): seq<Sample> {
    if |es| == 0 then []
    else
      match es[|es| - 1]
      case Trace(s) => Traces(es[..|es| - 1]) + [Kept(s)]
      case _ => Traces(es[..|es| - 1])
  }

  function Statuses(es: seq<Entry>): seq<Sample> {
    if |es| == 0 then []
    else
      match es[|es| - 1]
      case Status(_, x) => Statuses(es[..|es| - 1]) + [x]
      case _ => Statuses(es[..|es| - 1])
  }

  const IDS: seq<(Half, seq<Byte>)> := [(0, FC_TRACE), (1, VEHICLE_STATUS)]

  /** The second subscriptions, each under the name that is read there. */
  function Repeats(r: Reader, es: seq<Entry>): seq<(Half, seq<Byte>)> {
    if |es| == 0 then []
    else
      match es[|es| - 1]
      case Again(id, name) => Repeats(r, es[..|es| - 1]) + [(id, NameOf(r, name))]
      case _ => Repeats(r, es[..|es| - 1])
  }

  function LogOf(more: seq<(Half, seq<Byte>)>, fc: seq<Sample>, status: seq<Sample>): Log {
    Log([], IDS + more, fc, status)
  }

  // ---- subscriptions ----

  lemma {:induction false} FrontTrims(n: nat, s: seq<Byte>)
    requires |s| > 0 && s[0] != 0
    ensures TrimFront(Nulls(n) + s) == s
  {
    if n == 0 {
      assert Nulls(0) + s == s;
    } else {
      NullsAhead(n);
      assert (Nulls(n) + s)[1..] == Nulls(n - 1) + s;
      FrontTrims(n - 1, s);
    }
  }

  lemma {:induction false} NullsAhead(n: nat)
    requires n > 0
    ensures |Nulls(n)| == n && Nulls(n) == [0] + Nulls(n - 1)
  {
    if n > 1 {
      NullsAhead(n - 1);
    }
  }

  lemma {:induction false} BackTrims(n: nat, s: seq<Byte>)
    requires |s| > 0 && s[|s| - 1] != 0
    ensures TrimBack(s + Nulls(n)) == s
  {
    if n == 0 {
      assert s + Nulls(0) == s;
    } else {
      var t := s + Nulls(n);
      assert t[..|t| - 1] == s + Nulls(n - 1);
      BackTrims(n - 1, s);
    }
  }

  lemma {:induction false} NullsAreNull(n: nat)
    ensures |Nulls(n)| == n && Plain(Nulls(n))
  {
    if n > 0 {
      NullsAreNull(n - 1);
    }
  }

  /** Padding does not matter to a name. */
  lemma NameIsTrimmed(r: Reader, name: seq<Byte>, p: Padding)
    requires AsciiIsUtf8(r) && Plain(name) && |name| > 0 && name[0] != 0 && name[|name| - 1] != 0
    ensures NameOf(r, Padded(name, p)) == name
  {
    NullsAreNull(p.before);
    NullsAreNull(p.after);
    assert Plain(Padded(name, p));
    assert Padded(name, p) == Nulls(p.before) + (name + Nulls(p.after));
    FrontTrims(p.before, name + Nulls(p.after));
    BackTrims(p.after, name);
  }

  lemma AddParts(id: Half, name: seq<Byte>, multi: Byte)
    ensures var p := Add(id, name, multi).payload; |p| >= 3 && p[3..] == name && Half16(p[1..3]) == id
  {
    NumbersRoundTrip();
    var p := Add(id, name, multi).payload;
    assert p[1..3] == Le(id, 2);
  }

  lemma Adds(r: Reader, log: Log, id: Half, name: seq<Byte>, multi: Byte)
    ensures Handled(r, log, Add(id, name, multi)) == Ok(log.(ids := log.ids + [(id, NameOf(r, name))]))
  {
    AddParts(id, name, multi);
  }

  lemma Names(r: Reader, fc: Padding, status: Padding)
    requires AsciiIsUtf8(r)
    ensures NameOf(r, Padded(FC_TRACE, fc)) == FC_TRACE && NameOf(r, Padded(VEHICLE_STATUS, status)) == VEHICLE_STATUS
  {
    NameIsTrimmed(r, FC_TRACE, fc);
    NameIsTrimmed(r, VEHICLE_STATUS, status);
  }

  lemma Subscribes(r: Reader, fc: Padding, status: Padding)
    requires AsciiIsUtf8(r)
    ensures HandledAll(r, EMPTY, Mixed(fc, status, [])) == Ok(LogOf([], [], []))
  {
    var none: seq<Message>, ids: seq<(Half, seq<Byte>)> := [], [];
    var a, b := Add(0, Padded(FC_TRACE, fc), fc.multi), Add(1, Padded(VEHICLE_STATUS, status), status.multi);
    assert none + [a] == [a] && [a] + [b] == Mixed(fc, status, []);
    HandledSnoc(r, EMPTY, none, a);
    HandledSnoc(r, EMPTY, [a], b);
    Names(r, fc, status);
    Adds(r, EMPTY, 0, Padded(FC_TRACE, fc), fc.multi);
    Adds(r, EMPTY.(ids := ids + [(0, FC_TRACE)]), 1, Padded(VEHICLE_STATUS, status), status.multi);
    assert ids + [(0, FC_TRACE)] + [(1, VEHICLE_STATUS)] == IDS + ids;
  }

  /** No second subscription of these ids. */
  predicate Known(more: seq<(Half, seq<Byte>)>) { forall k :: 0 <= k < |more| ==> more[k].0 <= 1 }

  lemma {:induction false} NoOther(more: seq<(Half, seq<Byte>)>, id: Half)
    requires Known(more) && id > 1
    ensures Topic(more, id) == None
  {
    if |more| > 0 {
      NoOther(more[1..], id);
    }
  }

  lemma TopicOf(more: seq<(Half, seq<Byte>)>, id: Half)
    requires Known(more)
    ensures Topic(IDS + more, id)
         == if id == 0 then Some(FC_TRACE) else if id == 1 then Some(VEHICLE_STATUS) else None
  {
    var all, last := IDS + more, [(1, VEHICLE_STATUS)] + more;
    assert all[1..] == last && last[1..] == more;
    assert Topic(all, id) == if id == 0 then Some(FC_TRACE) else Topic(last, id);
    assert Topic(last, id) == if id == 1 then Some(VEHICLE_STATUS) else Topic(more, id);
    if id > 1 {
      NoOther(more, id);
    }
  }

  lemma TopicsDiffer()
    ensures FC_TRACE != VEHICLE_STATUS
  {
    assert |FC_TRACE| != |VEHICLE_STATUS|;
  }

  // ---- entries ----

  lemma IdOf(id: Half, data: seq<Byte>)
    ensures var p := Le(id, 2) + data; |p| >= 2 && Half16(p[..2]) == id && p[2..] == data
  {
    NumbersRoundTrip();
    var p := Le(id, 2) + data;
    assert p[..2] == Le(id, 2);
  }

  lemma ZeroId()
    ensures Half16([0, 0]) == 0
  {
    NumbersRoundTrip();
    assert Le(0, 2) == [0, 0] by {
      assert Le(0, 1) == [0] + Le(0, 0);
    }
  }

  lemma EntryIsHandled(r: Reader, e: Entry, more: seq<(Half, seq<Byte>)>, fc: seq<Sample>, status: seq<Sample>)
    requires Fair(r, e) && Known(more)
    ensures Handled(r, LogOf(more, fc, status), MessageOf(e))
         == match e
            case Trace(s) => Ok(LogOf(more, fc + [Kept(s)], status))
            case Status(_, x) => Ok(LogOf(more, fc, status + [x]))
            case Again(id, name) => Ok(LogOf(more + [(id, NameOf(r, name))], fc, status))
            case _ => Ok(LogOf(more, fc, status))
  {
    TopicsDiffer();
    match e
    case Trace(s) =>
      DataRoundTrip(s);
      TopicOf(more, 0);
      ZeroId();
    case Status(data, _) =>
      IdOf(1, data);
      TopicOf(more, 1);
    case Stray(id, data) =>
      IdOf(id, data);
      TopicOf(more, id);
    case Again(id, name) =>
      Adds(r, LogOf(more, fc, status), id, name, 0);
      assert IDS + more + [(id, NameOf(r, name))] == IDS + (more + [(id, NameOf(r, name))]);
    case Foreign(_) =>
  }

  lemma {:induction false} EntriesAddUp(r: Reader, f: Padding, v: Padding, es: seq<Entry>)
    requires AsciiIsUtf8(r) && forall e :: e in es ==> Fair(r, e)
    ensures HandledAll(r, EMPTY, Mixed(f, v, es)) == Ok(LogOf(Repeats(r, es), Traces(es), Statuses(es)))
    ensures Known(Repeats(r, es))
  {
    if |es| == 0 {
      Subscribes(r, f, v);
      assert es == [];
    } else {
      var front, last := es[..|es| - 1], es[|es| - 1];
      EntriesAddUp(r, f, v, front);
      HandledSnoc(r, EMPTY, Mixed(f, v, front), MessageOf(last));
      EntryIsHandled(r, last, Repeats(r, front), Traces(front), Statuses(front));
    }
  }

  /** Both subscriptions fit a message. */
  predicate Short(f: Padding, v: Padding) { forall m :: m in Mixed(f, v, []) ==> Sized(m) }

  lemma EntryIsSized(r: Reader, e: Entry)
    requires Fair(r, e)
    ensures Sized(MessageOf(e))
  {
    if e.Trace? {
      DataRoundTrip(e.s);
    }
  }

  lemma {:induction false} EntriesAreSized(r: Reader, f: Padding, v: Padding, es: seq<Entry>)
    requires Short(f, v) && forall e :: e in es ==> Fair(r, e)
    ensures forall m :: m in Mixed(f, v, es) ==> Sized(m)
  {
    if |es| == 0 {
      assert es == [];
    } else {
      EntriesAreSized(r, f, v, es[..|es| - 1]);
      EntryIsSized(r, es[|es| - 1]);
    }
  }

  /** A file of both topics, however padded, with anything unknown and any second subscription in between: it
      reads as its traces in order if there are any, else as its status records with their epochs recounted,
      and is refused without either. */
  lemma MixedFile(r: Reader, t0: Long, f: Padding, v: Padding, es: seq<Entry>)
    requires AsciiIsUtf8(r) && Short(f, v) && forall e :: e in es ==> Fair(r, e)
    ensures Parsed(r, Header(t0) + Stream(Mixed(f, v, es)))
         == if |Traces(es)| > 0 then Ok(Traces(es))
            else if |Statuses(es)| > 0 then Ok(Stamped(Statuses(es)))
            else Err(NoSamples)
  {
    EntriesAddUp(r, f, v, es);
    EntriesAreSized(r, f, v, es);
    WholeStream(r, t0, Mixed(f, v, es), LogOf(Repeats(r, es), Traces(es), Statuses(es)));
  }

  // ---- malformed messages ----

  /** What is wrong with a message by itself. */
  function Fault(r: Reader, m: Message): Option<Error> {
    if m.ty == MSG_FORMAT && !r.utf8(m.payload) then Some(FormatNotUtf8)
    else if m.ty == MSG_ADD && |m.payload| < 3 then Some(AddTooShort)
    else if m.ty == MSG_DATA && |m.payload| < 2 then Some(DataTooShort)
    else None
  }

  function FirstFault(r: Reader, ms: seq<Message>): Option<Error> {
    if |ms| == 0 then None
    else if FirstFault(r, ms[..|ms| - 1]).Some? then FirstFault(r, ms[..|ms| - 1])
    else Fault(r, ms[|ms| - 1])
  }

  lemma FaultShows(r: Reader, log: Log, m: Message)
    ensures match Fault(r, m)
            case None => Handled(r, log, m).Ok?
            case Some(e) => Handled(r, log, m) == Err(e)
  {
  }

  lemma {:induction false} FirstFaultShows(r: Reader, log: Log, ms: seq<Message>)
    ensures match FirstFault(r, ms)
            case None => HandledAll(r, log, ms).Ok?
            case Some(e) => HandledAll(r, log, ms) == Err(e)
  {
    if |ms| > 0 {
      var front := ms[..|ms| - 1];
      FirstFaultShows(r, log, front);
      if HandledAll(r, log, front).Ok? {
        FaultShows(r, HandledAll(r, log, front).value, ms[|ms| - 1]);
      }
    }
  }

  /** A file of whole messages is refused for the first malformed one, with its own error, and otherwise for
      nothing but having no samples. */
  lemma FirstFaultDecides(r: Reader, t0: Long, ms: seq<Message>)
    requires forall m :: m in ms ==> Sized(m)
    ensures var p := Parsed(r, Header(t0) + Stream(ms));
            match FirstFault(r, ms)
            case None => p.Ok? || p == Err(NoSamples)
            case Some(e) => p == Err(e)
  {
    var bytes := Header(t0) + Stream(ms);
    HeaderIsUlog(t0, Stream(ms));
    assert bytes[HEADER..HEADER + |Stream(ms)|] == Stream(ms);
    ScanStream(r, bytes, HEADER, EMPTY, ms);
    FirstFaultShows(r, EMPTY, ms);
  }
}
