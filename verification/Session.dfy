/**
 A client over any number of connections: it reads the bytes that reach it, keeps the last event ID,
 and presents it in the Last-Event-ID header when it connects again.
 */
module Session {
  import opened Options
  import opened Decimal
  import opened EventLog
  import W = Wire
  import S = Subscription
  import P = SubscriptionProofs

  // ----- Events on the wire -----

  /** A text without line breaks. */
  type Text = s: string | W.OneLine(s)

  function Join(a: Text, b: Text): Text { a + b }

  /** The reason texts of the error events, abbreviated. */
  function ReasonText(reason: Reason): Text {
    match reason
    case Expired => "expired"
    case Unknown => "unknown"
    case QueryError => "query"
    case ConsumeError => "consume"
    case StreamClosed => "closed"
  }

  /** The JSON of an ErrorEvent. */
  function ErrorData(retry: bool, reason: Reason): Text {
    var flag := if retry then "{\"retry\":true" else "{\"retry\":false";
    Join(Join(flag, Join(",\"reason\":\"", ReasonText(reason))), "\"}")
  }

  function ToWire(out: Out): W.Event {
    match out
    case Data(offset, name, data) => W.Event(offset + 1, name, data)
    case Ping(position) => W.Event(position, "ping", "")
    case Error(retry, reason) => W.Event(0, "error", ErrorData(retry, reason))
  }

  function ToWireAll(outs: seq<Out>): seq<W.Event> {
    seq(|outs|, i requires 0 <= i < |outs| => ToWire(outs[i]))
  }

  /** Two different reasons differ in their first character or in their second. */
  lemma ReasonStart(reason: Reason)
    ensures var text := ReasonText(reason);
            |text| > 1 && (text[0], text[1]) ==
            match reason
            case Expired => ('e', 'x')
            case Unknown => ('u', 'n')
            case QueryError => ('q', 'u')
            case ConsumeError => ('c', 'o')
            case StreamClosed => ('c', 'l')
  {
  }

  /** The retry flag, and where the reason stands behind it. */
  lemma ErrorParts(retry: bool, reason: Reason)
    ensures var data, n := ErrorData(retry, reason), if retry then 24 else 25;
            && |data| > n + 1
            && data[..8] == "{\"retry\"" && data[9] == (if retry then 't' else 'f')
            && data[n] == ReasonText(reason)[0] && data[n + 1] == ReasonText(reason)[1]
  {
    ReasonStart(reason);
  }

  /** A client can tell from the JSON of an error event whether to try again, and why the stream ended. */
  lemma ErrorsToldApart(retry: bool, reason: Reason, again: bool, other: Reason)
    ensures ErrorData(retry, reason) == ErrorData(again, other) <==> retry == again && reason == other
  {
    ErrorParts(retry, reason);
    ErrorParts(again, other);
    ReasonStart(reason);
    ReasonStart(other);
  }

  /** What each event is on the wire: data events and pings above the last ID carry one, and no others. */
  lemma OnTheWire(out: Out)
    ensures ToWire(out).id != 0 <==> out.Data? || (out.Ping? && out.position > 0)
    ensures out.Data? ==> ToWire(out).name == out.name && ToWire(out).data == out.data
    ensures out.Data? ==> ToWire(out).id == out.offset + 1
    ensures out.Ping? ==> ToWire(out) == W.Event(out.position, "ping", "")
    ensures out.Error? ==> ToWire(out).name == "error" && ToWire(out).data == ErrorData(out.retry, out.reason)
  {
  }

  /** The header of a client whose last received ID is `id`. */
  function Header(id: nat): string { if id == 0 then "" else Print(id) }

  /** What a client shows for a data event. */
  function ShowData(out: Out): W.ClientEvent
    requires out.Data?
  {
    W.ClientEvent(out.name, out.data, Print(out.offset + 1))
  }

  function ShowAll(outs: seq<Out>): seq<W.ClientEvent> {
    if outs == [] then []
    else
      var last := outs[|outs| - 1];
      ShowAll(outs[..|outs| - 1]) + if last.Data? then [ShowData(last)] else []
  }

  /** The events of the protocol itself are told apart by their names. */
  predicate IsProtocol(name: string) { name == "ping" || name == "error" }

  function DataEvents(events: seq<W.ClientEvent>): seq<W.ClientEvent> {
    if events == [] then []
    else
      var last := events[|events| - 1];
      DataEvents(events[..|events| - 1]) + if IsProtocol(last.name) then [] else [last]
  }

  /** The schema admits no event with the name of a protocol event, and JSON puts data on one line. */
  predicate WellNamed(log: Log) {
    |log| < INT64_LIMIT &&
    forall i :: 0 <= i < |log| && log[i].Deliverable? ==>
      log[i].name != "" && !IsProtocol(log[i].name) && W.OneLine(log[i].name) && W.OneLine(log[i].data)
  }

  predicate ShownOut(out: Out) {
    out.Data? ==> out.name != "" && !IsProtocol(out.name) && W.OneLine(out.name) && W.OneLine(out.data)
  }

  // ----- The client -----

  /** A connection: what happens on the server, and how many bytes of the response arrive. */
  datatype Connection = Connection(first: nat, avail: nat, run: seq<S.Action>, cut: nat)

  /** `start` is the start of the consumer of the first connection that gave the client an ID. */
  datatype Client = Client(lastId: string, events: seq<W.ClientEvent>, start: Option<nat>)

  function NewClient(): Client { Client("", [], None) }

  /** The server side of a connection of the client. */
  function Server(log: Log, client: Client, cn: Connection): S.Conn {
    P.After(log, P.Open(ResumeId(client.lastId), cn.first, cn.avail), cn.run)
  }

  /** The connection may happen. */
  predicate Possible(log: Log, client: Client, cn: Connection) {
    && cn.first <= cn.avail <= |log|
    && P.Legal(log, P.Open(ResumeId(client.lastId), cn.first, cn.avail), cn.run)
    && cn.cut <= |W.WriteAll(ToWireAll(Server(log, client, cn).outs))|
  }

  function Receive(client: Client, s: S.Conn, cut: nat): Client
    requires cut <= |W.WriteAll(ToWireAll(s.outs))|
  {
    var parser := W.Feed(W.Connect(client.lastId), W.WriteAll(ToWireAll(s.outs))[..cut]);
    Learn(client, s, parser.lastId, parser.events)
  }

  function Learn(client: Client, s: S.Conn, lastId: string, events: seq<W.ClientEvent>): Client {
    var start :=
      if client.lastId == "" && lastId != "" && s.consumer.Some? then Some(s.consumer.value.start)
      else client.start;
    Client(lastId, client.events + events, start)
  }

  predicate Legal(log: Log, cns: seq<Connection>) {
    cns == [] ||
    (Legal(log, cns[..|cns| - 1]) && Possible(log, After(log, cns[..|cns| - 1]), cns[|cns| - 1]))
  }

  function After(log: Log, cns: seq<Connection>): Client {
    if cns == [] then NewClient()
    else
      var before, cn := After(log, cns[..|cns| - 1]), cns[|cns| - 1];
      if Possible(log, before, cn) then Receive(before, Server(log, before, cn), cn.cut) else before
  }

  // ----- From events to bytes and back -----

  lemma ToWireFramable(outs: seq<Out>)
    requires forall o :: o in outs ==> ShownOut(o)
    ensures forall e :: e in ToWireAll(outs) ==> W.Framable(e)
  {
    forall i | 0 <= i < |outs|
      ensures W.Framable(ToWire(outs[i]))
    {
      assert outs[i] in outs;
      if outs[i].Error? {
        assert W.OneLine(ErrorData(outs[i].retry, outs[i].reason));
      }
    }
  }

  lemma {:induction false} HeaderAfter(outs: seq<Out>, id: nat)
    ensures W.IdAfter(ToWireAll(outs), Header(id)) == Header(LastId(outs, id))
  {
    if outs != [] {
      assert ToWireAll(outs)[..|outs| - 1] == ToWireAll(outs[..|outs| - 1]);
      HeaderAfter(outs[..|outs| - 1], id);
    }
  }

  lemma {:induction false} DataShown(outs: seq<Out>, lastId: string)
    requires forall o :: o in outs ==> ShownOut(o)
    ensures DataEvents(W.Shown(ToWireAll(outs), lastId)) == ShowAll(outs)
  {
    if outs != [] {
      var last, es := outs[|outs| - 1], ToWireAll(outs);
      assert es[..|outs| - 1] == ToWireAll(outs[..|outs| - 1]);
      var shown := W.Shown(es, lastId);
      assert shown[..|outs| - 1] == W.Shown(es[..|outs| - 1], lastId);
      assert last in outs;
      DataShown(outs[..|outs| - 1], lastId);
    }
  }

  lemma {:induction false} ShowAllIsShowData(outs: seq<Out>)
    ensures ShowAll(outs) == ShowAll(DataOf(outs))
  {
    if outs != [] {
      var before := outs[..|outs| - 1];
      ShowAllIsShowData(before);
      var last := outs[|outs| - 1];
      if last.Data? {
        assert DataOf(outs) == DataOf(before) + [last];
        assert DataOf(outs)[..|DataOf(outs)| - 1] == DataOf(before);
      } else {
        assert DataOf(outs) == DataOf(before);
      }
    }
  }

  lemma {:induction false} ShowAllConcat(xs: seq<Out>, ys: seq<Out>)
    ensures ShowAll(xs + ys) == ShowAll(xs) + ShowAll(ys)
  {
    if ys == [] {
      assert xs + ys == xs;
    } else {
      assert (xs + ys)[..|xs + ys| - 1] == xs + ys[..|ys| - 1];
      ShowAllConcat(xs, ys[..|ys| - 1]);
    }
  }

  lemma {:induction false} DataEventsConcat(xs: seq<W.ClientEvent>, ys: seq<W.ClientEvent>)
    ensures DataEvents(xs + ys) == DataEvents(xs) + DataEvents(ys)
  {
    if ys == [] {
      assert xs + ys == xs;
    } else {
      assert (xs + ys)[..|xs + ys| - 1] == xs + ys[..|ys| - 1];
      DataEventsConcat(xs, ys[..|ys| - 1]);
    }
  }

  lemma HeaderParses(id: nat)
    requires id < INT64_LIMIT
    ensures ResumeId(Header(id)) == id && (Header(id) == "" <==> id == 0)
  {
    if id != 0 {
      HeaderRoundTrip(id);
    }
  }

  /** What the client receives of one response, in terms of what the subscription sent. */
  lemma ResponseReceived(outs: seq<Out>, id: nat, cut: nat) returns (k: nat)
    requires forall o :: o in outs ==> ShownOut(o)
    requires cut <= |W.WriteAll(ToWireAll(outs))|
    ensures k <= |outs| && k == W.Whole(ToWireAll(outs), cut)
    ensures var parser := W.Feed(W.Connect(Header(id)), W.WriteAll(ToWireAll(outs))[..cut]);
            && parser.lastId == Header(LastId(outs[..k], id))
            && DataEvents(parser.events) == ShowAll(DataOf(outs[..k]))
  {
    var es := ToWireAll(outs);
    ToWireFramable(outs);
    W.TruncatedRoundTrip(es, Header(id), cut);
    k := W.Whole(es, cut);
    assert es[..k] == ToWireAll(outs[..k]);
    assert forall o :: o in outs[..k] ==> o in outs;
    HeaderAfter(outs[..k], id);
    DataShown(outs[..k], Header(id));
    ShowAllIsShowData(outs[..k]);
  }

  // ----- Exactly-once delivery -----

  /** The client's last ID, and exactly the expected data events below it. */
  predicate Complete(log: Log, client: Client) {
    var id := ResumeId(client.lastId);
    && id < INT64_LIMIT && client.lastId == Header(id)
    && match client.start
       case None => id == 0 && DataEvents(client.events) == []
       case Some(start) =>
         && 0 < id && start <= id <= |log|
         && DataEvents(client.events) == ShowAll(Expected(log, start, id))
  }

  /** Every event of a connection can be shown, since it is what the log holds. */
  lemma OutsShown(log: Log, s: S.Conn)
    requires WellNamed(log) && P.Inv(log, s)
    ensures forall o :: o in s.outs ==> ShownOut(o)
  {
    forall o | o in s.outs
      ensures ShownOut(o)
    {
      if s.consumer.Some? {
        var start := s.consumer.value.start;
        P.WholePrefix(log, s.resume, start, s.outs);
        if o.Data? {
          InDataOf(s.outs, o);
          ExpectedMembers(log, start, LastId(s.outs, s.resume), o);
        }
      }
    }
  }

  lemma {:induction false} InDataOf(outs: seq<Out>, o: Out)
    requires o in outs && o.Data?
    ensures o in DataOf(outs)
  {
    if o != outs[|outs| - 1] {
      InDataOf(outs[..|outs| - 1], o);
    }
  }

  /**
   The server started its consumer no later than the client asked, as far as it matters: with the new
   ID the client passes no deliverable message that the consumer had already left behind.
   */
  predicate NothingSkipped(log: Log, s: S.Conn, newId: nat) {
    s.resume == 0 || s.consumer.None? || newId == s.resume || Expected(log, s.resume, s.consumer.value.start) == []
  }

  lemma {:induction false} ShowAllLength(log: Log, lo: nat, hi: nat)
    ensures |ShowAll(Expected(log, lo, hi))| == |Expected(log, lo, hi)|
  {
    if lo < hi {
      ShowAllLength(log, lo, hi - 1);
      var before, all := Expected(log, lo, hi - 1), Expected(log, lo, hi);
      if IsDeliverable(log, hi - 1) {
        assert all[..|all| - 1] == before;
      } else {
        assert all == before;
      }
    }
  }

  /** A client that has had everything up to `id`, and then what is expected from `start` to `newId`. */
  lemma PassedOver(log: Log, s0: nat, id: nat, start: nat, newId: nat)
    requires s0 <= id <= start <= newId
    ensures ShowAll(Expected(log, s0, id)) + ShowAll(Expected(log, start, newId)) == ShowAll(Expected(log, s0, newId))
            <==> Expected(log, id, start) == []
  {
    var a, b, c := Expected(log, s0, id), Expected(log, id, start), Expected(log, start, newId);
    ExpectedJoin(log, s0, id, newId);
    ExpectedJoin(log, id, start, newId);
    ShowAllConcat(a, b + c);
    ShowAllConcat(b, c);
    ShowAllLength(log, id, start);
    if ShowAll(a) + ShowAll(c) == ShowAll(a) + (ShowAll(b) + ShowAll(c)) {
      assert |ShowAll(b)| == 0;
    } else {
      assert b == [] ==> ShowAll(b) + ShowAll(c) == ShowAll(c);
    }
  }

  /** The first ID of a client, which starts its events. */
  lemma LearnFirst(log: Log, client: Client, s: S.Conn, k: nat, events: seq<W.ClientEvent>)
    requires Complete(log, client) && P.Inv(log, s) && |log| < INT64_LIMIT && k <= |s.outs|
    requires s.resume == ResumeId(client.lastId) == 0
    requires DataEvents(events) == ShowAll(DataOf(s.outs[..k]))
    ensures Complete(log, Learn(client, s, Header(LastId(s.outs[..k], 0)), events))
  {
    var newId := LastId(s.outs[..k], 0);
    DataEventsConcat(client.events, events);
    HeaderParses(0);
    if s.consumer.None? {
      P.SilentIds(s.outs[..k], 0);
    } else {
      assert P.PrefixSound(log, 0, s.consumer.value.start, s.outs, k);
    }
    HeaderParses(newId);
  }

  /** One more connection: the client stays complete exactly if nothing was skipped. */
  lemma LearnMore(log: Log, client: Client, s: S.Conn, k: nat, events: seq<W.ClientEvent>)
    requires Complete(log, client) && P.Inv(log, s) && |log| < INT64_LIMIT && k <= |s.outs|
    requires s.resume == ResumeId(client.lastId) > 0
    requires DataEvents(events) == ShowAll(DataOf(s.outs[..k]))
    ensures var newId := LastId(s.outs[..k], s.resume);
            Complete(log, Learn(client, s, Header(newId), events)) <==> NothingSkipped(log, s, newId)
  {
    var id, newId, s0 := s.resume, LastId(s.outs[..k], s.resume), client.start.value;
    DataEventsConcat(client.events, events);
    HeaderParses(id);
    if s.consumer.None? {
      P.SilentIds(s.outs[..k], id);
    } else {
      var start := s.consumer.value.start;
      assert P.PrefixSound(log, id, start, s.outs, k);
      HeaderParses(newId);
      if newId == id {
        assert Expected(log, start, id) == [];
      } else {
        PassedOver(log, s0, id, start, newId);
      }
    }
  }

  /** What the client receives of one connection. */
  lemma Received(log: Log, client: Client, s: S.Conn, cut: nat) returns (k: nat)
    requires WellNamed(log) && Complete(log, client) && P.Inv(log, s) && s.resume == ResumeId(client.lastId)
    requires cut <= |W.WriteAll(ToWireAll(s.outs))|
    ensures k <= |s.outs| && Receive(client, s, cut).lastId == Header(LastId(s.outs[..k], s.resume))
    ensures Complete(log, Receive(client, s, cut)) <==> NothingSkipped(log, s, LastId(s.outs[..k], s.resume))
  {
    OutsShown(log, s);
    k := ResponseReceived(s.outs, s.resume, cut);
    var parser := W.Feed(W.Connect(client.lastId), W.WriteAll(ToWireAll(s.outs))[..cut]);
    if s.resume == 0 {
      LearnFirst(log, client, s, k, parser.events);
    } else {
      LearnMore(log, client, s, k, parser.events);
    }
  }

  /** The client passes no deliverable message that retention took before the consumer could start at it. */
  predicate Lossless(log: Log, client: Client, cn: Connection)
    requires Possible(log, client, cn)
  {
    var s := Server(log, client, cn);
    NothingSkipped(log, s, ResumeId(Receive(client, s, cn.cut).lastId))
  }

  /** One more connection keeps the client complete if and only if it is lossless. */
  lemma ExactlyLossless(log: Log, client: Client, cn: Connection)
    requires WellNamed(log) && Complete(log, client) && Possible(log, client, cn)
    ensures Complete(log, Receive(client, Server(log, client, cn), cn.cut)) <==> Lossless(log, client, cn)
  {
    var s := Server(log, client, cn);
    P.RunInv(log, ResumeId(client.lastId), cn.first, cn.avail, cn.run);
    var k := Received(log, client, s, cn.cut);
    IdInLog(log, s, k);
    HeaderParses(LastId(s.outs[..k], s.resume));
  }

  lemma IdInLog(log: Log, s: S.Conn, k: nat)
    requires P.Inv(log, s) && k <= |s.outs|
    ensures LastId(s.outs[..k], s.resume) == s.resume || LastId(s.outs[..k], s.resume) <= |log|
  {
    if s.consumer.None? {
      P.SilentIds(s.outs[..k], s.resume);
    } else {
      assert P.PrefixSound(log, s.resume, s.consumer.value.start, s.outs, k);
    }
  }

  /** A second retention query that returned an offset is enough. */
  lemma CheckedIsLossless(log: Log, client: Client, cn: Connection)
    requires WellNamed(log) && Complete(log, client) && Possible(log, client, cn)
    requires !Server(log, client, cn).unchecked
    ensures Lossless(log, client, cn)
  {
    var s := Server(log, client, cn);
    P.RunInv(log, ResumeId(client.lastId), cn.first, cn.avail, cn.run);
    var k := Received(log, client, s, cn.cut);
    if P.IsSilent(s.outs) {
      P.SilentIds(s.outs[..k], s.resume);
    }
  }

  /** Every connection is lossless. */
  predicate AllLossless(log: Log, cns: seq<Connection>)
    requires Legal(log, cns)
  {
    cns == [] ||
    (AllLossless(log, cns[..|cns| - 1]) && Lossless(log, After(log, cns[..|cns| - 1]), cns[|cns| - 1]))
  }

  /**
   Exactly-once delivery over any number of connections, each cut at any byte and resumed with the
   last event ID that the client received: the data events that the client has shown are exactly the
   deliverable messages, once each and in order, from the start of the first connection that
   gave it an ID up to the ID it would resume from. There is no gap and no duplicate. ExactlyLossless
   says that the condition is exact for each connection.
   */
  lemma {:induction false} ExactlyOnce(log: Log, cns: seq<Connection>)
    requires WellNamed(log) && Legal(log, cns) && AllLossless(log, cns)
    ensures Complete(log, After(log, cns))
  {
    if cns == [] {
      assert ResumeId("") == 0;
    } else {
      ExactlyOnce(log, cns[..|cns| - 1]);
      ExactlyLossless(log, After(log, cns[..|cns| - 1]), cns[|cns| - 1]);
    }
  }

  /** The client was complete all the time. */
  predicate AlwaysComplete(log: Log, cns: seq<Connection>) {
    Complete(log, After(log, cns)) && (cns == [] || AlwaysComplete(log, cns[..|cns| - 1]))
  }

  /** The condition is exact for a whole session too. */
  lemma {:induction false} AlwaysExactly(log: Log, cns: seq<Connection>)
    requires WellNamed(log) && Legal(log, cns)
    ensures AlwaysComplete(log, cns) <==> AllLossless(log, cns)
  {
    if cns == [] {
      ExactlyOnce(log, cns);
    } else {
      var before := cns[..|cns| - 1];
      AlwaysExactly(log, before);
      if AlwaysComplete(log, before) {
        ExactlyLossless(log, After(log, before), cns[|cns| - 1]);
      }
    }
  }

  /** Every second retention query that was made returned an offset. */
  predicate AllChecked(log: Log, cns: seq<Connection>) {
    cns == [] ||
    (AllChecked(log, cns[..|cns| - 1]) && !Server(log, After(log, cns[..|cns| - 1]), cns[|cns| - 1]).unchecked)
  }

  lemma {:induction false} CheckedExactlyOnce(log: Log, cns: seq<Connection>)
    requires WellNamed(log) && Legal(log, cns) && AllChecked(log, cns)
    ensures AllLossless(log, cns) && Complete(log, After(log, cns))
  {
    if cns != [] {
      CheckedExactlyOnce(log, cns[..|cns| - 1]);
      CheckedIsLossless(log, After(log, cns[..|cns| - 1]), cns[|cns| - 1]);
    }
    ExactlyOnce(log, cns);
  }
}
