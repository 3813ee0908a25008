/** Decimal integers as Go prints them with %d and reads them with strconv.ParseInt. */
module Decimal {
  import opened Options

  const INT64_LIMIT: nat := 0x8000_0000_0000_0000

  predicate IsDigit(c: char) { '0' <= c <= '9' }

  predicate AllDigits(s: string) { forall i :: 0 <= i < |s| ==> IsDigit(s[i]) }

  function DigitValue(c: char): nat
    requires IsDigit(c)
  {
    c as int - '0' as int
  }

  function Print(n: nat): (s: string)
    ensures s != "" && AllDigits(s)
  {
    var last := ('0' as int + n % 10) as char;
    if n < 10 then [last] else Print(n / 10) + [last]
  }

  function Value(s: string): nat
    requires AllDigits(s)
  {
    if s == "" then 0 else 10 * Value(s[..|s| - 1]) + DigitValue(s[|s| - 1])
  }

  /** strconv.ParseInt(s, 10, 64), with None for a syntax or range error. */
  function ParseInt(s: string): Option<int> {
    var negative := s != "" && s[0] == '-';
    var digits := if s != "" && (s[0] == '-' || s[0] == '+') then s[1..] else s;
    if digits == "" || !AllDigits(digits) then None
    else
      var magnitude: int := Value(digits);
      if negative then
        if magnitude <= INT64_LIMIT then Some(-magnitude) else None
      else
        if magnitude < INT64_LIMIT then Some(magnitude) else None
  }

  lemma {:induction false} ValueOfPrint(n: nat)
    ensures Value(Print(n)) == n
  {
    if n >= 10 {
      var s := Print(n);
      assert s[..|s| - 1] == Print(n / 10);
      ValueOfPrint(n / 10);
    } else {
      assert Print(n)[..0] == "";
    }
  }

  /** The resume ID that GetEvents takes from the Last-Event-ID header; "" is a missing header. */
  function ResumeId(header: string): nat {
    match ParseInt(header)
    case Some(id) => if id < 0 then 0 else id
    case None => 0
  }

  /** Printing an ID and reading it back from the header is the identity exactly on the int64 range. */
  lemma HeaderRoundTrip(id: nat)
    ensures ResumeId(Print(id)) == id <==> id < INT64_LIMIT
  {
    ValueOfPrint(id);
    assert IsDigit(Print(id)[0]);
  }

  /** The decimal digits, most significant first. */
  lemma PrintedDigits(n: nat)
    ensures |Print(n)| == 1 <==> n < 10
    ensures forall s: string :: s != "" && AllDigits(s) && s[0] != '0' && Value(s) == n ==> s == Print(n)
    ensures Print(305) == "305"
  {
    forall s: string | s != "" && AllDigits(s) && s[0] != '0' && Value(s) == n ensures s == Print(n) {
      PrintOfValue(s);
    }
  }

  lemma PrintSnoc(m: nat, c: char)
    requires IsDigit(c) && m > 0
    ensures Print(10 * m + DigitValue(c)) == Print(m) + [c]
  {
    var n := 10 * m + DigitValue(c);
    assert n / 10 == m && n % 10 == DigitValue(c);
  }

  lemma {:induction false} PrintOfValue(s: string)
    requires s != "" && AllDigits(s) && s[0] != '0'
    ensures Value(s) > 0 && Print(Value(s)) == s
  {
    var front, last := s[..|s| - 1], s[|s| - 1];
    if front == "" {
      assert Value(s) == DigitValue(s[0]);
    } else {
      assert front[0] == s[0];
      PrintOfValue(front);
      PrintSnoc(Value(front), last);
      assert s == front + [last];
    }
  }

  /** A header that names no ID that may be resumed from means starting from the beginning. */
  lemma HeadersRefused(header: string, n: nat, i: nat)
    ensures ResumeId("") == 0 && ResumeId("-" + Print(n)) == 0
    ensures ResumeId("+" + Print(n)) == ResumeId(Print(n))
    ensures n >= INT64_LIMIT ==> ResumeId(Print(n)) == 0
    ensures 0 < i < |header| && !('0' <= header[i] <= '9') ==> ResumeId(header) == 0
  {
    ValueOfPrint(n);
    assert ("-" + Print(n))[1..] == Print(n) && ("+" + Print(n))[1..] == Print(n);
    assert IsDigit(Print(n)[0]);
    if 0 < i < |header| && !('0' <= header[i] <= '9') {
      assert header[1..][i - 1] == header[i];
      assert !AllDigits(header[1..]) && !AllDigits(header);
    }
  }
}

/**
 The wire format of server-sent events: what Event.Write produces, and the client parser of
 section 9.2.6 of the WHATWG HTML Living Standard that undoes it.

 Strings here are byte strings. Only ASCII bytes drive the framing, and none of them occurs inside
 a multi-byte UTF-8 sequence, so a cut may fall inside a character without touching the framing.
 */
module Wire {
  import opened Decimal
  import opened Sequences

  datatype Event = Event(id: nat, name: string, data: string)

  function Write(e: Event): string {
    var idField := if e.id != 0 then "id: " + Print(e.id) + "\n" else "";
    var eventField := if |e.name| > 0 then "event: " + e.name + "\n" else "";
    idField + eventField + "data: " + e.data + "\n\n"
  }

  function WriteAll(es: seq<Event>): string {
    if es == [] then "" else Write(es[0]) + WriteAll(es[1..])
  }

  // ----- The client -----

  datatype ClientEvent = ClientEvent(name: string, data: string, lastId: string)

  /** `id`, `name` and `data` are the standard's three buffers; `lastId` is the source's last event ID. */
  datatype Parser = Parser(
    line: string, afterCR: bool,
    id: string, name: string, data: string,
    lastId: string, events: seq<ClientEvent>)

  /**
   A parser for a new response of a client whose last event ID is `lastId`. Here the client departs from
   section 9.2.6: its ID buffer starts with that ID. EmptyBufferForgets says what that is for.
   */
  function Connect(lastId: string): Parser { Start(lastId, lastId) }

  /** A parser whose ID buffer starts with `id`; by the letter of the standard, `id` is empty. */
  function Start(id: string, lastId: string): Parser { Parser("", false, id, "", "", lastId, []) }

  function Step(p: Parser, c: char): Parser {
    if c == '\n' then
      if p.afterCR then p.(afterCR := false) else EndLine(p)
    else if c == '\r' then
      EndLine(p).(afterCR := true)
    else
      p.(line := p.line + [c], afterCR := false)
  }

  function Feed(p: Parser, s: string): Parser
    decreases |s|
  {
    if s == "" then p else Feed(Step(p, s[0]), s[1..])
  }

  function EndLine(p: Parser): Parser {
    var q := p.(line := "", afterCR := false);
    if p.line == "" then Dispatch(q)
    else
      var colon := Find(p.line, ':');
      if colon == 0 then q
      else if colon == |p.line| then Field(q, p.line, "")
      else Field(q, p.line[..colon], StripSpace(p.line[colon + 1..]))
  }

  function Field(p: Parser, name: string, value: string): Parser {
    if name == "event" then p.(name := value)
    else if name == "data" then p.(data := p.data + value + "\n")
    else if name == "id" && '\0' !in value then p.(id := value)
    else p
  }

  function Dispatch(p: Parser): Parser {
    var q := p.(lastId := p.id, name := "", data := "");
    if p.data == "" then q
    else
      var event := ClientEvent(if p.name == "" then "message" else p.name, p.data[..|p.data| - 1], p.id);
      q.(events := p.events + [event])
  }

  /** The first index of c in s, or |s|. */
  function Find(s: string, c: char): (i: nat)
    ensures i <= |s| && c !in s[..i] && (i < |s| ==> s[i] == c)
  {
    if s == "" || s[0] == c then 0
    else
      var rest := Find(s[1..], c);
      assert s[..rest + 1] == [s[0]] + s[1..][..rest];
      rest + 1
  }

  function StripSpace(s: string): string {
    if s != "" && s[0] == ' ' then s[1..] else s
  }

  // ----- What a client should see -----

  predicate OneLine(s: string) { '\n' !in s && '\r' !in s }

  predicate Framable(e: Event) { OneLine(e.name) && OneLine(e.data) }

  /** The last event ID once `es` were received by a client that had `lastId`. */
  function IdAfter(es: seq<Event>, lastId: string): string {
    if es == [] then lastId
    else
      var last := es[|es| - 1];
      if last.id != 0 then Print(last.id) else IdAfter(es[..|es| - 1], lastId)
  }

  function ShownName(e: Event): string { if e.name == "" then "message" else e.name }

  /** The events `es` as a client that had `lastId` shows them. */
  function Shown(es: seq<Event>, lastId: string): (r: seq<ClientEvent>)
    ensures |r| == |es|
  {
    if es == [] then []
    else
      Shown(es[..|es| - 1], lastId) +
      [ClientEvent(ShownName(es[|es| - 1]), es[|es| - 1].data, IdAfter(es, lastId))]
  }

  /** How many of the events have been written completely within the first `cut` bytes. */
  function Whole(es: seq<Event>, cut: nat): (k: nat)
    ensures k <= |es|
  {
    if es == [] || cut < |Write(es[0])| then 0
    else 1 + Whole(es[1..], cut - |Write(es[0])|)
  }

  // ----- Proofs -----

  /** The bytes of a message: a line for an ID other than 0, one for a name if there is one, and the data last. */
  lemma WrittenBytes(e: Event)
    ensures e.id != 0 ==> Write(e) == ("id: " + Print(e.id) + "\n") + Write(e.(id := 0))
    ensures e.id == 0 && e.name != "" ==> Write(e) == ("event: " + e.name + "\n") + Write(e.(name := ""))
    ensures e.id == 0 && e.name == "" ==> Write(e) == "data: " + e.data + "\n\n"
  {
    Parts(e);
    if e.id != 0 {
      Parts(e.(id := 0));
      assert "id" + ": " == "id: ";
    } else if e.name != "" {
      Parts(e.(name := ""));
      assert "event" + ": " == "event: ";
    } else {
      assert Write(e) == "" + "" + "data: " + e.data + "\n\n";
    }
  }

  /** A carriage return, a line feed, and the two together end a line alike. */
  lemma LineBreaks(p: Parser)
    requires !p.afterCR
    ensures Feed(p, "\n") == EndLine(p) && Feed(p, "\r\n") == EndLine(p)
    ensures Feed(p, "\r") == EndLine(p).(afterCR := true)
  {
    var q := Step(p, '\r');
    assert "\r\n"[1..] == "\n" && "\n"[1..] == "" && "\r"[1..] == "";
    assert Feed(q, "\n") == Feed(Step(q, '\n'), "");
  }

  /** Comments and fields that the standard does not name change nothing, and an ID has no NUL. */
  lemma LinesIgnored(p: Parser, name: string, value: string)
    requires name == "" || (name[0] != ':' && ':' !in name)
    requires name !in {"event", "data"} && (name == "id" ==> '\0' in value)
    ensures EndLine(p.(line := name + ": " + value)) == p.(line := "", afterCR := false)
  {
    if name != "" {
      FieldLine(p.(line := name + ": " + value), name, value);
    }
  }

  /** Between two events of a well-framed stream. */
  predicate Clean(p: Parser) {
    p.line == "" && !p.afterCR && p.name == "" && p.data == ""
  }

  lemma {:induction false} FeedConcat(p: Parser, s: string, t: string)
    ensures Feed(p, s + t) == Feed(Feed(p, s), t)
    decreases |s|
  {
    if s == "" {
      assert s + t == t;
    } else {
      assert (s + t)[1..] == s[1..] + t;
      FeedConcat(Step(p, s[0]), s[1..], t);
    }
  }

  lemma {:induction false} FeedText(p: Parser, s: string)
    requires !p.afterCR && OneLine(s)
    ensures Feed(p, s) == p.(line := p.line + s)
    decreases |s|
  {
    if s == "" {
      assert p.line + s == p.line;
    } else {
      assert s[0] in s && OneLine(s[1..]);
      FeedText(Step(p, s[0]), s[1..]);
      assert p.line + [s[0]] + s[1..] == p.line + s;
    }
  }

  lemma FeedLine(p: Parser, s: string)
    requires !p.afterCR && p.line == "" && OneLine(s)
    ensures Feed(p, s + "\n") == EndLine(p.(line := s))
  {
    FeedConcat(p, s, "\n");
    FeedText(p, s);
    assert p.line + s == s;
    var q := p.(line := s);
    assert Feed(q, "\n") == Feed(Step(q, '\n'), "");
  }

  /** A strict prefix of a line and its terminator leaves everything but the line buffer alone. */
  lemma FeedPartOfLine(p: Parser, s: string, n: nat)
    requires !p.afterCR && p.line == "" && OneLine(s) && n <= |s|
    ensures Feed(p, (s + "\n")[..n]) == p.(line := s[..n])
  {
    assert (s + "\n")[..n] == s[..n];
    FeedText(p, s[..n]);
    assert p.line + s[..n] == s[..n];
  }

  /** A "name: value" line is the field `name` with value `value`, whatever the value contains. */
  lemma FieldLine(p: Parser, name: string, value: string)
    requires name != "" && ':' !in name && p.line == name + ": " + value
    ensures EndLine(p) == Field(p.(line := "", afterCR := false), name, value)
  {
    var colon := Find(p.line, ':');
    assert p.line[|name|] == ':';
    assert colon <= |name| by {
      assert forall i :: 0 <= i < colon ==> p.line[..colon][i] == p.line[i];
    }
    assert colon >= |name| by {
      assert forall i :: 0 <= i < |name| ==> p.line[i] == name[i];
    }
    assert p.line[..colon] == name;
    assert p.line[colon + 1..] == " " + value;
    assert (" " + value)[1..] == value;
  }

  function Named(name: string, value: string): string { name + ": " + value }

  /** The optional id line, as a block of the message: the empty string, or one line. */
  lemma Parts(e: Event)
    ensures Write(e) ==
            (if e.id != 0 then Named("id", Print(e.id)) + "\n" else "")
            + ((if e.name != "" then Named("event", e.name) + "\n" else "")
               + ((Named("data", e.data) + "\n") + "\n"))
  {
    assert "data: " + e.data + "\n\n" == (Named("data", e.data) + "\n") + "\n";
  }

  /** One block: the field takes effect once its line is complete, and nothing is dispatched. */
  lemma FeedField(p: Parser, name: string, value: string)
    requires !p.afterCR && p.line == "" && OneLine(value) && OneLine(name) && name != "" && ':' !in name
    ensures Feed(p, Named(name, value) + "\n") == Field(p, name, value)
  {
    FeedLine(p, Named(name, value));
    FieldLine(p.(line := Named(name, value)), name, value);
  }

  lemma DigitsAreOneLine(n: nat)
    ensures OneLine(Print(n)) && '\0' !in Print(n)
  {
  }

  function IdBlock(e: Event): string { if e.id != 0 then Named("id", Print(e.id)) + "\n" else "" }
  function NameBlock(e: Event): string { if e.name != "" then Named("event", e.name) + "\n" else "" }
  function DataBlock(e: Event): string { Named("data", e.data) + "\n" }

  function AfterId(p: Parser, e: Event): Parser { if e.id != 0 then p.(id := Print(e.id)) else p }
  function AfterName(p: Parser, e: Event): Parser { if e.name != "" then p.(name := e.name) else p }

  lemma FeedIdBlock(p: Parser, e: Event)
    requires p.line == "" && !p.afterCR
    ensures Feed(p, IdBlock(e)) == AfterId(p, e)
  {
    if e.id != 0 {
      DigitsAreOneLine(e.id);
      FeedField(p, "id", Print(e.id));
    }
  }

  lemma FeedNameBlock(p: Parser, e: Event)
    requires p.line == "" && !p.afterCR && OneLine(e.name)
    ensures Feed(p, NameBlock(e)) == AfterName(p, e)
  {
    if e.name != "" {
      FeedField(p, "event", e.name);
    }
  }

  lemma FeedDataBlock(p: Parser, e: Event)
    requires p.line == "" && !p.afterCR && p.data == "" && OneLine(e.data)
    ensures Feed(p, DataBlock(e)) == p.(data := e.data + "\n")
  {
    FeedField(p, "data", e.data);
    assert "" + e.data == e.data;
  }

  function Id(e: Event, lastId: string): string { if e.id != 0 then Print(e.id) else lastId }

  function After(p: Parser, e: Event): Parser {
    var id := Id(e, p.id);
    p.(id := id, lastId := id, events := p.events + [ClientEvent(ShownName(e), e.data, id)])
  }

  /** A complete message is shown exactly once, with its ID as the new last event ID. */
  lemma FeedWrite(p: Parser, e: Event)
    requires Clean(p) && Framable(e)
    ensures Feed(p, Write(e)) == After(p, e)
  {
    Parts(e);
    var p1, p2 := AfterId(p, e), AfterName(AfterId(p, e), e);
    FeedIdBlock(p, e);
    FeedConcat(p, IdBlock(e), NameBlock(e) + (DataBlock(e) + "\n"));
    FeedNameBlock(p1, e);
    FeedConcat(p1, NameBlock(e), DataBlock(e) + "\n");
    FeedDataBlock(p2, e);
    FeedConcat(p2, DataBlock(e), "\n");
    var p3 := p2.(data := e.data + "\n");
    assert Feed(p3, "\n") == Feed(Step(p3, '\n'), "");
    assert (e.data + "\n")[..|e.data|] == e.data;
  }

  predicate Quiet(p: Parser, q: Parser) { q.events == p.events && q.lastId == p.lastId }

  lemma EndLineQuiet(p: Parser)
    requires p.line != ""
    ensures Quiet(p, EndLine(p))
  {
  }

  /** A block that is cut anywhere, also at its end, shows nothing. */
  lemma FeedPartOfBlock(p: Parser, s: string, n: nat)
    requires p.line == "" && !p.afterCR && OneLine(s) && s != "" && n <= |s| + 1
    ensures Quiet(p, Feed(p, (s + "\n")[..n]))
  {
    if n <= |s| {
      FeedPartOfLine(p, s, n);
    } else {
      assert (s + "\n")[..n] == s + "\n";
      FeedLine(p, s);
      EndLineQuiet(p.(line := s));
    }
  }

  /** A prefix of x + y is a prefix of x, or x followed by a prefix of y. */
  lemma PrefixOfConcat(x: string, y: string, n: nat)
    requires n <= |x + y|
    ensures n <= |x| ==> (x + y)[..n] == x[..n]
    ensures n > |x| ==> (x + y)[..n] == x + y[..n - |x|]
  {
  }

  lemma FeedPartOfData(p: Parser, e: Event, n: nat)
    requires p.line == "" && !p.afterCR && Framable(e) && n <= |DataBlock(e)|
    ensures Quiet(p, Feed(p, (DataBlock(e) + "\n")[..n]))
  {
    PrefixOfConcat(DataBlock(e), "\n", n);
    FeedPartOfBlock(p, Named("data", e.data), n);
  }

  lemma FeedPartOfName(p: Parser, e: Event, n: nat)
    requires p.line == "" && !p.afterCR && Framable(e) && n <= |NameBlock(e)| + |DataBlock(e)|
    ensures Quiet(p, Feed(p, (NameBlock(e) + (DataBlock(e) + "\n"))[..n]))
  {
    PrefixOfConcat(NameBlock(e), DataBlock(e) + "\n", n);
    if n <= |NameBlock(e)| {
      if e.name != "" {
        FeedPartOfBlock(p, Named("event", e.name), n);
      }
    } else {
      FeedConcat(p, NameBlock(e), (DataBlock(e) + "\n")[..n - |NameBlock(e)|]);
      FeedNameBlock(p, e);
      FeedPartOfData(AfterName(p, e), e, n - |NameBlock(e)|);
    }
  }

  /** An incomplete message shows nothing and does not move the last event ID. */
  lemma FeedPartOfWrite(p: Parser, e: Event, n: nat)
    requires Clean(p) && Framable(e) && n < |Write(e)|
    ensures Quiet(p, Feed(p, Write(e)[..n]))
  {
    Parts(e);
    var rest := NameBlock(e) + (DataBlock(e) + "\n");
    PrefixOfConcat(IdBlock(e), rest, n);
    if n <= |IdBlock(e)| {
      if e.id != 0 {
        DigitsAreOneLine(e.id);
        FeedPartOfBlock(p, Named("id", Print(e.id)), n);
      }
    } else {
      FeedConcat(p, IdBlock(e), rest[..n - |IdBlock(e)|]);
      FeedIdBlock(p, e);
      FeedPartOfName(AfterId(p, e), e, n - |IdBlock(e)|);
    }
  }

  lemma IdAfterSnoc(es: seq<Event>, last: Event, lastId: string)
    ensures IdAfter(es + [last], lastId) == if last.id != 0 then Print(last.id) else IdAfter(es, lastId)
  {
    assert (es + [last])[..|es|] == es;
  }

  lemma ShownSnoc(es: seq<Event>, last: Event, lastId: string)
    ensures Shown(es + [last], lastId) ==
            Shown(es, lastId) + [ClientEvent(ShownName(last), last.data, IdAfter(es + [last], lastId))]
  {
    assert (es + [last])[..|es|] == es;
  }

  lemma {:induction false} IdAfterCons(e: Event, rest: seq<Event>, lastId: string)
    ensures IdAfter([e] + rest, lastId) == IdAfter(rest, Id(e, lastId))
  {
    if rest == [] {
      assert [e] + rest == [] + [e];
      IdAfterSnoc([], e, lastId);
    } else {
      var before, last := rest[..|rest| - 1], rest[|rest| - 1];
      IdAfterCons(e, before, lastId);
      Assoc([e], before, [last]);
      assert rest == before + [last];
      IdAfterSnoc([e] + before, last, lastId);
      IdAfterSnoc(before, last, Id(e, lastId));
    }
  }

  /** Receiving `rest` after `e`, put together. */
  lemma {:induction false} ReceiveCons(e: Event, rest: seq<Event>, lastId: string)
    ensures IdAfter([e] + rest, lastId) == IdAfter(rest, Id(e, lastId))
    ensures Shown([e] + rest, lastId) ==
            [ClientEvent(ShownName(e), e.data, Id(e, lastId))] + Shown(rest, Id(e, lastId))
  {
    IdAfterCons(e, rest, lastId);
    if rest == [] {
      assert [e] + rest == [] + [e];
      ShownSnoc([], e, lastId);
    } else {
      var before, last := rest[..|rest| - 1], rest[|rest| - 1];
      ReceiveCons(e, before, lastId);
      ReceiveSnoc(e, before, last, lastId);
      assert rest == before + [last];
    }
  }

  lemma ReceiveSnoc(e: Event, before: seq<Event>, last: Event, lastId: string)
    requires Shown([e] + before, lastId) ==
             [ClientEvent(ShownName(e), e.data, Id(e, lastId))] + Shown(before, Id(e, lastId))
    ensures Shown([e] + (before + [last]), lastId) ==
            [ClientEvent(ShownName(e), e.data, Id(e, lastId))] + Shown(before + [last], Id(e, lastId))
  {
    var id := Id(e, lastId);
    IdAfterCons(e, before + [last], lastId);
    Assoc([e], before, [last]);
    ShownSnoc([e] + before, last, lastId);
    ShownSnoc(before, last, id);
    var shown := ClientEvent(ShownName(last), last.data, IdAfter(before + [last], id));
    Assoc([ClientEvent(ShownName(e), e.data, id)], Shown(before, id), [shown]);
  }

  /** `q` is a parser that has shown `seen` since it was `p`. */
  predicate Shows(p: Parser, q: Parser, seen: seq<Event>) {
    && q.events == p.events + Shown(seen, p.id)
    && q.lastId == if seen == [] then p.lastId else IdAfter(seen, p.id)
  }

  lemma ShowsCons(p: Parser, e: Event, rest: seq<Event>, q: Parser)
    requires Shows(After(p, e), q, rest)
    ensures Shows(p, q, [e] + rest)
  {
    ReceiveCons(e, rest, p.id);
  }

  lemma WholeCons(es: seq<Event>, cut: nat)
    requires es != [] && |Write(es[0])| <= cut
    ensures es[..Whole(es, cut)] == [es[0]] + es[1..][..Whole(es[1..], cut - |Write(es[0])|)]
  {
  }

  lemma {:induction false} FeedPrefix(p: Parser, es: seq<Event>, cut: nat)
    requires Clean(p) && cut <= |WriteAll(es)| && forall e :: e in es ==> Framable(e)
    ensures Shows(p, Feed(p, WriteAll(es)[..cut]), es[..Whole(es, cut)])
    decreases |es|
  {
    if es == [] {
      assert WriteAll(es)[..cut] == "";
    } else {
      var e, rest := es[0], WriteAll(es[1..]);
      PrefixOfConcat(Write(e), rest, cut);
      if cut < |Write(e)| {
        FeedPartOfWrite(p, e, cut);
        assert es[..Whole(es, cut)] == [];
      } else {
        var left := cut - |Write(e)|;
        assert WriteAll(es)[..cut] == Write(e) + rest[..left];
        FeedConcat(p, Write(e), rest[..left]);
        FeedWrite(p, e);
        FeedPrefix(After(p, e), es[1..], left);
        WholeCons(es, cut);
        ShowsCons(p, e, es[1..][..Whole(es[1..], left)], Feed(After(p, e), rest[..left]));
      }
    }
  }

  /**
   The wire round trip under truncation: whatever byte prefix of a response reaches the client, it
   shows exactly the events whose last byte is in the prefix, in order, and its last event ID is
   the last non-zero ID among them.
   */
  lemma TruncatedRoundTrip(es: seq<Event>, lastId: string, cut: nat)
    requires cut <= |WriteAll(es)| && forall e :: e in es ==> Framable(e)
    ensures var seen := es[..Whole(es, cut)];
            var client := Feed(Connect(lastId), WriteAll(es)[..cut]);
            client.events == Shown(seen, lastId) && client.lastId == IdAfter(seen, lastId)
  {
    FeedPrefix(Connect(lastId), es, cut);
  }

  /**
   A client that follows the letter of the standard, and starts each response with an empty ID buffer,
   ends with the same last event ID as one that does not if and only if no event arrived, there was no ID,
   or some event had one: a single ping without an ID makes it forget where to resume.
   */
  lemma EmptyBufferForgets(es: seq<Event>, lastId: string, cut: nat)
    requires cut <= |WriteAll(es)| && forall e :: e in es ==> Framable(e)
    ensures var seen := es[..Whole(es, cut)];
            Feed(Start("", lastId), WriteAll(es)[..cut]).lastId == Feed(Connect(lastId), WriteAll(es)[..cut]).lastId
            <==> seen == [] || lastId == "" || exists e :: e in seen && e.id != 0
  {
    var seen := es[..Whole(es, cut)];
    FeedPrefix(Start("", lastId), es, cut);
    FeedPrefix(Connect(lastId), es, cut);
    IdAfterStart(seen, "", lastId);
  }

  /** The ID before a response matters exactly if none of its events has one. */
  lemma {:induction false} IdAfterStart(es: seq<Event>, a: string, b: string)
    ensures if exists e :: e in es && e.id != 0 then IdAfter(es, a) == IdAfter(es, b)
            else IdAfter(es, a) == a && IdAfter(es, b) == b
  {
    if es != [] {
      var before, last := es[..|es| - 1], es[|es| - 1];
      assert es == before + [last];
      IdAfterStart(before, a, b);
    }
  }

  /** With nothing cut off, every event arrives. */
  lemma {:induction false} WholeOfAll(es: seq<Event>)
    ensures Whole(es, |WriteAll(es)|) == |es|
  {
    if es != [] {
      WholeOfAll(es[1..]);
    }
  }
}
