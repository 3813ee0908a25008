/** Exactly which events survive the wire format: those without line breaks in their name and data. */
module Framing {
  import opened Wire

  // ----- The client never shows a line break that the server wrote -----

  /** No line break in names, no carriage return in data. */
  predicate Untorn(p: Parser) {
    && OneLine(p.line) && OneLine(p.name) && '\r' !in p.data
    && forall e :: e in p.events ==> OneLine(e.name) && '\r' !in e.data
  }

  lemma FieldUntorn(p: Parser, name: string, value: string)
    requires Untorn(p) && OneLine(value)
    ensures Untorn(Field(p, name, value))
  {
    assert '\r' !in "\n";
  }

  lemma EndLineUntorn(p: Parser)
    requires Untorn(p)
    ensures Untorn(EndLine(p))
  {
    var q := p.(line := "", afterCR := false);
    if p.line != "" {
      var colon := Find(p.line, ':');
      if colon == |p.line| {
        FieldUntorn(q, p.line, "");
      } else if colon > 0 {
        assert forall c :: c in StripSpace(p.line[colon + 1..]) ==> c in p.line;
        FieldUntorn(q, p.line[..colon], StripSpace(p.line[colon + 1..]));
      }
    }
  }

  lemma {:induction false} FeedUntorn(p: Parser, s: string)
    requires Untorn(p)
    ensures Untorn(Feed(p, s))
    decreases |s|
  {
    if s != "" {
      if s[0] == '\n' || s[0] == '\r' {
        EndLineUntorn(p);
      }
      FeedUntorn(Step(p, s[0]), s[1..]);
    }
  }

  // ----- The client never shows more data than there is between two blank lines -----

  /** At most n characters are on their way to become data, and less than n are in every event. */
  predicate Short(p: Parser, n: nat) {
    |p.data| + |p.line| <= n && forall e :: e in p.events ==> |e.data| < n
  }

  lemma EndLineShort(p: Parser, n: nat)
    requires Short(p, n)
    ensures Short(EndLine(p), n)
  {
  }

  lemma {:induction false} FeedShort(p: Parser, s: string, n: nat)
    requires Short(p, n)
    ensures Short(Feed(p, s), n + |s|)
    decreases |s|
  {
    if s != "" {
      if s[0] == '\n' || s[0] == '\r' {
        EndLineShort(p, n);
      }
      assert Short(Step(p, s[0]), n + 1);
      FeedShort(Step(p, s[0]), s[1..], n + 1);
    }
  }

  lemma FeedTwo(p: Parser)
    ensures Feed(p, "\n\n") == Step(Step(p, '\n'), '\n')
  {
    var q := Step(p, '\n');
    assert "\n\n"[1..] == "\n" && "\n"[1..] == "";
    assert Feed(p, "\n\n") == Feed(q, "\n") && Feed(q, "\n") == Feed(Step(q, '\n'), "");
  }

  lemma FeedBlankLine(p: Parser, n: nat)
    requires Short(p, n)
    ensures Short(Feed(p, "\n\n"), n)
  {
    FeedTwo(p);
    EndLineShort(p, n);
    EndLineShort(Step(p, '\n'), n);
  }

  // ----- What it shows instead -----

  /** Complete lines of data, the first of which is `head`. */
  predicate Begins(head: string, data: string) {
    |head| < |data| && data[..|head|] == head && data[|head|] == '\n' && data[|data| - 1] == '\n'
  }

  /** `head` is the first line of the first event's data, or of the data that will become it. */
  predicate Leads(p: Parser, head: string) {
    && (p.afterCR ==> p.line == "")
    && (p.data == "" || p.data[|p.data| - 1] == '\n')
    && if p.events == [] then Begins(head, p.data) else Begins(head, p.events[0].data + "\n")
  }

  lemma DispatchLeads(p: Parser, head: string)
    requires Leads(p, head)
    ensures Leads(Dispatch(p), head) && Dispatch(p).events != []
  {
    if p.events == [] {
      assert p.data[..|p.data| - 1] + "\n" == p.data;
    } else {
      assert Dispatch(p).events[0] == p.events[0];
    }
  }

  lemma FieldLeads(p: Parser, name: string, value: string, head: string)
    requires Leads(p, head)
    ensures Leads(Field(p, name, value), head) && Field(p, name, value).events == p.events
  {
    var data := p.data + value + "\n";
    assert data[|data| - 1] == '\n';
    if p.events == [] {
      assert data[..|head|] == p.data[..|head|] && data[|head|] == p.data[|head|];
    }
  }

  lemma EndLineLeads(p: Parser, head: string)
    requires Leads(p, head)
    ensures Leads(EndLine(p), head)
    ensures if p.line == "" then EndLine(p).events != [] else EndLine(p).events == p.events
    ensures EndLine(p).line == "" && !EndLine(p).afterCR
  {
    var q := p.(line := "", afterCR := false);
    if p.line == "" {
      DispatchLeads(q, head);
    } else {
      var colon := Find(p.line, ':');
      if colon == |p.line| {
        FieldLeads(q, p.line, "", head);
      } else if colon > 0 {
        FieldLeads(q, p.line[..colon], StripSpace(p.line[colon + 1..]), head);
      }
    }
  }

  lemma {:induction false} FeedLeads(p: Parser, s: string, head: string)
    requires Leads(p, head)
    ensures Leads(Feed(p, s), head)
    decreases |s|
  {
    if s != "" {
      if s[0] == '\n' || s[0] == '\r' {
        EndLineLeads(p, head);
      }
      FeedLeads(Step(p, s[0]), s[1..], head);
    }
  }

  lemma BlankLineLeads(p: Parser, head: string)
    requires Leads(p, head)
    ensures Leads(Feed(p, "\n\n"), head) && Feed(p, "\n\n").events != []
  {
    FeedTwo(p);
    if !p.afterCR {
      EndLineLeads(p, head);
    }
    EndLineLeads(Step(p, '\n'), head);
  }

  /**
   Data with a line feed is cut there: the first line of what the client shows is what comes before the
   line feed, and no data that it shows is as long as the whole.
   */
  lemma BrokenData(p: Parser, head: string, tail: string)
    requires p.line == "" && !p.afterCR && p.data == "" && p.events == [] && OneLine(head)
    ensures var shown := Feed(p, Named("data", head + "\n" + tail) + "\n\n").events;
            && shown != [] && Begins(head, shown[0].data + "\n")
            && forall e :: e in shown ==> |e.data| < |head + "\n" + tail|
  {
    var first := Named("data", head) + "\n";
    assert Named("data", head + "\n" + tail) + "\n\n" == first + (tail + "\n\n");
    FeedConcat(p, first, tail + "\n\n");
    FeedField(p, "data", head);
    assert "" + head == head;
    var q := p.(data := head + "\n");
    FeedConcat(q, tail, "\n\n");
    FeedShort(q, tail, |head| + 1);
    FeedBlankLine(Feed(q, tail), |head| + 1 + |tail|);
    FeedLeads(q, tail, head);
    BlankLineLeads(Feed(q, tail), head);
  }

  lemma LostWithLineFeed(e: Event, lastId: string)
    requires OneLine(e.name) && '\r' !in e.data && '\n' in e.data
    ensures forall x :: x in Feed(Connect(lastId), Write(e)).events ==> x.data != e.data
  {
    var p := Connect(lastId);
    Parts(e);
    FeedConcat(p, IdBlock(e), NameBlock(e) + (DataBlock(e) + "\n"));
    FeedIdBlock(p, e);
    FeedConcat(AfterId(p, e), NameBlock(e), DataBlock(e) + "\n");
    FeedNameBlock(AfterId(p, e), e);
    var i := Find(e.data, '\n');
    assert e.data[..|e.data|] == e.data;
    var head, tail := e.data[..i], e.data[i + 1..];
    assert e.data == head + "\n" + tail;
    assert DataBlock(e) + "\n" == Named("data", e.data) + "\n\n";
    BrokenData(AfterName(AfterId(p, e), e), head, tail);
  }

  /**
   An event reaches the client unchanged if and only if neither its name nor its data contains a line
   break. Write does not check this.
   */
  lemma FramingExact(e: Event, lastId: string)
    ensures Feed(Connect(lastId), Write(e)).events == Shown([e], lastId) <==> Framable(e)
  {
    var shown := ClientEvent(ShownName(e), e.data, Id(e, lastId));
    assert [e] + [] == [e];
    ReceiveCons(e, [], lastId);
    assert Shown([e], lastId) == [shown];
    if Framable(e) {
      FeedWrite(Connect(lastId), e);
    } else if Feed(Connect(lastId), Write(e)).events == [shown] {
      FeedUntorn(Connect(lastId), Write(e));
      assert shown in Feed(Connect(lastId), Write(e)).events;
      LostWithLineFeed(e, lastId);
      assert false;
    }
  }
}
