/** What the safety results do not rule out: nothing that could be delivered is withheld for ever. */
module Progress {
  import opened Options
  import opened EventLog
  import opened Resumption
  import opened Subscription
  import opened SubscriptionProofs
  import C = StreamContract

  lemma {:induction false} Concat(log: Log, s: Conn, xs: seq<Action>, ys: seq<Action>)
    requires Legal(log, s, xs) && Legal(log, After(log, s, xs), ys)
    ensures Legal(log, s, xs + ys) && After(log, s, xs + ys) == After(log, After(log, s, xs), ys)
  {
    if ys == [] {
      assert xs + ys == xs;
    } else {
      assert (xs + ys)[..|xs + ys| - 1] == xs + ys[..|ys| - 1];
      Concat(log, s, xs, ys[..|ys| - 1]);
    }
  }

  lemma Run1(log: Log, s: Conn, a: Action)
    requires Enabled(log, s, a)
    ensures Legal(log, s, [a]) && After(log, s, [a]) == Do(log, s, a)
  {
    assert [a][..0] == [];
  }

  lemma Run3(log: Log, s: Conn, a: Action, b: Action, c: Action)
    requires Enabled(log, s, a) && Enabled(log, Do(log, s, a), b)
    requires Enabled(log, Do(log, Do(log, s, a), b), c)
    ensures Legal(log, s, [a, b, c]) && After(log, s, [a, b, c]) == Do(log, Do(log, Do(log, s, a), b), c)
  {
    Run1(log, Do(log, Do(log, s, a), b), c);
    Prepend(log, Do(log, s, a), b, [c]);
    Prepend(log, s, a, [b] + [c]);
    assert [a] + ([b] + [c]) == [a, b, c];
  }

  /** The log can grow to its full length at any time. */
  lemma {:induction false} Grow(log: Log, s: Conn) returns (run: seq<Action>)
    requires s.avail <= |log|
    ensures Legal(log, s, run) && After(log, s, run) == s.(avail := |log|)
    decreases |log| - s.avail
  {
    if s.avail == |log| {
      run := [];
    } else {
      var rest := Grow(log, s.(avail := s.avail + 1));
      assert Do(log, s, Append) == s.(avail := s.avail + 1);
      Prepend(log, s, Append, rest);
      run := [Append] + rest;
    }
  }

  /** Everybody waits for message `n`, with the whole log available. */
  predicate Ready(log: Log, s: Conn, n: nat) {
    && s.sub == Selecting(false) && s.writer == Receiving(false)
    && s.consumer.Some? && s.consumer.value.phase == C.Idle && s.consumer.value.live && s.consumer.value.next == n
    && n <= |log| == s.avail
    && !s.reqDone && !s.subDone && !s.closedError && !s.closedShut && s.closes == 0
  }

  function Events(log: Log, n: nat): seq<Out>
    requires n < |log|
  {
    if IsDeliverable(log, n) then [Data(n, log[n].name, log[n].data)] else []
  }

  /** Handing message n to the subscriber. */
  lemma HandOver(log: Log, s: Conn, n: nat) returns (run: seq<Action>)
    requires Ready(log, s, n) && n < |log| && !log[n].Filtered?
    ensures Legal(log, s, run)
    ensures var c := s.consumer.value;
            After(log, s, run) == s.(sub := OnMessage(log, s, n),
                                     consumer := Some(c.(next := n + 1, handed := c.handed + [n])))
  {
    run := [Consuming(C.Offer), ParkSub, TakeMessage];
    var c := s.consumer.value;
    var s1 := s.(consumer := Some(c.(phase := C.Offering(false))));
    assert Do(log, s, Consuming(C.Offer)) == s1;
    var s2 := s1.(sub := Selecting(true));
    assert Do(log, s1, ParkSub) == s2;
    Run3(log, s, Consuming(C.Offer), ParkSub, TakeMessage);
  }

  /** Handing an event to the handler. */
  lemma HandOn(log: Log, s: Conn, out: Out) returns (run: seq<Action>)
    requires s.sub == Sending(out, false) && out.Data? && s.writer == Receiving(false) && !s.subDone
    ensures Legal(log, s, run)
    ensures After(log, s, run) == s.(sub := Selecting(false), outs := s.outs + [out], lastID := out.offset + 1)
  {
    run := [ParkSub, SendEvent, Write(true)];
    var s1 := s.(sub := Sending(out, true));
    assert Do(log, s, ParkSub) == s1;
    var s2 := s.(sub := Selecting(false), outs := s.outs + [out], lastID := out.offset + 1, writer := Writing);
    assert Do(log, s1, SendEvent) == s2;
    Run3(log, s, ParkSub, SendEvent, Write(true));
  }

  /** From s to t, the messages up to `m` were dealt with, and `outs` was sent for them. */
  predicate Dealt(log: Log, s: Conn, t: Conn, m: nat, outs: seq<Out>) {
    && Ready(log, t, m) && t.outs == s.outs + outs
    && s.consumer.Some? && t.consumer.value.start == s.consumer.value.start && t.unchecked == s.unchecked
  }

  lemma DealtJoin(log: Log, s: Conn, t: Conn, u: Conn, n: nat, first: seq<Out>, m: nat, rest: seq<Out>)
    requires Dealt(log, s, t, n, first) && Dealt(log, t, u, m, rest)
    ensures Dealt(log, s, u, m, first + rest)
  {
    assert s.outs + first + rest == s.outs + (first + rest);
  }

  /** One message is dealt with. */
  lemma OneMessage(log: Log, s: Conn, n: nat) returns (run: seq<Action>)
    requires Ready(log, s, n) && n < |log|
    ensures Legal(log, s, run) && Dealt(log, s, After(log, s, run), n + 1, Events(log, n))
  {
    if log[n].Filtered? {
      run := [Consuming(C.Skip)];
      Run1(log, s, Consuming(C.Skip));
    } else {
      run := HandOver(log, s, n);
      if IsDeliverable(log, n) {
        var t := After(log, s, run);
        var more := HandOn(log, t, t.sub.out);
        Concat(log, s, run, more);
        run := run + more;
      }
    }
  }

  /** From a quiet state, some schedule sends every event that is left. */
  lemma {:induction false} Rest(log: Log, s: Conn, n: nat) returns (run: seq<Action>)
    requires Ready(log, s, n)
    ensures Legal(log, s, run) && Dealt(log, s, After(log, s, run), |log|, Expected(log, n, |log|))
    decreases |log| - n
  {
    if n == |log| {
      run := [];
      assert s.outs + [] == s.outs;
    } else {
      var first := OneMessage(log, s, n);
      var rest := Rest(log, After(log, s, first), n + 1);
      FirstAndRest(log, s, n, first, rest);
      run := first + rest;
    }
  }

  lemma FirstAndRest(log: Log, s: Conn, n: nat, first: seq<Action>, rest: seq<Action>)
    requires n < |log| && Legal(log, s, first) && Dealt(log, s, After(log, s, first), n + 1, Events(log, n))
    requires var t := After(log, s, first);
             Legal(log, t, rest) && Dealt(log, t, After(log, t, rest), |log|, Expected(log, n + 1, |log|))
    ensures Legal(log, s, first + rest)
    ensures Dealt(log, s, After(log, s, first + rest), |log|, Expected(log, n, |log|))
  {
    var t := After(log, s, first);
    Concat(log, s, first, rest);
    DealtJoin(log, s, t, After(log, t, rest), n + 1, Events(log, n), |log|, Expected(log, n + 1, |log|));
    ExpectedCons(log, n);
  }

  lemma ExpectedCons(log: Log, n: nat)
    requires n < |log|
    ensures Expected(log, n, |log|) == Events(log, n) + Expected(log, n + 1, |log|)
  {
    ExpectedJoin(log, n, n + 1, |log|);
    assert Expected(log, n, n) == [];
    assert Expected(log, n, n + 1) == Events(log, n);
  }

  /** The state of a connection that has just entered its loop, with its consumer at `start`. */
  function Entered(s: Conn, start: nat, unchecked: bool): Conn {
    s.(sub := Selecting(false), consumer := Some(C.Attach(s.resume, start, true)), notifier := Watching,
       unchecked := unchecked)
  }

  /** A connection gets to its loop, if retention has not passed its client's ID. */
  lemma Connects(log: Log, resume: nat, first: nat) returns (run: seq<Action>)
    requires resume <= |log| && first <= |log| && (resume == 0 || (first <= resume && first < |log|))
    ensures Legal(log, Open(resume, first, |log|), run)
    ensures After(log, Open(resume, first, |log|), run)
            == Entered(Open(resume, first, |log|), StartOf(resume, first), false)
  {
    var s := Open(resume, first, |log|);
    var s1 := s.(sub := Attaching);
    assert Do(log, s, Check(Answered)) == s1;
    if resume > 0 {
      Run3(log, s, Check(Answered), Subscription.Consume(true), Recheck(Answered));
      run := [Check(Answered), Subscription.Consume(true), Recheck(Answered)];
    } else {
      Run1(log, s1, Subscription.Consume(true));
      Prepend(log, s, Check(Answered), [Subscription.Consume(true)]);
      run := [Check(Answered)] + [Subscription.Consume(true)];
    }
  }

  /** From its entry into the loop on, a connection can send all that its consumer starts with. */
  lemma SendsFrom(log: Log, s: Conn, entry: seq<Action>, start: nat, unchecked: bool) returns (run: seq<Action>)
    requires Legal(log, s, entry) && start <= |log| && s.avail <= |log|
    requires s == Open(s.resume, s.first, s.avail)
    requires var t := After(log, s, entry);
             t == Entered(s.(first := t.first, avail := t.avail), start, unchecked) && t.avail <= |log|
    ensures Legal(log, s, run)
    ensures var t := After(log, s, run);
            && t.outs == Expected(log, start, |log|) && t.unchecked == unchecked
            && t.consumer.Some? && t.consumer.value.start == start
    ensures entry <= run
  {
    var t := After(log, s, entry);
    var grow := Grow(log, t);
    Concat(log, s, entry, grow);
    var rest := Rest(log, t.(avail := |log|), start);
    Concat(log, s, entry + grow, rest);
    run := entry + grow + rest;
    assert [] + Expected(log, start, |log|) == Expected(log, start, |log|);
  }

  /** Some run of a connection sends exactly the events from where it resumes to the end of the log. */
  lemma EverythingArrives(log: Log, resume: nat, first: nat, avail: nat) returns (run: seq<Action>)
    requires resume <= |log| && first <= avail <= |log| && (resume == 0 || (first <= resume && first < |log|))
    ensures Legal(log, Open(resume, first, avail), run)
    ensures var t := After(log, Open(resume, first, avail), run);
            && t.outs == Expected(log, StartOf(resume, first), |log|) && !t.unchecked
            && t.consumer.Some? && t.consumer.value.start == StartOf(resume, first)
  {
    var s := Open(resume, first, avail);
    var grow := Grow(log, s);
    var entry := Connects(log, resume, first);
    Concat(log, s, grow, entry);
    run := SendsFrom(log, s, grow + entry, StartOf(resume, first), false);
  }
}

/** The same from the middle of a connection, wherever its goroutines are. */
module Midway {
  import opened Options
  import opened EventLog
  import opened Resumption
  import opened Subscription
  import opened SubscriptionProofs
  import opened Progress
  import C = StreamContract

  /** A connection past its attachment that nothing has begun to end. */
  predicate Running(s: Conn) {
    && Active(s) && (s.writer.Receiving? || s.writer.Writing?)
    && !s.reqDone && !s.subDone && !s.closedError && !s.closedShut && s.closes == 0
    && s.consumer.Some? && !s.consumer.value.phase.Gone?
  }

  /** From s on to t, with what was sent kept. */
  predicate Onward(s: Conn, t: Conn) {
    && Running(t) && t.resume == s.resume && s.outs <= t.outs
    && s.consumer.Some? && t.consumer.value.start == s.consumer.value.start
  }

  lemma Join(log: Log, s: Conn, xs: seq<Action>, ys: seq<Action>)
    requires Legal(log, s, xs) && Onward(s, After(log, s, xs))
    requires Legal(log, After(log, s, xs), ys) && Onward(After(log, s, xs), After(log, After(log, s, xs), ys))
    ensures Legal(log, s, xs + ys) && After(log, s, xs + ys) == After(log, After(log, s, xs), ys)
    ensures Onward(s, After(log, s, xs + ys))
  {
    Concat(log, s, xs, ys);
  }

  /** The handler finishes what it is writing. */
  lemma FinishWriting(log: Log, s: Conn) returns (run: seq<Action>)
    requires Running(s)
    ensures Legal(log, s, run) && Onward(s, After(log, s, run))
    ensures After(log, s, run).writer.Receiving? && After(log, s, run).sub == s.sub
    ensures After(log, s, run).consumer == s.consumer && (s.writer.Receiving? ==> After(log, s, run) == s)
    ensures s.writer.Writing? ==> After(log, s, run).writer == Receiving(false)
  {
    if s.writer.Writing? {
      run := [Write(true)];
      Run1(log, s, Write(true));
    } else {
      run := [];
    }
  }

  /** Nobody waits at a channel: the subscriber is about to select, and the handler about to receive. */
  predicate Unparked(s: Conn) { s.sub == Selecting(false) && s.writer == Receiving(false) }

  lemma Send(log: Log, s: Conn) returns (run: seq<Action>)
    requires Running(s) && s.sub.Sending? && s.writer.Receiving? && s.sub.parked != s.writer.parked
    ensures Legal(log, s, run) && Onward(s, After(log, s, run)) && Unparked(After(log, s, run))
    ensures After(log, s, run).consumer == s.consumer
  {
    run := [SendEvent] + [Write(true)];
    Run1(log, s, SendEvent);
    Run1(log, Do(log, s, SendEvent), Write(true));
    Concat(log, s, [SendEvent], [Write(true)]);
  }

  /** The event in hand goes out. */
  lemma PassEvent(log: Log, s: Conn) returns (run: seq<Action>)
    requires Running(s) && s.sub.Sending? && s.writer.Receiving? && !(s.sub.parked && s.writer.parked)
    ensures Legal(log, s, run) && Onward(s, After(log, s, run)) && Unparked(After(log, s, run))
    ensures After(log, s, run).consumer == s.consumer
  {
    if s.sub.parked != s.writer.parked {
      run := Send(log, s);
    } else {
      Run1(log, s, ParkSub);
      var t := After(log, s, [ParkSub]);
      assert t == s.(sub := Sending(s.sub.out, true));
      var rest := Send(log, t);
      Join(log, s, [ParkSub], rest);
      run := [ParkSub] + rest;
    }
  }

  /** A ping gets both out of their waiting. */
  lemma Quieten(log: Log, s: Conn) returns (run: seq<Action>)
    requires Running(s) && s.sub.Selecting? && s.writer.Receiving?
    ensures Legal(log, s, run) && Onward(s, After(log, s, run)) && Unparked(After(log, s, run))
    ensures After(log, s, run).consumer == s.consumer
  {
    if Unparked(s) {
      run := [];
    } else {
      Run1(log, s, Tick);
      var rest := PassEvent(log, After(log, s, [Tick]));
      Join(log, s, [Tick], rest);
      run := [Tick] + rest;
    }
  }

  /** Whatever the subscriber is at, it can come back to its select. */
  lemma ToSelect(log: Log, s: Conn) returns (run: seq<Action>)
    requires Running(s) && Control(log, s) && s.writer.Receiving?
    ensures Legal(log, s, run) && Onward(s, After(log, s, run)) && Unparked(After(log, s, run))
    ensures After(log, s, run).consumer == s.consumer
  {
    if s.sub.Sending? {
      run := PassEvent(log, s);
    } else if s.sub.Selecting? {
      run := Quieten(log, s);
    } else {
      // The second check is still to come, and may let the subscriber into its loop.
      run := [Recheck(Unanswered)];
      Run1(log, s, Recheck(Unanswered));
      var rest := Quieten(log, After(log, s, run));
      Join(log, s, run, rest);
      run := run + rest;
    }
  }

  /** The message that the consumer offers is taken. */
  lemma TakeOffered(log: Log, s: Conn) returns (run: seq<Action>)
    requires Running(s) && Unparked(s)
    ensures Legal(log, s, run) && Onward(s, After(log, s, run))
    ensures After(log, s, run).consumer.value.phase == C.Idle && After(log, s, run).writer == Receiving(false)
    ensures After(log, s, run).sub == Selecting(false)
            || (After(log, s, run).sub.Sending? && !After(log, s, run).sub.parked)
  {
    if s.consumer.value.phase.Idle? {
      run := [];
    } else if s.consumer.value.phase.parked {
      run := [TakeMessage];
      Run1(log, s, TakeMessage);
    } else {
      Run1(log, s, ParkSub);
      var t := s.(sub := Selecting(true));
      assert After(log, s, [ParkSub]) == t;
      Run1(log, t, TakeMessage);
      Join(log, s, [ParkSub], [TakeMessage]);
      run := [ParkSub] + [TakeMessage];
    }
  }

  /** From anywhere, all can come to rest. */
  lemma Settles(log: Log, s: Conn) returns (run: seq<Action>)
    requires Running(s) && Inv(log, s)
    ensures Legal(log, s, run) && Onward(s, After(log, s, run)) && Unparked(After(log, s, run))
    ensures After(log, s, run).consumer.value.phase == C.Idle
  {
    var writing := FinishWriting(log, s);
    Continue(log, s, writing);
    var s1 := After(log, s, writing);
    var select := ToSelect(log, s1);
    Join(log, s, writing, select);
    var s2 := After(log, s1, select);
    var take := TakeOffered(log, s2);
    Join(log, s, writing + select, take);
    run := writing + select + take;
    var s3 := After(log, s2, take);
    if s3.sub.Sending? {
      var last := PassEvent(log, s3);
      Join(log, s, run, last);
      run := run + last;
    }
  }

  /** A subscriber that has dealt with the whole log has sent all of it. */
  lemma AllSent(log: Log, s: Conn)
    requires Inv(log, s) && Ready(log, s, |log|)
    ensures DataOf(s.outs) == Expected(log, s.consumer.value.start, |log|)
  {
    var start := s.consumer.value.start;
    WholePrefix(log, s.resume, start, s.outs);
    ExpectedQuiet(log, start, SentId(s), |log|);
  }

  /**
   From every reachable state of a connection past its attachment that nothing has begun to end, wherever
   its goroutines wait, some continuation sends every event that is left: then the data events of
   the connection are exactly those of the deliverable messages from its start to the end of the log.
   */
  lemma NothingWithheld(log: Log, s: Conn) returns (run: seq<Action>)
    requires Reachable(log, s) && Running(s) && s.resume <= |log|
    ensures Legal(log, s, run)
    ensures var t := After(log, s, run);
            && s.outs <= t.outs && t.consumer.Some?
            && t.consumer.value.start == s.consumer.value.start
            && DataOf(t.outs) == Expected(log, s.consumer.value.start, |log|)
  {
    ReachableInv(log, s);
    var settle := Settles(log, s);
    Continue(log, s, settle);
    var t := After(log, s, settle);
    var grow := Grow(log, t);
    Concat(log, s, settle, grow);
    var u := t.(avail := |log|);
    var rest := Rest(log, u, u.consumer.value.next);
    Concat(log, s, settle + grow, rest);
    run := settle + grow + rest;
    Continue(log, s, run);
    AllSent(log, After(log, s, run));
  }
}

/** The same for a client with any past. */
module CatchingUp {
  import opened Options
  import opened EventLog
  import opened Decimal
  import opened Session
  import R = Resumption
  import W = Wire
  import S = Subscription
  import P = SubscriptionProofs
  import Progress

  lemma {:induction false} DataOfExpected(log: Log, lo: nat, hi: nat)
    ensures DataOf(Expected(log, lo, hi)) == Expected(log, lo, hi)
  {
    if lo < hi {
      DataOfExpected(log, lo, hi - 1);
      var before, all := Expected(log, lo, hi - 1), Expected(log, lo, hi);
      if IsDeliverable(log, hi - 1) {
        assert all[..|all| - 1] == before;
      } else {
        assert all == before;
      }
    }
  }

  /** The events of a connection that sends all that is left from `start`, received in full. */
  lemma ReceivesRest(log: Log, client: Client, s: S.Conn, start: nat) returns (k: nat)
    requires WellNamed(log) && P.Inv(log, s) && s.resume == ResumeId(client.lastId) < INT64_LIMIT
    requires client.lastId == Header(s.resume) && s.outs == Expected(log, start, |log|)
    ensures k == |s.outs|
    ensures var after := Receive(client, s, |W.WriteAll(ToWireAll(s.outs))|);
            && DataEvents(after.events) == DataEvents(client.events) + ShowAll(Expected(log, start, |log|))
            && after.lastId == Header(LastId(s.outs, s.resume))
  {
    var id, bytes := s.resume, W.WriteAll(ToWireAll(s.outs));
    OutsShown(log, s);
    W.WholeOfAll(ToWireAll(s.outs));
    k := ResponseReceived(s.outs, id, |bytes|);
    assert s.outs[..k] == s.outs;
    DataOfExpected(log, start, |log|);
    var parser := W.Feed(W.Connect(client.lastId), bytes[..|bytes|]);
    DataEventsConcat(client.events, parser.events);
  }

  /** Where the client's events begin, or would with retention at `first`. */
  function StartOf(client: Client, first: nat): nat { if client.start.Some? then client.start.value else first }

  /** What a client is complete with and what is left for it, put together. */
  lemma Completed(log: Log, client: Client, first: nat)
    requires Complete(log, client)
    requires var id := ResumeId(client.lastId); id == 0 || first <= id
    ensures var id := ResumeId(client.lastId);
            DataEvents(client.events) + ShowAll(Expected(log, R.StartOf(id, first), |log|))
            == ShowAll(Expected(log, StartOf(client, first), |log|))
  {
    var id := ResumeId(client.lastId);
    if client.start.Some? {
      ExpectedJoin(log, client.start.value, id, |log|);
      ShowAllConcat(Expected(log, client.start.value, id), Expected(log, id, |log|));
    }
  }

  /** The next connection of a client that is complete so far. */
  lemma NextConnection(log: Log, client: Client, first: nat, avail: nat) returns (cn: Connection)
    requires WellNamed(log) && Complete(log, client) && first <= avail <= |log|
    requires var id := ResumeId(client.lastId); id == 0 || first <= id
    ensures cn.first == first && cn.avail == avail && Possible(log, client, cn)
    ensures DataEvents(Receive(client, Server(log, client, cn), cn.cut).events)
            == ShowAll(Expected(log, StartOf(client, first), |log|))
  {
    var id := ResumeId(client.lastId);
    Completed(log, client, first);
    if id > 0 && first == |log| {
      cn := Connection(first, avail, [], 0);
      assert client.events + [] == client.events;
    } else {
      var run := Progress.EverythingArrives(log, id, first, avail);
      P.RunInv(log, id, first, avail, run);
      var s := P.After(log, P.Open(id, first, avail), run);
      cn := Connection(first, avail, run, |W.WriteAll(ToWireAll(s.outs))|);
      assert Server(log, client, cn) == s;
      var _ := ReceivesRest(log, client, s, R.StartOf(id, first));
    }
  }

  /**
   Whatever connections a client has had, cut anywhere, and wherever retention and the log have got to
   since, as long as retention has not passed the client's ID: there is a next connection after which the client has
   shown every deliverable message from its start to the end of the log, once each and in order.
   */
  lemma CatchesUp(log: Log, cns: seq<Connection>, first: nat, avail: nat) returns (cn: Connection)
    requires WellNamed(log) && Legal(log, cns) && AllLossless(log, cns) && first <= avail <= |log|
    requires var id := ResumeId(After(log, cns).lastId); id == 0 || first <= id
    ensures Legal(log, cns + [cn]) && cn.first == first && cn.avail == avail
    ensures DataEvents(After(log, cns + [cn]).events)
            == ShowAll(Expected(log, StartOf(After(log, cns), first), |log|))
  {
    ExactlyOnce(log, cns);
    cn := NextConnection(log, After(log, cns), first, avail);
    assert (cns + [cn])[..|cns|] == cns;
  }
}
