/** What a connection answers, case by case: which errors it sends, what its pings carry, and when it is silent. */
module Outcomes {
  import opened Options
  import opened EventLog
  import opened Resumption
  import opened Subscription
  import opened SubscriptionProofs
  import opened Progress

  // ----- Single steps -----

  /** The first check of a resume: which error it sends, and when it sends none. */
  lemma FirstCheckAnswers(log: Log, s: Conn, answer: Answer)
    requires Enabled(log, s, Check(answer))
    ensures var sub := Do(log, s, Check(answer)).sub;
            if s.resume == 0 then sub == Attaching
            else if answer.Unanswered? then sub == Failing(Error(true, QueryError), false)
            else if s.first >= s.avail then sub == Failing(Error(false, Unknown), false)
            else if s.resume < s.first then sub == Failing(Error(false, Expired), false)
            else sub == Attaching
  {
  }

  /** A consumer that cannot be created is worth another try. */
  lemma AttachFails(log: Log, s: Conn)
    requires Enabled(log, s, Consume(false))
    ensures Do(log, s, Consume(false)).sub == Failing(Error(true, ConsumeError), false)
    ensures Do(log, s, Consume(false)).consumer == s.consumer
  {
  }

  /** A closed stream is reported, unless it closes without an error or the connection is cancelled. */
  lemma ClosedReports(log: Log, s: Conn)
    requires Enabled(log, s, Closed)
    ensures Do(log, s, Closed).sub ==
            if s.closedError && !s.subDone then Failing(Error(true, StreamClosed), false) else Closing
  {
  }

  /** A ping carries the position exactly if that is above the last ID sent, and no ID otherwise. */
  lemma PingCarries(log: Log, s: Conn)
    requires Reachable(log, s) && s.sub.Selecting? && s.consumer.Some?
    ensures var position := s.consumer.value.pos;
            Do(log, s, Tick).sub
            == Sending(if position > LastId(s.outs, s.resume) then Ping(position) else Ping(0), false)
  {
    ReachableInv(log, s);
  }

  // ----- Runs -----

  /** Which errors tell the client to try again. */
  predicate Honest(o: Out) {
    o.Error? ==> (o.retry <==> o.reason in {QueryError, ConsumeError, StreamClosed})
  }

  predicate AllHonest(s: Conn) {
    (forall o :: o in s.outs ==> Honest(o)) && (s.sub.Sending? || s.sub.Failing? ==> Honest(s.sub.out))
  }

  lemma HonestFirstCheck(log: Log, s: Conn, answer: Answer)
    requires AllHonest(s) && Enabled(log, s, Check(answer))
    ensures AllHonest(Do(log, s, Check(answer)))
  {
    FirstCheckAnswers(log, s, answer);
    var t := Do(log, s, Check(answer));
    assert t.outs == s.outs;
  }

  lemma HonestAttach(log: Log, s: Conn, ok: bool)
    requires AllHonest(s) && Enabled(log, s, Consume(ok))
    ensures AllHonest(Do(log, s, Consume(ok)))
  {
  }

  lemma HonestRecheck(log: Log, s: Conn, answer: Answer)
    requires AllHonest(s) && Enabled(log, s, Recheck(answer))
    ensures AllHonest(Do(log, s, Recheck(answer)))
  {
  }

  lemma HonestCheck(log: Log, s: Conn, a: Action)
    requires AllHonest(s) && Enabled(log, s, a) && IsCheck(a)
    ensures AllHonest(Do(log, s, a))
  {
    match a
    case Check(answer) => HonestFirstCheck(log, s, answer);
    case Consume(ok) => HonestAttach(log, s, ok);
    case Recheck(answer) => HonestRecheck(log, s, answer);
  }

  lemma HonestSub(log: Log, s: Conn, a: Action)
    requires AllHonest(s) && Enabled(log, s, a) && (IsSub(a) || IsMeeting(a))
    ensures AllHonest(Do(log, s, a))
  {
  }

  lemma HonestOther(log: Log, s: Conn, a: Action)
    requires AllHonest(s) && Enabled(log, s, a) && !IsCheck(a) && !IsSub(a) && !IsMeeting(a)
    ensures AllHonest(Do(log, s, a))
  {
    assert Do(log, s, a).outs == s.outs;
  }

  /** In every run, an error tells the client to try again exactly if another try can help. */
  lemma {:induction false} RetryExactly(log: Log, resume: nat, first: nat, avail: nat, run: seq<Action>)
    requires Legal(log, Open(resume, first, avail), run)
    ensures AllHonest(After(log, Open(resume, first, avail), run))
  {
    if run != [] {
      var before, a := run[..|run| - 1], run[|run| - 1];
      RetryExactly(log, resume, first, avail, before);
      var s := After(log, Open(resume, first, avail), before);
      if IsCheck(a) {
        HonestCheck(log, s, a);
      } else if IsSub(a) || IsMeeting(a) {
        HonestSub(log, s, a);
      } else {
        HonestOther(log, s, a);
      }
    }
  }

  /** The handler is done with the connection. */
  predicate HandlerGone(s: Conn) { s.writer.Returning? || s.writer.Returned? }

  /** It takes no event, and everything else but its own return leaves it alone. */
  lemma HandlerStaysGone(log: Log, s: Conn, a: Action)
    requires HandlerGone(s) && Enabled(log, s, a)
    ensures HandlerGone(Do(log, s, a)) && Do(log, s, a).outs == s.outs
  {
    if IsCheck(a) {
      CheckLeavesHandler(log, s, a);
    } else if IsSub(a) {
      SubLeavesHandler(log, s, a);
    } else if IsContext(a) || IsMeeting(a) {
      EndLeavesHandler(log, s, a);
    } else {
      RestLeavesHandler(log, s, a);
    }
  }

  lemma CheckLeavesHandler(log: Log, s: Conn, a: Action)
    requires HandlerGone(s) && Enabled(log, s, a) && IsCheck(a)
    ensures HandlerGone(Do(log, s, a)) && Do(log, s, a).outs == s.outs
  {
    match a
    case Check(answer) => FirstCheckAnswers(log, s, answer);
    case Consume(ok) => ConsumeLeavesHandler(log, s, ok);
    case Recheck(answer) => RecheckLeavesHandler(log, s, answer);
  }

  lemma ConsumeLeavesHandler(log: Log, s: Conn, ok: bool)
    requires HandlerGone(s) && Enabled(log, s, Consume(ok))
    ensures HandlerGone(Do(log, s, Consume(ok))) && Do(log, s, Consume(ok)).outs == s.outs
  {
  }

  lemma RecheckLeavesHandler(log: Log, s: Conn, answer: Answer)
    requires HandlerGone(s) && Enabled(log, s, Recheck(answer))
    ensures HandlerGone(Do(log, s, Recheck(answer))) && Do(log, s, Recheck(answer)).outs == s.outs
  {
  }

  lemma SubLeavesHandler(log: Log, s: Conn, a: Action)
    requires HandlerGone(s) && Enabled(log, s, a) && IsSub(a)
    ensures HandlerGone(Do(log, s, a)) && Do(log, s, a).outs == s.outs
  {
  }

  lemma EndLeavesHandler(log: Log, s: Conn, a: Action)
    requires HandlerGone(s) && Enabled(log, s, a) && (IsContext(a) || IsMeeting(a))
    ensures HandlerGone(Do(log, s, a)) && Do(log, s, a).outs == s.outs
  {
  }

  lemma RestLeavesHandler(log: Log, s: Conn, a: Action)
    requires HandlerGone(s) && Enabled(log, s, a)
    requires !IsCheck(a) && !IsSub(a) && !IsContext(a) && !IsMeeting(a)
    ensures HandlerGone(Do(log, s, a)) && Do(log, s, a).outs == s.outs
  {
  }

  /** A write that fails is the last one: in no continuation does the handler take another event. */
  lemma {:induction false} NothingAfterFailedWrite(log: Log, s: Conn, run: seq<Action>)
    requires Enabled(log, s, Write(false)) && Legal(log, Do(log, s, Write(false)), run)
    ensures var t := After(log, Do(log, s, Write(false)), run); HandlerGone(t) && t.outs == s.outs
  {
    if run != [] {
      NothingAfterFailedWrite(log, s, run[..|run| - 1]);
      HandlerStaysGone(log, After(log, Do(log, s, Write(false)), run[..|run| - 1]), run[|run| - 1]);
    }
  }

  lemma ErrorGoesOut(log: Log, s: Conn) returns (run: seq<Action>)
    requires s.sub.Failing? && !s.sub.parked && s.writer == Receiving(false) && !s.subDone
    ensures Legal(log, s, run) && After(log, s, run).outs == s.outs + [s.sub.out] && After(log, s, run).sub.Closing?
  {
    Run1(log, s, ParkSub);
    var t := s.(sub := Failing(s.sub.out, true));
    assert After(log, s, [ParkSub]) == t;
    Run1(log, t, SendEvent);
    Concat(log, s, [ParkSub], [SendEvent]);
    run := [ParkSub] + [SendEvent];
  }

  /** When the broker closes a consumer, its client can be told to try again. */
  lemma BrokerCloseReported(log: Log, s: Conn) returns (run: seq<Action>)
    requires s.sub == Selecting(false) && s.writer == Receiving(false) && s.notifier.Watching? && !s.subDone
    ensures Legal(log, s, run) && After(log, s, run).outs == s.outs + [Error(true, StreamClosed)]
    ensures After(log, s, run).sub.Closing?
  {
    Run3(log, s, Notice, Forward, Closed);
    var t := s.(notifier := Finished, sub := Failing(Error(true, StreamClosed), false), closedError := false);
    assert After(log, s, [Notice, Forward, Closed]) == t;
    var rest := ErrorGoesOut(log, t);
    Concat(log, s, [Notice, Forward, Closed], rest);
    run := [Notice, Forward, Closed] + rest;
  }
}
