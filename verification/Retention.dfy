/** What retention can do to a connection: when a consumer starts too late unnoticed, and what is lost. */
module Retention {
  import opened Options
  import opened EventLog
  import opened Resumption
  import opened Subscription
  import opened SubscriptionProofs
  import opened Progress
  import C = StreamContract

  // ----- When a late start goes unnoticed -----

  /** The first retained offset at the first check of a run. */
  function FirstAtCheck(log: Log, s: Conn, run: seq<Action>): nat {
    if run == [] then 0
    else
      var before, a := run[..|run| - 1], run[|run| - 1];
      if a.Check? then After(log, s, before).first else FirstAtCheck(log, s, before)
  }

  /** The first retained offset when the consumer attached. */
  function FirstAtAttach(log: Log, s: Conn, run: seq<Action>): nat {
    if run == [] then 0
    else
      var before, a := run[..|run| - 1], run[|run| - 1];
      if a.Consume? then After(log, s, before).first else FirstAtAttach(log, s, before)
  }

  /** How a resumed connection got to where it is. */
  predicate Traced(s: Conn, checked: nat, attached: nat) {
    s.resume > 0 ==>
      && (s.sub.Attaching? ==> checked <= s.resume && checked <= s.first)
      && (s.consumer.Some? ==>
            checked <= s.resume && checked <= attached <= s.first
            && s.consumer.value.start == StartOf(s.resume, attached))
  }

  lemma TraceEntry(log: Log, s: Conn, a: Action, checked: nat, attached: nat)
    requires Enabled(log, s, a) && Control(log, s) && (a.Check? || a.Consume?) && Traced(s, checked, attached)
    ensures Traced(Do(log, s, a), if a.Check? then s.first else checked, if a.Consume? then s.first else attached)
  {
  }

  lemma TraceOther(log: Log, s: Conn, a: Action, checked: nat, attached: nat)
    requires Enabled(log, s, a) && Control(log, s) && !a.Check? && !a.Consume? && Traced(s, checked, attached)
    ensures Traced(Do(log, s, a), checked, attached)
  {
  }

  lemma {:induction false} RunTraced(log: Log, resume: nat, first: nat, avail: nat, run: seq<Action>)
    requires first <= avail <= |log| && Legal(log, Open(resume, first, avail), run)
    ensures var s := Open(resume, first, avail);
            Traced(After(log, s, run), FirstAtCheck(log, s, run), FirstAtAttach(log, s, run))
  {
    if run != [] {
      var s, before, a := Open(resume, first, avail), run[..|run| - 1], run[|run| - 1];
      RunTraced(log, resume, first, avail, before);
      RunInv(log, resume, first, avail, before);
      if a.Check? || a.Consume? {
        TraceEntry(log, After(log, s, before), a, FirstAtCheck(log, s, before), FirstAtAttach(log, s, before));
      } else {
        TraceOther(log, After(log, s, before), a, FirstAtCheck(log, s, before), FirstAtAttach(log, s, before));
      }
    }
  }

  /** Past both checks: in the subscriber's loop, or out of it again with something sent. */
  predicate PastChecks(s: Conn) { s.sub.Selecting? || s.sub.Sending? || !IsSilent(s.outs) }

  /**
   In every run of a resumed connection, its consumer passed both checks although it started too late if
   and only if retention passed the client's ID between the first check and the attachment, and the
   second query returned no offset.
   */
  lemma UnnoticedExactly(log: Log, resume: nat, first: nat, avail: nat, run: seq<Action>)
    requires 0 < resume && first <= avail <= |log| && Legal(log, Open(resume, first, avail), run)
    requires PastChecks(After(log, Open(resume, first, avail), run))
    ensures var s0, s := Open(resume, first, avail), After(log, Open(resume, first, avail), run);
            && s.consumer.Some?
            && (s.consumer.value.start != resume
                <==> FirstAtCheck(log, s0, run) <= resume < FirstAtAttach(log, s0, run) && s.unchecked)
  {
    RunInv(log, resume, first, avail, run);
    RunTraced(log, resume, first, avail, run);
  }

  /**
   It does happen, for any ID that retention passes at that moment: if the second query fails, or if
   retention emptied the stream, so that the query is answered but with no offset.
   */
  lemma GapReached(log: Log, resume: nat, first: nat, avail: nat, start: nat, answer: Answer)
    returns (entry: seq<Action>)
    requires 0 < resume < start <= avail <= |log| && first <= resume && (answer.Answered? ==> start == avail)
    ensures Legal(log, Open(resume, first, avail), entry)
    ensures After(log, Open(resume, first, avail), entry)
            == Entered(Open(resume, first, avail).(first := start), start, true)
    ensures Recheck(answer) in entry
  {
    var s0 := Open(resume, first, avail);
    var s1 := s0.(sub := Attaching);
    assert Do(log, s0, Check(Answered)) == s1;
    var run := Overtaken(log, s1, start, answer);
    Prepend(log, s0, Check(Answered), run);
    entry := [Check(Answered)] + run;
  }

  lemma Overtaken(log: Log, s: Conn, start: nat, answer: Answer) returns (run: seq<Action>)
    requires s == Open(s.resume, s.first, s.avail).(sub := Attaching) && s.first <= s.resume
    requires 0 < s.resume < start <= s.avail && (answer.Answered? ==> start == s.avail)
    ensures Legal(log, s, run) && After(log, s, run) == Entered(s.(first := start), start, true)
    ensures Recheck(answer) in run
  {
    run := [Retain(start), Subscription.Consume(true), Recheck(answer)];
    var s1 := s.(first := start);
    assert Do(log, s, Retain(start)) == s1;
    var s2 := s1.(sub := Rechecking, consumer := Some(C.Attach(s.resume, start, true)), notifier := Watching);
    assert Do(log, s1, Subscription.Consume(true)) == s2;
    Run3(log, s, Retain(start), Subscription.Consume(true), Recheck(answer));
  }

  // ----- When retention passed the ID before the connection -----

  /** What the first check of such a connection sends, by the answer of its query. */
  predicate Refusal(answer: Option<Answer>, o: Out) {
    match answer
    case Some(Unanswered) => o == Error(true, QueryError)
    case Some(Answered) => o == Error(false, Expired) || o == Error(false, Unknown)
    case None => false
  }

  /** The answer to the first check of a run. */
  function CheckAnswer(run: seq<Action>): Option<Answer> {
    if run == [] then None
    else if run[|run| - 1].Check? then Some(run[|run| - 1].answer)
    else CheckAnswer(run[..|run| - 1])
  }

  predicate Barred(s: Conn, answer: Option<Answer>) {
    && s.resume < s.first && s.consumer.None? && !s.sub.Attaching?
    && (s.sub.Resuming? ==> s.outs == [])
    && (s.sub.Failing? ==> s.outs == [] && Refusal(answer, s.sub.out))
    && |s.outs| <= 1 && forall o :: o in s.outs ==> Refusal(answer, o)
  }

  lemma BarredCheck(log: Log, s: Conn, answer: Option<Answer>, now: Answer)
    requires 0 < s.resume && Barred(s, answer) && Enabled(log, s, Check(now))
    ensures Barred(Do(log, s, Check(now)), Some(now))
  {
  }

  lemma BarredSend(log: Log, s: Conn, answer: Option<Answer>)
    requires Barred(s, answer) && Control(log, s) && Enabled(log, s, SendEvent)
    ensures Barred(Do(log, s, SendEvent), answer)
  {
    assert PassOn(s).outs == [s.sub.out];
  }

  lemma BarredOther(log: Log, s: Conn, answer: Option<Answer>, a: Action)
    requires Barred(s, answer) && Control(log, s) && Enabled(log, s, a) && !a.Check? && !a.SendEvent?
    ensures Barred(Do(log, s, a), answer)
  {
    assert Do(log, s, a).outs == s.outs;
  }

  /**
   A connection whose ID retention has passed already sends one error and nothing else, in every run: a
   retryable one exactly if its query failed, and otherwise that the ID has expired, or is unknown
   because retention has emptied the stream.
   */
  lemma {:induction false} ExpiredSendsNothing(log: Log, resume: nat, first: nat, avail: nat, run: seq<Action>)
    requires 0 < resume < first <= avail <= |log| && Legal(log, Open(resume, first, avail), run)
    ensures Barred(After(log, Open(resume, first, avail), run), CheckAnswer(run))
    ensures var outs := After(log, Open(resume, first, avail), run).outs;
            IsSilent(outs) && |outs| <= 1 && forall o :: o in outs ==> Refusal(CheckAnswer(run), o)
  {
    if run != [] {
      var before, a := run[..|run| - 1], run[|run| - 1];
      ExpiredSendsNothing(log, resume, first, avail, before);
      RunInv(log, resume, first, avail, before);
      var s := After(log, Open(resume, first, avail), before);
      if a.Check? {
        BarredCheck(log, s, CheckAnswer(before), a.answer);
      } else if a.SendEvent? {
        BarredSend(log, s, CheckAnswer(before));
      } else {
        BarredOther(log, s, CheckAnswer(before), a);
      }
    }
  }
}

/** What that means for a client. */
module LostEvents {
  import opened Options
  import opened EventLog
  import opened Decimal
  import opened Session
  import W = Wire
  import S = Subscription
  import P = SubscriptionProofs
  import Progress
  import Retention
  import CatchingUp

  /** Once retention has passed its ID, no connection gives a client anything, nor takes its ID. */
  lemma ExpiredGivesNothing(log: Log, client: Client, cn: Connection)
    requires WellNamed(log) && Complete(log, client) && Possible(log, client, cn)
    requires 0 < ResumeId(client.lastId) < cn.first
    ensures var after := Receive(client, Server(log, client, cn), cn.cut);
            after.lastId == client.lastId && DataEvents(after.events) == DataEvents(client.events)
  {
    var s := Server(log, client, cn);
    P.RunInv(log, ResumeId(client.lastId), cn.first, cn.avail, cn.run);
    Retention.ExpiredSendsNothing(log, s.resume, cn.first, cn.avail, cn.run);
    OutsShown(log, s);
    var k := ResponseReceived(s.outs, s.resume, cn.cut);
    P.SilentIds(s.outs[..k], s.resume);
    var parser := W.Feed(W.Connect(client.lastId), W.WriteAll(ToWireAll(s.outs))[..cn.cut]);
    DataEventsConcat(client.events, parser.events);
  }

  /**
   A late start that goes unnoticed does lose events: with deliverable messages both before and after
   the late start, there is a connection after which the client has an ID beyond messages that
   it never received, and no error event told it so. The second query may fail, or be answered on a
   stream that retention has just emptied and that grows again.
   */
  lemma LateStartLoses(log: Log, client: Client, first: nat, avail: nat, start: nat, answer: S.Answer)
    returns (cn: Connection)
    requires WellNamed(log) && Complete(log, client) && first <= ResumeId(client.lastId)
    requires 0 < ResumeId(client.lastId) < start <= avail <= |log| && (answer.Answered? ==> start == avail)
    requires Expected(log, ResumeId(client.lastId), start) != [] && Expected(log, start, |log|) != []
    ensures cn.first == first && cn.avail == avail && Possible(log, client, cn) && !Lossless(log, client, cn)
    ensures !Complete(log, Receive(client, Server(log, client, cn), cn.cut))
    ensures S.Recheck(answer) in cn.run
    ensures forall o :: o in Server(log, client, cn).outs ==> o.Data?
  {
    var id := ResumeId(client.lastId);
    var entry := Retention.GapReached(log, id, first, avail, start, answer);
    var run := Progress.SendsFrom(log, P.Open(id, first, avail), entry, start, true);
    var s := P.After(log, P.Open(id, first, avail), run);
    P.RunInv(log, id, first, avail, run);
    cn := Connection(first, avail, run, |W.WriteAll(ToWireAll(s.outs))|);
    assert Possible(log, client, cn);
    var k := CatchingUp.ReceivesRest(log, client, s, start);
    LastExpected(log, start, id);
    HeaderParses(LastId(s.outs, id));
    ExactlyLossless(log, client, cn);
  }

  /** The last ID of expected events is beyond their start, and they are all data. */
  lemma LastExpected(log: Log, lo: nat, id: nat)
    requires Expected(log, lo, |log|) != []
    ensures lo < LastId(Expected(log, lo, |log|), id) <= |log|
    ensures forall o :: o in Expected(log, lo, |log|) ==> o.Data?
  {
    var all := Expected(log, lo, |log|);
    forall o | o in all
      ensures o.Data? && lo <= o.offset < |log|
    {
      ExpectedMembers(log, lo, |log|, o);
    }
    assert all[|all| - 1] in all;
  }
}
