/** What every run of a connection keeps: exactly-once delivery, sound IDs, orderly shutdown. */
module SubscriptionProofs {
  import opened Options
  import opened EventLog
  import opened Resumption
  import opened Subscription
  import C = StreamContract

  /** A connection request of a client whose last received ID is `resume`. */
  function Open(resume: nat, first: nat, avail: nat): Conn {
    Conn(resume, first, avail, false, false, Resuming, resume, None, false,
         Absent, false, false, Receiving(false), [], 0, 0)
  }

  predicate Legal(log: Log, s: Conn, run: seq<Action>) {
    run == [] ||
    (Legal(log, s, run[..|run| - 1]) && Enabled(log, After(log, s, run[..|run| - 1]), run[|run| - 1]))
  }

  /** The state after a legal run; an action that is not enabled changes nothing. */
  function After(log: Log, s: Conn, run: seq<Action>): Conn {
    if run == [] then s else Next(log, After(log, s, run[..|run| - 1]), run[|run| - 1])
  }

  function Next(log: Log, s: Conn, a: Action): Conn {
    if Enabled(log, s, a) then Do(log, s, a) else s
  }

  // ----- Contexts, channels and deferred calls -----

  predicate Control(log: Log, s: Conn) {
    && s.first <= s.avail <= |log|
    && (s.subDone ==> s.reqDone || s.sub.Releasing? || s.sub.Exited?)
    && (s.sub.Releasing? || s.sub.Exited? ==> s.subDone)
    && (SubParked(s) ==> !s.subDone)
    && (s.writer == Receiving(true) ==> !s.reqDone && !(SubParked(s) && !s.sub.Selecting?))
    && (s.writer.Returned? ==> s.reqDone)
    && (s.consumer.Some? ==> s.consumer.value.live == !s.subDone)
    && (Offering(s) && s.consumer.value.phase.parked ==> !s.subDone)
    && (s.consumer.None? ==> !s.sub.Rechecking? && !s.sub.Selecting? && !s.sub.Sending?)
    && (s.consumer.None? <==> s.notifier.Absent?)
    && (s.consumer.None? || s.sub.Rechecking? ==> !s.unchecked)
    && (s.sub.Resuming? || s.sub.Attaching? ==> s.consumer.None?)
    && (s.sub.Failing? ==> s.sub.out.Error?)
    && (s.sub.Sending? ==> !s.sub.out.Error?)
    && s.closes == (if s.sub.Exited? then 1 else 0)
    && s.streamCloses == (if s.sub.Cancelling? || s.sub.Releasing? || s.sub.Exited? then 1 else 0)
  }

  predicate IsContext(a: Action) { a.EndRequest? || a.Propagate? || a.CancelSub? || a.Return? }

  predicate IsCheck(a: Action) { a.Check? || a.Consume? || a.Recheck? }

  predicate IsSub(a: Action) {
    a.Tick? || a.Closed? || a.ParkSub? || a.TakeDone? || a.CloseStream? || a.CloseEvents?
  }

  predicate IsMeeting(a: Action) { a.TakeMessage? || a.SendEvent? }

  lemma ControlContext(log: Log, s: Conn, a: Action)
    requires Control(log, s) && Enabled(log, s, a) && IsContext(a)
    ensures Control(log, Do(log, s, a))
  {
  }

  lemma ControlConsume(log: Log, s: Conn, ok: bool)
    requires Control(log, s) && Enabled(log, s, Consume(ok))
    ensures Control(log, Do(log, s, Consume(ok)))
  {
  }

  lemma ControlFirstCheck(log: Log, s: Conn, answer: Answer)
    requires Control(log, s) && Enabled(log, s, Check(answer))
    ensures Control(log, Do(log, s, Check(answer)))
  {
  }

  lemma ControlRecheck(log: Log, s: Conn, answer: Answer)
    requires Control(log, s) && Enabled(log, s, Recheck(answer))
    ensures Control(log, Do(log, s, Recheck(answer)))
  {
  }

  lemma ControlCheck(log: Log, s: Conn, a: Action)
    requires Control(log, s) && Enabled(log, s, a) && IsCheck(a)
    ensures Control(log, Do(log, s, a))
  {
    match a
    case Check(answer) => ControlFirstCheck(log, s, answer);
    case Recheck(answer) => ControlRecheck(log, s, answer);
    case Consume(ok) => ControlConsume(log, s, ok);
  }

  lemma ControlSub(log: Log, s: Conn, a: Action)
    requires Control(log, s) && Enabled(log, s, a) && IsSub(a)
    ensures Control(log, Do(log, s, a))
  {
  }

  lemma ControlMeeting(log: Log, s: Conn, a: Action)
    requires Control(log, s) && Enabled(log, s, a) && IsMeeting(a)
    ensures Control(log, Do(log, s, a))
  {
  }

  lemma ControlConsuming(log: Log, s: Conn, a: Action)
    requires Control(log, s) && Enabled(log, s, a) && a.Consuming?
    ensures Control(log, Do(log, s, a))
  {
  }

  predicate IsWriting(a: Action) { a.ParkWriter? || a.Abort? || a.SeeClosed? || a.Write? }

  lemma ControlWriting(log: Log, s: Conn, a: Action)
    requires Control(log, s) && Enabled(log, s, a) && IsWriting(a)
    ensures Control(log, Do(log, s, a))
  {
  }

  /** The log, and the close notifier. */
  predicate IsAround(a: Action) {
    a.Append? || a.Retain? || a.Notice? || a.Forward? || a.GiveUp? || a.ShutClosed?
  }

  lemma ControlAround(log: Log, s: Conn, a: Action)
    requires Control(log, s) && Enabled(log, s, a) && IsAround(a)
    ensures Control(log, Do(log, s, a))
  {
  }

  lemma ControlStep(log: Log, s: Conn, a: Action)
    requires Control(log, s) && Enabled(log, s, a)
    ensures Control(log, Do(log, s, a))
  {
    if IsCheck(a) {
      ControlCheck(log, s, a);
    } else if IsSub(a) {
      ControlSub(log, s, a);
    } else if IsContext(a) {
      ControlContext(log, s, a);
    } else if IsMeeting(a) {
      ControlMeeting(log, s, a);
    } else if a.Consuming? {
      ControlConsuming(log, s, a);
    } else if IsWriting(a) {
      ControlWriting(log, s, a);
    } else {
      ControlAround(log, s, a);
    }
  }

  // ----- Data -----

  /** The first offset whose message has not been dealt with by the subscriber. */
  function Frontier(s: Conn): nat
    requires s.consumer.Some?
  {
    if s.sub.Sending? && s.sub.out.Data? then s.sub.out.offset else s.consumer.value.next
  }

  function SentId(s: Conn): nat { LastId(s.outs, s.resume) }

  /** Every prefix of what was sent is complete up to its last ID, and IDs strictly increase. */
  predicate PrefixesSound(log: Log, resume: nat, start: nat, outs: seq<Out>) {
    forall k :: 0 <= k <= |outs| ==> PrefixSound(log, resume, start, outs, k)
  }

  predicate PrefixSound(log: Log, resume: nat, start: nat, outs: seq<Out>, k: nat)
    requires k <= |outs|
  {
    && DataOf(outs[..k]) == Expected(log, start, LastId(outs[..k], resume))
    && (k < |outs| && outs[k].Id() != 0 ==> outs[k].Id() > LastId(outs[..k], resume))
    && resume <= LastId(outs[..k], resume)
    && (resume < LastId(outs[..k], resume) ==> start <= LastId(outs[..k], resume) <= |log|)
  }

  predicate IsSilent(outs: seq<Out>) { forall o :: o in outs ==> o.Error? }

  /** How lastID and the message in hand relate to what was sent. */
  predicate Hand(log: Log, s: Conn)
    requires s.consumer.Some?
  {
    var next := s.consumer.value.next;
    match s.sub
    case Sending(Data(o, name, data), _) =>
      && s.lastID == SentId(s) <= o < next && s.consumer.value.start <= o
      && IsDeliverable(log, o) && name == log[o].name && data == log[o].data
      && (forall i :: o < i < next ==> !IsDeliverable(log, i))
    case Sending(Ping(d), _) =>
      if d == 0 then s.lastID == SentId(s)
      else s.lastID == d && SentId(s) < d && s.consumer.value.start <= d && (s.subDone || d <= next)
    case Selecting(_) => s.lastID == SentId(s)
    case Rechecking => s.lastID == SentId(s)
    case _ => true
  }

  /** The subscriber may still send events other than errors. */
  predicate Active(s: Conn) { s.sub.Rechecking? || s.sub.Selecting? || s.sub.Sending? }

  predicate DataInv(log: Log, s: Conn) {
    if s.consumer.None? then s.lastID == s.resume && IsSilent(s.outs)
    else
      var c := s.consumer.value;
      && C.Inv(log, s.resume, c)
      && PrefixesSound(log, s.resume, c.start, s.outs)
      && s.resume <= SentId(s)
      && (Active(s) ==>
            && SentId(s) <= Frontier(s)
            && (forall i :: SentId(s) <= i < Frontier(s) && c.start <= i ==> !IsDeliverable(log, i))
            && Hand(log, s))
  }

  /** A resumed connection that passed both checks really started at the ID it was given. */
  predicate Started(s: Conn) {
    s.consumer.Some? && s.resume > 0 && !s.unchecked ==>
      var start := s.consumer.value.start;
      && (s.sub.Rechecking? ==> IsSilent(s.outs) && (start <= s.first || start == s.resume))
      && (s.sub.Selecting? || s.sub.Sending? || !IsSilent(s.outs) ==> start == s.resume)
  }

  predicate Inv(log: Log, s: Conn) { Control(log, s) && DataInv(log, s) && Started(s) }

  lemma SilentSound(log: Log, resume: nat, start: nat, outs: seq<Out>)
    requires IsSilent(outs) && resume <= start
    ensures PrefixesSound(log, resume, start, outs) && LastId(outs, resume) == resume
  {
    SilentIds(outs, resume);
    assert Expected(log, start, resume) == [];
    forall k | 0 <= k <= |outs|
      ensures PrefixSound(log, resume, start, outs, k)
    {
      SilentIds(outs[..k], resume);
      if k < |outs| {
        assert outs[k] in outs;
      }
    }
  }

  lemma {:induction false} SilentIds(outs: seq<Out>, id: nat)
    requires IsSilent(outs)
    ensures LastId(outs, id) == id && DataOf(outs) == []
  {
    if outs != [] {
      assert outs[|outs| - 1] in outs;
      SilentIds(outs[..|outs| - 1], id);
    }
  }

  /** Sending one more event. */
  lemma ExtendSound(log: Log, resume: nat, start: nat, outs: seq<Out>, out: Out)
    requires PrefixesSound(log, resume, start, outs)
    requires out.Id() != 0 ==> out.Id() > LastId(outs, resume) && start <= out.Id() <= |log|
    requires DataOf(outs) + (if out.Data? then [out] else []) ==
             Expected(log, start, if out.Id() != 0 then out.Id() else LastId(outs, resume))
    ensures PrefixesSound(log, resume, start, outs + [out])
    ensures LastId(outs + [out], resume) == if out.Id() != 0 then out.Id() else LastId(outs, resume)
  {
    var all := outs + [out];
    assert all[..|outs|] == outs && all[..|all|] == all;
    forall k | 0 <= k <= |all|
      ensures PrefixSound(log, resume, start, all, k)
    {
      assert PrefixSound(log, resume, start, outs, if k <= |outs| then k else |outs|);
      assert outs[..|outs|] == outs;
      if k <= |outs| {
        assert all[..k] == outs[..k];
      }
    }
  }

  lemma WholePrefix(log: Log, resume: nat, start: nat, outs: seq<Out>)
    requires PrefixesSound(log, resume, start, outs)
    ensures DataOf(outs) == Expected(log, start, LastId(outs, resume))
  {
    assert outs[..|outs|] == outs && PrefixSound(log, resume, start, outs, |outs|);
  }

  /** The event that the subscriber is about to send fits what was sent before. */
  predicate Fits(log: Log, s: Conn)
    requires s.consumer.Some? && s.sub.Sending?
  {
    var out, start, next := s.sub.out, s.consumer.value.start, s.consumer.value.next;
    var id := if out.Id() != 0 then out.Id() else SentId(s);
    && (out.Id() != 0 ==> out.Id() > SentId(s) && start <= out.Id() <= |log|) && id <= next
    && DataOf(s.outs) + (if out.Data? then [out] else []) == Expected(log, start, id)
    && (forall i :: id <= i < next && start <= i ==> !IsDeliverable(log, i))
  }

  lemma DataFits(log: Log, s: Conn)
    requires s.consumer.Some? && DataInv(log, s) && s.sub.Sending? && s.sub.out.Data?
    ensures Fits(log, s)
  {
    var start, o := s.consumer.value.start, s.sub.out.offset;
    WholePrefix(log, s.resume, start, s.outs);
    ExpectedQuiet(log, start, SentId(s), o);
    assert Expected(log, start, o + 1) == Expected(log, start, o) + [s.sub.out];
  }

  lemma PingFits(log: Log, s: Conn)
    requires s.consumer.Some? && DataInv(log, s) && s.sub.Sending? && s.sub.out.Ping? && !s.subDone
    ensures Fits(log, s)
  {
    var start, d := s.consumer.value.start, s.sub.out.position;
    WholePrefix(log, s.resume, start, s.outs);
    if d != 0 {
      ExpectedQuiet(log, start, SentId(s), d);
    }
  }

  lemma DataSentEvent(log: Log, s: Conn)
    requires s.consumer.Some? && DataInv(log, s) && s.sub.Sending? && !s.sub.out.Error? && Fits(log, s)
    ensures DataInv(log, PassOn(s))
  {
    var out, t := s.sub.out, PassOn(s);
    assert out.Ping? ==> s.lastID == (if out.Id() != 0 then out.Id() else SentId(s));
    ExtendSound(log, s.resume, s.consumer.value.start, s.outs, out);
    assert SentId(t) == (if out.Id() != 0 then out.Id() else SentId(s)) == t.lastID;
  }

  lemma DataSentError(log: Log, s: Conn)
    requires DataInv(log, s) && s.sub.Failing? && s.sub.out.Error?
    ensures DataInv(log, PassOn(s))
  {
    if s.consumer.Some? {
      WholePrefix(log, s.resume, s.consumer.value.start, s.outs);
      ExtendSound(log, s.resume, s.consumer.value.start, s.outs, s.sub.out);
    }
  }

  lemma DataSend(log: Log, s: Conn)
    requires Control(log, s) && DataInv(log, s) && Enabled(log, s, SendEvent)
    ensures DataInv(log, Do(log, s, SendEvent))
  {
    if s.sub.Sending? {
      if s.sub.out.Data? {
        DataFits(log, s);
      } else {
        PingFits(log, s);
      }
      DataSentEvent(log, s);
    } else {
      DataSentError(log, s);
    }
  }

  lemma StartedSend(log: Log, s: Conn)
    requires Control(log, s) && Started(s) && Enabled(log, s, SendEvent)
    ensures Started(Do(log, s, SendEvent))
  {
  }

  lemma DataTake(log: Log, s: Conn)
    requires Control(log, s) && DataInv(log, s) && Started(s) && Enabled(log, s, TakeMessage)
    ensures DataInv(log, Do(log, s, TakeMessage)) && Started(Do(log, s, TakeMessage))
  {
    C.InvStep(log, s.avail, s.resume, s.consumer.value, C.HandOver);
  }

  lemma DataConsume(log: Log, s: Conn, ok: bool)
    requires Control(log, s) && DataInv(log, s) && Started(s) && Enabled(log, s, Consume(ok))
    ensures DataInv(log, Do(log, s, Consume(ok))) && Started(Do(log, s, Consume(ok)))
  {
    if ok {
      SilentSound(log, s.resume, StartOf(s.resume, s.first), s.outs);
    }
  }

  /** From the second check the subscriber gets to an error, or to its loop with nothing in hand. */
  lemma DataChecked(log: Log, s: Conn, sub: Sub, unchecked: bool)
    requires DataInv(log, s) && s.sub.Rechecking? && (sub.Failing? || sub.Selecting?)
    ensures DataInv(log, s.(sub := sub, unchecked := unchecked))
  {
    assert SentId(s.(sub := sub, unchecked := unchecked)) == SentId(s);
  }

  lemma DataRecheck(log: Log, s: Conn, answer: Answer)
    requires DataInv(log, s) && Enabled(log, s, Recheck(answer))
    ensures DataInv(log, Do(log, s, Recheck(answer)))
  {
    var t := Do(log, s, Recheck(answer));
    assert t == s.(sub := t.sub, unchecked := t.unchecked);
    DataChecked(log, s, t.sub, t.unchecked);
  }

  lemma StartedRecheck(log: Log, s: Conn, answer: Answer)
    requires Control(log, s) && DataInv(log, s) && Started(s) && Enabled(log, s, Recheck(answer))
    ensures Started(Do(log, s, Recheck(answer)))
  {
  }

  lemma DataCheck(log: Log, s: Conn, a: Action)
    requires Control(log, s) && DataInv(log, s) && Started(s) && Enabled(log, s, a) && IsCheck(a)
    ensures DataInv(log, Do(log, s, a)) && Started(Do(log, s, a))
  {
    if a.Consume? {
      DataConsume(log, s, a.ok);
    } else if a.Recheck? {
      DataRecheck(log, s, a.answer);
      StartedRecheck(log, s, a.answer);
    }
  }

  lemma DataTick(log: Log, s: Conn)
    requires Control(log, s) && DataInv(log, s) && Started(s) && Enabled(log, s, Tick)
    ensures DataInv(log, Do(log, s, Tick)) && Started(Do(log, s, Tick))
  {
  }

  lemma DataSub(log: Log, s: Conn, a: Action)
    requires Control(log, s) && DataInv(log, s) && Started(s) && Enabled(log, s, a) && IsSub(a) && !a.Tick?
    ensures DataInv(log, Do(log, s, a)) && Started(Do(log, s, a))
  {
  }

  lemma DataEndSub(log: Log, s: Conn)
    requires DataInv(log, s) && Started(s)
    ensures DataInv(log, EndSub(s)) && Started(EndSub(s))
  {
  }

  lemma DataCancel(log: Log, s: Conn)
    requires DataInv(log, s) && Started(s) && Enabled(log, s, CancelSub)
    ensures DataInv(log, Do(log, s, CancelSub)) && Started(Do(log, s, CancelSub))
  {
    DataEndSub(log, s.(sub := Releasing));
  }

  lemma DataPropagate(log: Log, s: Conn)
    requires DataInv(log, s) && Started(s) && Enabled(log, s, Propagate)
    ensures DataInv(log, Do(log, s, Propagate)) && Started(Do(log, s, Propagate))
  {
    DataEndSub(log, s);
  }

  lemma DataWriting(log: Log, s: Conn, a: Action)
    requires DataInv(log, s) && Started(s) && Enabled(log, s, a) && (IsWriting(a) || a.EndRequest? || a.Return?)
    ensures DataInv(log, Do(log, s, a)) && Started(Do(log, s, a))
  {
    WritingAside(log, s, a);
    DataOther(log, s, Do(log, s, a));
  }

  lemma DataAround(log: Log, s: Conn, a: Action)
    requires DataInv(log, s) && Started(s) && Enabled(log, s, a) && IsAround(a)
    ensures DataInv(log, Do(log, s, a)) && Started(Do(log, s, a))
  {
    AroundAside(log, s, a);
    DataOther(log, s, Do(log, s, a));
  }

  /** The consumer moves without passing a deliverable message. */
  lemma DataMoved(log: Log, s: Conn, c: C.Consumer)
    requires DataInv(log, s) && Started(s) && s.consumer.Some? && C.Inv(log, s.resume, c)
    requires c.start == s.consumer.value.start && s.consumer.value.next <= c.next
    requires forall i :: s.consumer.value.next <= i < c.next ==> !IsDeliverable(log, i)
    ensures DataInv(log, s.(consumer := Some(c))) && Started(s.(consumer := Some(c)))
  {
  }

  lemma DataConsuming(log: Log, s: Conn, a: Action)
    requires Control(log, s) && DataInv(log, s) && Started(s) && Enabled(log, s, a) && a.Consuming?
    ensures DataInv(log, Do(log, s, a)) && Started(Do(log, s, a))
  {
    C.InvStep(log, s.avail, s.resume, s.consumer.value, a.action);
    DataMoved(log, s, C.Do(s.consumer.value, a.action));
  }

  /** t differs from s only in what other goroutines have. */
  predicate SameData(s: Conn, t: Conn) {
    && s.first <= t.first && t.consumer == s.consumer && t.sub == s.sub && t.outs == s.outs
    && t.lastID == s.lastID && t.resume == s.resume && t.subDone == s.subDone && t.unchecked == s.unchecked
  }

  /** The goroutines that neither send nor receive messages leave the data alone. */
  lemma DataOther(log: Log, s: Conn, t: Conn)
    requires DataInv(log, s) && Started(s) && SameData(s, t)
    ensures DataInv(log, t) && Started(t)
  {
  }

  lemma WritingAside(log: Log, s: Conn, a: Action)
    requires Enabled(log, s, a) && (IsWriting(a) || a.EndRequest? || a.Return?)
    ensures SameData(s, Do(log, s, a))
  {
  }

  lemma AroundAside(log: Log, s: Conn, a: Action)
    requires Enabled(log, s, a) && IsAround(a)
    ensures SameData(s, Do(log, s, a))
  {
  }

  lemma DataMeeting(log: Log, s: Conn, a: Action)
    requires Inv(log, s) && Enabled(log, s, a) && IsMeeting(a)
    ensures DataInv(log, Do(log, s, a)) && Started(Do(log, s, a))
  {
    if a.SendEvent? {
      DataSend(log, s);
      StartedSend(log, s);
    } else {
      DataTake(log, s);
    }
  }

  lemma DataStep(log: Log, s: Conn, a: Action)
    requires Inv(log, s) && Enabled(log, s, a)
    ensures DataInv(log, Do(log, s, a)) && Started(Do(log, s, a))
  {
    if IsCheck(a) {
      DataCheck(log, s, a);
    } else if a.Tick? {
      DataTick(log, s);
    } else if IsSub(a) {
      DataSub(log, s, a);
    } else if a.Propagate? {
      DataPropagate(log, s);
    } else if a.CancelSub? {
      DataCancel(log, s);
    } else if IsMeeting(a) {
      DataMeeting(log, s, a);
    } else if a.Consuming? {
      DataConsuming(log, s, a);
    } else if IsAround(a) {
      DataAround(log, s, a);
    } else {
      DataWriting(log, s, a);
    }
  }

  lemma InvStep(log: Log, s: Conn, a: Action)
    requires Inv(log, s) && Enabled(log, s, a)
    ensures Inv(log, Do(log, s, a))
  {
    ControlStep(log, s, a);
    DataStep(log, s, a);
  }

  lemma {:induction false} RunInv(log: Log, resume: nat, first: nat, avail: nat, run: seq<Action>)
    requires first <= avail <= |log| && Legal(log, Open(resume, first, avail), run)
    ensures Inv(log, After(log, Open(resume, first, avail), run))
    ensures After(log, Open(resume, first, avail), run).resume == resume
  {
    if run != [] {
      var before := run[..|run| - 1];
      RunInv(log, resume, first, avail, before);
      InvStep(log, After(log, Open(resume, first, avail), before), run[|run| - 1]);
    }
  }

  lemma {:induction false} Prepend(log: Log, s: Conn, a: Action, run: seq<Action>)
    requires Enabled(log, s, a) && Legal(log, Do(log, s, a), run)
    ensures Legal(log, s, [a] + run) && After(log, s, [a] + run) == After(log, Do(log, s, a), run)
  {
    var whole := [a] + run;
    if run == [] {
      assert whole[..|whole| - 1] == [];
    } else {
      assert whole[..|whole| - 1] == [a] + run[..|run| - 1];
      Prepend(log, s, a, run[..|run| - 1]);
    }
  }

  lemma {:induction false} Continue(log: Log, s: Conn, run: seq<Action>)
    requires Inv(log, s) && Legal(log, s, run)
    ensures Inv(log, After(log, s, run))
  {
    if run != [] {
      Continue(log, s, run[..|run| - 1]);
      InvStep(log, After(log, s, run[..|run| - 1]), run[|run| - 1]);
    }
  }

  /** The states of the connections of a client whose last received ID is s.resume. */
  ghost predicate Reachable(log: Log, s: Conn) {
    exists first: nat, avail: nat, run: seq<Action> :: ReachedBy(log, s, first, avail, run)
  }

  predicate ReachedBy(log: Log, s: Conn, first: nat, avail: nat, run: seq<Action>) {
    && first <= avail <= |log|
    && Legal(log, Open(s.resume, first, avail), run)
    && s == After(log, Open(s.resume, first, avail), run)
  }

  lemma ReachableInv(log: Log, s: Conn)
    requires Reachable(log, s)
    ensures Inv(log, s)
  {
    var first: nat, avail: nat, run: seq<Action> :| ReachedBy(log, s, first, avail, run);
    RunInv(log, s.resume, first, avail, run);
  }

  // ----- The main results -----

  /**
   Ping and ID soundness, in every run of a connection and at every point of what it sends: the data
   events up to there are exactly those of the deliverable messages from the start of the
   consumer up to, but excluding, the last ID, and non-zero IDs strictly increase. So a client that
   resumes at any ID it was sent misses nothing and sees nothing twice.
   */
  lemma IdSoundness(log: Log, s: Conn, k: nat)
    requires Reachable(log, s) && k <= |s.outs|
    ensures var id := LastId(s.outs[..k], s.resume);
            if s.consumer.None? then IsSilent(s.outs)
            else
              var start := s.consumer.value.start;
              && DataOf(s.outs[..k]) == Expected(log, start, id)
              && (id == s.resume || start <= id <= |log|) && s.resume <= id
              && (k < |s.outs| && s.outs[k].Id() != 0 ==> s.outs[k].Id() > id)
  {
    ReachableInv(log, s);
    if s.consumer.Some? {
      assert PrefixSound(log, s.resume, s.consumer.value.start, s.outs, k);
    }
  }

  /**
   Resuming survives the retention race in every run: if the second query returned an offset, a connection
   that sends anything but errors has a consumer that really started at the client's last ID.
   */
  lemma ResumedWhereAsked(log: Log, s: Conn)
    requires Reachable(log, s) && s.resume > 0
    ensures !s.unchecked && !IsSilent(s.outs) ==> s.consumer.Some? && s.consumer.value.start == s.resume
  {
    ReachableInv(log, s);
  }

  /** If the consumer started too late, a second query that returns an offset sends the non-retryable error. */
  lemma LateStartRefused(log: Log, s: Conn, answer: Answer)
    requires Reachable(log, s) && s.resume > 0 && s.sub.Rechecking? && s.consumer.Some?
    requires s.consumer.value.start != s.resume && QueryOf(s, answer).First?
    ensures Do(log, s, Recheck(answer)).sub == Failing(Error(false, Expired), false) && IsSilent(s.outs)
  {
    ReachableInv(log, s);
  }

  /** In no run does a message or event pass a channel once the subscription context is done. */
  lemma NothingAfterDone(log: Log, s: Conn)
    requires Reachable(log, s) && s.subDone
    ensures !Enabled(log, s, TakeMessage) && !Enabled(log, s, SendEvent)
  {
    ReachableInv(log, s);
  }
}
