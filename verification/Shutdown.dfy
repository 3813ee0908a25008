/** Cancellation cannot deadlock a connection: everybody gets out, and in a bounded number of steps. */
module Shutdown {
  import opened Options
  import opened EventLog
  import opened Subscription
  import opened SubscriptionProofs
  import C = StreamContract

  /** How many steps the subscriber has left once its context is done. */
  function SubRank(s: Conn): nat {
    match s.sub
    case Resuming => 8
    case Attaching => 7
    case Rechecking => 6
    case Selecting(_) => 5
    case Sending(_, _) => 4
    case Failing(_, _) => 4
    case Closing => 3
    case Cancelling => 2
    case Releasing => 1
    case Exited => 0
  }

  function WriterRank(s: Conn): nat {
    match s.writer
    case Writing => 4
    case Receiving(parked) => if parked then 2 else 3
    case Returning => 1
    case Returned => 0
  }

  function NotifierRank(s: Conn): nat {
    match s.notifier
    case Watching => 2
    case Forwarding => 1
    case _ => 0
  }

  predicate OfSub(a: Action) {
    a.Check? || a.Consume? || a.Recheck? || a.Tick? || a.Closed? || a.ParkSub? || a.TakeDone?
    || a.CloseStream? || a.CancelSub? || a.CloseEvents? || a.TakeMessage? || a.SendEvent?
  }

  predicate OfWriter(a: Action) { a.ParkWriter? || a.Abort? || a.SeeClosed? || a.Write? || a.Return? }

  predicate OfNotifier(a: Action) { a.Notice? || a.Forward? || a.GiveUp? }

  /** Once the context is done, each goroutine's own steps only lead it towards its exit. */
  lemma SubForward(log: Log, s: Conn, a: Action)
    requires Control(log, s) && s.subDone && Enabled(log, s, a) && OfSub(a)
    ensures SubRank(Do(log, s, a)) < SubRank(s)
  {
  }

  lemma SubUndisturbed(log: Log, s: Conn, a: Action)
    requires Control(log, s) && s.subDone && Enabled(log, s, a) && !OfSub(a)
    ensures SubRank(Do(log, s, a)) == SubRank(s)
  {
  }

  lemma WriterForward(log: Log, s: Conn, a: Action)
    requires Enabled(log, s, a) && OfWriter(a)
    ensures WriterRank(Do(log, s, a)) < WriterRank(s)
  {
  }

  lemma WriterUndisturbed(log: Log, s: Conn, a: Action)
    requires Control(log, s) && s.subDone && Enabled(log, s, a) && !OfWriter(a)
    ensures WriterRank(Do(log, s, a)) <= WriterRank(s)
  {
  }

  lemma NotifierForward(log: Log, s: Conn, a: Action)
    requires Enabled(log, s, a) && OfNotifier(a)
    ensures NotifierRank(Do(log, s, a)) < NotifierRank(s)
  {
  }

  function Count(run: seq<Action>): nat {
    if run == [] then 0 else Count(run[..|run| - 1]) + if OfSub(run[|run| - 1]) then 1 else 0
  }

  /** Whatever the goroutines do after cancellation, the subscriber makes at most eight more steps. */
  lemma {:induction false} SubscriberBounded(log: Log, s: Conn, run: seq<Action>)
    requires Inv(log, s) && s.subDone && Legal(log, s, run)
    ensures var t := After(log, s, run);
            Inv(log, t) && t.subDone && Count(run) + SubRank(t) <= SubRank(s) <= 8
  {
    if run != [] {
      var before, a := run[..|run| - 1], run[|run| - 1];
      SubscriberBounded(log, s, before);
      if OfSub(a) {
        SubForward(log, After(log, s, before), a);
      } else {
        SubUndisturbed(log, After(log, s, before), a);
      }
      InvStep(log, After(log, s, before), a);
    }
  }

  /** A step that the subscriber can take. */
  function SubStep(s: Conn): Action {
    match s.sub
    case Resuming => Check(Unanswered)
    case Attaching => Consume(false)
    case Rechecking => Recheck(Unanswered)
    case Closing => CloseStream
    case Cancelling => CancelSub
    case Releasing => CloseEvents
    case _ => TakeDone
  }

  function WriterStep(s: Conn): Action {
    match s.writer
    case Writing => Write(true)
    case Receiving(_) => if s.reqDone then Abort else SeeClosed
    case _ => Return
  }

  function ConsumerStep(c: C.Consumer): C.Action { if c.phase.Idle? then C.Leave else C.GiveUp }

  /** The connection is cancelled: by its client, the server or its own subscriber. */
  predicate Cancelled(s: Conn) { s.reqDone || s.subDone }

  /**
   Nobody is stuck: once the connection is cancelled, the cancellation can reach the subscription, and
   then each goroutine that has not ended has an enabled step of its own. The handler has one as soon
   as its own context is done, or the subscriber has ended.
   */
  lemma NobodyStuck(log: Log, s: Conn)
    requires Control(log, s) && Cancelled(s)
    ensures !s.subDone ==> Enabled(log, s, Propagate)
    ensures s.subDone && !s.sub.Exited? ==> OfSub(SubStep(s)) && Enabled(log, s, SubStep(s))
    ensures s.subDone && s.consumer.Some? && !s.consumer.value.phase.Gone? ==>
              Enabled(log, s, Consuming(ConsumerStep(s.consumer.value)))
    ensures s.subDone && (s.notifier.Watching? || s.notifier.Forwarding?) ==> Enabled(log, s, GiveUp)
    ensures (s.reqDone || s.sub.Exited?) && !s.writer.Returned? ==>
              OfWriter(WriterStep(s)) && Enabled(log, s, WriterStep(s))
  {
  }

  predicate AllOut(s: Conn) {
    && s.sub.Exited? && s.writer.Returned?
    && (s.notifier.Absent? || s.notifier.Finished?)
    && (s.consumer.Some? ==> s.consumer.value.phase.Gone?)
  }

  /** What is left to do, for the schedule below. */
  function Left(s: Conn): nat {
    SubRank(s) + WriterRank(s) + (if s.notifier.Watching? || s.notifier.Forwarding? then 1 else 0)
    + if s.consumer.None? || s.consumer.value.phase.Gone? then 0 else if s.consumer.value.phase.Idle? then 1 else 2
  }

  function NextStep(s: Conn): Action {
    if s.consumer.Some? && !s.consumer.value.phase.Gone? then Consuming(ConsumerStep(s.consumer.value))
    else if s.notifier.Watching? || s.notifier.Forwarding? then GiveUp
    else if !s.sub.Exited? then SubStep(s)
    else WriterStep(s)
  }

  lemma ConsumerTowards(log: Log, s: Conn)
    requires Control(log, s) && s.subDone && s.consumer.Some? && !s.consumer.value.phase.Gone?
    ensures var a := Consuming(ConsumerStep(s.consumer.value));
            Enabled(log, s, a) && Left(Do(log, s, a)) < Left(s)
  {
  }

  lemma SubTowards(log: Log, s: Conn)
    requires Control(log, s) && s.subDone && !s.sub.Exited?
    requires s.consumer.None? || s.consumer.value.phase.Gone?
    ensures Enabled(log, s, SubStep(s)) && Left(Do(log, s, SubStep(s))) < Left(s)
  {
    NobodyStuck(log, s);
    SubForward(log, s, SubStep(s));
  }

  lemma NotifierTowards(log: Log, s: Conn)
    requires Control(log, s) && s.subDone && (s.notifier.Watching? || s.notifier.Forwarding?)
    ensures Enabled(log, s, GiveUp) && Left(Do(log, s, GiveUp)) < Left(s)
  {
  }

  lemma WriterTowards(log: Log, s: Conn)
    requires Control(log, s) && s.subDone && s.sub.Exited? && !s.writer.Returned?
    ensures Enabled(log, s, WriterStep(s))
    ensures Left(Do(log, s, WriterStep(s))) < Left(s)
  {
  }

  lemma StepTowards(log: Log, s: Conn)
    requires Control(log, s) && s.subDone && !AllOut(s)
    ensures Enabled(log, s, NextStep(s))
    ensures Left(Do(log, s, NextStep(s))) < Left(s)
  {
    if s.consumer.Some? && !s.consumer.value.phase.Gone? {
      ConsumerTowards(log, s);
    } else if s.notifier.Watching? || s.notifier.Forwarding? {
      NotifierTowards(log, s);
    } else if !s.sub.Exited? {
      SubTowards(log, s);
    } else {
      WriterTowards(log, s);
    }
  }

  lemma {:induction false} EndedSchedule(log: Log, s: Conn) returns (run: seq<Action>)
    requires Inv(log, s) && s.subDone
    ensures |run| <= Left(s) <= 15
    ensures Legal(log, s, run) && Inv(log, After(log, s, run)) && AllOut(After(log, s, run))
    decreases Left(s)
  {
    if AllOut(s) {
      run := [];
    } else {
      StepTowards(log, s);
      var a := NextStep(s);
      InvStep(log, s, a);
      var rest := EndedSchedule(log, Do(log, s, a));
      Prepend(log, s, a, rest);
      run := [a] + rest;
    }
  }

  /**
   From every state of a cancelled connection, a schedule of at most 16 steps takes the subscriber,
   the consumer, the notifier and the handler to their exits, with the event channel closed exactly
   once and the stream closed exactly once.
   */
  lemma ShutdownSchedule(log: Log, s: Conn) returns (run: seq<Action>)
    requires Inv(log, s) && Cancelled(s)
    ensures |run| <= 16
    ensures Legal(log, s, run) && AllOut(After(log, s, run))
    ensures After(log, s, run).closes == 1 && After(log, s, run).streamCloses == 1
  {
    if s.subDone {
      run := EndedSchedule(log, s);
    } else {
      InvStep(log, s, Propagate);
      var rest := EndedSchedule(log, Do(log, s, Propagate));
      Prepend(log, s, Propagate, rest);
      run := [Propagate] + rest;
      assert Inv(log, After(log, s, run));
    }
  }
}
