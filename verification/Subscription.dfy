/**
 One connection of the v2alpha event stream as a state machine: the subscriber goroutine, the
 consumer of the stream, its close notifier, the HTTP handler, and the contexts that end them.

 An action is one atomic step of one goroutine. A select blocks (parks) only while none of its
 cases is ready, and closing a context releases every goroutine parked on it through the Done
 case; a message passes an unbuffered channel when one side is parked and the other arrives.
 That nothing passes any more once the subscription context is done is a theorem here.
 */
module Subscription {
  import opened Options
  import opened EventLog
  import opened Resumption
  import C = StreamContract

  /** The subscriber goroutine. */
  datatype Sub =
    | Resuming                              // before the first retention check
    | Attaching                             // before Consume
    | Rechecking                            // before the second retention check
    | Selecting(parked: bool)               // in the main select
    | Sending(out: Out, parked: bool)       // in the select that sends an event
    | Failing(out: Out, parked: bool)       // in the select of sendError
    | Closing                               // returning: streamer.Close() is next
    | Cancelling                            // cancel() is next
    | Releasing                             // close(ch) is next
    | Exited

  /** The HTTP handler. */
  datatype Writer =
    | Receiving(parked: bool)
    | Writing
    | Returning                             // the deferred cancel() is next
    | Returned

  /** The goroutine that forwards a close of the broker, or the file reader's own closing. */
  datatype Notifier = Absent | Watching | Forwarding | Finished

  datatype Conn = Conn(
    resume: nat,                // the client's last received ID, 0 for none
    first: nat,                 // the first retained offset
    avail: nat,                 // the length of the log
    reqDone: bool,              // the handler's context is done
    subDone: bool,              // the subscription's context is done
    sub: Sub,
    lastID: nat,
    consumer: Option<C.Consumer>,
    unchecked: bool,            // the second retention query returned no offset: it failed, or found the stream empty
    notifier: Notifier,
    closedError: bool,          // an error waits in the closed channel
    closedShut: bool,           // the closed channel is closed
    writer: Writer,
    outs: seq<Out>,             // what the handler has received from the event channel
    streamCloses: nat,          // calls of streamer.Close()
    closes: nat)                // calls of close(ch)

  /** Whether a query of the first offset succeeds; the answer is an offset, or that the stream is empty. */
  datatype Answer = Answered | Unanswered

  datatype Action =
    // the environment
    | Append | Retain(first: nat) | EndRequest | Propagate
    // the subscriber
    | Check(answer: Answer) | Consume(ok: bool) | Recheck(answer: Answer)
    | Tick | Closed | ParkSub | TakeDone | CloseStream | CancelSub | CloseEvents
    // two goroutines meeting at a channel
    | TakeMessage | SendEvent
    // the consumer, other than handing over a message
    | Consuming(action: C.Action)
    // the close notifier
    | Notice | Forward | GiveUp | ShutClosed
    // the handler
    | ParkWriter | Abort | SeeClosed | Write(ok: bool) | Return

  function QueryOf(s: Conn, answer: Answer): Query {
    match answer
    case Unanswered => QueryFailed
    case Answered => if s.first < s.avail then First(s.first) else EmptyStream
  }

  predicate SubParked(s: Conn) {
    match s.sub
    case Selecting(parked) => parked
    case Sending(_, parked) => parked
    case Failing(_, parked) => parked
    case _ => false
  }

  predicate InSelect(s: Conn) { s.sub.Selecting? || s.sub.Sending? || s.sub.Failing? }

  predicate Offering(s: Conn) { s.consumer.Some? && s.consumer.value.phase.Offering? }

  predicate Enabled(log: Log, s: Conn, a: Action) {
    match a
    case Append => s.avail < |log|
    case Retain(first) => s.first <= first <= s.avail
    case EndRequest => !s.reqDone
    case Propagate => s.reqDone && !s.subDone
    case Check(_) => s.sub.Resuming?
    case Consume(_) => s.sub.Attaching?
    case Recheck(_) => s.sub.Rechecking?
    case Tick => s.sub.Selecting? && s.consumer.Some?
    case Closed => s.sub.Selecting? && (s.closedError || s.closedShut)
    case ParkSub =>
      InSelect(s) && !SubParked(s) && !s.subDone
      && (s.sub.Selecting? ==> !s.closedError && !s.closedShut && !(Offering(s) && s.consumer.value.phase.parked))
      && (!s.sub.Selecting? ==> s.writer != Receiving(true))
    case TakeDone => InSelect(s) && s.subDone
    case CloseStream => s.sub.Closing?
    case CancelSub => s.sub.Cancelling?
    case CloseEvents => s.sub.Releasing?
    case TakeMessage =>
      s.sub.Selecting? && Offering(s) && s.sub.parked != s.consumer.value.phase.parked
    case SendEvent =>
      (s.sub.Sending? || s.sub.Failing?) && s.writer.Receiving? && s.sub.parked != s.writer.parked
    case Consuming(action) =>
      s.consumer.Some? && !action.HandOver? && !action.Close?
      && C.Enabled(log, s.avail, s.consumer.value, action)
      && (action.Park? ==> !(s.sub.Selecting? && s.sub.parked))
    case Notice => s.notifier.Watching?
    case Forward => s.notifier.Forwarding?
    case GiveUp => (s.notifier.Watching? || s.notifier.Forwarding?) && s.subDone
    case ShutClosed => s.consumer.Some? && s.consumer.value.phase.Gone? && !s.closedShut
    case ParkWriter =>
      s.writer == Receiving(false) && !s.reqDone && s.closes == 0
      && !((s.sub.Sending? || s.sub.Failing?) && s.sub.parked)
    case Abort => s.writer.Receiving? && s.reqDone
    case SeeClosed => s.writer.Receiving? && s.closes > 0
    case Write(_) => s.writer.Writing?
    case Return => s.writer.Returning?
  }

  /** The subscription context becomes done, which releases the goroutines parked on it. */
  function EndSub(s: Conn): Conn {
    s.(subDone := true,
       sub := if SubParked(s) then Closing else s.sub,
       consumer := if s.consumer.Some? then Some(C.Do(s.consumer.value, C.Close)) else None)
  }

  /** The handler's context becomes done. */
  function EndReq(s: Conn): Conn {
    s.(reqDone := true, writer := if s.writer == Receiving(true) then Returning else s.writer)
  }

  /** A ping, and the subscriber's lastID with it. */
  function PingAt(position: nat, lastID: nat): (Out, nat) {
    if position > lastID then (Ping(position), position) else (Ping(0), lastID)
  }

  /** The handler takes the event in hand. */
  function PassOn(s: Conn): Conn
    requires s.sub.Sending? || s.sub.Failing?
  {
    s.(outs := s.outs + [s.sub.out], writer := Writing,
       lastID := if s.sub.out.Data? then s.sub.out.offset + 1 else s.lastID,
       sub := if s.sub.Sending? then Selecting(false) else Closing)
  }

  function OnMessage(log: Log, s: Conn, offset: nat): Sub {
    if IsDeliverable(log, offset) then Sending(Data(offset, log[offset].name, log[offset].data), false)
    else Selecting(false)
  }

  function Do(log: Log, s: Conn, a: Action): (t: Conn)
    requires Enabled(log, s, a)
    ensures t.resume == s.resume && (s.subDone ==> t.subDone) && s.first <= t.first
    ensures s.consumer.Some? && !a.Consume? ==> t.consumer.Some? && t.consumer.value.start == s.consumer.value.start
  {
    match a
    case Append => s.(avail := s.avail + 1)
    case Retain(first) => s.(first := first)
    case EndRequest => EndReq(s)
    case Propagate => EndSub(s)
    case Check(answer) =>
      (match ResumeOffset(QueryOf(s, answer), s.resume)
       case Refuse(retry, reason) => s.(sub := Failing(Error(retry, reason), false))
       case _ => s.(sub := Attaching))
    case Consume(ok) =>
      if !ok then s.(sub := Failing(Error(true, ConsumeError), false))
      else
        s.(consumer := Some(C.Attach(s.resume, StartOf(s.resume, s.first), !s.subDone)),
           notifier := Watching,
           sub := if s.resume > 0 then Rechecking else Selecting(false))
    case Recheck(answer) =>
      if RecheckRefuses(QueryOf(s, answer), s.resume) then s.(sub := Failing(Error(false, Expired), false))
      else s.(sub := Selecting(false), unchecked := !QueryOf(s, answer).First?)
    case Tick =>
      var (ping, lastID) := PingAt(s.consumer.value.pos, s.lastID);
      s.(sub := Sending(ping, false), lastID := lastID)
    case Closed =>
      var ok := s.closedError;
      if !ok || s.subDone then s.(sub := Closing, closedError := false)
      else s.(sub := Failing(Error(true, StreamClosed), false), closedError := false)
    case ParkSub => s.(sub := s.sub.(parked := true))
    case TakeDone => s.(sub := Closing)
    case CloseStream => s.(sub := Cancelling, streamCloses := s.streamCloses + 1)
    case CancelSub => EndSub(s.(sub := Releasing))
    case CloseEvents => s.(sub := Exited, closes := s.closes + 1)
    case TakeMessage =>
      var c := s.consumer.value;
      s.(consumer := Some(C.Do(c, C.HandOver)), sub := OnMessage(log, s, c.next))
    case SendEvent => PassOn(s)
    case Consuming(action) => s.(consumer := Some(C.Do(s.consumer.value, action)))
    case Notice => s.(notifier := Forwarding)
    case Forward => s.(notifier := Finished, closedError := true)
    case GiveUp => s.(notifier := Finished)
    case ShutClosed => s.(notifier := Finished, closedShut := true)
    case ParkWriter => s.(writer := Receiving(true))
    case Abort => s.(writer := Returning)
    case SeeClosed => s.(writer := Returning)
    case Write(ok) => s.(writer := if ok then Receiving(false) else Returning)
    case Return => EndReq(s.(writer := Returned))
  }
}
