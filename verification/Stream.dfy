/**
 The event log as a stream consumer sees it.

 A run is described against the complete history of the log: the log is append-only, so at any
 moment it is a prefix of that history, of length `avail`. A message's offset is its index.
 */
module EventLog {
  /** What becomes of a message, given the fixed filter, JSON parser and schema of a subscription. */
  datatype Slot =
    | Filtered                                  // never sent on the consumer's channel
    | Malformed                                 // sent, but dropped by events.New or schema.Validate
    | Deliverable(name: string, data: string)   // sent, and forwarded as an event

  type Log = seq<Slot>

  /** The reasons of the error events of a subscription. */
  datatype Reason = Expired | Unknown | QueryError | ConsumeError | StreamClosed

  /** An event that a subscription sends to the HTTP handler. */
  datatype Out =
    | Data(offset: nat, name: string, data: string)
    | Ping(position: nat)                       // 0: a ping without an ID
    | Error(retry: bool, reason: Reason)
  {
    function Id(): nat {
      match this
      case Data(offset, _, _) => offset + 1
      case Ping(position) => position
      case Error(_, _) => 0
    }
  }

  predicate IsDeliverable(log: Log, i: nat) { i < |log| && log[i].Deliverable? }

  /** The events for the deliverable messages with offsets in [lo, hi), in order. */
  function Expected(log: Log, lo: nat, hi: nat): seq<Out> {
    if hi <= lo then []
    else
      Expected(log, lo, hi - 1) +
      if IsDeliverable(log, hi - 1) then [Data(hi - 1, log[hi - 1].name, log[hi - 1].data)] else []
  }

  function DataOf(outs: seq<Out>): seq<Out> {
    if outs == [] then []
    else
      DataOf(outs[..|outs| - 1]) + if outs[|outs| - 1].Data? then [outs[|outs| - 1]] else []
  }

  /** The last non-zero ID in outs, or `id` if there is none. */
  function LastId(outs: seq<Out>, id: nat): nat {
    if outs == [] then id
    else
      var last := outs[|outs| - 1].Id();
      if last != 0 then last else LastId(outs[..|outs| - 1], id)
  }

  lemma {:induction false} ExpectedJoin(log: Log, lo: nat, mid: nat, hi: nat)
    requires lo <= mid <= hi
    ensures Expected(log, lo, hi) == Expected(log, lo, mid) + Expected(log, mid, hi)
  {
    if mid < hi {
      ExpectedJoin(log, lo, mid, hi - 1);
    }
  }

  /** Messages that cannot be delivered do not matter to what is expected. */
  lemma {:induction false} ExpectedQuiet(log: Log, lo: nat, mid: nat, hi: nat)
    requires mid <= hi && forall i :: mid <= i < hi && lo <= i ==> !IsDeliverable(log, i)
    ensures Expected(log, lo, hi) == Expected(log, lo, mid)
  {
    if mid < hi {
      ExpectedQuiet(log, lo, mid, hi - 1);
    }
  }

  /** Expected is what it says: each deliverable message of [lo, hi), and nothing else... */
  lemma {:induction false} ExpectedMembers(log: Log, lo: nat, hi: nat, x: Out)
    ensures x in Expected(log, lo, hi) <==>
            x.Data? && lo <= x.offset < hi && IsDeliverable(log, x.offset)
            && x == Data(x.offset, log[x.offset].name, log[x.offset].data)
  {
    if lo < hi {
      ExpectedMembers(log, lo, hi - 1, x);
    }
  }

  /** ... once each, in the order of the log. */
  lemma {:induction false} ExpectedOrder(log: Log, lo: nat, hi: nat, j: nat, k: nat)
    requires j < k < |Expected(log, lo, hi)|
    ensures Expected(log, lo, hi)[j].Data? && Expected(log, lo, hi)[k].Data?
    ensures Expected(log, lo, hi)[j].offset < Expected(log, lo, hi)[k].offset
  {
    var before := Expected(log, lo, hi - 1);
    if k < |before| {
      ExpectedOrder(log, lo, hi - 1, j, k);
    } else {
      ExpectedMembers(log, lo, hi - 1, before[j]);
    }
  }
}

/** The messages that both kinds of stream send. */
module Messages {
  import opened Sequences

  datatype Message = Message(offset: nat, data: string)

  function Concat(pieces: seq<string>): string {
    if pieces == [] then "" else Concat(pieces[..|pieces| - 1]) + pieces[|pieces| - 1]
  }

  /** Nothing gives nothing, one piece itself, and pieces follow each other in order. */
  lemma {:induction false} ConcatJoins(xs: seq<string>, ys: seq<string>)
    ensures Concat([]) == "" && forall p: string :: Concat([p]) == p
    ensures Concat(xs + ys) == Concat(xs) + Concat(ys)
  {
    forall p: string
      ensures Concat([p]) == p
    {
      assert [p][..0] == [] && "" + p == p;
    }
    if ys == [] {
      assert xs + ys == xs && Concat(xs) + "" == Concat(xs);
    } else {
      var before, last := ys[..|ys| - 1], ys[|ys| - 1];
      assert (xs + ys)[..|xs + ys| - 1] == xs + before;
      ConcatJoins(xs, before);
      Assoc(Concat(xs), Concat(before), last);
    }
  }

  function Offsets(messages: seq<Message>): seq<nat> {
    seq(|messages|, i requires 0 <= i < |messages| => messages[i].offset)
  }

  /** Joining pieces: of a line, as the file reader's inner loop does, or the data sections of a message. */
  method JoinPieces(pieces: seq<string>) returns (event: string)
    ensures event == Concat(pieces)
  {
    event := "";
    var i := 0;
    while i < |pieces|
      invariant i <= |pieces| && event == Concat(pieces[..i])
    {
      event := event + pieces[i];
      assert pieces[..i + 1][..i] == pieces[..i];
      i := i + 1;
    }
    assert pieces[..i] == pieces;
  }

  function Max(a: nat, b: nat): nat { if a < b then b else a }
}

/**
 The contract between a stream's consumer and its subscriber: stream.Stream, in particular Position.

 A Consumer offers the messages from `start` on, one at a time, over an unbuffered channel. Sender
 and receiver both wait in a select that also watches the subscription context, so a goroutine
 blocks (is parked) only while the context is live, and closing the context releases it. A message
 is handed over when one side is parked and the other arrives.
 */
module StreamContract {
  import opened EventLog

  datatype Phase =
    | Idle                      // between two messages
    | Offering(parked: bool)    // in the select that sends message `next`
    | Gone

  /**
   `next` is the first offset neither handed over nor filtered out, `pos` is Position(), and `live`
   tells whether the subscription context is not yet done.
   */
  datatype Consumer = Consumer(start: nat, next: nat, pos: nat, handed: seq<nat>, phase: Phase, live: bool)

  datatype Action =
    | Skip                // filter out message `next`
    | Offer               // enter the select for message `next`
    | Park                // no case of the select is ready: block
    | HandOver            // the subscriber takes message `next`
    | Advance(pos: nat)   // Position changes
    | Close               // the subscription context is done, which releases a parked goroutine
    | GiveUp              // take the select's Done case, without sending
    | Leave

  predicate Enabled(log: Log, avail: nat, c: Consumer, a: Action) {
    match a
    case Skip => c.phase == Idle && c.live && c.next < avail <= |log| && log[c.next].Filtered?
    case Offer => c.phase == Idle && c.next < avail <= |log| && !log[c.next].Filtered?
    case Park => c.phase == Offering(false) && c.live
    case HandOver => c.phase.Offering? && c.live
    case Advance(pos) => c.pos <= pos && c.start <= pos && (c.live ==> pos <= c.next)
    case Close => true
    case GiveUp => c.phase.Offering? && !c.live
    case Leave => c.phase == Idle
  }

  function Do(c: Consumer, a: Action): Consumer {
    match a
    case Skip => c.(next := c.next + 1)
    case Offer => c.(phase := Offering(false))
    case Park => c.(phase := Offering(true))
    case HandOver => c.(next := c.next + 1, handed := c.handed + [c.next], phase := Idle)
    case Advance(pos) => c.(pos := pos)
    case Close => c.(live := false, phase := if c.phase == Offering(true) then Idle else c.phase)
    case GiveUp => c.(phase := Idle)
    case Leave => c.(phase := Gone)
  }

  /** A consumer attached at `start` for a subscription that asked for offset `asked`. */
  function Attach(asked: nat, start: nat, live: bool): Consumer {
    Consumer(start, start, asked, [], Idle, live)
  }

  /** The offsets in [lo, hi) that are sent on the channel. */
  function Forwarded(log: Log, lo: nat, hi: nat): seq<nat> {
    if hi <= lo then []
    else Forwarded(log, lo, hi - 1) + if hi <= |log| && !log[hi - 1].Filtered? then [hi - 1] else []
  }

  lemma {:induction false} ForwardedExact(log: Log, lo: nat, hi: nat, i: nat)
    requires lo <= i < hi && i < |log| && !log[i].Filtered?
    ensures i in Forwarded(log, lo, hi)
  {
    if i < hi - 1 {
      ForwardedExact(log, lo, hi - 1, i);
    }
  }

  /** Nothing else is sent, and in the order of the log. */
  lemma {:induction false} ForwardedOnly(log: Log, lo: nat, hi: nat, j: nat, k: nat)
    requires j <= k < |Forwarded(log, lo, hi)|
    ensures var i := Forwarded(log, lo, hi)[k];
            && lo <= i < hi && i < |log| && !log[i].Filtered?
            && (j < k ==> Forwarded(log, lo, hi)[j] < i)
  {
    var before := Forwarded(log, lo, hi - 1);
    if k < |before| {
      ForwardedOnly(log, lo, hi - 1, j, k);
    } else if j < k {
      ForwardedOnly(log, lo, hi - 1, j, j);
    }
  }

  predicate Inv(log: Log, asked: nat, c: Consumer) {
    && asked <= c.start <= c.next
    && (asked < c.next ==> c.next <= |log|)
    && c.handed == Forwarded(log, c.start, c.next)
    && (c.phase.Offering? ==> c.next < |log| && !log[c.next].Filtered?)
    && (c.phase == Offering(true) ==> c.live)
    && (c.pos == asked || c.start <= c.pos)
    && (c.live ==> c.pos <= c.next)
  }

  /** What Stream.Position promises: every message below it was received or filtered out. */
  predicate PositionSound(log: Log, c: Consumer) {
    forall i :: c.start <= i < c.pos ==> i < |log| && (log[i].Filtered? || i in c.handed)
  }

  lemma InvStep(log: Log, avail: nat, asked: nat, c: Consumer, a: Action)
    requires Inv(log, asked, c) && Enabled(log, avail, c, a)
    ensures Inv(log, asked, Do(c, a)) && c.pos <= Do(c, a).pos
  {
  }

  /** A run: each action with the length that the log has at that moment. */
  datatype Moment = Moment(avail: nat, action: Action)

  predicate Legal(log: Log, c: Consumer, run: seq<Moment>) {
    run == [] ||
    (var m, before := run[|run| - 1], run[..|run| - 1];
     Legal(log, c, before) && Enabled(log, m.avail, After(c, before), m.action))
  }

  function After(c: Consumer, run: seq<Moment>): Consumer {
    if run == [] then c else Do(After(c, run[..|run| - 1]), run[|run| - 1].action)
  }

  lemma Extend(log: Log, c: Consumer, run: seq<Moment>, m: Moment)
    requires Legal(log, c, run) && Enabled(log, m.avail, After(c, run), m.action)
    ensures Legal(log, c, run + [m]) && After(c, run + [m]) == Do(After(c, run), m.action)
  {
    assert (run + [m])[..|run|] == run;
  }

  lemma {:induction false} RunInv(log: Log, asked: nat, start: nat, live: bool, run: seq<Moment>)
    requires asked <= start && (asked < start ==> start <= |log|) && Legal(log, Attach(asked, start, live), run)
    ensures Inv(log, asked, After(Attach(asked, start, live), run))
  {
    if run != [] {
      var before := run[..|run| - 1];
      RunInv(log, asked, start, live, before);
      InvStep(log, run[|run| - 1].avail, asked, After(Attach(asked, start, live), before), run[|run| - 1].action);
    }
  }

  /**
   The Position contract over every run of a consumer: while the subscription is live, each message
   from the start up to the position was received by the subscriber or filtered out.
   */
  lemma PositionContract(log: Log, asked: nat, start: nat, run: seq<Moment>)
    requires asked <= start && (asked < start ==> start <= |log|) && Legal(log, Attach(asked, start, true), run)
    requires After(Attach(asked, start, true), run).live
    ensures PositionSound(log, After(Attach(asked, start, true), run))
  {
    RunInv(log, asked, start, true, run);
    var c := After(Attach(asked, start, true), run);
    forall i | c.start <= i < c.pos
      ensures i < |log| && (log[i].Filtered? || i in c.handed)
    {
      if !log[i].Filtered? {
        ForwardedExact(log, c.start, c.next, i);
      }
    }
  }

  /** It never moves backwards, whatever happens to the context. */
  lemma {:induction false} PositionMonotone(log: Log, c: Consumer, run: seq<Moment>, k: nat)
    requires Legal(log, c, run) && k <= |run|
    ensures Legal(log, c, run[..k]) && After(c, run[..k]).pos <= After(c, run).pos
  {
    if k < |run| {
      assert run[..|run| - 1][..k] == run[..k];
      PositionMonotone(log, c, run[..|run| - 1], k);
    } else {
      assert run[..k] == run;
    }
  }
}
