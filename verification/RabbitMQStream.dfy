/** The broker-backed stream, with its client-side filter. */
module RabbitMQStreams {
  import opened Options
  import opened EventLog
  import opened Messages
  import opened StreamContract

  /** What events.New and schema.Validate make of the joined data sections of a message. */
  datatype Payload = Unparsable | Rejected | Accepted(name: string, data: string)

  /** A message of the broker; `kind` and `meta` are its properties as %s prints them. */
  datatype Entry = Entry(
    identifier: Option<string>, kind: string, meta: string,
    sections: seq<string>, payload: Payload)

  /** The first two guards of handleMessage together with the client's own use of postFilter. */
  predicate Matches(identifier: string, filter: seq<string>, e: Entry) {
    && e.identifier == Some(identifier)
    && (filter == [] || identifier + "." + e.kind + "." + e.meta in filter)
  }

  function SlotOf(identifier: string, filter: seq<string>, e: Entry): Slot {
    if !Matches(identifier, filter, e) || e.sections == [] then Filtered
    else
      match e.payload
      case Unparsable => Malformed
      case Rejected => Malformed
      case Accepted(name, data) => Deliverable(name, data)
  }

  /**
   A message is left out exactly if it is of another run, or not named by a filter that names any, or has no
   data section; and it becomes an event exactly if it is not left out, parses and is valid.
   */
  lemma SlotExactly(identifier: string, filter: seq<string>, e: Entry)
    ensures var slot := SlotOf(identifier, filter, e);
            && (slot.Filtered? <==>
                  || e.identifier != Some(identifier) || |e.sections| == 0
                  || (|filter| > 0 && identifier + "." + e.kind + "." + e.meta !in filter))
            && (!slot.Filtered? ==>
                  if e.payload.Accepted? then slot == Deliverable(e.payload.name, e.payload.data)
                  else slot == Malformed)
  {
  }

  /** The broker's history as the subscription with this identifier and filter sees it. */
  function Slots(identifier: string, filter: seq<string>, entries: seq<Entry>): Log {
    seq(|entries|, i requires 0 <= i < |entries| => SlotOf(identifier, filter, entries[i]))
  }

  /** A message of the stream reaching the consumer; `done`: the subscription context is done by then. */
  datatype Delivery =
    | Omitted                   // left out by the broker's own filter
    | Dispatched(done: bool)

  predicate AllLive(deliveries: seq<Delivery>) {
    forall d :: d in deliveries && d.Dispatched? ==> !d.done
  }

  /** The broker leaves out no message that matches, and a context that is done stays done. */
  predicate Plausible(identifier: string, filter: seq<string>, entries: seq<Entry>, at: nat,
                      deliveries: seq<Delivery>, i: nat)
    requires i < |deliveries| && at + |deliveries| <= |entries|
  {
    match deliveries[i]
    case Omitted => !Matches(identifier, filter, entries[at + i])
    case Dispatched(done) => done || AllLive(deliveries[..i])
  }

  /** What a subscriber gets out of these deliveries. */
  function Sent(identifier: string, filter: seq<string>, entries: seq<Entry>, at: nat,
                deliveries: seq<Delivery>): seq<Message>
    requires at + |deliveries| <= |entries|
  {
    if deliveries == [] then []
    else
      var o := at + |deliveries| - 1;
      var sent := deliveries[|deliveries| - 1] == Dispatched(false)
                  && !SlotOf(identifier, filter, entries[o]).Filtered?;
      Sent(identifier, filter, entries, at, deliveries[..|deliveries| - 1]) +
      if sent then [Message(o, Concat(entries[o].sections))] else []
  }

  /** The offsets of the matching messages that these deliveries drop, because the context is done. */
  function Lost(identifier: string, filter: seq<string>, entries: seq<Entry>, at: nat,
                deliveries: seq<Delivery>): seq<nat>
    requires at + |deliveries| <= |entries|
  {
    if deliveries == [] then []
    else
      var o := at + |deliveries| - 1;
      Lost(identifier, filter, entries, at, deliveries[..|deliveries| - 1]) +
      if Drops(identifier, filter, entries[o], deliveries[|deliveries| - 1]) then [o] else []
  }

  /** The delivery drops a message that the subscription asked for. */
  predicate Drops(identifier: string, filter: seq<string>, e: Entry, d: Delivery) {
    d == Dispatched(true) && !SlotOf(identifier, filter, e).Filtered?
  }

  /** The offset of the last message that the consumer dispatched. */
  function LastOffset(at: nat, deliveries: seq<Delivery>): nat {
    if deliveries == [] then 0
    else if deliveries[|deliveries| - 1].Dispatched? then at + |deliveries| - 1
    else LastOffset(at, deliveries[..|deliveries| - 1])
  }

  /** A matching message was dispatched after cancellation, and another message after it. */
  predicate Overtakes(identifier: string, filter: seq<string>, entries: seq<Entry>, at: nat,
                      deliveries: seq<Delivery>)
    requires at + |deliveries| <= |entries|
  {
    exists i, j :: 0 <= i < j < |deliveries| && Drops(identifier, filter, entries[at + i], deliveries[i])
                   && deliveries[j].Dispatched?
  }

  lemma {:induction false} LostExactly(identifier: string, filter: seq<string>, entries: seq<Entry>, at: nat,
                                       deliveries: seq<Delivery>, o: nat)
    requires at + |deliveries| <= |entries|
    ensures o in Lost(identifier, filter, entries, at, deliveries)
            <==> at <= o < at + |deliveries| && Drops(identifier, filter, entries[o], deliveries[o - at])
  {
    if deliveries != [] {
      LostExactly(identifier, filter, entries, at, deliveries[..|deliveries| - 1], o);
    }
  }

  lemma {:induction false} SentExactly(identifier: string, filter: seq<string>, entries: seq<Entry>, at: nat,
                                       deliveries: seq<Delivery>, m: Message)
    requires at + |deliveries| <= |entries|
    ensures m in Sent(identifier, filter, entries, at, deliveries)
            <==> at <= m.offset < at + |deliveries| && deliveries[m.offset - at] == Dispatched(false)
                 && !SlotOf(identifier, filter, entries[m.offset]).Filtered?
                 && m.data == Concat(entries[m.offset].sections)
  {
    if deliveries != [] {
      SentExactly(identifier, filter, entries, at, deliveries[..|deliveries| - 1], m);
    }
  }

  lemma {:induction false} SentOrder(identifier: string, filter: seq<string>, entries: seq<Entry>, at: nat,
                                     deliveries: seq<Delivery>, j: nat, k: nat)
    requires at + |deliveries| <= |entries| && j < k < |Sent(identifier, filter, entries, at, deliveries)|
    ensures var sent := Sent(identifier, filter, entries, at, deliveries); sent[j].offset < sent[k].offset
  {
    var before := Sent(identifier, filter, entries, at, deliveries[..|deliveries| - 1]);
    if k < |before| {
      SentOrder(identifier, filter, entries, at, deliveries[..|deliveries| - 1], j, k);
    } else {
      SentExactly(identifier, filter, entries, at, deliveries[..|deliveries| - 1], before[j]);
    }
  }

  lemma {:induction false} LastOffsetExactly(at: nat, deliveries: seq<Delivery>, o: nat)
    requires at <= o < at + |deliveries|
    ensures o < LastOffset(at, deliveries) <==> exists j :: o - at < j < |deliveries| && deliveries[j].Dispatched?
  {
    var n := |deliveries| - 1;
    if deliveries[n].Dispatched? {
      assert o < at + n ==> o - at < n < |deliveries| && deliveries[n].Dispatched?;
    } else if o < at + n {
      LastOffsetExactly(at, deliveries[..n], o);
      if j :| o - at < j < |deliveries| && deliveries[j].Dispatched? {
        assert deliveries[..n][j].Dispatched?;
      }
    } else {
      LastOffsetBelow(at, deliveries[..n]);
    }
  }

  lemma {:induction false} LastOffsetBelow(at: nat, deliveries: seq<Delivery>)
    ensures LastOffset(at, deliveries) <= at + |deliveries|
  {
    if deliveries != [] {
      LastOffsetBelow(at, deliveries[..|deliveries| - 1]);
    }
  }

  /** No lost message lies below the position if and only if none was overtaken. */
  lemma LostBelow(identifier: string, filter: seq<string>, entries: seq<Entry>, start: nat, at: nat,
                  deliveries: seq<Delivery>)
    requires start <= at && at + |deliveries| <= |entries|
    ensures (forall d :: d in Lost(identifier, filter, entries, at, deliveries)
                         ==> Max(start, LastOffset(at, deliveries)) <= d)
            <==> !Overtakes(identifier, filter, entries, at, deliveries)
  {
    var lost := Lost(identifier, filter, entries, at, deliveries);
    if i, j :| 0 <= i < j < |deliveries| && Drops(identifier, filter, entries[at + i], deliveries[i])
               && deliveries[j].Dispatched? {
      LostExactly(identifier, filter, entries, at, deliveries, at + i);
      LastOffsetExactly(at, deliveries, at + i);
      assert at + i in lost;
    } else {
      forall d | d in lost
        ensures Max(start, LastOffset(at, deliveries)) <= d
      {
        LostExactly(identifier, filter, entries, at, deliveries, d);
        LastOffsetExactly(at, deliveries, d);
      }
    }
  }

  /** Each message from `next` to `reached` was filtered out or dropped, and none was while live. */
  predicate Accounted(log: Log, live: bool, next: nat, dropped: seq<nat>, reached: nat) {
    && next <= reached && (live ==> next == reached && dropped == [])
    && (forall k :: next <= k < reached && k < |log| ==> log[k].Filtered? || k in dropped)
    && (forall d :: d in dropped ==> d < |log| && next <= d && !log[d].Filtered?)
  }

  lemma AccountOne(log: Log, live: bool, next: nat, dropped: seq<nat>, o: nat, live': bool, next': nat)
    requires Accounted(log, live, next, dropped, o) && o < |log|
    requires (live' ==> live) && next' == next + if live' then 1 else 0
    ensures log[o].Filtered? || live' ==> Accounted(log, live', next', dropped, o + 1)
    ensures !log[o].Filtered? && !live' ==> Accounted(log, live', next', dropped + [o], o + 1)
  {
  }

  lemma DeliverySnoc(identifier: string, filter: seq<string>, entries: seq<Entry>, at: nat,
                     deliveries: seq<Delivery>, i: nat)
    requires i < |deliveries| && at + |deliveries| <= |entries|
    ensures var sent := deliveries[i] == Dispatched(false) && !SlotOf(identifier, filter, entries[at + i]).Filtered?;
            Sent(identifier, filter, entries, at, deliveries[..i + 1]) ==
            Sent(identifier, filter, entries, at, deliveries[..i]) +
            if sent then [Message(at + i, Concat(entries[at + i].sections))] else []
    ensures Lost(identifier, filter, entries, at, deliveries[..i + 1]) ==
            Lost(identifier, filter, entries, at, deliveries[..i]) +
            if Drops(identifier, filter, entries[at + i], deliveries[i]) then [at + i] else []
    ensures LastOffset(at, deliveries[..i + 1]) ==
            if deliveries[i].Dispatched? then at + i else LastOffset(at, deliveries[..i])
  {
    assert deliveries[..i + 1][..i] == deliveries[..i];
  }

  lemma AllLiveSnoc(deliveries: seq<Delivery>, i: nat)
    requires i < |deliveries|
    ensures AllLive(deliveries[..i + 1])
            <==> AllLive(deliveries[..i]) && !(deliveries[i].Dispatched? && deliveries[i].done)
  {
    assert deliveries[..i + 1] == deliveries[..i] + [deliveries[i]];
  }

  /** Where the options tell the broker to attach a consumer. */
  datatype OffsetSpec = FirstRetained | At(offset: nat)

  function AttachesAt(spec: OffsetSpec, retained: nat): nat {
    match spec
    case FirstRetained => retained
    case At(offset) => Max(offset, retained)
  }

  class RabbitMQStream {
    const identifier: string
    var filter: seq<string>
    var start: nat
    var offsetSpec: OffsetSpec      // in the options of the consumer
    var registered: seq<string>     // the filter in the options, with PostFilter beside it; [] for none
    var consuming: bool
    var offset: nat             // the consumer's GetOffset
    var received: seq<Message>
    var dropped: seq<nat>       // the messages whose send gave up because the context was done

    // The run of the stream contract that this stream has made, from an attachment at `first`.
    ghost var first: nat
    ghost var run: seq<Moment>
    ghost var c: Consumer

    ghost predicate Valid(log: Log)
      reads this
    {
      && consuming && Configured() && start <= first && Run(log)
      && c.start == first && c.handed == Offsets(received) && c.phase == Idle
    }

    /** The options of the consumer agree with the fields of the stream. */
    ghost predicate Configured()
      reads this
    {
      && (filter != [] ==> registered == filter)
      && match offsetSpec
         case FirstRetained => start == 0
         case At(offset) => start == offset
    }

    constructor (identifier: string)
      ensures this.identifier == identifier && filter == [] && start == 0 && !consuming
      ensures offsetSpec == FirstRetained && registered == [] && received == [] && dropped == []
    {
      this.identifier := identifier;
      filter, start, consuming, offset, received, dropped := [], 0, false, 0, [], [];
      offsetSpec, registered := FirstRetained, [];
    }

    /** A negative offset is OffsetFirst. */
    method WithOffset(offset: int)
      requires !consuming && Configured()
      modifies this`start, this`offsetSpec
      ensures Configured() && offsetSpec == (if offset < 0 then FirstRetained else At(offset))
      ensures Position() == if offset < 0 then 0 else offset
    {
      if offset < 0 {
        start := 0;
        offsetSpec := FirstRetained;
      } else {
        start := offset;
        offsetSpec := At(offset);
      }
    }

    /** An empty filter does not take back the options of an earlier one. */
    method WithFilter(filter: seq<string>)
      requires !consuming && Configured()
      modifies this`filter, this`registered
      ensures Configured() && this.filter == filter
      ensures registered == if filter == [] then old(registered) else filter
    {
      this.filter := filter;
      if |filter| > 0 {
        registered := filter;
      }
    }

    function Position(): nat
      reads this
    {
      if !consuming then start else Max(start, offset)
    }

    function PostFilter(e: Entry): (keep: bool)
      reads this
      ensures keep <==> Matches(identifier, filter, e)
      ensures keep ==> e.identifier == Some(identifier)
    {
      if e.identifier.None? || e.identifier.value != identifier then false
      else if |filter| == 0 then true
      else
        var name := e.identifier.value + "." + e.kind + "." + e.meta;
        name in filter
    }

    /**
     The consumer callback for the message at `offset`, whose send succeeds unless the context is
     done: it forwards the joined sections exactly if the message is not filtered out.
     */
    method HandleMessage(e: Entry, done: bool)
      requires |filter| > 0 ==> PostFilter(e)
      modifies this`received, this`dropped
      ensures var sends := Matches(identifier, filter, e) && |e.sections| > 0;
              received == old(received) + (if sends && !done then [Message(offset, Concat(e.sections))] else [])
              && dropped == old(dropped) + if sends && done then [offset] else []
    {
      if |filter| == 0 && !PostFilter(e) {
        return;
      }
      if |e.sections| == 0 {
        return;
      }
      var data := JoinPieces(e.sections);
      if done {
        dropped := dropped + [offset];
      } else {
        received := received + [Message(offset, data)];
      }
    }

    /**
     Consuming from the attachment at `at`, when `retained` is the first retained offset, given how the
     messages from there reach the consumer. This is a run of the stream contract, so everything
     proved about those runs holds of it. The position is sound unless a matching message was
     dispatched after cancellation and another message after it.
     */
    method Consume(entries: seq<Entry>, ghost retained: nat, at: nat, deliveries: seq<Delivery>)
      requires !consuming && Configured() && at == AttachesAt(offsetSpec, retained) && at + |deliveries| <= |entries|
      requires received == [] && dropped == []
      requires forall i :: 0 <= i < |deliveries| ==> Plausible(identifier, filter, entries, at, deliveries, i)
      modifies this`consuming, this`offset, this`received, this`dropped, this`first, this`run, this`c
      ensures Valid(Slots(identifier, filter, entries)) && c.pos == Position()
      ensures c.live <==> AllLive(deliveries)
      ensures c.live ==> dropped == [] && c.next == at + |deliveries|
      ensures received == Sent(identifier, filter, entries, at, deliveries)
      ensures dropped == Lost(identifier, filter, entries, at, deliveries)
      ensures Position() == Max(start, LastOffset(at, deliveries))
      ensures PositionSound(Slots(identifier, filter, entries), c)
              <==> !Overtakes(identifier, filter, entries, at, deliveries)
    {
      consuming, offset := true, 0;
      first, run, c := at, [], Attach(start, at, true);
      Attached(entries, at, deliveries);
      DeliverAll(entries, at, deliveries);
      assert deliveries[..|deliveries|] == deliveries;
      Soundness(Slots(identifier, filter, entries), start, c, dropped, at + |deliveries|);
      LostBelow(identifier, filter, entries, start, at, deliveries);
    }

    lemma Attached(entries: seq<Entry>, at: nat, deliveries: seq<Delivery>)
      requires consuming && Configured() && offset == 0 && first == at && run == [] && c == Attach(start, at, true)
      requires start <= at && at + |deliveries| <= |entries| && received == [] && dropped == []
      ensures Reached(entries, at, deliveries, 0)
    {
      assert deliveries[..0] == [];
    }

    method DeliverAll(entries: seq<Entry>, at: nat, deliveries: seq<Delivery>)
      requires at + |deliveries| <= |entries| && Reached(entries, at, deliveries, 0)
      requires forall i :: 0 <= i < |deliveries| ==> Plausible(identifier, filter, entries, at, deliveries, i)
      modifies this`offset, this`received, this`dropped, this`run, this`c
      ensures Reached(entries, at, deliveries, |deliveries|)
    {
      var i := 0;
      while i < |deliveries|
        invariant i <= |deliveries| && filter == old(filter) && Reached(entries, at, deliveries, i)
      {
        Deliver(entries, at, deliveries, i);
        i := i + 1;
      }
    }

    /** The state of the consumer once the first `i` deliveries were made. */
    ghost predicate Reached(entries: seq<Entry>, at: nat, deliveries: seq<Delivery>, i: nat)
      requires i <= |deliveries| && at + |deliveries| <= |entries|
      reads this
    {
      && first == at
      && Upto(Slots(identifier, filter, entries), at + i,
              Sent(identifier, filter, entries, at, deliveries[..i]), AllLive(deliveries[..i]))
      && dropped == Lost(identifier, filter, entries, at, deliveries[..i])
      && offset == LastOffset(at, deliveries[..i])
    }

    /** Everything before offset `o` is dealt with, with these messages received. */
    ghost predicate Upto(log: Log, o: nat, messages: seq<Message>, live: bool)
      reads this
    {
      && Valid(log) && first <= o
      && c.pos == Position() <= Max(start, o) && offset <= o
      && c.live == live && Accounted(log, live, c.next, dropped, o)
      && received == messages
    }

    method Deliver(entries: seq<Entry>, at: nat, deliveries: seq<Delivery>, i: nat)
      requires i < |deliveries| && at + |deliveries| <= |entries| && Reached(entries, at, deliveries, i)
      requires Plausible(identifier, filter, entries, at, deliveries, i)
      modifies this`offset, this`received, this`dropped, this`run, this`c
      ensures Reached(entries, at, deliveries, i + 1)
    {
      DeliverySnoc(identifier, filter, entries, at, deliveries, i);
      AllLiveSnoc(deliveries, i);
      match deliveries[i] {
        case Omitted =>
          DeliverOmitted(entries, at, deliveries, i);
        case Dispatched(done) =>
          DeliverDispatched(entries, at, deliveries, i, done);
      }
    }

    /** What the deliveries up to the next one come to, in terms of those before it. */
    ghost predicate Next(entries: seq<Entry>, at: nat, deliveries: seq<Delivery>, i: nat,
                         messages: seq<Message>, lost: seq<nat>, last: nat, live: bool)
      requires i < |deliveries| && at + |deliveries| <= |entries|
      reads this
    {
      && Sent(identifier, filter, entries, at, deliveries[..i + 1]) == messages
      && Lost(identifier, filter, entries, at, deliveries[..i + 1]) == lost
      && LastOffset(at, deliveries[..i + 1]) == last && AllLive(deliveries[..i + 1]) == live
    }

    ghost method DeliverOmitted(entries: seq<Entry>, at: nat, deliveries: seq<Delivery>, i: nat)
      requires i < |deliveries| && at + |deliveries| <= |entries| && Reached(entries, at, deliveries, i)
      requires !Matches(identifier, filter, entries[at + i])
      requires Next(entries, at, deliveries, i, received, dropped, offset, c.live)
      modifies this`run, this`c
      ensures Reached(entries, at, deliveries, i + 1)
    {
      Omit(Slots(identifier, filter, entries), at + i);
    }

    method DeliverDispatched(entries: seq<Entry>, at: nat, deliveries: seq<Delivery>, i: nat, done: bool)
      requires i < |deliveries| && at + |deliveries| <= |entries| && Reached(entries, at, deliveries, i)
      requires c.live || done
      requires var wanted := !SlotOf(identifier, filter, entries[at + i]).Filtered?;
               Next(entries, at, deliveries, i,
                    received + (if !done && wanted then [Message(at + i, Concat(entries[at + i].sections))] else []),
                    dropped + (if done && wanted then [at + i] else []), at + i, c.live && !done)
      modifies this`offset, this`received, this`dropped, this`run, this`c
      ensures Reached(entries, at, deliveries, i + 1)
    {
      Receive(entries, Slots(identifier, filter, entries), at + i, done);
    }

    ghost method Omit(log: Log, o: nat)
      requires o < |log| && log[o].Filtered? && Upto(log, o, received, c.live)
      modifies this`run, this`c
      ensures Upto(log, o + 1, received, c.live) && c.live == old(c.live)
    {
      ghost var b := c;
      if c.live {
        Step(log, o + 1, Skip);
      }
      AccountOne(log, b.live, b.next, dropped, o, c.live, c.next);
    }

    method Receive(entries: seq<Entry>, ghost log: Log, o: nat, done: bool)
      requires log == Slots(identifier, filter, entries) && o < |entries|
      requires Upto(log, o, received, c.live) && (!c.live ==> done)
      modifies this`offset, this`received, this`dropped, this`run, this`c
      ensures offset == o
      ensures dropped == old(dropped) + if done && !log[o].Filtered? then [o] else []
      ensures Upto(log, o + 1,
                   old(received) + if !done && !log[o].Filtered? then [Message(o, Concat(entries[o].sections))] else [],
                   old(c.live) && !done)
    {
      ghost var b, lost := c, dropped;
      Dispatch(entries, log, o, done);
      AccountOne(log, b.live, b.next, lost, o, c.live, c.next);
    }

    /** The client library dispatching the message at offset `o`. */
    method Dispatch(entries: seq<Entry>, ghost log: Log, o: nat, done: bool)
      requires log == Slots(identifier, filter, entries) && Valid(log) && o < |entries|
      requires first <= o && Position() <= Max(start, o) && (c.live ==> c.next == o) && c.pos == Position()
      requires !c.live ==> done
      modifies this`offset, this`received, this`dropped, this`run, this`c
      ensures Valid(log) && offset == o && c.pos == Position()
      ensures c.live <==> old(c.live) && !done
      ensures c.live ==> c.next == o + 1
      ensures !c.live ==> c.next == old(c.next)
      ensures dropped == old(dropped) + if done && !log[o].Filtered? then [o] else []
      ensures received == old(received) +
                          if !done && !log[o].Filtered? then [Message(o, Concat(entries[o].sections))] else []
    {
      hide Legal, After;
      offset := o;
      if |registered| == 0 || PostFilter(entries[o]) {
        HandleMessage(entries[o], done);
      }
      Follow(log, o, done);
    }

    /** The contract actions that a dispatch stands for. */
    ghost method Follow(log: Log, o: nat, done: bool)
      requires consuming && start <= first <= o < |log| && (c.live ==> c.next == o) && (!c.live ==> done)
      requires Run(log) && c.start == first && c.phase == Idle && c.pos <= Max(start, o)
      modifies this`run, this`c
      ensures Run(log) && c.start == first && c.phase == Idle && c.pos == Max(start, o)
      ensures c.live <==> old(c.live) && !done
      ensures c.next == old(c.next) + if c.live then 1 else 0
      ensures c.handed == old(c.handed) + if !done && !log[o].Filtered? then [o] else []
    {
      Step(log, o + 1, Advance(Max(start, o)));
      if c.live {
        if done {
          Step(log, o + 1, Close);
        } else if log[o].Filtered? {
          Step(log, o + 1, Skip);
        } else {
          Step(log, o + 1, Offer);
          Step(log, o + 1, HandOver);
        }
      }
    }

    ghost predicate Run(log: Log)
      reads this
    {
      && Legal(log, Attach(start, first, true), run)
      && c == After(Attach(start, first, true), run)
      && Inv(log, start, c)
    }

    ghost method Step(log: Log, avail: nat, a: Action)
      requires Run(log) && Enabled(log, avail, c, a)
      modifies this`run, this`c
      ensures Run(log) && c == Do(old(c), a)
    {
      Extend(log, Attach(start, first, true), run, Moment(avail, a));
      InvStep(log, avail, start, c, a);
      run, c := run + [Moment(avail, a)], Do(c, a);
    }
  }

  /** Which positions of an ended subscription are sound. */
  lemma Soundness(log: Log, asked: nat, c: Consumer, dropped: seq<nat>, reached: nat)
    requires Inv(log, asked, c) && c.pos <= Max(c.next, reached) && reached <= |log|
    requires Accounted(log, c.live, c.next, dropped, reached)
    ensures PositionSound(log, c) <==> forall d :: d in dropped ==> c.pos <= d
  {
    forall i | i in c.handed
      ensures i < c.next
    {
      HandedBelowNext(log, c.start, c.next, i);
    }
    forall i | c.start <= i < c.next
      ensures log[i].Filtered? || i in c.handed
    {
      if !log[i].Filtered? {
        ForwardedExact(log, c.start, c.next, i);
      }
    }
  }

  lemma {:induction false} HandedBelowNext(log: Log, lo: nat, hi: nat, i: nat)
    requires i in Forwarded(log, lo, hi)
    ensures i < hi
  {
    if i != hi - 1 {
      HandedBelowNext(log, lo, hi - 1, i);
    }
  }

  /**
   Position does overstate progress after cancellation: with two matching messages whose sends give
   up, it reports 1 although the message at offset 0 was neither received nor filtered out.
   */
  method OverstatedPosition(first: Entry, second: Entry) returns (position: nat, received: seq<Message>)
    requires Matches("run", [], first) && first.sections != []
    ensures position == 1 && received == []
  {
    var stream := new RabbitMQStream("run");
    var deliveries := [Dispatched(true), Dispatched(true)];
    stream.Consume([first, second], 0, 0, deliveries);
    assert deliveries[..1] == [Dispatched(true)] && [Dispatched(true)][..0] == [];
    assert Sent("run", [], [first, second], 0, []) == [];
    assert Sent("run", [], [first, second], 0, deliveries[..1]) == [];
    position := stream.Position();
    received := stream.received;
  }
}
