/** The two loops of the v2alpha handler that work on variables: the subscriber's, and cleanFilter. */
module SubscriberLoop {
  import opened EventLog
  import opened Subscription
  import opened SubscriptionProofs

  /** What one round of the subscriber's select loop meets, up to its end; `sent`: the handler took the event. */
  datatype Round =
    | Done
    | Tick(position: nat, sent: bool)
    | Message(offset: nat, slot: Slot, sent: bool)
    | Ended(error: bool, done: bool, sent: bool)    // the closed channel: an error or its closing

  /** What the loop has sent so far, its lastID, and whether it still runs. */
  datatype State = State(sent: seq<Out>, lastID: nat, running: bool)

  function Step(s: State, r: Round): State {
    if !s.running then s
    else
      match r
      case Done => s.(running := false)
      case Tick(position, sent) =>
        var (ping, lastID) := PingAt(position, s.lastID);
        if sent then State(s.sent + [ping], lastID, true) else State(s.sent, lastID, false)
      case Message(offset, slot, sent) =>
        if !slot.Deliverable? then s
        else if !sent then s.(running := false)
        else State(s.sent + [Data(offset, slot.name, slot.data)], offset + 1, true)
      case Ended(error, done, sent) =>
        if !error || done || !sent then s.(running := false)
        else State(s.sent + [Error(true, StreamClosed)], s.lastID, false)
  }

  function Replay(lastID: nat, rounds: seq<Round>): State {
    if rounds == [] then State([], lastID, true)
    else Step(Replay(lastID, rounds[..|rounds| - 1]), rounds[|rounds| - 1])
  }

  /** The loop returns at the end of this round. */
  predicate Stops(r: Round) {
    match r
    case Done => true
    case Tick(_, sent) => !sent
    case Message(_, slot, sent) => slot.Deliverable? && !sent
    case Ended(_, _, _) => true
  }

  predicate Returns(rounds: seq<Round>) { exists i :: 0 <= i < |rounds| && Stops(rounds[i]) }

  /** The data events of the deliverable messages taken before the loop returns. */
  function Deliveries(rounds: seq<Round>): seq<Out> {
    if rounds == [] then []
    else
      var before, r := rounds[..|rounds| - 1], rounds[|rounds| - 1];
      Deliveries(before) +
      if !Returns(before) && r.Message? && r.slot.Deliverable? && r.sent
      then [Data(r.offset, r.slot.name, r.slot.data)] else []
  }

  /** A ping carries an ID only above the last one before it. */
  predicate PingsAbove(outs: seq<Out>, resume: nat) {
    forall k :: 0 <= k < |outs| && outs[k].Ping? && outs[k].position != 0 ==>
      outs[k].position > LastId(outs[..k], resume)
  }

  lemma PingsAboveSnoc(outs: seq<Out>, out: Out, resume: nat)
    requires PingsAbove(outs, resume)
    requires out.Ping? && out.position != 0 ==> out.position > LastId(outs, resume)
    ensures PingsAbove(outs + [out], resume)
  {
    var all := outs + [out];
    assert all[..|outs|] == outs;
    assert forall k :: 0 <= k < |outs| ==> all[k] == outs[k] && all[..k] == outs[..k];
  }

  lemma SnocFacts(outs: seq<Out>, out: Out, resume: nat)
    ensures DataOf(outs + [out]) == DataOf(outs) + if out.Data? then [out] else []
    ensures LastId(outs + [out], resume) == if out.Id() != 0 then out.Id() else LastId(outs, resume)
  {
    assert (outs + [out])[..|outs|] == outs;
  }

  lemma ReturnsSnoc(rounds: seq<Round>)
    requires rounds != []
    ensures Returns(rounds) <==> Returns(rounds[..|rounds| - 1]) || Stops(rounds[|rounds| - 1])
  {
    var before := rounds[..|rounds| - 1];
    if i :| 0 <= i < |before| && Stops(before[i]) {
      assert Stops(rounds[i]);
    }
    if i :| 0 <= i < |rounds| && Stops(rounds[i]) {
      assert i < |before| ==> Stops(before[i]);
    }
  }

  /** What the rounds come to, whatever they are. */
  predicate Means(resume: nat, rounds: seq<Round>, s: State) {
    && (s.running <==> !Returns(rounds))
    && DataOf(s.sent) == Deliveries(rounds)
    && PingsAbove(s.sent, resume)
    && (s.running ==> s.lastID == LastId(s.sent, resume))
  }

  lemma {:induction false} ReplayMeans(resume: nat, rounds: seq<Round>)
    ensures Means(resume, rounds, Replay(resume, rounds))
  {
    if rounds != [] {
      var before, r := rounds[..|rounds| - 1], rounds[|rounds| - 1];
      ReplayMeans(resume, before);
      ReturnsSnoc(rounds);
      StepMeans(resume, before, r, Replay(resume, before));
    }
  }

  /** One round, of a loop that may have returned. */
  lemma StepMeans(resume: nat, before: seq<Round>, r: Round, s: State)
    requires Means(resume, before, s)
    ensures var t := Step(s, r);
            && (t.running <==> s.running && !Stops(r)) && PingsAbove(t.sent, resume)
            && (t.running ==> t.lastID == LastId(t.sent, resume))
            && DataOf(t.sent) == DataOf(s.sent) +
               if s.running && r.Message? && r.slot.Deliverable? && r.sent
               then [Data(r.offset, r.slot.name, r.slot.data)] else []
  {
    var t := Step(s, r);
    if |t.sent| > |s.sent| {
      var out := t.sent[|s.sent|];
      assert t.sent == s.sent + [out];
      SnocFacts(s.sent, out, resume);
      PingsAboveSnoc(s.sent, out, resume);
    } else {
      assert t.sent == s.sent;
    }
  }

  /**
   The loop of subscribe, updating `event` and `lastID` as it goes. Whatever it meets, it sends the data
   of exactly the deliverable messages taken before it returns, in order, and no ping with an
   ID that is not above the last one.
   */
  method Subscribe(resume: nat, rounds: seq<Round>) returns (sent: seq<Out>, lastID: nat)
    ensures sent == Replay(resume, rounds).sent && lastID == Replay(resume, rounds).lastID
    ensures DataOf(sent) == Deliveries(rounds) && PingsAbove(sent, resume)
    ensures !Returns(rounds) ==> lastID == LastId(sent, resume)
  {
    ReplayMeans(resume, rounds);
    sent, lastID := [], resume;
    var i, running := 0, true;
    while i < |rounds| && running
      invariant i <= |rounds| && State(sent, lastID, running) == Replay(resume, rounds[..i])
    {
      assert rounds[..i + 1][..i] == rounds[..i];
      match rounds[i] {
        case Done =>
          running := false;
        case Tick(position, taken) =>
          var event := Ping(0);
          if position > lastID {
            event := Ping(position);
            lastID := position;
          }
          if taken {
            sent := sent + [event];
          } else {
            running := false;
          }
        case Message(offset, slot, taken) =>
          if slot.Deliverable? {
            var event := Data(offset, slot.name, slot.data);
            if taken {
              sent := sent + [event];
              lastID := offset + 1;
            } else {
              running := false;
            }
          }
        case Ended(error, done, taken) =>
          running := false;
          if error && !done && taken {
            sent := sent + [Error(true, StreamClosed)];
          }
      }
      i := i + 1;
    }
    StoppedReplay(resume, rounds, i);
  }

  /** A loop that has returned takes no further round. */
  lemma {:induction false} StoppedReplay(lastID: nat, rounds: seq<Round>, i: nat)
    requires i <= |rounds| && (i == |rounds| || !Replay(lastID, rounds[..i]).running)
    ensures Replay(lastID, rounds) == Replay(lastID, rounds[..i])
  {
    if i < |rounds| {
      var before := rounds[..|rounds| - 1];
      assert before[..i] == rounds[..i];
      if i == |before| {
        assert before == rounds[..i];
      }
      StoppedReplay(lastID, before, i);
    } else {
      assert rounds[..i] == rounds;
    }
  }

  // ----- The loop and the connection machine -----

  /** The rounds of the loop that a run of a connection has begun, and whether it has entered the loop. */
  datatype Trace = Trace(entered: bool, rounds: seq<Round>)

  /** The handler takes the event of a round. */
  function Taken(r: Round): Round {
    match r
    case Done => r
    case Tick(position, _) => Round.Tick(position, true)
    case Message(offset, slot, _) => Message(offset, slot, true)
    case Ended(error, done, _) => Ended(error, done, true)
  }

  function SlotAt(log: Log, i: nat): Slot { if i < |log| then log[i] else Filtered }

  /**
   What an action of the machine adds: a case of the select begins a round with an event not yet taken,
   and sending the event completes it.
   */
  function Met(log: Log, s: Conn, a: Action, rounds: seq<Round>): seq<Round>
    requires Enabled(log, s, a)
  {
    match a
    case Tick => rounds + [Round.Tick(s.consumer.value.pos, false)]
    case TakeMessage =>
      var o := s.consumer.value.next;
      rounds + [Message(o, SlotAt(log, o), false)]
    case Closed => rounds + [Ended(s.closedError, s.subDone, false)]
    case SendEvent =>
      if rounds == [] then [] else rounds[..|rounds| - 1] + [Taken(rounds[|rounds| - 1])]
    case TakeDone => if s.sub.Selecting? then rounds + [Done] else rounds
    case Propagate => if s.sub == Selecting(true) then rounds + [Done] else rounds
    case _ => rounds
  }

  function TraceOf(log: Log, s: Conn, run: seq<Action>): Trace {
    if run == [] then Trace(s.sub.Selecting?, [])
    else
      var before, a := run[..|run| - 1], run[|run| - 1];
      TraceNext(log, After(log, s, before), a, TraceOf(log, s, before))
  }

  function TraceNext(log: Log, s: Conn, a: Action, t: Trace): Trace {
    if !Enabled(log, s, a) then t
    else Trace(t.entered || Do(log, s, a).sub.Selecting?, if t.entered then Met(log, s, a, t.rounds) else t.rounds)
  }

  /** The loop on these rounds is where the machine is. */
  predicate Agrees(s: Conn, t: Trace) {
    if !t.entered then
      && t.rounds == [] && !s.sub.Selecting? && !s.sub.Sending?
      && (s.sub.Resuming? || s.sub.Attaching? || s.sub.Rechecking? ==> s.outs == [] && s.lastID == s.resume)
    else
      && !s.sub.Resuming? && !s.sub.Attaching? && !s.sub.Rechecking?
      && Replay(s.resume, t.rounds) == State(s.outs, s.lastID, s.sub.Selecting?)
      && (s.sub.Sending? || s.sub.Failing? ==> InHand(s, t.rounds))
  }

  /** The event in hand is that of the last round: taking it does to the loop what it does to the machine. */
  predicate InHand(s: Conn, rounds: seq<Round>)
    requires s.sub.Sending? || s.sub.Failing?
  {
    rounds != [] &&
    Step(Replay(s.resume, rounds[..|rounds| - 1]), Taken(rounds[|rounds| - 1]))
    == State(PassOn(s).outs, PassOn(s).lastID, s.sub.Sending?)
  }

  lemma ReplaySnoc(resume: nat, rounds: seq<Round>, r: Round)
    ensures Replay(resume, rounds + [r]) == Step(Replay(resume, rounds), r)
  {
    assert (rounds + [r])[..|rounds|] == rounds;
  }

  /** A case of the select with which a round begins. */
  lemma AgreesTick(log: Log, s: Conn, t: Trace)
    requires Enabled(log, s, Action.Tick) && t.entered && Agrees(s, t)
    ensures Agrees(Do(log, s, Action.Tick), TraceNext(log, s, Action.Tick, t))
  {
    AgreesBegin(log, s, Action.Tick, t);
  }

  lemma AgreesTake(log: Log, s: Conn, t: Trace)
    requires Enabled(log, s, TakeMessage) && t.entered && Agrees(s, t)
    ensures Agrees(Do(log, s, TakeMessage), TraceNext(log, s, TakeMessage, t))
  {
    AgreesBegin(log, s, TakeMessage, t);
  }

  lemma AgreesClosed(log: Log, s: Conn, t: Trace)
    requires Enabled(log, s, Closed) && t.entered && Agrees(s, t)
    ensures Agrees(Do(log, s, Closed), TraceNext(log, s, Closed, t))
  {
    AgreesBegin(log, s, Closed, t);
  }

  /** The round that begins is the last one, and the loop goes on from where it was. */
  lemma AgreesBegin(log: Log, s: Conn, a: Action, t: Trace)
    requires Enabled(log, s, a) && (a.Tick? || a.TakeMessage? || a.Closed?)
    ensures var all := Met(log, s, a, t.rounds);
            && |all| == |t.rounds| + 1 && all[..|t.rounds|] == t.rounds
            && Replay(s.resume, all) == Step(Replay(s.resume, t.rounds), all[|t.rounds|])
  {
    var all := Met(log, s, a, t.rounds);
    ReplaySnoc(s.resume, t.rounds, all[|t.rounds|]);
  }

  lemma AgreesSend(log: Log, s: Conn, t: Trace)
    requires Enabled(log, s, SendEvent) && t.entered && Agrees(s, t)
    ensures Agrees(Do(log, s, SendEvent), TraceNext(log, s, SendEvent, t))
  {
    ReplaySnoc(s.resume, t.rounds[..|t.rounds| - 1], Taken(t.rounds[|t.rounds| - 1]));
  }

  lemma AgreesDone(log: Log, s: Conn, a: Action, t: Trace)
    requires Enabled(log, s, a) && (a.TakeDone? || a.Propagate?) && t.entered && Agrees(s, t)
    ensures Agrees(Do(log, s, a), TraceNext(log, s, a, t))
  {
    ReplaySnoc(s.resume, t.rounds, Done);
  }

  /** Parking, and the deferred calls; the checks before the loop are over. */
  lemma AgreesOwn(log: Log, s: Conn, a: Action, t: Trace)
    requires Enabled(log, s, a) && t.entered && Agrees(s, t)
    requires a.ParkSub? || a.CloseStream? || a.CancelSub? || a.CloseEvents? || IsCheck(a)
    ensures Agrees(Do(log, s, a), TraceNext(log, s, a, t))
  {
  }

  /** What other goroutines do, other than cancelling and meeting the subscriber. */
  predicate IsAside(a: Action) {
    !IsSub(a) && !IsCheck(a) && !IsMeeting(a) && !a.CancelSub? && !a.Propagate?
  }

  lemma AgreesAside(log: Log, s: Conn, a: Action, t: Trace)
    requires Enabled(log, s, a) && IsAside(a) && t.entered && Agrees(s, t)
    ensures Agrees(Do(log, s, a), TraceNext(log, s, a, t))
  {
    var d := Do(log, s, a);
    assert d.sub == s.sub && d.outs == s.outs && d.lastID == s.lastID;
  }

  /** The checks before the loop. */
  lemma AgreesFirstCheck(log: Log, s: Conn, answer: Answer, t: Trace)
    requires Enabled(log, s, Check(answer)) && !t.entered && Agrees(s, t)
    ensures Agrees(Do(log, s, Check(answer)), TraceNext(log, s, Check(answer), t))
  {
  }

  lemma AgreesAttach(log: Log, s: Conn, ok: bool, t: Trace)
    requires Enabled(log, s, Action.Consume(ok)) && !t.entered && Agrees(s, t)
    ensures Agrees(Do(log, s, Action.Consume(ok)), TraceNext(log, s, Action.Consume(ok), t))
  {
  }

  lemma AgreesRecheck(log: Log, s: Conn, answer: Answer, t: Trace)
    requires Enabled(log, s, Recheck(answer)) && !t.entered && Agrees(s, t)
    ensures Agrees(Do(log, s, Recheck(answer)), TraceNext(log, s, Recheck(answer), t))
  {
  }

  lemma AgreesCheck(log: Log, s: Conn, a: Action, t: Trace)
    requires Enabled(log, s, a) && IsCheck(a) && !t.entered && Agrees(s, t)
    ensures Agrees(Do(log, s, a), TraceNext(log, s, a, t))
  {
    match a
    case Check(answer) => AgreesFirstCheck(log, s, answer, t);
    case Consume(ok) => AgreesAttach(log, s, ok, t);
    case Recheck(answer) => AgreesRecheck(log, s, answer, t);
  }

  lemma AgreesOutside(log: Log, s: Conn, a: Action, t: Trace)
    requires Enabled(log, s, a) && !IsCheck(a) && !t.entered && Agrees(s, t)
    ensures Agrees(Do(log, s, a), TraceNext(log, s, a, t))
  {
  }

  /** A case of one of the subscriber's selects. */
  lemma AgreesCase(log: Log, s: Conn, a: Action, t: Trace)
    requires Enabled(log, s, a) && t.entered && Agrees(s, t)
    requires a.Tick? || a.TakeMessage? || a.Closed? || a.SendEvent? || a.TakeDone?
    ensures Agrees(Do(log, s, a), TraceNext(log, s, a, t))
  {
    match a
    case Tick => AgreesTick(log, s, t);
    case TakeMessage => AgreesTake(log, s, t);
    case Closed => AgreesClosed(log, s, t);
    case SendEvent => AgreesSend(log, s, t);
    case TakeDone => AgreesDone(log, s, a, t);
  }

  lemma AgreesInside(log: Log, s: Conn, a: Action, t: Trace)
    requires Enabled(log, s, a) && t.entered && Agrees(s, t)
    ensures Agrees(Do(log, s, a), TraceNext(log, s, a, t))
  {
    if a.Tick? || a.TakeMessage? || a.Closed? || a.SendEvent? || a.TakeDone? {
      AgreesCase(log, s, a, t);
    } else if a.Propagate? {
      AgreesDone(log, s, a, t);
    } else if IsAside(a) {
      AgreesAside(log, s, a, t);
    } else {
      AgreesOwn(log, s, a, t);
    }
  }

  /**
   The subscriber of the connection machine is the loop above: in every run that enters it, what was
   sent, the lastID and whether the loop still runs are what Subscribe makes of the rounds that the
   run met, with malformed messages, events not taken, errors and cancellation.
   */
  lemma {:induction false} MachineRunsLoop(log: Log, s: Conn, run: seq<Action>)
    requires s == Open(s.resume, s.first, s.avail) && s.first <= s.avail <= |log| && Legal(log, s, run)
    ensures Agrees(After(log, s, run), TraceOf(log, s, run)) && After(log, s, run).resume == s.resume
    ensures TraceOf(log, s, run).entered ==>
              Replay(s.resume, TraceOf(log, s, run).rounds)
              == State(After(log, s, run).outs, After(log, s, run).lastID, After(log, s, run).sub.Selecting?)
  {
    if run != [] {
      var before, a := run[..|run| - 1], run[|run| - 1];
      MachineRunsLoop(log, s, before);
      var b, t := After(log, s, before), TraceOf(log, s, before);
      if t.entered {
        AgreesInside(log, b, a, t);
      } else if IsCheck(a) {
        AgreesCheck(log, b, a, t);
      } else {
        AgreesOutside(log, b, a, t);
      }
    }
  }
}

module FilterCleaning {
  import opened Options
  import opened RabbitMQStreams

  /** strings.Split(s, ".") has Dots(s) + 1 parts. */
  function Dots(s: string): nat {
    if s == "" then 0 else (if s[0] == '.' then 1 else 0) + Dots(s[1..])
  }

  function Clean(identifier: string, filter: string): string {
    if Dots(filter) + 1 != 3 then identifier + "." + filter else filter
  }

  /** The client's filters, rewritten in place. */
  method CleanFilter(identifier: string, filters: array<string>)
    modifies filters
    ensures forall i :: 0 <= i < filters.Length ==> filters[i] == Clean(identifier, old(filters[i]))
  {
    for i := 0 to filters.Length
      invariant forall k :: 0 <= k < i ==> filters[k] == Clean(identifier, old(filters[k]))
      invariant forall k :: i <= k < filters.Length ==> filters[k] == old(filters[k])
    {
      if Dots(filters[i]) + 1 != 3 {
        filters[i] := identifier + "." + filters[i];
      }
    }
  }

  lemma {:induction false} DotsConcat(a: string, b: string)
    ensures Dots(a + b) == Dots(a) + Dots(b)
  {
    if a == "" {
      assert a + b == b;
    } else {
      assert (a + b)[1..] == a[1..] + b;
      DotsConcat(a[1..], b);
    }
  }

  /** Cleaning a cleaned filter again changes nothing exactly if it already had three parts. */
  lemma CleanAgain(identifier: string, filter: string)
    ensures Clean(identifier, Clean(identifier, filter)) == Clean(identifier, filter)
            <==> Dots(filter) == 2 || Dots(identifier) + Dots(filter) == 1
  {
    DotsConcat(identifier, ".");
    DotsConcat(identifier + ".", filter);
    assert Dots(".") == 1 + Dots(""[..]);
    var once := Clean(identifier, filter);
    assert |identifier + "." + once| > |once|;
  }

  /** A filter "type.meta" selects exactly that type and meta of the requested run. */
  lemma ShortFilterSelects(identifier: string, kind: string, meta: string, e: Entry)
    requires Dots(kind) == 0 && Dots(meta) == 0
    ensures Matches(identifier, [Clean(identifier, kind + "." + meta)], e)
            <==> e.identifier == Some(identifier) && e.kind + "." + e.meta == kind + "." + meta
  {
    DotsConcat(kind, ".");
    DotsConcat(kind + ".", meta);
    var prefix, wanted, actual := identifier + ".", kind + "." + meta, e.kind + "." + e.meta;
    assert identifier + "." + e.kind + "." + e.meta == prefix + actual;
    assert (prefix + actual)[|prefix|..] == actual && (prefix + wanted)[|prefix|..] == wanted;
  }
}
