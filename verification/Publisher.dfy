/** The AMQP publisher with confirms: its connection state, and the goroutines that share it. */
module Confirms {
  import opened Options

  /** A confirmation, with the attempt whose message the broker confirms; None for a closed channel's zero value. */
  datatype Confirmation = Confirmation(attempt: Option<nat>, ack: bool)

  /** A connection and its one channel: messages not yet confirmed, and confirmations not yet read. */
  datatype Link = Link(connOpen: bool, chanOpen: bool, inflight: seq<nat>, buffer: seq<Confirmation>)

  /** The fields of a Publisher; connections are numbered in the order in which they were dialled. */
  datatype World = World(
    links: seq<Link>,
    conn: Option<nat>, channel: Option<nat>, confirmations: Option<nat>,
    hasOutstanding: bool)

  /** How far ensureConnection gets when it has to connect. */
  datatype Outcome = BadUrl | DialFails | ChannelFails | ConfirmFails | Connected

  function Shut(l: Link): Link { l.(connOpen := false, chanOpen := false, inflight := []) }

  function ShutLink(links: seq<Link>, k: Option<nat>): seq<Link> {
    if k.Some? && k.value < |links| then links[k.value := Shut(links[k.value])] else links
  }

  predicate ConnOpen(w: World) {
    w.conn.Some? && w.conn.value < |w.links| && w.links[w.conn.value].connOpen
  }

  predicate NeedsConnection(w: World) { !ConnOpen(w) || w.channel.None? }

  /** A new connection `o`, once the old one is closed. */
  function Append(w: World, o: Outcome): World {
    var next := Some(|w.links|);
    match o
    case BadUrl => w
    case DialFails => w.(conn := None)
    case ChannelFails => w.(links := w.links + [Link(true, false, [], [])], conn := next, channel := None)
    case ConfirmFails => w.(links := w.links + [Link(false, false, [], [])], conn := next, channel := next)
    case Connected =>
      w.(links := w.links + [Link(true, true, [], [])],
         conn := next, channel := next, confirmations := next, hasOutstanding := false)
  }

  function Connect(w: World, o: Outcome): World { Append(w.(links := ShutLink(w.links, w.conn)), o) }

  function Ensure(w: World, o: Outcome): World { if NeedsConnection(w) then Connect(w, o) else w }

  predicate Ensured(w: World, o: Outcome) { !NeedsConnection(w) || o.Connected? }

  /** A confirmation can be read from link k: one is there, or its channel was closed. */
  predicate CanRead(w: World, k: nat) { k < |w.links| && (w.links[k].buffer != [] || !w.links[k].chanOpen) }

  function Peek(w: World, k: nat): Confirmation
    requires CanRead(w, k)
  {
    if w.links[k].buffer != [] then w.links[k].buffer[0] else Confirmation(None, false)
  }

  /** Reading it, as awaitConfirmation does. */
  function Read(w: World, k: nat): World
    requires CanRead(w, k)
  {
    var l := w.links[k];
    w.(links := w.links[k := l.(buffer := if l.buffer != [] then l.buffer[1..] else [])], hasOutstanding := false)
  }

  predicate CanSend(w: World) {
    w.channel.Some? && w.channel.value < |w.links| && w.links[w.channel.value].chanOpen
  }

  function Send(w: World, attempt: nat): World
    requires CanSend(w)
  {
    var c := w.channel.value;
    w.(links := w.links[c := w.links[c].(inflight := w.links[c].inflight + [attempt])])
  }

  /** The broker confirms the oldest message in flight. */
  function Confirmed(l: Link, ack: bool): Link
    requires l.inflight != []
  {
    l.(inflight := l.inflight[1..], buffer := l.buffer + [Confirmation(Some(l.inflight[0]), ack)])
  }
}

/** Any number of goroutines in tryPublish, interleaved, with the broker and failing connections. */
module Publishing {
  import opened Options
  import opened Confirms

  /** Where a goroutine is in tryPublish, for its attempt `a`; `from` is the link its select waits on. */
  datatype Pc =
    | Outside
    | Passed(a: nat)                                // ensureConnection returned nil
    | Locked(a: nat)                                // holds publishMu
    | Draining(a: nat, from: Option<nat>)           // awaits the confirmation of an earlier message
    | Ready(a: nat)
    | Published(a: nat)                              // channel.Publish returned nil
    | Marked(a: nat)                                // has set hasOutstanding
    | Awaiting(a: nat, from: Option<nat>)
    | Leaving(a: nat, ok: bool)                     // returns nil or an error, still holds publishMu

  datatype State = State(
    w: World,
    lock: Option<nat>,          // the holder of publishMu
    pcs: map<nat, Pc>,
    attempts: nat,              // calls of tryPublish so far
    acked: set<nat>,            // attempts whose message the broker has acked
    returned: map<nat, bool>)   // finished attempts, true for nil

  datatype Action =
    | Begin(g: nat, o: Outcome)
    | Lock(g: nat)
    | Look(g: nat)                      // test hasOutstanding, enter the first select
    | Drain(g: nat)
    | Publish(g: nat, ok: bool)
    | Mark(g: nat)
    | Select(g: nat)                    // enter the second select
    | Receive(g: nat)
    | Fail(g: nat)                      // a select ends with an error
    | Return(g: nat, expired: bool)     // CloseOnTimeout and unlock
    | Confirm(k: nat, ack: bool)        // the broker
    | LoseConnection(k: nat)
    | LoseChannel(k: nat)

  function At(s: State, g: nat): Pc { if g in s.pcs then s.pcs[g] else Outside }

  predicate Waits(w: World, from: Option<nat>) { from.Some? && CanRead(w, from.value) }

  predicate Enabled(s: State, a: Action) {
    match a
    case Begin(g, _) => At(s, g).Outside?
    case Lock(g) => At(s, g).Passed? && s.lock.None?
    case Look(g) => At(s, g).Locked?
    case Drain(g) => At(s, g).Draining? && Waits(s.w, At(s, g).from)
    case Publish(g, ok) => At(s, g).Ready? && (ok ==> CanSend(s.w))
    case Mark(g) => At(s, g).Published?
    case Select(g) => At(s, g).Marked?
    case Receive(g) => At(s, g).Awaiting? && Waits(s.w, At(s, g).from)
    case Fail(g) => At(s, g).Draining? || At(s, g).Awaiting?
    case Return(g, _) => At(s, g).Leaving?
    case Confirm(k, _) => k < |s.w.links| && s.w.links[k].chanOpen && s.w.links[k].inflight != []
    case LoseConnection(k) => k < |s.w.links|
    case LoseChannel(k) => k < |s.w.links|
  }

  function Go(s: State, g: nat, pc: Pc): State { s.(pcs := s.pcs[g := pc]) }

  function Do(s: State, a: Action): State
    requires Enabled(s, a)
  {
    match a
    case Begin(g, o) =>
      var t := s.(w := Ensure(s.w, o), attempts := s.attempts + 1);
      if Ensured(s.w, o) then Go(t, g, Passed(s.attempts))
      else t.(returned := t.returned[s.attempts := false])
    case Lock(g) => Go(s.(lock := Some(g)), g, Locked(At(s, g).a))
    case Look(g) =>
      if s.w.hasOutstanding then Go(s, g, Draining(At(s, g).a, s.w.confirmations))
      else Go(s, g, Ready(At(s, g).a))
    case Drain(g) => Go(s.(w := Read(s.w, At(s, g).from.value)), g, Ready(At(s, g).a))
    case Publish(g, ok) =>
      if ok then Go(s.(w := Send(s.w, At(s, g).a)), g, Published(At(s, g).a))
      else Go(s, g, Leaving(At(s, g).a, false))
    case Mark(g) => Go(s.(w := s.w.(hasOutstanding := true)), g, Marked(At(s, g).a))
    case Select(g) => Go(s, g, Awaiting(At(s, g).a, s.w.confirmations))
    case Receive(g) =>
      var k := At(s, g).from.value;
      Go(s.(w := Read(s.w, k)), g, Leaving(At(s, g).a, Peek(s.w, k).ack))
    case Fail(g) => Go(s, g, Leaving(At(s, g).a, false))
    case Return(g, expired) =>
      var w := if expired then s.w.(links := ShutLink(s.w.links, s.w.conn)) else s.w;
      Go(s.(w := w, lock := None, returned := s.returned[At(s, g).a := At(s, g).ok]), g, Outside)
    case Confirm(k, ack) =>
      var l := s.w.links[k];
      s.(w := s.w.(links := s.w.links[k := Confirmed(l, ack)]),
         acked := s.acked + if ack then {l.inflight[0]} else {})
    case LoseConnection(k) => s.(w := s.w.(links := s.w.links[k := Shut(s.w.links[k])]))
    case LoseChannel(k) =>
      s.(w := s.w.(links := s.w.links[k := s.w.links[k].(chanOpen := false, inflight := [])]))
  }

  // ----- Invariants -----

  /** The confirmations that link l owes or holds. */
  function Load(l: Link): nat { |l.inflight| + |l.buffer| }

  predicate Only(l: Link, a: nat) {
    (forall x :: x in l.inflight ==> x == a) && (forall c :: c in l.buffer ==> c.attempt == Some(a))
  }

  predicate LinkInv(l: Link, acked: set<nat>) {
    && Load(l) <= 1
    && (l.chanOpen ==> l.connOpen) && (!l.chanOpen ==> l.inflight == [])
    && (forall c :: c in l.buffer ==> c.attempt.Some? && (c.ack ==> c.attempt.value in acked))
  }

  predicate InRange(w: World, k: Option<nat>) { k.Some? ==> k.value < |w.links| }

  predicate WorldInv(w: World, acked: set<nat>) {
    && InRange(w, w.conn) && InRange(w, w.channel) && InRange(w, w.confirmations)
    && (forall k :: 0 <= k < |w.links| ==> LinkInv(w.links[k], acked))
    && (forall k :: 0 <= k < |w.links| && w.links[k].chanOpen ==>
          w.conn == Some(k) && w.channel == Some(k) && w.confirmations == Some(k))
  }

  /** The current confirmation channel holds nothing and is owed nothing. */
  predicate Clear(w: World) {
    w.confirmations.Some? && w.confirmations.value < |w.links| ==> Load(w.links[w.confirmations.value]) == 0
  }

  predicate Settled(w: World) { !w.hasOutstanding ==> Clear(w) }

  predicate OnlyCurrent(w: World, a: nat) {
    w.confirmations.Some? && w.confirmations.value < |w.links| ==> Only(w.links[w.confirmations.value], a)
  }

  /** A select waits on the current confirmation channel, or on one that was replaced by a clear one. */
  predicate From(w: World, from: Option<nat>) { InRange(w, from) && (from == w.confirmations || Clear(w)) }

  predicate HolderInv(w: World, acked: set<nat>, pc: Pc) {
    match pc
    case Locked(_) => Settled(w)
    case Draining(_, from) => Settled(w) && From(w, from)
    case Ready(_) => Clear(w)
    case Published(a) => OnlyCurrent(w, a)
    case Marked(a) => Settled(w) && OnlyCurrent(w, a)
    case Awaiting(a, from) => Settled(w) && From(w, from) && (from.Some? ==> Only(w.links[from.value], a))
    case Leaving(a, ok) => Settled(w) && (ok ==> a in acked)
    case _ => false
  }

  predicate Inv(s: State) {
    && WorldInv(s.w, s.acked)
    && Mutex(s)
    && (match s.lock
        case None => Settled(s.w)
        case Some(g) => HolderInv(s.w, s.acked, At(s, g)))
    && ResultsSound(s)
  }

  function Init(): State { State(World([], None, None, None, false), None, map[], 0, {}, map[]) }

  /** What happens to the connections: a reconnect, a lost connection or channel. */
  predicate Holds(w: World, acked: set<nat>, lock: Option<nat>, pc: Pc) {
    WorldInv(w, acked) && if lock.None? then Settled(w) else HolderInv(w, acked, pc)
  }

  lemma LossKeeps(w: World, acked: set<nat>, lock: Option<nat>, pc: Pc, k: nat, conn: bool)
    requires Holds(w, acked, lock, pc) && k < |w.links|
    ensures var l := if conn then Shut(w.links[k]) else w.links[k].(chanOpen := false, inflight := []);
            Holds(w.(links := w.links[k := l]), acked, lock, pc)
  {
  }

  /** Once the old connection is closed, no channel is open, and a new link disturbs nobody. */
  lemma ConnectKeeps(w: World, acked: set<nat>, lock: Option<nat>, pc: Pc, o: Outcome)
    requires Holds(w, acked, lock, pc) && NeedsConnection(w)
    ensures Holds(Connect(w, o), acked, lock, pc)
  {
    if w.conn.Some? {
      LossKeeps(w, acked, lock, pc, w.conn.value, true);
    }
    AppendKeeps(w.(links := ShutLink(w.links, w.conn)), acked, lock, pc, o);
  }

  lemma AppendKeeps(v: World, acked: set<nat>, lock: Option<nat>, pc: Pc, o: Outcome)
    requires Holds(v, acked, lock, pc)
    requires forall k :: 0 <= k < |v.links| ==> !v.links[k].chanOpen
    ensures Holds(Append(v, o), acked, lock, pc)
  {
    match o
    case Connected => ConnectedKeeps(v, acked, lock, pc);
    case _ =>
  }

  lemma ConnectedKeeps(v: World, acked: set<nat>, lock: Option<nat>, pc: Pc)
    requires Holds(v, acked, lock, pc)
    requires forall k :: 0 <= k < |v.links| ==> !v.links[k].chanOpen
    ensures Holds(Append(v, Outcome.Connected), acked, lock, pc)
  {
    assert Clear(Append(v, Outcome.Connected));
  }

  lemma ConfirmOnly(l: Link, a: nat, ack: bool)
    requires l.inflight != [] && Only(l, a)
    ensures Only(Confirmed(l, ack), a)
  {
    assert l.inflight[0] in l.inflight;
    assert forall x :: x in l.inflight[1..] ==> x in l.inflight;
  }

  lemma ConfirmKeeps(w: World, acked: set<nat>, lock: Option<nat>, pc: Pc, k: nat, ack: bool)
    requires Holds(w, acked, lock, pc) && k < |w.links| && w.links[k].inflight != []
    ensures Holds(w.(links := w.links[k := Confirmed(w.links[k], ack)]),
                  acked + (if ack then {w.links[k].inflight[0]} else {}), lock, pc)
  {
    forall a | Only(w.links[k], a)
      ensures Only(Confirmed(w.links[k], ack), a)
    {
      ConfirmOnly(w.links[k], a, ack);
    }
  }

  lemma ReadClears(w: World, acked: set<nat>, k: nat)
    requires WorldInv(w, acked) && Settled(w) && From(w, Some(k)) && CanRead(w, k)
    ensures WorldInv(Read(w, k), acked) && Clear(Read(w, k)) && !Read(w, k).hasOutstanding
    ensures Peek(w, k).ack ==>
              w.links[k].buffer == [Peek(w, k)] && Peek(w, k).attempt.Some? && Peek(w, k).attempt.value in acked
  {
  }

  lemma SendKeeps(w: World, acked: set<nat>, a: nat)
    requires WorldInv(w, acked) && Clear(w) && CanSend(w)
    ensures WorldInv(Send(w, a), acked) && OnlyCurrent(Send(w, a), a)
  {
  }

  function HolderPc(s: State): Pc { if s.lock.Some? then At(s, s.lock.value) else Outside }

  predicate Mutex(s: State) {
    forall g :: g in s.pcs && !s.pcs[g].Outside? && !s.pcs[g].Passed? ==> s.lock == Some(g)
  }

  predicate ResultsSound(s: State) { forall a :: a in s.returned && s.returned[a] ==> a in s.acked }

  /** A step of the environment. */
  lemma WorldStep(s: State, a: Action)
    requires Inv(s) && Enabled(s, a) && (a.Confirm? || a.LoseConnection? || a.LoseChannel?)
    ensures Inv(Do(s, a))
  {
    var pc := HolderPc(s);
    match a
    case Confirm(k, ack) => ConfirmKeeps(s.w, s.acked, s.lock, pc, k, ack);
    case LoseConnection(k) => LossKeeps(s.w, s.acked, s.lock, pc, k, true);
    case LoseChannel(k) => LossKeeps(s.w, s.acked, s.lock, pc, k, false);
  }

  /** ensureConnection, which other goroutines may run at any time. */
  lemma BeginStep(s: State, g: nat, o: Outcome)
    requires Inv(s) && Enabled(s, Begin(g, o))
    ensures Inv(Do(s, Begin(g, o)))
  {
    if NeedsConnection(s.w) {
      ConnectKeeps(s.w, s.acked, s.lock, HolderPc(s), o);
    }
  }

  /** A step of the goroutine that holds publishMu, to `pc` with the fields `w`. */
  lemma HolderStep(s: State, g: nat, w: World, pc: Pc)
    requires Inv(s) && s.lock == Some(g) && WorldInv(w, s.acked) && HolderInv(w, s.acked, pc)
    ensures Inv(Go(s.(w := w), g, pc))
  {
  }

  lemma AwaitStep(s: State, a: Action)
    requires Inv(s) && Enabled(s, a) && (a.Drain? || a.Receive?)
    ensures Inv(Do(s, a))
  {
    var k := At(s, a.g).from.value;
    ReadClears(s.w, s.acked, k);
    HolderStep(s, a.g, Read(s.w, k), At(Do(s, a), a.g));
  }

  lemma OwnStep(s: State, a: Action)
    requires Inv(s) && Enabled(s, a) && (a.Look? || a.Publish? || a.Mark? || a.Select? || a.Fail?)
    ensures Inv(Do(s, a))
  {
    if a.Publish? && a.ok {
      SendKeeps(s.w, s.acked, At(s, a.g).a);
    }
    HolderStep(s, a.g, Do(s, a).w, At(Do(s, a), a.g));
  }

  lemma ReturnStep(s: State, g: nat, expired: bool)
    requires Inv(s) && Enabled(s, Return(g, expired))
    ensures Inv(Do(s, Return(g, expired)))
  {
  }

  lemma InvStep(s: State, a: Action)
    requires Inv(s) && Enabled(s, a)
    ensures Inv(Do(s, a))
  {
    match a
    case Begin(g, o) => BeginStep(s, g, o);
    case Lock(g) =>
    case Drain(_) => AwaitStep(s, a);
    case Receive(_) => AwaitStep(s, a);
    case Return(g, expired) => ReturnStep(s, g, expired);
    case Confirm(_, _) => WorldStep(s, a);
    case LoseConnection(_) => WorldStep(s, a);
    case LoseChannel(_) => WorldStep(s, a);
    case _ => OwnStep(s, a);
  }

  // ----- Runs -----

  predicate Legal(s: State, run: seq<Action>) {
    run == [] || (Legal(s, run[..|run| - 1]) && Enabled(After(s, run[..|run| - 1]), run[|run| - 1]))
  }

  /** The state after a legal run; an action that is not enabled changes nothing. */
  function After(s: State, run: seq<Action>): State {
    if run == [] then s
    else
      var before, a := After(s, run[..|run| - 1]), run[|run| - 1];
      if Enabled(before, a) then Do(before, a) else before
  }

  lemma {:induction false} RunInv(run: seq<Action>)
    requires Legal(Init(), run)
    ensures Inv(After(Init(), run))
  {
    if run != [] {
      RunInv(run[..|run| - 1]);
      InvStep(After(Init(), run[..|run| - 1]), run[|run| - 1]);
    }
  }

  ghost predicate Reachable(s: State) { exists run: seq<Action> :: Legal(Init(), run) && s == After(Init(), run) }

  lemma ReachableInv(s: State)
    requires Reachable(s)
    ensures Inv(s)
  {
    var run: seq<Action> :| Legal(Init(), run) && s == After(Init(), run);
    RunInv(run);
  }

  /**
   In every interleaving of any number of publishing goroutines with the broker, lost connections,
   timeouts and reconnects, tryPublish returns nil only for an attempt whose own message was acked.
   */
  lemma NilMeansAcked(s: State, a: nat)
    requires Reachable(s) && a in s.returned && s.returned[a]
    ensures a in s.acked
  {
    ReachableInv(s);
  }

  /**
   No connection ever owes and holds more than one confirmation. With publishMu free, the current
   one has none when hasOutstanding is false.
   */
  lemma ConfirmationsBounded(s: State, k: nat)
    requires Reachable(s) && k < |s.w.links|
    ensures Load(s.w.links[k]) <= 1
    ensures s.lock.None? && !s.w.hasOutstanding && s.w.confirmations == Some(k) ==> Load(s.w.links[k]) == 0
  {
    ReachableInv(s);
    assert LinkInv(s.w.links[k], s.acked);
  }

  /** So a confirmation of the broker finds its channel of capacity one empty, and blocks nobody. */
  lemma BrokerNeverBlocks(s: State, k: nat, ack: bool)
    requires Reachable(s) && Enabled(s, Confirm(k, ack))
    ensures s.w.links[k].buffer == []
  {
    ReachableInv(s);
    assert LinkInv(s.w.links[k], s.acked);
  }

  /** publishMu does its job: at most one goroutine is between taking and releasing it. */
  lemma OnePublisher(s: State, g: nat, h: nat)
    requires Reachable(s) && g != h
    ensures At(s, g).Outside? || At(s, g).Passed? || At(s, h).Outside? || At(s, h).Passed?
  {
    ReachableInv(s);
  }

  // ----- Reconnects -----

  /**
   What an attempt to connect leaves, outcome by outcome: the old connection is closed in each, and only a
   complete reconnect replaces the confirmations and clears the flag.
   */
  lemma ConnectOutcomes(s: State, g: nat, o: Outcome)
    requires Enabled(s, Begin(g, o)) && NeedsConnection(s.w)
    requires s.w.conn.Some? ==> s.w.conn.value < |s.w.links|
    ensures var w, n := Do(s, Begin(g, o)).w, |s.w.links|;
            && (s.w.conn.Some? ==> !w.links[s.w.conn.value].connOpen && !w.links[s.w.conn.value].chanOpen)
            && (!o.Connected? ==> w.confirmations == s.w.confirmations && w.hasOutstanding == s.w.hasOutstanding)
            && match o
               case BadUrl => |w.links| == n && w.conn == s.w.conn && w.channel == s.w.channel
               case DialFails => |w.links| == n && w.conn.None? && w.channel == s.w.channel
               case ChannelFails => |w.links| == n + 1 && w.conn == Some(n) && w.links[n].connOpen && w.channel.None?
               case ConfirmFails => |w.links| == n + 1 && w.conn == Some(n) == w.channel && !w.links[n].connOpen
               case Connected =>
                 && |w.links| == n + 1 && w.conn == Some(n) == w.channel && w.confirmations == Some(n)
                 && !w.hasOutstanding && CanSend(w) && w.links[n] == Link(true, true, [], [])
  {
  }

  /** An attempt that need not connect changes nothing. */
  lemma ConnectedStays(s: State, g: nat, o: Outcome)
    requires Enabled(s, Begin(g, o)) && !NeedsConnection(s.w)
    ensures Do(s, Begin(g, o)).w == s.w
  {
  }

  /** When hasOutstanding changes: a publish that was accepted sets it; a confirmation or a reconnect clears it. */
  lemma FlagExactly(s: State, a: Action)
    requires Enabled(s, a)
    ensures var before, now := s.w.hasOutstanding, Do(s, a).w.hasOutstanding;
            && (!before ==> (now <==> a.Mark?))
            && (before ==> (!now <==> a.Drain? || a.Receive? || (a.Begin? && a.o.Connected? && NeedsConnection(s.w))))
  {
  }

  /**
   How an attempt goes on: an earlier message that was nacked does not stop it, a refused publish changes
   nothing, and it succeeds exactly if the confirmation that it receives is an ack.
   */
  lemma AttemptGoesOn(s: State, a: Action)
    requires Enabled(s, a)
    ensures match a
            case Drain(g) => At(Do(s, a), g) == Ready(At(s, g).a)
            case Publish(g, ok) =>
              if ok then At(Do(s, a), g) == Published(At(s, g).a)
              else At(Do(s, a), g) == Leaving(At(s, g).a, false) && Do(s, a).w == s.w
            case Receive(g) =>
              var buffer := s.w.links[At(s, g).from.value].buffer;
              At(Do(s, a), g) == Leaving(At(s, g).a, buffer != [] && buffer[0].ack)
            case Fail(g) => At(Do(s, a), g) == Leaving(At(s, g).a, false) && Do(s, a).w == s.w
            case Return(g, expired) =>
              && Do(s, a).returned == s.returned[At(s, g).a := At(s, g).ok] && Do(s, a).lock.None?
              && (!expired ==> Do(s, a).w == s.w) && (expired ==> !ConnOpen(Do(s, a).w))
            case _ => true
  {
  }

  /** After a reconnect the next publish does not wait for a confirmation that nobody owes. */
  lemma ReconnectIsReady(s: State, g: nat)
    requires Enabled(s, Begin(g, Connected)) && NeedsConnection(s.w) && s.lock.None?
    ensures var t := Do(Do(s, Begin(g, Connected)), Lock(g));
            At(Do(t, Look(g)), g) == Ready(s.attempts)
  {
  }

  // ----- Errors that do not tear the connection down -----

  lemma Extend(s: State, run: seq<Action>, a: Action)
    requires Legal(s, run) && Enabled(After(s, run), a)
    ensures Legal(s, run + [a]) && After(s, run + [a]) == Do(After(s, run), a)
  {
    assert (run + [a])[..|run|] == run;
  }

  lemma Reach(s: State, a: Action) returns (t: State)
    requires Reachable(s) && Enabled(s, a)
    ensures t == Do(s, a) && Reachable(t)
  {
    var run: seq<Action> :| Legal(Init(), run) && s == After(Init(), run);
    Extend(Init(), run, a);
    t := Do(s, a);
  }

  /** A connection that a first attempt has opened, with this one link. */
  function First(l: Link, hasOutstanding: bool): World { World([l], Some(0), Some(0), Some(0), hasOutstanding) }

  /** The channel is dead on a live connection. */
  predicate DeadChannel(w: World) { ConnOpen(w) && w.channel == w.conn && !CanSend(w) }

  /** It happens: a broker may close a channel and keep its connection. */
  lemma DeadChannelReached() returns (s: State)
    ensures Reachable(s) && DeadChannel(s.w)
  {
    s := Opened();
    s := Reach(s, LoseChannel(0));
  }

  /** A first attempt has opened a connection. */
  lemma Opened() returns (s: State)
    ensures Reachable(s)
    ensures s == Init().(w := First(Link(true, true, [], []), false), pcs := map[0 := Passed(0)], attempts := 1)
  {
    assert Legal(Init(), []) && Init() == After(Init(), []);
    s := Reach(Init(), Begin(0, Connected));
    assert [] + [Link(true, true, [], [])] == [Link(true, true, [], [])];
  }

  /** A live connection and a channel belong together. */
  predicate Paired(w: World) { ConnOpen(w) && w.channel.Some? ==> w.channel == w.conn }

  lemma PairedStep(s: State, a: Action)
    requires Paired(s.w) && WorldInv(s.w, s.acked) && Enabled(s, a)
    ensures Paired(Do(s, a).w)
  {
  }

  lemma {:induction false} RunPaired(run: seq<Action>)
    requires Legal(Init(), run)
    ensures Paired(After(Init(), run).w)
  {
    if run != [] {
      RunPaired(run[..|run| - 1]);
      RunInv(run[..|run| - 1]);
      PairedStep(After(Init(), run[..|run| - 1]), run[|run| - 1]);
    }
  }

  /**
   Once ensureConnection has returned nil, a message can be published if and only if the channel was not
   dead on a live connection: that is the one thing that a new attempt does not repair.
   */
  lemma RecoversExactly(s: State, o: Outcome)
    requires Reachable(s) && Ensured(s.w, o)
    ensures CanSend(Ensure(s.w, o)) <==> !DeadChannel(s.w)
  {
    var run: seq<Action> :| Legal(Init(), run) && s == After(Init(), run);
    RunPaired(run);
  }

  /** The actions that end a connection: its loss, and CloseOnTimeout. */
  predicate Closes(k: nat, a: Action) { a == LoseConnection(k) || (a.Return? && a.expired) }

  lemma DeadChannelStep(s: State, a: Action)
    requires DeadChannel(s.w) && Enabled(s, a)
    ensures DeadChannel(Do(s, a).w) <==> !Closes(s.w.conn.value, a)
    ensures DeadChannel(Do(s, a).w) ==> Do(s, a).w.conn == s.w.conn
    ensures !(a.Publish? && a.ok)
  {
  }

  /** The channel is dead in s and after each step of `run`. */
  predicate DeadThroughout(s: State, run: seq<Action>) {
    DeadChannel(After(s, run).w) && (run == [] || DeadThroughout(s, run[..|run| - 1]))
  }

  predicate NoneCloses(k: nat, run: seq<Action>) {
    run == [] || (NoneCloses(k, run[..|run| - 1]) && !Closes(k, run[|run| - 1]))
  }

  /**
   Such a publisher recovers exactly when its connection ends: over every continuation of a run, the
   channel stays dead if and only if the connection is neither lost nor closed after a timeout, and
   as long as it is not, no message is published, however often it is tried.
   */
  lemma {:induction false} DeadChannelStays(s: State, run: seq<Action>)
    requires DeadChannel(s.w) && Legal(s, run)
    ensures DeadThroughout(s, run) <==> NoneCloses(s.w.conn.value, run)
    ensures DeadThroughout(s, run) ==> After(s, run).w.conn == s.w.conn
    ensures DeadThroughout(s, run) ==> forall a :: a in run ==> !(a.Publish? && a.ok)
  {
    if run != [] {
      var before, a := run[..|run| - 1], run[|run| - 1];
      DeadChannelStays(s, before);
      if DeadThroughout(s, before) {
        DeadChannelStep(After(s, before), a);
      }
      assert run == before + [a];
    }
  }

  /**
   Exactly when an attempt leaves the connection to be replaced by the next one: if it timed out, or if
   the connection or the channel was already gone. Whether and how it failed does not matter.
   */
  lemma ReplacedExactly(s: State, g: nat, expired: bool)
    requires Enabled(s, Return(g, expired))
    ensures At(s, g).a in Do(s, Return(g, expired)).returned
    ensures NeedsConnection(Do(s, Return(g, expired)).w) <==> expired || NeedsConnection(s.w)
  {
  }

  /** The other exit: an attempt that cannot connect always leaves that to the next one. */
  lemma NotConnected(s: State, g: nat, o: Outcome)
    requires Enabled(s, Begin(g, o)) && !Ensured(s.w, o)
    ensures var t := Do(s, Begin(g, o));
            s.attempts in t.returned && !t.returned[s.attempts] && NeedsConnection(t.w)
  {
  }

  /** An error of the channel's own Publish tears nothing down: the next attempt publishes on the same channel. */
  lemma RefusedReached() returns (s: State)
    ensures Reachable(s) && 0 in s.returned && !s.returned[0] && !NeedsConnection(s.w) && CanSend(s.w)
  {
    s := ReadyFirst();
    s := Reach(s, Publish(0, false));
    s := Reach(s, Return(0, false));
  }

  /** Neither does a nack: the attempt fails, and every link stays as open as it was. */
  lemma NackTearsNothingDown(s: State, g: nat)
    requires Enabled(s, Receive(g)) && !Peek(s.w, At(s, g).from.value).ack
    ensures var t := Do(s, Receive(g));
            && Enabled(t, Return(g, false))
            && var u := Do(t, Return(g, false));
               && At(s, g).a in u.returned && !u.returned[At(s, g).a]
               && |u.w.links| == |s.w.links| && u.w.conn == s.w.conn
               && (forall k :: 0 <= k < |s.w.links| ==>
                     u.w.links[k].connOpen == s.w.links[k].connOpen && u.w.links[k].chanOpen == s.w.links[k].chanOpen)
  {
  }

  /** And it happens: an attempt has failed, on a connection that the next one will not replace. */
  lemma NackReached() returns (s: State)
    ensures Reachable(s) && 0 in s.returned && !s.returned[0] && !NeedsConnection(s.w)
  {
    s := NackedFirst();
    var t := Reach(s, Receive(0));
    assert t.w.links[0].connOpen && At(t, 0) == Leaving(0, false) && t.w.conn == Some(0) == t.w.channel;
    s := Reach(t, Return(0, false));
  }

  /** The broker has nacked its message. */
  lemma NackedFirst() returns (s: State)
    ensures Reachable(s) && At(s, 0) == Awaiting(0, Some(0))
    ensures s.w == First(Link(true, true, [], [Confirmation(Some(0), false)]), true)
  {
    var t := AwaitingFirst();
    NackedLink();
    ReplaceOnly(t.w.links[0], Confirmed(t.w.links[0], false));
    s := Reach(t, Confirm(0, false));
  }

  lemma NackedLink()
    ensures Confirmed(Link(true, true, [0], []), false) == Link(true, true, [], [Confirmation(Some(0), false)])
  {
    assert [0][1..] == [];
  }

  lemma ReplaceOnly(l: Link, m: Link)
    ensures [l][0 := m] == [m]
  {
  }

  /** A first attempt waits for its confirmation. */
  lemma AwaitingFirst() returns (s: State)
    ensures Reachable(s) && At(s, 0) == Awaiting(0, Some(0)) && s.w == First(Link(true, true, [0], []), true)
  {
    s := PublishedFirst();
    s := Reach(s, Mark(0));
    s := Reach(s, Select(0));
  }

  lemma ReadyFirst() returns (s: State)
    ensures Reachable(s) && At(s, 0) == Ready(0) && s.lock == Some(0) && At(s, 1).Outside?
    ensures s.w == First(Link(true, true, [], []), false)
  {
    s := Opened();
    s := Reach(s, Lock(0));
    s := Reach(s, Look(0));
  }

  /**
   A goroutine that holds publishMu may find no channel at all: another one's reconnect has taken it
   away meanwhile. The model lets its Publish fail; in Go the call on a nil channel panics.
   */
  lemma NoChannelReached() returns (s: State)
    ensures Reachable(s) && At(s, 0).Ready? && s.lock == Some(0) && s.w.channel.None?
  {
    s := ReadyFirst();
    s := Reach(s, LoseConnection(0));
    s := Reach(s, Begin(1, ChannelFails));
  }

  /**
   The flag may be left set with nothing outstanding: a goroutine that has published sets it although
   another one has reconnected meanwhile. The next publish then waits in vain, until it times out.
   */
  lemma StaleFlagReached() returns (s: State)
    ensures Reachable(s) && s.lock.None? && s.w.hasOutstanding && CanSend(s.w) && Clear(s.w) && !NeedsConnection(s.w)
  {
    s := PublishedFirst();
    s := ReplacedMeanwhile(s);
    s := GoesOn(s);
  }

  lemma PublishedFirst() returns (s: State)
    ensures Reachable(s) && At(s, 0) == Published(0) && At(s, 1).Outside? && s.lock == Some(0)
    ensures s.w == First(Link(true, true, [0], []), false)
  {
    s := ReadyFirst();
    ReplaceOnly(s.w.links[0], Link(true, true, [0], []));
    assert [] + [0] == [0];
    s := Reach(s, Publish(0, true));
  }

  /** The connection is lost, and another goroutine makes a new one. */
  lemma ReplacedMeanwhile(s: State) returns (t: State)
    requires Reachable(s) && At(s, 0) == Published(0) && At(s, 1).Outside? && s.lock == Some(0)
    requires s.w == First(Link(true, true, [0], []), false)
    ensures Reachable(t) && At(t, 0) == Published(0) && t.lock == Some(0)
    ensures CanSend(t.w) && Clear(t.w) && !NeedsConnection(t.w)
  {
    ReplaceOnly(Link(true, true, [0], []), Link(false, false, [], []));
    t := Reach(s, LoseConnection(0));
    ConnectOutcomes(t, 1, Connected);
    t := Reach(t, Begin(1, Connected));
  }

  /** The first goroutine goes on, and fails without a timeout. */
  lemma GoesOn(s: State) returns (t: State)
    requires Reachable(s) && At(s, 0) == Published(0) && s.lock == Some(0)
    requires CanSend(s.w) && Clear(s.w) && !NeedsConnection(s.w)
    ensures Reachable(t) && t.lock.None? && t.w == s.w.(hasOutstanding := true)
  {
    t := Reach(s, Mark(0));
    t := Reach(t, Select(0));
    t := Reach(t, Fail(0));
    t := Reach(t, Return(0, false));
  }
}

/** A publisher that one goroutine uses: its methods make runs of the machine above. */
module Publishers {
  import opened Options
  import opened Confirms
  import opened Publishing

  /** What a select of awaitConfirmation meets; a meeting that cannot happen counts as an error. */
  datatype Meeting =
    | Fault                     // a closed connection or channel is noticed, or the context expires
    | There                     // a confirmation that is there already, or the zero value of a closed channel
    | Arrives(ack: bool)        // the broker confirms its oldest message

  datatype Await = Failed | Received(c: Confirmation)

  /** What a tryPublish meets; `expired` and `done` tell of its own context and of the caller's. */
  datatype Try = Try(o: Outcome, drain: Meeting, sends: bool, confirm: Meeting, expired: bool, done: bool)

  /** The broker owes the confirmation of message `a`, and nothing else is there or owed. */
  predicate OwedOnly(w: World, a: nat) {
    w.confirmations.Some? && w.confirmations.value < |w.links| &&
    var l := w.links[w.confirmations.value];
    l.chanOpen && l.inflight == [a] && l.buffer == []
  }

  /** A confirmation is there to be read, or the broker owes one. */
  predicate Answerable(w: World) {
    w.confirmations.Some? &&
    var k := w.confirmations.value;
    CanRead(w, k) || (k < |w.links| && w.links[k].chanOpen && w.links[k].inflight != [])
  }

  /** Of the attempts from `from` on, only the last one may have succeeded: nothing is published again after that. */
  predicate OnlyLast(returned: map<nat, bool>, from: nat, used: nat, sent: bool) {
    forall a :: from <= a < from + used ==> a in returned && returned[a] == (sent && a == from + used - 1)
  }

  lemma SentAlone(s: State, a: nat)
    requires Reachable(s) && s.lock == Some(0) && At(s, 0) == Ready(a) && CanSend(s.w)
    ensures OwedOnly(Send(s.w, a), a)
  {
    ReachableInv(s);
  }

  class Publisher {
    var links: seq<Link>
    var conn: Option<nat>
    var channel: Option<nat>
    var confirmations: Option<nat>
    var hasOutstanding: bool
    var attempts: nat           // calls of TryPublish, which number the messages

    // The state of the machine after the run that this publisher has made, as its goroutine 0.
    ghost var s: State

    function Fields(): World
      reads this
    {
      World(links, conn, channel, confirmations, hasOutstanding)
    }

    /** The run is where the goroutine is at `pc`. */
    ghost predicate Reached(pc: Pc)
      reads this
    {
      && Reachable(s) && Fields() == s.w && attempts == s.attempts && At(s, 0) == pc
      && s.lock == if pc.Outside? || pc.Passed? then None else Some(0)
    }

    constructor ()
      ensures Reached(Outside) && Fields() == World([], None, None, None, false) && attempts == 0
    {
      links, conn, channel, confirmations, hasOutstanding, attempts := [], None, None, None, false, 0;
      s := Init();
      new;
      assert Legal(Init(), []) && Init() == After(Init(), []);
    }

    method Close()
      modifies this`links
      ensures links == ShutLink(old(links), conn)
    {
      if conn.Some? && conn.value < |links| {
        links := links[conn.value := Shut(links[conn.value])];
      }
    }

    /** `o` is how far it gets if it has to connect. */
    method EnsureConnection(o: Outcome) returns (ok: bool)
      modifies this`links, this`conn, this`channel, this`confirmations, this`hasOutstanding
      ensures Fields() == Ensure(old(Fields()), o) && ok == Ensured(old(Fields()), o)
    {
      if conn.None? || channel.None? || !ConnOpen(Fields()) {
        if conn.Some? {
          Close();
        }
        if o.BadUrl? {
          return false;
        }
        if o.DialFails? {
          conn := None;
          return false;
        }
        conn := Some(|links|);
        links := links + [Link(true, false, [], [])];
        if o.ChannelFails? {
          channel := None;
          return false;
        }
        channel := conn;
        if o.ConfirmFails? {
          Close();
          return false;
        }
        links := links[conn.value := Link(true, true, [], [])];
        hasOutstanding := false;
        confirmations := channel;
      }
      return true;
    }

    /** The start of tryPublish, up to the check whether a confirmation is outstanding. */
    method Begin(o: Outcome) returns (ok: bool)
      requires Reached(Outside)
      modifies this
      ensures ok == Ensured(old(Fields()), o) && Fields() == Ensure(old(Fields()), o) && attempts == old(attempts) + 1
      ensures ok ==> Reached(if hasOutstanding then Draining(old(attempts), confirmations) else Ready(old(attempts)))
      ensures !ok ==> Reached(Outside)
      ensures s.returned == if ok then old(s.returned) else old(s.returned)[old(attempts) := false]
    {
      ok := EnsureConnection(o);
      attempts := attempts + 1;
      Step(Action.Begin(0, o));
      if ok {
        Step(Lock(0));
        Step(Look(0));
      }
    }

    /** The select, while the goroutine holds publishMu for attempt `a`. */
    method AwaitConfirmation(ghost a: nat, ghost draining: bool, m: Meeting) returns (r: Await)
      requires Reached(if draining then Draining(a, confirmations) else Awaiting(a, confirmations))
      modifies this`links, this`hasOutstanding, this`s
      ensures r.Failed? ==> Reached(Leaving(a, false))
      ensures r.Received? ==> Reached(if draining then Ready(a) else Leaving(a, r.c.ack)) && !hasOutstanding
      ensures s.returned == old(s.returned)
      ensures m.Arrives? && Answerable(old(Fields())) ==> r.Received?
      ensures CanSend(old(Fields())) ==> CanSend(Fields())
      ensures m.Arrives? && OwedOnly(old(Fields()), a) ==> r == Received(Confirmation(Some(a), m.ack))
    {
      hide Reachable;
      if m.Fault? || confirmations.None? || confirmations.value >= |links| {
        Step(Fail(0));
        return Failed;
      }
      var k := confirmations.value;
      if m.Arrives? && links[k].chanOpen && links[k].inflight != [] {
        Answer(At(s, 0), k, m.ack);
      }
      if !CanRead(Fields(), k) {
        Step(Fail(0));
        return Failed;
      }
      r := ReadFrom(a, draining, k);
    }

    /** The broker confirms the oldest message of link k while the goroutine waits. */
    method Answer(ghost pc: Pc, k: nat, ack: bool)
      requires Reached(pc) && k < |links| && links[k].chanOpen && links[k].inflight != []
      modifies this`links, this`s
      ensures Reached(pc) && links == old(links)[k := Confirmed(old(links)[k], ack)] && s.returned == old(s.returned)
    {
      links := links[k := Confirmed(links[k], ack)];
      Step(Confirm(k, ack));
    }

    method ReadFrom(ghost a: nat, ghost draining: bool, k: nat) returns (r: Await)
      requires Reached(if draining then Draining(a, Some(k)) else Awaiting(a, Some(k))) && CanRead(Fields(), k)
      modifies this`links, this`hasOutstanding, this`s
      ensures r == Received(Peek(old(Fields()), k)) && Fields() == Read(old(Fields()), k)
      ensures !hasOutstanding && s.returned == old(s.returned)
      ensures Reached(if draining then Ready(a) else Leaving(a, r.c.ack))
    {
      if links[k].buffer != [] {
        r := Received(links[k].buffer[0]);
        links := links[k := links[k].(buffer := links[k].buffer[1..])];
      } else {
        r := Received(Confirmation(None, false));
      }
      hasOutstanding := false;
      Step(if draining then Drain(0) else Receive(0));
    }

    /** channel.Publish, and what follows it up to the second select. */
    method Send(ghost a: nat, message: nat, sends: bool) returns (ok: bool)
      requires Reached(Ready(a)) && a == message
      modifies this`links, this`hasOutstanding, this`s
      ensures ok == (sends && CanSend(old(Fields()))) && s.returned == old(s.returned)
      ensures if ok then Reached(Awaiting(a, confirmations)) && OwedOnly(Fields(), a) else Reached(Leaving(a, false))
    {
      if !sends || !CanSend(Fields()) {
        Step(Action.Publish(0, false));
        return false;
      }
      SentAlone(s, a);
      var c := channel.value;
      links := links[c := links[c].(inflight := links[c].inflight + [message])];
      Step(Action.Publish(0, true));
      hasOutstanding := true;
      Step(Mark(0));
      Step(Select(0));
      return true;
    }

    /** The deferred calls: CloseOnTimeout, and the unlock. */
    method Leave(ghost a: nat, ghost ok: bool, expired: bool)
      requires Reached(Leaving(a, ok))
      modifies this`links, this`s
      ensures Reached(Outside) && s.returned == old(s.returned)[a := ok] && s.acked == old(s.acked)
    {
      if expired {
        Close();
      }
      Step(Return(0, expired));
    }

    /**
     tryPublish. It returns nil only if the broker has acked this very message; and it does if
     nothing goes wrong: a connection, an open channel, an answer to what is outstanding, and an ack.
     */
    method TryPublish(o: Outcome, drain: Meeting, sends: bool, confirm: Meeting, expired: bool) returns (sent: bool)
      requires Reached(Outside)
      modifies this
      ensures Reached(Outside) && attempts == old(attempts) + 1
      ensures sent ==> old(attempts) in s.acked && !hasOutstanding
      ensures s.returned == old(s.returned)[old(attempts) := sent]
      ensures NeedsConnection(old(Fields())) && o.Connected? && sends && confirm == Arrives(true) ==> sent
      ensures var w := old(Fields());
              !NeedsConnection(w) && drain.Arrives? && Answerable(w) && CanSend(w) && sends && confirm == Arrives(true)
              ==> sent
      ensures var w := Ensure(old(Fields()), o);
              Ensured(old(Fields()), o) && !w.hasOutstanding && sends && CanSend(w) && confirm == Arrives(true) ==> sent
    {
      var message := attempts;
      var ok := Begin(o);
      if !ok {
        return false;
      }
      sent := PublishLocked(message, drain, sends, confirm);
      Leave(message, sent, expired);
      if sent {
        NilMeansAcked(s, message);
      }
    }

    /** The part of tryPublish that publishes, with publishMu held. */
    method PublishLocked(message: nat, drain: Meeting, sends: bool, confirm: Meeting) returns (sent: bool)
      requires Reached(if hasOutstanding then Draining(message, confirmations) else Ready(message))
      modifies this`links, this`hasOutstanding, this`s
      ensures Reached(Leaving(message, sent)) && (sent ==> !hasOutstanding) && s.returned == old(s.returned)
      ensures !old(hasOutstanding) && sends && CanSend(old(Fields())) && confirm.Arrives? ==> sent == confirm.ack
      ensures drain.Arrives? && Answerable(old(Fields())) && sends && CanSend(old(Fields())) && confirm.Arrives? ==>
                sent == confirm.ack
    {
      var r: Await;
      if hasOutstanding {
        r := AwaitConfirmation(message, true, drain);
        if r.Failed? {
          return false;
        }
      }
      var ok := Send(message, message, sends);
      if !ok {
        return false;
      }
      r := AwaitConfirmation(message, false, confirm);
      return r.Received? && r.c.ack;
    }

    /** The function that retry.Do repeats. */
    method Attempt(t: Try) returns (sent: bool)
      requires Reached(Outside)
      modifies this
      ensures Reached(Outside) && attempts == old(attempts) + 1 && (sent ==> old(attempts) in s.acked)
      ensures s.returned == old(s.returned)[old(attempts) := sent]
    {
      sent := TryPublish(t.o, t.drain, t.sends, t.confirm, t.expired);
    }

    /**
     Publish, given what each try meets: it retries until a try succeeds or its context is done, and
     returns nil only if the broker has acked the message of the last try. All earlier ones failed.
     */
    method Publish(tries: seq<Try>) returns (sent: bool, used: nat)
      requires Reached(Outside)
      modifies this
      ensures Reached(Outside) && used <= |tries| && attempts == old(attempts) + used
      ensures sent ==> used > 0 && attempts - 1 in s.acked
      ensures !sent && used < |tries| ==> used > 0 && tries[used - 1].done
      ensures forall j :: 0 <= j < used - 1 ==> !tries[j].done
      ensures OnlyLast(s.returned, old(attempts), used, sent)
    {
      hide Reachable;
      used, sent := 0, false;
      while used < |tries| && !sent
        invariant used <= |tries| && Tried(old(attempts), used, sent)
        invariant OnlyLast(s.returned, old(attempts), used, sent)
        invariant forall j :: 0 <= j < used && !(sent && j == used - 1) ==> !tries[j].done
      {
        var t := tries[used];
        sent := Attempt(t);
        used := used + 1;
        if !sent && t.done {
          return;
        }
      }
    }

    /** Some tries were made; if the last one succeeded, its message was acked. */
    ghost predicate Tried(before: nat, used: nat, sent: bool)
      reads this
    {
      Reached(Outside) && attempts == before + used && (sent ==> used > 0 && attempts - 1 in s.acked)
    }

    ghost method Step(a: Action)
      requires Reachable(s) && Enabled(s, a)
      modifies this`s
      ensures Reachable(s) && s == Do(old(s), a)
    {
      s := Reach(s, a);
    }
  }
}
