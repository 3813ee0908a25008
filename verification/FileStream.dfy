/** The file-backed stream: a message per line, whose offset is the line number. */
module FileStreams {
  import opened EventLog
  import opened Messages
  import opened StreamContract

  /** What one round of the reader goroutine's select loop meets. */
  datatype Round =
    | Cancelled                                 // the context's Done case
    | EndOfFile                                 // a tick, and no further line
    | Broken                                    // a tick, and a read error
    | Line(pieces: seq<string>, sent: bool)     // a tick, and the pieces in which ReadLine returns a line

  /** The lines read in `rounds`, put together from their pieces. */
  function Lines(rounds: seq<Round>): seq<string> {
    if rounds == [] then []
    else
      var last := rounds[|rounds| - 1];
      Lines(rounds[..|rounds| - 1]) + if last.Line? then [Concat(last.pieces)] else []
  }

  /** Each round that reads a line adds it, as it was before it was cut into pieces... */
  lemma LinesOne(r: Round)
    ensures Lines([]) == [] && Lines([r]) == if r.Line? then [Concat(r.pieces)] else []
  {
    assert [r][..0] == [];
  }

  /** ... after those before, and no other round adds one. */
  lemma {:induction false} LinesJoin(xs: seq<Round>, ys: seq<Round>)
    ensures Lines(xs + ys) == Lines(xs) + Lines(ys)
  {
    if ys == [] {
      assert xs + ys == xs;
    } else {
      assert (xs + ys)[..|xs + ys| - 1] == xs + ys[..|ys| - 1];
      LinesJoin(xs, ys[..|ys| - 1]);
    }
  }

  lemma {:induction false} LinesPrefix(rounds: seq<Round>, k: nat)
    requires k <= |rounds|
    ensures Lines(rounds[..k]) <= Lines(rounds)
  {
    if k < |rounds| {
      assert rounds[..|rounds| - 1][..k] == rounds[..k];
      LinesPrefix(rounds[..|rounds| - 1], k);
    } else {
      assert rounds[..k] == rounds;
    }
  }

  /** The messages of the lines from `start` on. */
  function FromStart(start: nat, lines: seq<string>): seq<Message> {
    if |lines| <= start then []
    else seq(|lines| - start, i requires 0 <= i < |lines| - start => Message(start + i, lines[start + i]))
  }

  /** Each line from `start` on is one message, with its number and its text, in order; and nothing else is. */
  lemma FromStartExactly(start: nat, lines: seq<string>, m: Message)
    ensures m in FromStart(start, lines) <==> start <= m.offset < |lines| && m.data == lines[m.offset]
    ensures forall j, k :: 0 <= j < k < |FromStart(start, lines)| ==>
              FromStart(start, lines)[j].offset < FromStart(start, lines)[k].offset
  {
    if start <= m.offset < |lines| && m.data == lines[m.offset] {
      assert FromStart(start, lines)[m.offset - start] == m;
    }
  }

  lemma FromStartSnoc(start: nat, lines: seq<string>, line: string)
    ensures FromStart(start, lines + [line]) ==
            FromStart(start, lines) + if |lines| < start then [] else [Message(|lines|, line)]
  {
  }

  /** Round i ends the reader: the context is done, by itself or while a line waits, or a read fails. */
  predicate Stops(start: nat, rounds: seq<Round>, i: nat)
    requires i < |rounds|
  {
    match rounds[i]
    case Cancelled => true
    case Broken => true
    case EndOfFile => false
    case Line(_, sent) => !sent && start <= |Lines(rounds[..i])|
  }

  class FileStream {
    var start: nat
    var position: nat
    var received: seq<Message>      // taken from the channel by the subscriber, in order

    // The run of the stream contract that this stream has made, and the state it led to.
    ghost var run: seq<Moment>
    ghost var c: Consumer

    ghost predicate Valid(log: Log)
      reads this
    {
      && Legal(log, Attach(start, start, true), run)
      && c == After(Attach(start, start, true), run)
      && Inv(log, start, c)
      && c.start == start && c.pos == position && c.handed == Offsets(received)
      && position <= c.next
    }

    constructor ()
      ensures start == 0 && position == 0 && received == [] && run == [] && c == Attach(0, 0, true)
    {
      start, position, received := 0, 0, [];
      run, c := [], Attach(0, 0, true);
    }

    /** A negative offset is OffsetFirst. Called before Consume. */
    method WithOffset(offset: int)
      requires received == [] && run == []
      modifies this
      ensures start == position == (if offset < 0 then 0 else offset)
      ensures received == [] && run == [] && c == Attach(start, start, true)
    {
      start := if offset < 0 then 0 else offset;
      position := start;
      c := Attach(start, start, true);
    }

    /**
     The reader goroutine, given what the rounds of its loop meet. It gets through the first `read`
     rounds, and then every line from the start on was received, as it is in the file, and no
     other; the position is the number of the next line. This is a run of the stream contract,
     so everything proved about those runs holds of it, and the position is sound even after
     cancellation.
     */
    method Consume(log: Log, rounds: seq<Round>) returns (read: nat)
      requires received == [] && run == [] && position == start && c == Attach(start, start, true)
      requires |Lines(rounds)| <= |log| && forall i :: 0 <= i < |log| ==> !log[i].Filtered?
      modifies this
      ensures start == old(start) && Valid(log) && PositionSound(log, c)
      ensures read <= |rounds| && (read < |rounds| ==> Stops(start, rounds, read))
      ensures forall i :: 0 <= i < read ==> !Stops(start, rounds, i)
      ensures received == FromStart(start, Lines(rounds[..read])) && position == Max(start, |Lines(rounds[..read])|)
    {
      read := 0;
      var offset, reading := 0, true;
      while read < |rounds| && reading
        invariant read <= |rounds| && start == old(start) && Valid(log) && Through(rounds, read)
        invariant !reading ==> read < |rounds| && Stops(start, rounds, read)
        invariant reading ==> c.live && c.phase == Idle && offset == |Lines(rounds[..read])| && c.next == position
        decreases |rounds| - read, reading
      {
        offset, reading := ReadRound(log, rounds, read, offset);
        if reading {
          read := read + 1;
        }
      }
      BelowNextSound(log, start, c);
    }

    /** The first `read` rounds are done. */
    ghost predicate Through(rounds: seq<Round>, read: nat)
      requires read <= |rounds|
      reads this
    {
      (forall i :: 0 <= i < read ==> !Stops(start, rounds, i)) && Taken(Lines(rounds[..read]))
    }

    /** One round of the loop; `offset` is the number of lines read so far. */
    method ReadRound(log: Log, rounds: seq<Round>, i: nat, before: nat) returns (offset: nat, reading: bool)
      requires i < |rounds| && Valid(log) && Through(rounds, i) && |Lines(rounds)| <= |log|
      requires forall i :: 0 <= i < |log| ==> !log[i].Filtered?
      requires c.live && c.phase == Idle && before == |Lines(rounds[..i])| && c.next == position
      modifies this
      ensures start == old(start) && Valid(log) && reading == !Stops(start, rounds, i)
      ensures if reading then Through(rounds, i + 1) else Through(rounds, i)
      ensures reading ==> c.live && c.phase == Idle && offset == |Lines(rounds[..i + 1])| && c.next == position
    {
      assert rounds[..i + 1][..i] == rounds[..i];
      offset, reading := before, true;
      match rounds[i] {
        case Cancelled =>
          Act(log, offset, Close);
          Act(log, offset, Leave);
          reading := false;
        case EndOfFile =>
        case Broken =>
          Act(log, offset, Leave);
          reading := false;
        case Line(pieces, sent) =>
          LinesPrefix(rounds, i + 1);
          offset, reading := TakeLine(log, Lines(rounds[..i]), pieces, sent, before);
      }
    }

    /** A round that reads a line; `lines` are those read before it. */
    method TakeLine(log: Log, ghost lines: seq<string>, pieces: seq<string>, sent: bool, before: nat)
      returns (offset: nat, reading: bool)
      requires Valid(log) && Taken(lines) && c.live && c.phase == Idle && c.next == position
      requires before == |lines| < |log| && forall i :: 0 <= i < |log| ==> !log[i].Filtered?
      modifies this
      ensures start == old(start) && Valid(log) && reading == (sent || |lines| < start)
      ensures Taken(if reading then lines + [Concat(pieces)] else lines)
      ensures reading ==> c.live && c.phase == Idle && offset == before + 1 && c.next == position
    {
      var event := JoinPieces(pieces);
      FromStartSnoc(start, lines, event);
      offset, reading := before + 1, true;
      if offset - 1 >= start {
        reading := Forward(log, offset, event, sent);
      }
    }

    ghost predicate Taken(lines: seq<string>)
      reads this
    {
      received == FromStart(start, lines) && position == Max(start, |lines|)
    }

    /** The select that sends a line on the channel unless the context is done first. */
    method Forward(log: Log, offset: nat, event: string, sent: bool) returns (reading: bool)
      requires Valid(log) && c.live && c.phase == Idle && c.next == offset - 1 < |log| && !log[c.next].Filtered?
      modifies this
      ensures start == old(start) && Valid(log) && reading == sent
      ensures received == old(received) + if sent then [Message(offset - 1, event)] else []
      ensures sent ==> c.live && c.phase == Idle && c.next == position == offset
      ensures !sent ==> position == old(position)
    {
      Act(log, offset, Offer);
      if sent {
        HandOn(log, Message(offset - 1, event));
        Act(log, offset, Advance(offset));
        return true;
      } else {
        Act(log, offset, Close);
        Act(log, offset, GiveUp);
        return false;
      }
    }

    method HandOn(log: Log, m: Message)
      requires Valid(log) && c.live && c.phase.Offering? && c.next == m.offset
      modifies this
      ensures Valid(log) && start == old(start) && position == old(position)
      ensures received == old(received) + [m] && c == Do(old(c), HandOver)
    {
      Step(log, m.offset + 1, HandOver);
      received := received + [m];
    }

    /** A contract action that hands nothing over. */
    method Act(log: Log, avail: nat, a: Action)
      requires Valid(log) && Enabled(log, avail, c, a) && !a.HandOver?
      requires a.Advance? ==> a.pos <= c.next
      modifies this`run, this`c, this`position
      ensures Valid(log) && c == Do(old(c), a) && position == c.pos
    {
      Step(log, avail, a);
      if a.Advance? {
        position := a.pos;
      }
    }

    ghost method Step(log: Log, avail: nat, a: Action)
      requires Legal(log, Attach(start, start, true), run) && c == After(Attach(start, start, true), run)
      requires Inv(log, start, c) && Enabled(log, avail, c, a)
      modifies this`run, this`c
      ensures Legal(log, Attach(start, start, true), run) && c == After(Attach(start, start, true), run)
      ensures c == Do(old(c), a) && Inv(log, start, c)
    {
      Extend(log, Attach(start, start, true), run, Moment(avail, a));
      InvStep(log, avail, start, c, a);
      run, c := run + [Moment(avail, a)], Do(c, a);
    }
  }

  lemma BelowNextSound(log: Log, asked: nat, c: Consumer)
    requires Inv(log, asked, c) && c.pos <= c.next
    ensures PositionSound(log, c)
  {
    forall i | c.start <= i < c.pos
      ensures i < |log| && (log[i].Filtered? || i in c.handed)
    {
      if !log[i].Filtered? {
        ForwardedExact(log, c.start, c.next, i);
      }
    }
  }
}
