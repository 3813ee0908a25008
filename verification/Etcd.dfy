/** The etcd client as a reader and writer of one key. */
module Etcd {
  import opened Options

  /** What a call of Read tells its caller, besides the bytes: their number, io.EOF or an error. */
  datatype Result = Got(n: nat) | Eof | Failed

  /** The state of a reader: the bytes fetched and not yet returned. */
  datatype Reader = Reader(data: string, hasRead: bool)

  function Min(a: nat, b: nat): nat { if a < b then a else b }

  /** Reading into a buffer of `size` bytes, when the key holds `stored` and a query would fail if `fails`. */
  function ReadStep(r: Reader, stored: Option<string>, fails: bool, size: nat): (Reader, Result) {
    if !r.hasRead && fails then (r, Failed)
    else if !r.hasRead && stored.None? then (r, Eof)
    else
      var data := if r.hasRead then r.data else stored.value;
      var n := Min(size, |data|);
      (Reader(data[n..], true), if n == 0 then Eof else Got(n))
  }

  /** The bytes that the call returns. */
  function Chunk(r: Reader, stored: Option<string>, fails: bool, size: nat): string {
    if !r.hasRead && (fails || stored.None?) then ""
    else
      var data := if r.hasRead then r.data else stored.value;
      data[..Min(size, |data|)]
  }

  function Lookup(m: map<string, string>, key: string): Option<string> { if key in m then Some(m[key]) else None }

  class Store {
    var m: map<string, string>

    constructor ()
      ensures m == map[]
    {
      m := map[];
    }
  }

  class Client {
    const store: Store
    const treePrefix: string
    const id: string            // "" is uuid.Nil
    var data: string
    var hasRead: bool

    constructor (store: Store, treePrefix: string, id: string)
      ensures this.store == store && this.treePrefix == treePrefix && this.id == id
      ensures State() == Reader("", false)
    {
      this.store, this.treePrefix, this.id := store, treePrefix, id;
      data, hasRead := "", false;
    }

    function State(): Reader
      reads this
    {
      Reader(data, hasRead)
    }

    function Key(): string { treePrefix + "/" + id }

    /** The tree prefix is not passed on, so the clients opened from all roots share one key space. */
    method Open(id: string) returns (client: Client)
      ensures fresh(client) && client.store == store && client.id == id && client.Key() == "/" + id
      ensures client.State() == Reader("", false)
    {
      client := new Client(store, "", id);
      assert "" + "/" == "/";
    }

    method Write(p: string, fails: bool) returns (n: nat, ok: bool)
      modifies store
      ensures ok <==> id != "" && !fails
      ensures store.m == if ok then old(store.m)[Key() := p] else old(store.m)
      ensures n == if ok then |p| else 0
    {
      if id == "" || fails {
        return 0, false;
      }
      store.m := store.m[Key() := p];
      return |p|, true;
    }

    method Read(p: array<char>, fails: bool) returns (r: Result)
      modifies this, p
      ensures id == "" ==> r == Failed && State() == old(State()) && p[..] == old(p[..])
      ensures id != "" ==>
                var stored := Lookup(store.m, Key());
                && (State(), r) == ReadStep(old(State()), stored, fails, p.Length)
                && p[..] == Chunk(old(State()), stored, fails, p.Length)
                            + old(p[..])[|Chunk(old(State()), stored, fails, p.Length)|..]
    {
      if id == "" {
        return Failed;
      }
      ghost var before := p[..];
      if !hasRead {
        if fails {
          return Failed;
        }
        if Key() !in store.m {
          return Eof;
        }
        data := store.m[Key()];
        hasRead := true;
      }
      if |data| == 0 {
        assert p[..] == "" + before;
        return Eof;
      }
      var n := Min(p.Length, |data|);
      forall i | 0 <= i < n {
        p[i] := data[i];
      }
      assert p[..] == data[..n] + before[n..];
      data := data[n..];
      if n == 0 {
        return Eof;
      }
      return Got(n);
    }

    method Delete(fails: bool) returns (ok: bool)
      modifies store
      ensures ok == !fails && store.m == if ok then old(store.m) - {Key()} else old(store.m)
    {
      if fails {
        return false;
      }
      store.m := store.m - {Key()};
      return true;
    }
  }

  /** A call's count is the number of bytes it returned; it reports the end or an error only without any. */
  lemma ReadCounts(r: Reader, stored: Option<string>, fails: bool, size: nat)
    ensures var (after, result) := ReadStep(r, stored, fails, size);
            var chunk := Chunk(r, stored, fails, size);
            && (result.Got? ==> result.n == |chunk| > 0) && (!result.Got? ==> chunk == "")
            && |chunk| <= size
            && (after.hasRead ==> chunk + after.data == if r.hasRead then r.data else stored.value)
  {
  }

  /** Before a value was found, a call that fails or finds nothing leaves the reader to try again. */
  lemma ReadAgain(r: Reader, stored: Option<string>, fails: bool, size: nat)
    requires !r.hasRead
    ensures var (after, result) := ReadStep(r, stored, fails, size);
            && (result == Failed <==> fails)
            && (after == r <==> fails || stored.None?)
  {
  }

  // ----- Sequences of reads -----

  /** A call of Read, with what the key holds at that moment. */
  datatype Call = Call(stored: Option<string>, fails: bool, size: nat)

  function After(r: Reader, calls: seq<Call>): Reader {
    if calls == [] then r
    else
      var c := calls[|calls| - 1];
      ReadStep(After(r, calls[..|calls| - 1]), c.stored, c.fails, c.size).0
  }

  /** Everything that the calls returned, put together. */
  function Bytes(r: Reader, calls: seq<Call>): string {
    if calls == [] then ""
    else
      var c := calls[|calls| - 1];
      Bytes(r, calls[..|calls| - 1]) + Chunk(After(r, calls[..|calls| - 1]), c.stored, c.fails, c.size)
  }

  function Total(calls: seq<Call>): nat {
    if calls == [] then 0 else Total(calls[..|calls| - 1]) + calls[|calls| - 1].size
  }

  /** One more call of a reader that has returned the first n bytes of the value. */
  lemma ReadOn(value: string, n: nat, c: Call)
    requires n <= |value|
    ensures var m := Min(n + c.size, |value|);
            && ReadStep(Reader(value[n..], true), c.stored, c.fails, c.size).0 == Reader(value[m..], true)
            && Chunk(Reader(value[n..], true), c.stored, c.fails, c.size) == value[n..m]
  {
  }

  lemma Joined(value: string, n: nat, m: nat)
    requires n <= m <= |value|
    ensures value[..n] + value[n..m] == value[..m]
  {
  }

  /**
   Reader snapshot: once the first query found a value, the calls return exactly that value, piece by
   piece, whatever is written meanwhile and whichever later queries would fail...
   */
  lemma {:induction false} Snapshot(value: string, calls: seq<Call>)
    requires calls != [] && calls[0].stored == Some(value) && !calls[0].fails
    ensures var n := Min(Total(calls), |value|);
            After(Reader("", false), calls) == Reader(value[n..], true) && Bytes(Reader("", false), calls) == value[..n]
  {
    var before, c := calls[..|calls| - 1], calls[|calls| - 1];
    if before == [] {
      assert After(Reader("", false), before) == Reader("", false) && Total(before) == 0;
      assert "" + value[..Min(c.size, |value|)] == value[..Min(c.size, |value|)];
    } else {
      assert before[0] == calls[0];
      Snapshot(value, before);
      var n := Min(Total(before), |value|);
      ReadOn(value, n, c);
      Joined(value, n, Min(n + c.size, |value|));
    }
  }

  /**
   ... and a call reports the end exactly if the value was returned completely, or its buffer is
   empty: then it reports the end although bytes may be left.
   */
  lemma SnapshotEnd(value: string, calls: seq<Call>, last: Call)
    requires calls != [] && calls[0].stored == Some(value) && !calls[0].fails
    ensures var r := After(Reader("", false), calls);
            ReadStep(r, last.stored, last.fails, last.size).1 == Eof
            <==> Bytes(Reader("", false), calls) == value || last.size == 0
  {
    Snapshot(value, calls);
  }

  /** A reader that has found nothing, or an empty value. */
  lemma {:induction false} NothingRead(calls: seq<Call>)
    requires forall i :: 0 <= i < |calls| ==> !calls[i].fails
    requires (forall i :: 0 <= i < |calls| ==> calls[i].stored == None) || calls[0].stored == Some("")
    ensures After(Reader("", false), calls) == Reader("", calls != [] && calls[0].stored.Some?)
  {
    if calls != [] {
      NothingRead(calls[..|calls| - 1]);
    }
  }

  /**
   A nil write and an absent key both read as the end, on every call; they differ in that only the
   absent key is queried again.
   */
  lemma TombstoneReadsAsEnd(calls: seq<Call>, last: Call)
    requires forall c :: c in calls + [last] ==> !c.fails
    requires (forall c :: c in calls + [last] ==> c.stored == None) || (calls + [last])[0].stored == Some("")
    ensures ReadStep(After(Reader("", false), calls), last.stored, last.fails, last.size).1 == Eof
    ensures After(Reader("", false), calls).data == ""
    ensures calls != [] ==> After(Reader("", false), calls).hasRead == calls[0].stored.Some?
  {
    var all := calls + [last];
    assert forall i :: 0 <= i < |all| ==> all[i] in all;
    assert forall i :: 0 <= i < |calls| ==> calls[i] == all[i];
    assert last == all[|calls|];
    NothingRead(calls);
  }
}
