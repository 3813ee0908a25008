/** The provider's store over the etcd client: what a key without bytes means. */
module StoredBlobs {
  import opened Options
  import opened Decimal
  import opened ExecutionSpaces
  import opened Provider
  import E = Etcd

  /** JSON has at least one byte, and so only a nil write leaves none. */
  ghost predicate IsCodec(encode: Blob -> string) {
    encode(Tombstone) == "" && forall b: Blob :: !b.Tombstone? ==> encode(b) != ""
  }

  function KeyOf(id: Uuid): string { "/" + Text(id) }

  lemma KeysDiffer(a: Uuid, b: Uuid)
    requires KeyOf(a) == KeyOf(b)
    ensures a == b
  {
    assert KeyOf(a)[1..] == Text(a) && KeyOf(b)[1..] == Text(b);
    ValueOfPrint(a);
    ValueOfPrint(b);
  }

  /** The keys and values of etcd stand for the store s. */
  ghost predicate Holds(m: map<string, string>, s: Store, encode: Blob -> string) {
    forall id: Uuid :: HoldsAt(m, s, encode, id)
  }

  predicate HoldsAt(m: map<string, string>, s: Store, encode: Blob -> string, id: Uuid) {
    (KeyOf(id) in m <==> id in s) && (id in s ==> m[KeyOf(id)] == encode(s[id]))
  }

  /** A write through a client that is opened for `id`; a check-in writes a tombstone. */
  method Put(root: E.Client, id: Uuid, blob: Blob, encode: Blob -> string, fails: bool, ghost s: Store)
    returns (ok: bool)
    requires Holds(root.store.m, s, encode)
    modifies root.store
    ensures ok == !fails && Holds(root.store.m, if ok then s[id := blob] else s, encode)
  {
    var client := root.Open(Text(id));
    ghost var m := root.store.m;
    var _, written := client.Write(encode(blob), fails);
    ok := written;
    if ok {
      ghost var m', s' := root.store.m, s[id := blob];
      forall x: Uuid
        ensures HoldsAt(m', s', encode, x)
      {
        assert HoldsAt(m, s, encode, x);
        if x != id && KeyOf(x) == KeyOf(id) {
          KeysDiffer(x, id);
        }
      }
    }
  }

  /**
   A first read through a client that is opened for `id` ends at once exactly where the provider finds the
   end: at an absent key, and at one whose executor is checked in.
   */
  method Look(root: E.Client, id: Uuid, p: array<char>, encode: Blob -> string, fails: bool, ghost s: Store)
    returns (r: E.Result)
    requires Holds(root.store.m, s, encode) && IsCodec(encode) && p.Length > 0
    modifies p
    ensures r == E.Eof <==> ReadSpec(s, id, fails).Eof?
    ensures r == E.Failed <==> ReadSpec(s, id, fails).Error?
    ensures r.Got? ==> id in s && r.n <= p.Length && r.n <= |encode(s[id])| && p[..r.n] == encode(s[id])[..r.n]
  {
    var client := root.Open(Text(id));
    assert HoldsAt(root.store.m, s, encode, id);
    r := client.Read(p, fails);
  }
}
