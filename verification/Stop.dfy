/** The stop request: stop every job, then check the executors in. */
module StopHandler {
  import opened ExecutionSpaces
  import opened Provider

  /** Per executor of the request: whether its lookup fails, its job fails to stop, its deletion fails. */
  datatype Faults = Faults(lookup: bool, stop: bool, delete: bool)

  /** The job of an executor, if its specification is there and has a build ID. */
  predicate HasJob(s: Store, id: Uuid, f: Faults) {
    ReadSpec(s, id, f.lookup).Found? && ReadSpec(s, id, f.lookup).spec.buildID != ""
  }

  /** The build IDs that are told to stop, in order. */
  function StopCalls(s: Store, ids: seq<Uuid>, fs: seq<Faults>): seq<string>
    requires |fs| == |ids|
  {
    if ids == [] then []
    else
      var n := |ids| - 1;
      StopCalls(s, ids[..n], fs[..n]) +
      if HasJob(s, ids[n], fs[n]) then [ReadSpec(s, ids[n], fs[n].lookup).spec.buildID] else []
  }

  /** The job that the request has to stop for its k-th executor, in terms of the store. */
  predicate MustStop(s: Store, ids: seq<Uuid>, fs: seq<Faults>, k: nat)
    requires k < |ids| == |fs|
  {
    !fs[k].lookup && ids[k] in s && s[ids[k]].Spec? && s[ids[k]].spec.buildID != ""
  }

  /** One call for each job that has to be stopped, whatever went wrong before it, in the order of the request... */
  lemma {:induction false} StopCallsJoin(s: Store, ids: seq<Uuid>, fs: seq<Faults>, more: seq<Uuid>, gs: seq<Faults>)
    requires |fs| == |ids| && |gs| == |more|
    ensures StopCalls(s, ids + more, fs + gs) == StopCalls(s, ids, fs) + StopCalls(s, more, gs)
  {
    if more == [] {
      assert ids + more == ids && fs + gs == fs;
    } else {
      var n, all, alls := |more| - 1, ids + more, fs + gs;
      assert all[..|all| - 1] == ids + more[..n] && alls[..|all| - 1] == fs + gs[..n];
      StopCallsJoin(s, ids, fs, more[..n], gs[..n]);
    }
  }

  /** ... and for no other. */
  lemma StopCallsOne(s: Store, id: Uuid, f: Faults)
    ensures StopCalls(s, [id], [f]) == if MustStop(s, [id], [f], 0) then [s[id].spec.buildID] else []
  {
    assert [id][..0] == [] && [f][..0] == [];
  }

  /** Every job that has to be stopped is told to, also after a failure. */
  lemma {:induction false} EveryJobTold(s: Store, ids: seq<Uuid>, fs: seq<Faults>, k: nat)
    requires |fs| == |ids| && k < |ids| && MustStop(s, ids, fs, k)
    ensures s[ids[k]].spec.buildID in StopCalls(s, ids, fs)
  {
    if k < |ids| - 1 {
      EveryJobTold(s, ids[..|ids| - 1], fs[..|ids| - 1], k);
    }
  }

  predicate StepOk(s: Store, id: Uuid, f: Faults) { !f.lookup && (HasJob(s, id, f) ==> !f.stop) }

  predicate AllStopped(s: Store, ids: seq<Uuid>, fs: seq<Faults>)
    requires |fs| == |ids|
  {
    forall k :: 0 <= k < |ids| ==> StepOk(s, ids[k], fs[k])
  }

  function Deletes(fs: seq<Faults>): seq<bool> {
    seq(|fs|, i requires 0 <= i < |fs| => fs[i].delete)
  }

  /** Every job of the request that has a build ID was told to stop, and did. */
  predicate JobsStopped(s: Store, ids: seq<Uuid>, fs: seq<Faults>, stopped: seq<string>)
    requires |fs| == |ids|
  {
    forall k :: 0 <= k < |ids| && ids[k] in s && s[ids[k]].Spec? && s[ids[k]].spec.buildID != "" ==>
      s[ids[k]].spec.buildID in stopped && !fs[k].stop && !fs[k].lookup
  }

  /** Some specification was tombstoned. */
  predicate Tombstones(before: Store, after: Store) {
    exists id :: id in before && before[id].Spec? && (id !in after || after[id].Tombstone?)
  }

  /**
   The handler; `decoded` tells whether the body of the request could be read. A failed stop phase
   answers 500 and leaves the store alone; otherwise everything is checked in, and 204 is answered if
   every deletion works. A specification is tombstoned only if every job of the request was stopped.
   */
  method Stop(provider: ProviderCore, decoded: bool, ids: seq<Uuid>, fs: seq<Faults>)
    returns (code: nat, stopped: seq<string>)
    requires |fs| == |ids|
    modifies provider
    ensures !decoded ==> code == 400 && stopped == [] && provider.store == old(provider.store)
    ensures decoded ==> stopped == StopCalls(old(provider.store), ids, fs)
    ensures decoded ==> forall k :: 0 <= k < |ids| && MustStop(old(provider.store), ids, fs, k) ==>
              old(provider.store)[ids[k]].spec.buildID in stopped
    ensures decoded && !AllStopped(old(provider.store), ids, fs) ==>
              code == 500 && provider.store == old(provider.store)
    ensures decoded && AllStopped(old(provider.store), ids, fs) ==>
              (code == 204 <==> true !in Deletes(fs)) && (code == 204 || code == 500)
    ensures code == 204 ==> provider.store == Tombstoned(old(provider.store), ids)
    ensures exists n :: 0 <= n <= |ids| && provider.store == Tombstoned(old(provider.store), ids[..n])
    ensures Tombstones(old(provider.store), provider.store) ==> JobsStopped(old(provider.store), ids, fs, stopped)
  {
    if !decoded {
      assert Tombstoned(provider.store, ids[..0]) == provider.store;
      return 400, [];
    }
    var failed := false;
    stopped := [];
    var i := 0;
    while i < |ids|
      invariant i <= |ids| && provider.store == old(provider.store)
      invariant stopped == StopCalls(provider.store, ids[..i], fs[..i])
      invariant failed <==> !AllStopped(provider.store, ids[..i], fs[..i])
    {
      assert ids[..i + 1][..i] == ids[..i] && fs[..i + 1][..i] == fs[..i];
      ghost var before := AllStopped(provider.store, ids[..i], fs[..i]);
      assert before ==> forall k :: 0 <= k < i ==> StepOk(provider.store, ids[..i][k], fs[..i][k]);
      var read := ReadSpec(provider.store, ids[i], fs[i].lookup);
      if read.Error? {
        failed := true;
      } else if read.Eof? || read.spec.buildID == "" {
        // already checked in, or never started
      } else {
        if fs[i].stop {
          failed := true;
        }
        stopped := stopped + [read.spec.buildID];
      }
      AllStoppedSnoc(provider.store, ids, fs, i);
      i := i + 1;
    }
    assert ids[..i] == ids && fs[..i] == fs;
    forall k | 0 <= k < |ids| && MustStop(provider.store, ids, fs, k)
      ensures provider.store[ids[k]].spec.buildID in stopped
    {
      EveryJobTold(provider.store, ids, fs, k);
    }
    if failed {
      assert Tombstoned(provider.store, ids[..0]) == provider.store;
      return 500, stopped;
    }
    AllJobsStopped(provider.store, ids, fs);
    var ok := provider.Checkin(ids, Deletes(fs));
    return if ok then 204 else 500, stopped;
  }

  lemma AllStoppedSnoc(s: Store, ids: seq<Uuid>, fs: seq<Faults>, i: nat)
    requires |fs| == |ids| && i < |ids|
    ensures AllStopped(s, ids[..i + 1], fs[..i + 1]) <==> AllStopped(s, ids[..i], fs[..i]) && StepOk(s, ids[i], fs[i])
  {
  }

  lemma {:induction false} TombstonedExactly(s: Store, ids: seq<Uuid>, id: Uuid)
    ensures id in ids ==> id in Tombstoned(s, ids) && Tombstoned(s, ids)[id].Tombstone?
    ensures id !in ids ==> (id in Tombstoned(s, ids) <==> id in s)
    ensures id !in ids && id in s ==> Tombstoned(s, ids)[id] == s[id]
  {
    if ids != [] {
      TombstonedExactly(s, ids[..|ids| - 1], id);
      assert ids == ids[..|ids| - 1] + [ids[|ids| - 1]];
    }
  }

  /** The stop phase fails exactly if a lookup fails, or a job that has to be stopped does not stop. */
  lemma StopFails(s: Store, ids: seq<Uuid>, fs: seq<Faults>)
    requires |fs| == |ids|
    ensures AllStopped(s, ids, fs)
            <==> forall k :: 0 <= k < |ids| ==> !fs[k].lookup && !(MustStop(s, ids, fs, k) && fs[k].stop)
  {
    forall k | 0 <= k < |ids|
      ensures StepOk(s, ids[k], fs[k]) <==> !fs[k].lookup && !(MustStop(s, ids, fs, k) && fs[k].stop)
    {
    }
  }

  lemma AllJobsStopped(s: Store, ids: seq<Uuid>, fs: seq<Faults>)
    requires |fs| == |ids| && AllStopped(s, ids, fs)
    ensures JobsStopped(s, ids, fs, StopCalls(s, ids, fs))
  {
    forall k | 0 <= k < |ids| && ids[k] in s && s[ids[k]].Spec? && s[ids[k]].spec.buildID != ""
      ensures s[ids[k]].spec.buildID in StopCalls(s, ids, fs) && !fs[k].stop && !fs[k].lookup
    {
      assert StepOk(s, ids[k], fs[k]);
      EveryJobTold(s, ids, fs, k);
    }
  }

  /** Once a stop has succeeded, repeating it stops nothing, and fails only if the database does. */
  lemma {:induction false} StopAgain(s: Store, all: seq<Uuid>, ids: seq<Uuid>, fs: seq<Faults>)
    requires |fs| == |ids| && (forall id :: id in ids ==> id in all)
    ensures StopCalls(Tombstoned(s, all), ids, fs) == []
    ensures AllStopped(Tombstoned(s, all), ids, fs) <==> forall k :: 0 <= k < |ids| ==> !fs[k].lookup
  {
    var t, n := Tombstoned(s, all), |ids| - 1;
    forall k | 0 <= k < |ids|
      ensures !HasJob(t, ids[k], fs[k])
    {
      assert ids[k] in all;
      TombstonedExactly(s, all, ids[k]);
    }
    if ids != [] {
      StopAgain(s, all, ids[..n], fs[..n]);
    }
  }

  /** Two stops in a row, the first successful, the second without database errors. */
  method StopTwice(provider: ProviderCore, ids: seq<Uuid>, fs: seq<Faults>, again: seq<Faults>)
    returns (code: nat, stopped: seq<string>)
    requires |fs| == |ids| == |again| && AllStopped(provider.store, ids, fs) && true !in Deletes(fs)
    requires forall f :: f in again ==> !f.lookup && !f.delete
    modifies provider
    ensures code == 204 && stopped == []
  {
    var first, _ := Stop(provider, true, ids, fs);
    StopAgain(old(provider.store), ids, ids, again);
    code, stopped := Stop(provider, true, ids, again);
  }
}
