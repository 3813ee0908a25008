/** Concurrent checkouts, starts and check-ins over the one store, with fresh UUIDs. */
module Checkouts {
  import opened Options
  import opened ExecutionSpaces
  import opened Provider

  datatype Pc = Requested | Running | Finished

  /** A checkout: how many executors it wants, and those it has added so far. */
  datatype Job = Job(amount: int, added: seq<Uuid>, pc: Pc)

  datatype State = State(
    store: Store,
    jobs: map<Uuid, Job>,
    issued: set<Uuid>,          // every UUID drawn so far
    checkedIn: set<Uuid>)       // executors that a check-in has deleted

  datatype Action =
    | Request(id: Uuid, amount: int)
    | SavePending(id: Uuid, ok: bool)
    | SaveExecutor(id: Uuid, executor: Uuid, image: string, environment: Environ, vars: HostVars,
                   ok: bool, failOk: bool)
    | SaveDone(id: Uuid, ok: bool, failOk: bool)
    | SaveStarted(executor: Uuid, buildID: string)      // ExecutorStart stores the build ID
    | CheckIn(executor: Uuid)

  predicate IsRunning(s: State, id: Uuid) { id in s.jobs && s.jobs[id].pc.Running? }

  function Wanted(j: Job): nat { if j.amount < 0 then 0 else j.amount }

  predicate Enabled(s: State, a: Action) {
    match a
    case Request(id, _) => id !in s.issued
    case SavePending(id, _) => id in s.jobs && s.jobs[id].pc.Requested?
    case SaveExecutor(id, executor, _, _, _, _, _) =>
      IsRunning(s, id) && |s.jobs[id].added| < s.jobs[id].amount && executor !in s.issued
    case SaveDone(id, _, _) => IsRunning(s, id) && |s.jobs[id].added| >= s.jobs[id].amount
    case SaveStarted(executor, _) => executor in s.store && s.store[executor].Spec?
    case CheckIn(executor) => executor in s.issued && executor !in s.jobs
  }

  function Do(s: State, a: Action): State
    requires Enabled(s, a)
  {
    match a
    case Request(id, amount) =>
      s.(issued := s.issued + {id}, jobs := s.jobs[id := Job(amount, [], Requested)])
    case SavePending(id, ok) =>
      if ok then
        s.(store := s.store[id := Space(Record(id, [], Pending))], jobs := s.jobs[id := s.jobs[id].(pc := Running)])
      else s.(jobs := s.jobs[id := s.jobs[id].(pc := Finished)])
    case SaveExecutor(id, executor, image, environment, vars, ok, failOk) =>
      var t := s.(issued := s.issued + {executor});
      if ok then
        t.(store := s.store[executor := StoredSpec(executor, image, environment, vars)],
           jobs := s.jobs[id := s.jobs[id].(added := s.jobs[id].added + [executor])])
      else
        t.(store := if failOk then s.store[id := Space(Record(id, [], Failed))] else s.store,
           jobs := s.jobs[id := s.jobs[id].(pc := Finished)])
    case SaveDone(id, ok, failOk) =>
      s.(store := if ok then s.store[id := Space(Record(id, s.jobs[id].added, Done))]
                  else if failOk then s.store[id := Space(Record(id, [], Failed))]
                  else s.store,
         jobs := s.jobs[id := s.jobs[id].(pc := Finished)])
    case SaveStarted(executor, buildID) =>
      s.(store := s.store[executor := Spec(s.store[executor].spec.(buildID := buildID))])
    case CheckIn(executor) =>
      s.(store := s.store[executor := Tombstone], checkedIn := s.checkedIn + {executor})
  }

  // ----- Invariants -----

  /** A stored executor, unless it was checked in. */
  predicate Stored(s: State, e: Uuid) {
    && e in s.issued && e !in s.jobs
    && (e !in s.checkedIn ==>
          && e in s.store && s.store[e].Spec? && s.store[e].spec.id == e
          && ENVIRONMENT_ID in s.store[e].spec.environment
          && s.store[e].spec.environment[ENVIRONMENT_ID] == Text(e))
  }

  predicate RecordInv(s: State, id: Uuid)
    requires id in s.jobs
  {
    var j := s.jobs[id];
    match j.pc
    case Requested => id !in s.store
    case Running => id in s.store && s.store[id] == Space(Record(id, [], Pending))
    case Finished =>
      id in s.store ==>
        || s.store[id] == Space(Record(id, [], Pending))
        || s.store[id] == Space(Record(id, [], Failed))
        || (s.store[id] == Space(Record(id, j.added, Done)) && |j.added| == Wanted(j))
  }

  predicate JobInv(s: State, id: Uuid)
    requires id in s.jobs
  {
    var j := s.jobs[id];
    && id in s.issued && |j.added| <= Wanted(j)
    && (forall k :: 0 <= k < |j.added| ==> Stored(s, j.added[k]))
    && (forall k, l :: 0 <= k < l < |j.added| ==> j.added[k] != j.added[l])
  }

  predicate Inv(s: State) {
    && (forall id :: id in s.jobs ==> JobInv(s, id))
    && (forall id :: id in s.jobs ==> RecordInv(s, id))
    && (forall id :: id in s.store && s.store[id].Space? ==> id in s.jobs)
    && s.store.Keys <= s.issued
    && s.checkedIn <= s.issued
  }

  /** The record that a reader of `id` sees. */
  function RecordOf(s: State, id: Uuid): Option<Record> {
    if id in s.store && s.store[id].Space? then Some(s.store[id].record) else None
  }

  /** A record appears as PENDING without references, and leaves that state once, for DONE or FAILED. */
  predicate MayBecome(before: Option<Record>, after: Option<Record>) {
    || before == after
    || (before.None? && after.Some? && after.value.status.Pending? && after.value.references == [])
    || (before.Some? && after.Some? && before.value.status.Pending?
        && (after.value.status.Done? || after.value.status.Failed?))
  }

  lemma RequestStep(s: State, id: Uuid, amount: int)
    requires Inv(s) && Enabled(s, Request(id, amount))
    ensures Inv(Do(s, Request(id, amount)))
  {
  }

  lemma PendingStep(s: State, id: Uuid, ok: bool)
    requires Inv(s) && Enabled(s, SavePending(id, ok))
    ensures Inv(Do(s, SavePending(id, ok)))
  {
    var t := Do(s, SavePending(id, ok));
    forall x | x in t.jobs
      ensures JobInv(t, x) && RecordInv(t, x)
    {
      assert JobInv(s, x) && RecordInv(s, x);
      forall k | 0 <= k < |t.jobs[x].added|
        ensures Stored(t, t.jobs[x].added[k])
      {
        assert Stored(s, s.jobs[x].added[k]);
      }
    }
  }

  /** A checkout ends with its last record written. */
  function EndedWith(s: State, id: Uuid, record: Record): State
    requires id in s.jobs
  {
    s.(store := s.store[id := Space(record)], jobs := s.jobs[id := s.jobs[id].(pc := Finished)])
  }

  lemma Finishes(s: State, id: Uuid, record: Record)
    requires Inv(s) && IsRunning(s, id)
    requires || record == Record(id, [], Pending) || record == Record(id, [], Failed)
             || (record == Record(id, s.jobs[id].added, Done) && |s.jobs[id].added| == Wanted(s.jobs[id]))
    ensures Inv(EndedWith(s, id, record))
  {
    var t := EndedWith(s, id, record);
    forall x | x in t.jobs
      ensures JobInv(t, x)
    {
      assert JobInv(s, x);
      forall k | 0 <= k < |t.jobs[x].added|
        ensures Stored(t, t.jobs[x].added[k])
      {
        assert Stored(s, s.jobs[x].added[k]);
      }
    }
    forall x | x in t.jobs
      ensures RecordInv(t, x)
    {
      assert RecordInv(s, x);
    }
  }

  lemma DoneStep(s: State, a: Action)
    requires Inv(s) && Enabled(s, a) && a.SaveDone?
    ensures Inv(Do(s, a))
  {
    var id := a.id;
    assert JobInv(s, id) && RecordInv(s, id);
    var record := if a.ok then Record(id, s.jobs[id].added, Done)
                  else if a.failOk then Record(id, [], Failed) else Record(id, [], Pending);
    Finishes(s, id, record);
    assert s.store[id := Space(Record(id, [], Pending))] == s.store;
  }

  lemma DrawUuid(s: State, e: Uuid)
    requires Inv(s) && e !in s.issued
    ensures Inv(s.(issued := s.issued + {e}))
  {
    var t := s.(issued := s.issued + {e});
    forall x | x in t.jobs
      ensures JobInv(t, x) && RecordInv(t, x)
    {
      assert JobInv(s, x) && RecordInv(s, x);
      forall k | 0 <= k < |t.jobs[x].added|
        ensures Stored(t, t.jobs[x].added[k])
      {
        assert Stored(s, s.jobs[x].added[k]);
      }
    }
  }

  lemma SpecStep(s: State, a: Action)
    requires Inv(s) && Enabled(s, a) && (a.SaveStarted? || a.CheckIn?)
    ensures Inv(Do(s, a))
  {
  }

  lemma FailStep(s: State, a: Action)
    requires Inv(s) && Enabled(s, a) && a.SaveExecutor? && !a.ok
    ensures Inv(Do(s, a))
  {
    var id := a.id;
    assert RecordInv(s, id);
    DrawUuid(s, a.executor);
    Finishes(s.(issued := s.issued + {a.executor}), id,
             if a.failOk then Record(id, [], Failed) else Record(id, [], Pending));
    assert s.store[id := Space(Record(id, [], Pending))] == s.store;
  }

  /** What was stored stays stored, so the jobs that add nothing are as they were. */
  lemma StoredStays(s: State, a: Action, e: Uuid)
    requires Enabled(s, a) && a.SaveExecutor? && a.ok && Stored(s, e)
    ensures Stored(Do(s, a), e)
  {
  }

  lemma OtherJob(s: State, a: Action, id: Uuid)
    requires Inv(s) && Enabled(s, a) && a.SaveExecutor? && a.ok && id in s.jobs && id != a.id
    ensures JobInv(Do(s, a), id)
  {
    var added := s.jobs[id].added;
    assert JobInv(s, id);
    forall k | 0 <= k < |added|
      ensures Stored(Do(s, a), added[k])
    {
      StoredStays(s, a, added[k]);
    }
  }

  lemma OwnJob(s: State, a: Action)
    requires Inv(s) && Enabled(s, a) && a.SaveExecutor? && a.ok
    ensures JobInv(Do(s, a), a.id)
  {
    OwnId(a.environment, a.executor, a.vars);
    var t, added := Do(s, a), s.jobs[a.id].added;
    assert JobInv(s, a.id) && Stored(t, a.executor);
    forall k | 0 <= k < |added|
      ensures Stored(t, added[k]) && added[k] != a.executor
    {
      StoredStays(s, a, added[k]);
    }
  }

  lemma ExecutorStep(s: State, a: Action)
    requires Inv(s) && Enabled(s, a) && a.SaveExecutor? && a.ok
    ensures Inv(Do(s, a))
  {
    var t := Do(s, a);
    OwnJob(s, a);
    forall id | id in t.jobs
      ensures JobInv(t, id) && RecordInv(t, id)
    {
      if id != a.id {
        OtherJob(s, a, id);
      }
      assert RecordInv(s, id);
    }
  }

  lemma InvStep(s: State, a: Action)
    requires Inv(s) && Enabled(s, a)
    ensures Inv(Do(s, a))
  {
    match a
    case Request(id, amount) => RequestStep(s, id, amount);
    case SavePending(id, ok) => PendingStep(s, id, ok);
    case SaveExecutor(_, _, _, _, _, ok, _) => if ok { ExecutorStep(s, a); } else { FailStep(s, a); }
    case SaveDone(_, _, _) => DoneStep(s, a);
    case SaveStarted(_, _) => SpecStep(s, a);
    case CheckIn(_) => SpecStep(s, a);
  }

  // ----- Runs -----

  function Init(): State { State(map[], map[], {}, {}) }

  predicate Legal(run: seq<Action>) {
    run == [] || (Legal(run[..|run| - 1]) && Enabled(After(run[..|run| - 1]), run[|run| - 1]))
  }

  function After(run: seq<Action>): State {
    if run == [] then Init()
    else
      var before, a := After(run[..|run| - 1]), run[|run| - 1];
      if Enabled(before, a) then Do(before, a) else before
  }

  lemma {:induction false} RunInv(run: seq<Action>)
    requires Legal(run)
    ensures Inv(After(run))
  {
    if run != [] {
      RunInv(run[..|run| - 1]);
      InvStep(After(run[..|run| - 1]), run[|run| - 1]);
    }
  }

  /** In every interleaving, each single step changes the record of a checkout only as it may. */
  lemma RecordStep(run: seq<Action>, a: Action, id: Uuid)
    requires Legal(run) && Enabled(After(run), a)
    ensures MayBecome(RecordOf(After(run), id), RecordOf(Do(After(run), a), id))
  {
    RunInv(run);
    RecordChange(After(run), a, id);
  }

  lemma RecordChange(s: State, a: Action, id: Uuid)
    requires Inv(s) && Enabled(s, a)
    ensures MayBecome(RecordOf(s, id), RecordOf(Do(s, a), id))
    ensures s.checkedIn <= Do(s, a).checkedIn
  {
  }

  /** What a record can have become some steps later: DONE and FAILED records are final. */
  predicate Advances(before: Option<Record>, after: Option<Record>) {
    before.Some? ==> after.Some? && (before == after || before.value.status.Pending?)
  }

  lemma {:induction false} RecordsAdvance(run: seq<Action>, k: nat, id: Uuid)
    requires Legal(run) && k <= |run|
    ensures Legal(run[..k]) && Advances(RecordOf(After(run[..k]), id), RecordOf(After(run), id))
    ensures After(run[..k]).checkedIn <= After(run).checkedIn
  {
    if k < |run| {
      var before := run[..|run| - 1];
      assert before[..k] == run[..k];
      RecordsAdvance(before, k, id);
      RunInv(before);
      RecordChange(After(before), run[|run| - 1], id);
    } else {
      assert run[..k] == run;
    }
  }

  /**
   A visible DONE record lists exactly max(Amount, 0) references, all different, and every one of them
   is already stored, with its own ID and ENVIRONMENT_ID, unless it was checked in since.
   */
  lemma DoneIsComplete(run: seq<Action>, id: Uuid)
    requires Legal(run) && RecordOf(After(run), id).Some? && RecordOf(After(run), id).value.status.Done?
    ensures var s, refs := After(run), RecordOf(After(run), id).value.references;
            && id in s.jobs && |refs| == Wanted(s.jobs[id])
            && (forall k :: 0 <= k < |refs| ==> Stored(s, refs[k]))
            && (forall k, l :: 0 <= k < l < |refs| ==> refs[k] != refs[l])
  {
    RunInv(run);
    assert RecordInv(After(run), id) && JobInv(After(run), id);
  }

  /**
   Until check-in, Status finds every executor of a DONE checkout, in the order of the references,
   although other goroutines run between its reads: `ts` are the moments of the reads.
   */
  lemma StatusSees(run: seq<Action>, ts: seq<nat>, id: Uuid, k: nat)
    requires Legal(run) && ts != [] && (forall i :: 0 <= i < |ts| ==> ts[i] <= |run|)
    requires forall i, j :: 0 <= i < j < |ts| ==> ts[i] <= ts[j]
    requires RecordOf(After(run[..ts[0]]), id).Some?
    requires var record := RecordOf(After(run[..ts[0]]), id).value;
             && record.status.Done? && |ts| == |record.references| + 1 && k < |record.references|
             && record.references[k] !in After(run[..ts[k + 1]]).checkedIn
    ensures var e := RecordOf(After(run[..ts[0]]), id).value.references[k];
            var found := ReadSpec(After(run[..ts[k + 1]]).store, e, false);
            found.Found? && found.spec.id == e
  {
    var now := run[..ts[k + 1]];
    RecordsAdvance(run, ts[k + 1], id);
    assert now[..ts[0]] == run[..ts[0]];
    RecordsAdvance(now, ts[0], id);
    DoneIsComplete(now, id);
  }

  /**
   So Status answers with all of them, in that order, whatever runs between its reads: `snaps` are what
   the store holds at the moments `ts` of a run.
   */
  method StatusInRun(provider: ProviderCore, id: Uuid, snaps: seq<Store>, ghost run: seq<Action>, ghost ts: seq<nat>)
    returns (r: StatusResult)
    requires Legal(run) && snaps != [] && |ts| == |snaps| && (forall i :: 0 <= i < |ts| ==> ts[i] <= |run|)
    requires forall i, j :: 0 <= i < j < |ts| ==> ts[i] <= ts[j]
    requires forall i :: 0 <= i < |ts| ==> snaps[i] == After(run[..ts[i]]).store
    requires id in snaps[0] && snaps[0][id].Space? && snaps[0][id].record.status.Done?
    requires var refs := snaps[0][id].record.references;
             && |snaps| == |refs| + 1
             && forall k :: 0 <= k < |refs| ==> refs[k] !in After(run[..ts[k + 1]]).checkedIn
    ensures r.Ok? && r.record == snaps[0][id].record && |r.executors| == |r.record.references|
    ensures forall k :: 0 <= k < |r.executors| ==> r.executors[k].id == r.record.references[k]
  {
    ghost var refs := snaps[0][id].record.references;
    forall k | 0 <= k < |refs|
      ensures ReadSpec(snaps[k + 1], refs[k], false).Found? && ReadSpec(snaps[k + 1], refs[k], false).spec.id == refs[k]
    {
      StatusSees(run, ts, id, k);
    }
    r := provider.Status(id, snaps, seq(|snaps|, i => false));
  }

  // ----- One checkout -----

  lemma Extend(run: seq<Action>, a: Action)
    requires Legal(run) && Enabled(After(run), a)
    ensures Legal(run + [a]) && After(run + [a]) == Do(After(run), a)
  {
    assert (run + [a])[..|run|] == run;
  }

  predicate Fresh(s: State, ids: seq<Uuid>) {
    && (forall i :: 0 <= i < |ids| ==> ids[i] !in s.issued)
    && (forall i, j :: 0 <= i < j < |ids| ==> ids[i] != ids[j])
  }

  /** From s to t, the executors `ids` were saved for checkout `id`. */
  predicate Saved(s: State, t: State, id: Uuid, ids: seq<Uuid>, image: string, m: Environ, vars: HostVars) {
    && IsRunning(s, id) && IsRunning(t, id) && t.jobs[id].amount == s.jobs[id].amount
    && t.jobs[id].added == s.jobs[id].added + ids
    && t.store == WithExecutors(s.store, ids, image, m, vars)
    && t.issued == s.issued + (set e | e in ids)
  }

  lemma SavedSnoc(s: State, t: State, id: Uuid, ids: seq<Uuid>, e: Uuid, image: string, m: Environ, vars: HostVars)
    requires Saved(s, t, id, ids, image, m, vars) && Enabled(t, SaveExecutor(id, e, image, m, vars, true, false))
    ensures Saved(s, Do(t, SaveExecutor(id, e, image, m, vars, true, false)), id, ids + [e], image, m, vars)
  {
    assert (ids + [e])[..|ids|] == ids;
    assert (set x | x in ids + [e]) == (set x | x in ids) + {e};
    assert s.jobs[id].added + ids + [e] == s.jobs[id].added + (ids + [e]);
  }

  lemma {:induction false} SaveAll(run: seq<Action>, id: Uuid, ids: seq<Uuid>, image: string, m: Environ,
                                   vars: HostVars)
    returns (next: seq<Action>)
    requires Legal(run) && IsRunning(After(run), id) && Fresh(After(run), ids)
    requires ids == [] || |After(run).jobs[id].added| + |ids| <= After(run).jobs[id].amount
    ensures Legal(next) && Saved(After(run), After(next), id, ids, image, m, vars)
  {
    if ids == [] {
      next := run;
    } else {
      var before, e := ids[..|ids| - 1], ids[|ids| - 1];
      next := SaveAll(run, id, before, image, m, vars);
      assert ids == before + [e];
      var a := SaveExecutor(id, e, image, m, vars, true, false);
      assert e !in After(next).issued;
      SavedSnoc(After(run), After(next), id, before, e, image, m, vars);
      Extend(next, a);
      next := next + [a];
    }
  }

  /** A request, and the write of its PENDING record. */
  lemma Begins(run: seq<Action>, id: Uuid, amount: int, pending: bool) returns (next: seq<Action>)
    requires Legal(run) && id !in After(run).issued
    ensures Legal(next) && After(next).issued == After(run).issued + {id}
    ensures pending ==> After(next).store == After(run).store
    ensures !pending ==>
              && IsRunning(After(next), id) && After(next).jobs[id] == Job(amount, [], Running)
              && After(next).store == After(run).store[id := Space(Record(id, [], Pending))]
  {
    Extend(run, Request(id, amount));
    next := run + [Request(id, amount)];
    Extend(next, SavePending(id, !pending));
    next := next + [SavePending(id, !pending)];
  }

  /** The last write, of a checkout whose executors `added` are saved. */
  lemma Ends(run: seq<Action>, id: Uuid, ids: seq<Uuid>, image: string, m: Environ, vars: HostVars,
             faults: CheckoutFaults)
    returns (next: seq<Action>)
    requires Legal(run) && IsRunning(After(run), id) && Fresh(After(run), ids[StoredCount(|ids|, faults.failAt)..])
    requires After(run).jobs[id].amount == |ids| || (ids == [] && After(run).jobs[id].amount <= 0)
    requires After(run).jobs[id].added == ids[..StoredCount(|ids|, faults.failAt)]
    ensures Legal(next) && After(next).store == After(run).store[id := Space(FinalRecord(id, ids, faults))]
  {
    RunInv(run);
    assert RecordInv(After(run), id);
    assert After(run).store[id := Space(Record(id, [], Pending))] == After(run).store;
    var n := StoredCount(|ids|, faults.failAt);
    var a := if n < |ids| then SaveExecutor(id, ids[n..][0], image, m, vars, false, !faults.failure)
             else SaveDone(id, !faults.last, !faults.failure);
    assert ids[..|ids|] == ids;
    Extend(run, a);
    next := run + [a];
  }

  /** What a checkout makes of the store is what a run of the machine makes of it. */
  lemma CheckoutRuns(run: seq<Action>, id: Uuid, amount: int, ids: seq<Uuid>, image: string, m: Environ, vars: HostVars,
                     faults: CheckoutFaults)
    returns (next: seq<Action>)
    requires Legal(run) && id !in After(run).issued && id !in ids && Fresh(After(run), ids)
    requires |ids| == (if amount < 0 then 0 else amount)
    ensures Legal(next) && After(next).store == CheckoutStore(After(run).store, id, ids, image, m, vars, faults)
  {
    next := Begins(run, id, amount, faults.pending);
    if !faults.pending {
      var n := StoredCount(|ids|, faults.failAt);
      var begun := next;
      next := SaveAll(begun, id, ids[..n], image, m, vars);
      assert [] + ids[..n] == ids[..n];
      LeftFresh(After(run), After(next), id, ids, n);
      next := Ends(next, id, ids, image, m, vars, faults);
    }
  }

  lemma LeftFresh(s: State, t: State, id: Uuid, ids: seq<Uuid>, n: nat)
    requires Fresh(s, ids) && id !in ids && n <= |ids|
    requires t.issued == s.issued + {id} + (set e | e in ids[..n])
    ensures Fresh(t, ids[n..])
  {
    forall i | 0 <= i < |ids[n..]|
      ensures ids[n..][i] !in t.issued
    {
      assert ids[n..][i] == ids[n + i] && ids[n + i] in ids;
    }
  }

  /** The provider's Checkout is a run of the machine, so what is proved about the runs holds of its store. */
  method CheckoutInRun(provider: ProviderCore, id: Uuid, amount: int, image: string, environment: Environment,
                       host: Host, ids: seq<Uuid>, faults: CheckoutFaults, ghost run: seq<Action>)
    returns (space: ExecutionSpace, panics: bool, ghost next: seq<Action>)
    requires Legal(run) && provider.store == After(run).store
    requires id !in After(run).issued && id !in ids && Fresh(After(run), ids)
    requires |ids| == (if amount < 0 then 0 else amount)
    modifies provider, environment
    ensures Legal(next) && provider.store == After(next).store
    ensures panics <==> !faults.pending && Panics(|ids|, faults)
  {
    next := CheckoutRuns(run, id, amount, ids, image, environment.m, VarsOf(host), faults);
    space, panics := provider.Checkout(id, amount, image, environment, host, ids, faults);
  }
}
