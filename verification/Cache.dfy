/** The double-checked cache of Kubernetes lists, and the selection from the lists. */
module KubernetesCache {
  import opened Options

  /** cacheTTL, in the ticks of a monotone clock. */
  const TTL: nat := 5000

  /** A cached list, by the number of the API call that fetched it, with its timestamp. */
  datatype Entry = Entry(list: nat, timestamp: nat)

  /** Where a caller is in getAllJobs (or getAllPods, which is the same on its own map and mutex). */
  datatype Pc =
    | Outside
    | Loaded(key: string, entry: Option<Entry>)     // the fast path has loaded the entry
    | Missed(key: string)                           // waits for the mutex
    | Locked(key: string)
    | Reloaded(key: string, entry: Option<Entry>)   // has loaded the entry again, under the mutex
    | Calling(key: string)                          // the API call is running
    | Stamped(key: string, made: Entry)             // has made the new entry, not stored it yet

  datatype Store = Store(key: string, entry: Entry)
  datatype Answer = Answer(key: string, entry: Entry, checked: nat, cached: bool)

  datatype State = State(
    now: nat,
    cache: map<string, Entry>,
    mutex: Option<nat>,
    pcs: map<nat, Pc>,
    calls: nat,                 // API calls so far
    stores: seq<Store>,         // entries put into the cache, in order
    answers: seq<Answer>)       // lists returned, with the time of the check that allowed it

  datatype Action =
    | Wait(ticks: nat)
    | Load(c: nat, key: string)
    | Check(c: nat)             // compare the loaded entry's age with the TTL
    | Lock(c: nat)
    | Reload(c: nat)
    | Recheck(c: nat)
    | Fetched(c: nat, ok: bool)
    | Put(c: nat)

  function At(s: State, c: nat): Pc { if c in s.pcs then s.pcs[c] else Outside }

  predicate Fresh(entry: Option<Entry>, now: nat) { entry.Some? && now - entry.value.timestamp < TTL }

  predicate Enabled(s: State, a: Action) {
    match a
    case Wait(_) => true
    case Load(c, _) => At(s, c).Outside?
    case Check(c) => At(s, c).Loaded?
    case Lock(c) => At(s, c).Missed? && s.mutex.None?
    case Reload(c) => At(s, c).Locked?
    case Recheck(c) => At(s, c).Reloaded?
    case Fetched(c, _) => At(s, c).Calling?
    case Put(c) => At(s, c).Stamped?
  }

  function Lookup(s: State, key: string): Option<Entry> { if key in s.cache then Some(s.cache[key]) else None }

  function Go(s: State, c: nat, pc: Pc): State { s.(pcs := s.pcs[c := pc]) }

  function Give(s: State, c: nat, entry: Entry, cached: bool): State {
    var key := match At(s, c) case Outside => "" case pc => pc.key;
    Go(s.(answers := s.answers + [Answer(key, entry, s.now, cached)]), c, Outside)
  }

  function Do(s: State, a: Action): State
    requires Enabled(s, a)
  {
    match a
    case Wait(ticks) => s.(now := s.now + ticks)
    case Load(c, key) => Go(s, c, Loaded(key, Lookup(s, key)))
    case Check(c) =>
      var entry := At(s, c).entry;
      if Fresh(entry, s.now) then Give(s, c, entry.value, true) else Go(s, c, Missed(At(s, c).key))
    case Lock(c) => Go(s.(mutex := Some(c)), c, Locked(At(s, c).key))
    case Reload(c) => Go(s, c, Reloaded(At(s, c).key, Lookup(s, At(s, c).key)))
    case Recheck(c) =>
      var entry := At(s, c).entry;
      if Fresh(entry, s.now) then Give(s, c, entry.value, true).(mutex := None) else Go(s, c, Calling(At(s, c).key))
    case Fetched(c, ok) =>
      if ok then Go(s.(calls := s.calls + 1), c, Stamped(At(s, c).key, Entry(s.calls, s.now)))
      else Go(s.(mutex := None), c, Outside)
    case Put(c) =>
      var entry := At(s, c).made;
      Give(s.(cache := s.cache[At(s, c).key := entry], mutex := None,
              stores := s.stores + [Store(At(s, c).key, entry)]), c, entry, false)
  }

  // ----- Invariants -----

  /** The cache holds the latest store of each key, and nothing is stamped in the future. */
  predicate CacheInv(s: State) {
    && (forall key :: key in s.cache ==> s.cache[key].timestamp <= s.now)
    && (forall i :: 0 <= i < |s.stores| ==>
          s.stores[i].key in s.cache && s.stores[i].entry.timestamp <= s.cache[s.stores[i].key].timestamp)
  }

  /** Two stores of one key are at least the TTL apart. */
  predicate Spaced(stores: seq<Store>) {
    forall i, j :: 0 <= i < j < |stores| && stores[i].key == stores[j].key ==>
      stores[i].entry.timestamp + TTL <= stores[j].entry.timestamp
  }

  predicate InMutex(pc: Pc) { pc.Locked? || pc.Reloaded? || pc.Calling? || pc.Stamped? }

  /** What the holder of the mutex knows about the cache, which nobody else changes meanwhile. */
  predicate HolderInv(s: State, pc: Pc) {
    match pc
    case Locked(_) => true
    case Reloaded(key, entry) => entry == Lookup(s, key)
    case Calling(key) => key in s.cache ==> s.cache[key].timestamp + TTL <= s.now
    case Stamped(key, entry) =>
      entry.timestamp <= s.now && (key in s.cache ==> s.cache[key].timestamp + TTL <= entry.timestamp)
    case _ => false
  }

  predicate LoadedPast(s: State, pc: Pc) { pc.Loaded? && pc.entry.Some? ==> pc.entry.value.timestamp <= s.now }

  predicate AnswersInv(s: State) {
    forall i :: 0 <= i < |s.answers| ==>
      var a := s.answers[i];
      a.entry.timestamp <= a.checked && (a.cached ==> a.checked < a.entry.timestamp + TTL)
  }

  predicate Inv(s: State) {
    && CacheInv(s) && Spaced(s.stores) && AnswersInv(s)
    && (forall c :: c in s.pcs ==> LoadedPast(s, s.pcs[c]))
    && (forall c :: c in s.pcs && InMutex(s.pcs[c]) ==> s.mutex == Some(c))
    && (s.mutex.Some? ==> HolderInv(s, At(s, s.mutex.value)))
  }

  lemma PutStep(s: State, c: nat)
    requires Inv(s) && Enabled(s, Put(c))
    ensures Inv(Do(s, Put(c)))
  {
  }

  lemma WaitStep(s: State, ticks: nat)
    requires Inv(s)
    ensures Inv(Do(s, Wait(ticks)))
  {
  }

  /** Steps that change neither the cache nor what is returned. */
  lemma QuietStep(s: State, a: Action)
    requires Inv(s) && Enabled(s, a) && (a.Load? || a.Lock? || a.Reload? || a.Fetched?)
    ensures Inv(Do(s, a))
  {
  }

  lemma CheckStep(s: State, a: Action)
    requires Inv(s) && Enabled(s, a) && (a.Check? || a.Recheck?)
    ensures Inv(Do(s, a))
  {
  }

  lemma InvStep(s: State, a: Action)
    requires Inv(s) && Enabled(s, a)
    ensures Inv(Do(s, a))
  {
    match a
    case Wait(ticks) => WaitStep(s, ticks);
    case Put(c) => PutStep(s, c);
    case Check(_) => CheckStep(s, a);
    case Recheck(_) => CheckStep(s, a);
    case _ => QuietStep(s, a);
  }

  // ----- Runs -----

  function Init(): State { State(0, map[], None, map[], 0, [], []) }

  predicate Legal(run: seq<Action>) {
    run == [] || (Legal(run[..|run| - 1]) && Enabled(After(run[..|run| - 1]), run[|run| - 1]))
  }

  function After(run: seq<Action>): State {
    if run == [] then Init()
    else
      var before, a := After(run[..|run| - 1]), run[|run| - 1];
      if Enabled(before, a) then Do(before, a) else before
  }

  lemma {:induction false} RunInv(run: seq<Action>)
    requires Legal(run)
    ensures Inv(After(run))
  {
    if run != [] {
      RunInv(run[..|run| - 1]);
      InvStep(After(run[..|run| - 1]), run[|run| - 1]);
    }
  }

  /**
   For any number of concurrent callers, a list is returned from the cache only if it was stamped less
   than the TTL before the check that let it be returned.
   */
  lemma CachedIsFresh(run: seq<Action>, i: nat)
    requires Legal(run) && i < |After(run).answers|
    ensures var a := After(run).answers[i];
            a.entry.timestamp <= a.checked && (a.cached ==> a.checked < a.entry.timestamp + TTL)
  {
    RunInv(run);
  }

  /** And any two lists stored for the same key are stamped at least the TTL apart. */
  lemma StoresAreSpaced(run: seq<Action>, i: nat, j: nat)
    requires Legal(run) && i < j < |After(run).stores| && After(run).stores[i].key == After(run).stores[j].key
    ensures After(run).stores[i].entry.timestamp + TTL <= After(run).stores[j].entry.timestamp
  {
    RunInv(run);
  }

  /** The entries that are held, loaded or returned for a key are the ones that were stored for it. */
  predicate StoredInv(s: State) {
    && (forall key :: key in s.cache ==> Store(key, s.cache[key]) in s.stores)
    && (forall c :: c in s.pcs ==> LoadedStored(s, s.pcs[c]))
    && (forall a :: a in s.answers ==> Store(a.key, a.entry) in s.stores)
  }

  predicate LoadedStored(s: State, pc: Pc) {
    (pc.Loaded? || pc.Reloaded?) && pc.entry.Some? ==> Store(pc.key, pc.entry.value) in s.stores
  }

  lemma StoredStep(s: State, a: Action)
    requires StoredInv(s) && Enabled(s, a)
    ensures StoredInv(Do(s, a))
  {
  }

  /** A list is returned for a key only if it was fetched for that key and stored under it. */
  lemma {:induction false} AnswersStored(run: seq<Action>)
    requires Legal(run)
    ensures StoredInv(After(run))
    ensures forall a :: a in After(run).answers ==> Store(a.key, a.entry) in After(run).stores
  {
    if run != [] {
      AnswersStored(run[..|run| - 1]);
      StoredStep(After(run[..|run| - 1]), run[|run| - 1]);
    }
  }

  // ----- One caller -----

  lemma Extend(run: seq<Action>, a: Action)
    requires Legal(run) && Enabled(After(run), a)
    ensures Legal(run + [a]) && After(run + [a]) == Do(After(run), a)
  {
    assert (run + [a])[..|run|] == run;
  }

  class Cache {
    var entries: map<string, Entry>
    var calls: nat              // API calls so far, which number the lists

    // The run of the machine above that this cache has made, and the state it led to.
    ghost var run: seq<Action>
    ghost var s: State

    ghost predicate Valid()
      reads this
    {
      Ran() && entries == s.cache && calls == s.calls && s.mutex.None? && At(s, 0).Outside?
    }

    ghost predicate Ran()
      reads this
    {
      Legal(run) && s == After(run)
    }

    constructor ()
      ensures Valid() && entries == map[] && s.now == 0
    {
      entries, calls := map[], 0;
      run, s := [], Init();
    }

    /**
     getAllJobs while no other caller runs; the clock shows `first` at the first check, `second` at the
     one under the mutex, and `third` when the API call ends, which answers if `ok`. It is a run of
     the machine above: a list is fetched, stamped and stored exactly if there is no fresh one.
     */
    method GetAllJobs(key: string, first: nat, second: nat, third: nat, ok: bool) returns (list: Option<Entry>)
      requires Valid() && s.now <= first <= second <= third
      modifies this
      ensures Valid()
      ensures if Fresh(old(Cached(key)), first) then
                list == old(Cached(key)) && entries == old(entries) && calls == old(calls)
              else if ok then
                && list == Some(Entry(old(calls), third)) && calls == old(calls) + 1
                && entries == old(entries)[key := list.value]
              else list == None && entries == old(entries) && calls == old(calls)
    {
      list := CheckCache(key, first);
      if list.Some? {
        return;
      }
      list := CheckLocked(key, first, second);
      if list.Some? {
        return;
      }
      list := Fetch(key, second, third, ok);
    }

    function Cached(key: string): Option<Entry>
      reads this
    {
      if key in entries then Some(entries[key]) else None
    }

    /** The run of the machine is at `pc`, at time `now`. */
    ghost predicate Reached(pc: Pc, now: nat)
      reads this
    {
      && Ran() && entries == s.cache && calls == s.calls && At(s, 0) == pc && s.now == now
      && s.mutex == if InMutex(pc) then Some(0) else None
    }

    /** checkCache, on the fast path. */
    method CheckCache(key: string, now: nat) returns (list: Option<Entry>)
      requires Valid() && s.now <= now
      modifies this`run, this`s
      ensures if Fresh(Cached(key), now) then list == Cached(key) && Reached(Outside, now)
              else list == None && Reached(Missed(key), now)
    {
      Step(Load(0, key));
      Step(Wait(now - s.now));
      Step(Check(0));
      list := if Fresh(Cached(key), now) then Cached(key) else None;
    }

    /** The mutex, and checkCache under it. */
    method CheckLocked(key: string, ghost before: nat, now: nat) returns (list: Option<Entry>)
      requires Reached(Missed(key), before) && before <= now
      modifies this`run, this`s
      ensures if Fresh(Cached(key), now) then list == Cached(key) && Reached(Outside, now)
              else list == None && Reached(Calling(key), now)
    {
      Step(Lock(0));
      Step(Reload(0));
      Step(Wait(now - before));
      Step(Recheck(0));
      list := if Fresh(Cached(key), now) then Cached(key) else None;
    }

    /** The API call, and storing its list. */
    method Fetch(key: string, ghost before: nat, now: nat, ok: bool) returns (list: Option<Entry>)
      requires Reached(Calling(key), before) && before <= now
      modifies this
      ensures Reached(Outside, now)
      ensures list == if ok then Some(Entry(old(calls), now)) else None
      ensures calls == old(calls) + if ok then 1 else 0
      ensures entries == if ok then old(entries)[key := list.value] else old(entries)
    {
      Step(Wait(now - before));
      Step(Fetched(0, ok));
      if !ok {
        return None;
      }
      var made := Entry(calls, now);
      calls := calls + 1;
      entries := entries[key := made];
      Step(Put(0));
      return Some(made);
    }

    ghost method Step(a: Action)
      requires Ran() && Enabled(s, a)
      modifies this`run, this`s
      ensures Ran() && s == Do(old(s), a)
    {
      Extend(run, a);
      run, s := run + [a], Do(s, a);
    }
  }
}

/** Selecting the jobs of a test run. */
module JobSelection {
  import opened Options

  type Labels = map<string, string>

  datatype Job = Job(labels: Labels, succeeded: nat, failed: nat)

  const RUNNER := "suite-runner"

  // The label keys, and their legacy forms.
  const ID := "etos.eiffel-community.github.io/id"
  const NAME := "app.kubernetes.io/name"
  const LEGACY_ID := "id"
  const LEGACY_NAME := "app"

  /** All pairs of keyPair are among the labels; `keys` is the order in which Go ranges over keyPair. */
  method KeyPairExists(labels: Labels, keyPair: Labels, keys: seq<string>) returns (r: bool)
    requires forall k :: k in keys <==> k in keyPair
    ensures r <==> forall k :: k in keyPair ==> k in labels && labels[k] == keyPair[k]
  {
    var i := 0;
    while i < |keys|
      invariant i <= |keys| && forall j :: 0 <= j < i ==> keys[j] in labels && labels[keys[j]] == keyPair[keys[j]]
    {
      var key := keys[i];
      if key !in labels || labels[key] != keyPair[key] {
        return false;
      }
      i := i + 1;
    }
    return true;
  }

  predicate Has(labels: Labels, key: string, value: string) { key in labels && labels[key] == value }

  /** A job belongs to a test run by its new labels or by its legacy ones. */
  predicate Belongs(j: Job, identifier: string) {
    || (Has(j.labels, ID, identifier) && Has(j.labels, NAME, RUNNER))
    || (Has(j.labels, LEGACY_ID, identifier) && Has(j.labels, LEGACY_NAME, RUNNER))
  }

  function Selected(jobs: seq<Job>, identifier: string): seq<Job> {
    if jobs == [] then []
    else
      Selected(jobs[..|jobs| - 1], identifier) +
      if Belongs(jobs[|jobs| - 1], identifier) then [jobs[|jobs| - 1]] else []
  }

  /** The jobs of a test run, in the order of the list, each once even if both label pairs match. */
  method GetJobsByIdentifier(jobs: seq<Job>, identifier: string) returns (filtered: seq<Job>)
    ensures filtered == Selected(jobs, identifier)
  {
    filtered := [];
    var pairs: seq<(Labels, seq<string>)> := [
      (map[ID := identifier, NAME := RUNNER], [ID, NAME]),
      (map[LEGACY_ID := identifier, LEGACY_NAME := RUNNER], [LEGACY_ID, LEGACY_NAME])];
    var i := 0;
    while i < |jobs|
      invariant i <= |jobs| && filtered == Selected(jobs[..i], identifier)
    {
      assert jobs[..i + 1][..i] == jobs[..i];
      var job, p, found := jobs[i], 0, false;
      while p < 2 && !found
        invariant p <= 2 && (found ==> Belongs(job, identifier))
        invariant !found && p >= 1 ==> !(Has(job.labels, ID, identifier) && Has(job.labels, NAME, RUNNER))
        invariant !found && p >= 2 ==> !(Has(job.labels, LEGACY_ID, identifier) && Has(job.labels, LEGACY_NAME, RUNNER))
        invariant filtered == Selected(jobs[..i], identifier) + if found then [job] else []
        decreases 2 - p, !found
      {
        var matches := KeyPairExists(job.labels, pairs[p].0, pairs[p].1);
        if matches {
          filtered := filtered + [job];
          found := true;
        } else {
          p := p + 1;
        }
      }
      i := i + 1;
    }
    assert jobs[..i] == jobs;
  }

  /** Which labels make a job of a test run: both of one pair, never one of each. */
  lemma BelongsExactly(j: Job, identifier: string)
    ensures Belongs(j, identifier) <==>
      map["etos.eiffel-community.github.io/id" := identifier, "app.kubernetes.io/name" := "suite-runner"].Items
        <= j.labels.Items ||
      map["id" := identifier, "app" := "suite-runner"].Items <= j.labels.Items
  {
    assert ("etos.eiffel-community.github.io/id", identifier) in j.labels.Items <==> Has(j.labels, ID, identifier);
    assert ("app.kubernetes.io/name", "suite-runner") in j.labels.Items <==> Has(j.labels, NAME, RUNNER);
    assert ("id", identifier) in j.labels.Items <==> Has(j.labels, LEGACY_ID, identifier);
    assert ("app", "suite-runner") in j.labels.Items <==> Has(j.labels, LEGACY_NAME, RUNNER);
  }

  /** The jobs before the k-th that belong to the test run. */
  function Place(jobs: seq<Job>, identifier: string, k: nat): (n: nat)
    requires k <= |jobs|
    ensures n <= k
  {
    if k == 0 then 0 else Place(jobs, identifier, k - 1) + if Belongs(jobs[k - 1], identifier) then 1 else 0
  }

  /** Each job that belongs is selected once, in the order of the list, and no other is. */
  lemma {:induction false} SelectedExactly(jobs: seq<Job>, identifier: string)
    ensures |Selected(jobs, identifier)| == Place(jobs, identifier, |jobs|)
    ensures forall k :: 0 <= k < |jobs| && Belongs(jobs[k], identifier) ==>
      Place(jobs, identifier, k) < |Selected(jobs, identifier)| &&
      Selected(jobs, identifier)[Place(jobs, identifier, k)] == jobs[k]
  {
    if jobs != [] {
      var before := jobs[..|jobs| - 1];
      SelectedExactly(before, identifier);
      forall k: nat | k <= |before| ensures Place(before, identifier, k) == Place(jobs, identifier, k) {
        PlaceOfPrefix(jobs, identifier, k);
      }
    }
  }

  lemma {:induction false} PlaceOfPrefix(jobs: seq<Job>, identifier: string, k: nat)
    requires k < |jobs|
    ensures Place(jobs[..|jobs| - 1], identifier, k) == Place(jobs, identifier, k)
  {
    if k > 0 {
      PlaceOfPrefix(jobs, identifier, k - 1);
    }
  }

  /** The first job that belongs decides: it is over once it has a succeeded or a failed pod. */
  lemma FirstDecides(jobs: seq<Job>, identifier: string, k: nat)
    requires k < |jobs| && Belongs(jobs[k], identifier)
    requires forall i :: 0 <= i < k ==> !Belongs(jobs[i], identifier)
    ensures Over(Selected(jobs, identifier)) <==> jobs[k].succeeded != 0 || jobs[k].failed != 0
  {
    SelectedExactly(jobs, identifier);
    NoneBefore(jobs, identifier, k);
  }

  lemma {:induction false} NoneBefore(jobs: seq<Job>, identifier: string, k: nat)
    requires k <= |jobs| && forall i :: 0 <= i < k ==> !Belongs(jobs[i], identifier)
    ensures Place(jobs, identifier, k) == 0
  {
    if k > 0 {
      NoneBefore(jobs, identifier, k - 1);
    }
  }

  /** A test run without jobs is over. */
  lemma NoJobIsOver(jobs: seq<Job>, identifier: string)
    requires forall i :: 0 <= i < |jobs| ==> !Belongs(jobs[i], identifier)
    ensures Over(Selected(jobs, identifier))
  {
    SelectedExactly(jobs, identifier);
    NoneBefore(jobs, identifier, |jobs|);
  }

  predicate Over(mine: seq<Job>) { mine == [] || mine[0].succeeded > 0 || mine[0].failed > 0 }

  /**
   A job that does not exist counts as finished; otherwise the first one decides. Without a list of jobs,
   because there is no client or the list cannot be fetched, the answer is no.
   */
  method IsFinished(jobs: Option<seq<Job>>, identifier: string) returns (finished: bool)
    ensures finished <==> jobs.Some? && Over(Selected(jobs.value, identifier))
  {
    if jobs.None? {
      return false;
    }
    var mine := GetJobsByIdentifier(jobs.value, identifier);
    if |mine| == 0 {
      return true;
    }
    if mine[0].succeeded == 0 && mine[0].failed == 0 {
      return false;
    }
    return true;
  }
}
