/** What the execution-space provider keeps in its store. */
module ExecutionSpaces {
  import opened Options
  import opened Decimal

  /** UUIDs by number; `Text` is their textual form. */
  type Uuid = nat

  function Text(id: Uuid): string { Print(id) }

  /** Unset is the empty status of a value that was not stored as an execution space. */
  datatype Status = Pending | Failed | Done | Unset

  /** The name of an environment variable; Named is any other than the ones told apart here. */
  datatype Name =
    | ENVIRONMENT_ID
    | HTTPS_PROXY | https_proxy | HTTP_PROXY | http_proxy | NO_PROXY | no_proxy | TZ
    | Named(name: string)

  type Environ = map<Name, string>

  datatype ExecutorSpec = ExecutorSpec(id: Uuid, image: string, environment: Environ, buildID: string)

  /** An execution space as it is stored, without its executors. */
  datatype Record = Record(id: Uuid, references: seq<Uuid>, status: Status)

  /** A stored value, decoded; Tombstone is the empty value that a nil write leaves. */
  datatype Blob = Tombstone | Spec(spec: ExecutorSpec) | Space(record: Record)

  type Store = map<Uuid, Blob>

  /** The variables that NewExecutorSpec copies from the environment of the process, "" for unset. */
  datatype Host = Host(httpsProxy: string, httpProxy: string, noProxy: string, tz: string)

  /** Two spellings of one proxy variable. */
  function Pair(upper: Name, lower: Name, value: string): Environ {
    if value != "" then map[upper := value, lower := value] else map[]
  }

  /** What the process sets in every executor; never the executor's own ID. */
  type HostVars = m: Environ | ENVIRONMENT_ID !in m

  function VarsOf(host: Host): HostVars {
    Pair(HTTPS_PROXY, https_proxy, host.httpsProxy) + Pair(HTTP_PROXY, http_proxy, host.httpProxy)
    + Pair(NO_PROXY, no_proxy, host.noProxy) + Zone(host.tz)
  }

  /** The environment of the executor `id`, made from the environment of its request. */
  function EnvironmentOf(m: Environ, id: Uuid, vars: HostVars): Environ {
    m[ENVIRONMENT_ID := Text(id)] + vars
  }

  lemma OwnId(m: Environ, id: Uuid, vars: HostVars)
    ensures ENVIRONMENT_ID in EnvironmentOf(m, id, vars) && EnvironmentOf(m, id, vars)[ENVIRONMENT_ID] == Text(id)
  {
  }

  /** A variable of the process: its value if it is set, and otherwise what the request had. */
  predicate SetOrKept(r: Environ, m: Environ, name: Name, value: string) {
    if value != "" then name in r && r[name] == value else Kept(r, m, name)
  }

  predicate Kept(r: Environ, m: Environ, name: Name) {
    (name in r <==> name in m) && (name in m ==> r[name] == m[name])
  }

  /**
   The environment of an executor, name by name: its own ID; the variables of the process that are set, the
   proxies in both spellings; and everything else as it was in the request, no more and no less.
   */
  lemma EnvironmentExactly(m: Environ, id: Uuid, host: Host)
    ensures var r := EnvironmentOf(m, id, VarsOf(host));
            && ENVIRONMENT_ID in r && r[ENVIRONMENT_ID] == Text(id)
            && SetOrKept(r, m, HTTPS_PROXY, host.httpsProxy) && SetOrKept(r, m, https_proxy, host.httpsProxy)
            && SetOrKept(r, m, HTTP_PROXY, host.httpProxy) && SetOrKept(r, m, http_proxy, host.httpProxy)
            && SetOrKept(r, m, NO_PROXY, host.noProxy) && SetOrKept(r, m, no_proxy, host.noProxy)
            && SetOrKept(r, m, TZ, host.tz)
            && forall name: string :: Kept(r, m, Named(name))
  {
    VarsExactly(host);
    hide VarsOf;
  }

  /** The variables of the process that are set, and no others. */
  lemma VarsExactly(host: Host)
    ensures var vars := VarsOf(host);
            && SetOrKept(vars, map[], HTTPS_PROXY, host.httpsProxy)
            && SetOrKept(vars, map[], https_proxy, host.httpsProxy)
            && SetOrKept(vars, map[], HTTP_PROXY, host.httpProxy) && SetOrKept(vars, map[], http_proxy, host.httpProxy)
            && SetOrKept(vars, map[], NO_PROXY, host.noProxy) && SetOrKept(vars, map[], no_proxy, host.noProxy)
            && SetOrKept(vars, map[], TZ, host.tz)
            && forall name: string :: Named(name) !in vars
  {
  }

  /** Overwriting the environment of one executor with that of the next leaves no trace of the first. */
  lemma Overwritten(m: Environ, a: Uuid, b: Uuid, vars: HostVars)
    ensures EnvironmentOf(EnvironmentOf(m, a, vars), b, vars) == EnvironmentOf(m, b, vars)
  {
  }

  /** A map of Go: executors share it by reference. */
  class Environment {
    var m: Environ

    constructor (m: Environ)
      ensures this.m == m
    {
      this.m := m;
    }
  }

  /** An ExecutorSpec in memory. */
  datatype LiveSpec = LiveSpec(id: Uuid, image: string, environment: Environment, buildID: string)
  {
    function Encoded(): ExecutorSpec
      reads environment
    {
      ExecutorSpec(id, image, environment.m, buildID)
    }
  }

  /** `id` is the fresh UUID of the executor, and `host` the environment of the process. */
  method NewExecutorSpec(id: Uuid, image: string, environment: Environment, host: Host) returns (e: LiveSpec)
    modifies environment
    ensures e == LiveSpec(id, image, environment, "")
    ensures environment.m == EnvironmentOf(old(environment.m), id, VarsOf(host))
  {
    e := LiveSpec(id, image, environment, "");
    environment.m := environment.m[ENVIRONMENT_ID := Text(id)];
    SetHost(environment, host);
  }

  /** Sets the variables of the process. */
  method SetHost(environment: Environment, host: Host)
    modifies environment
    ensures environment.m == old(environment.m) + VarsOf(host)
  {
    ghost var m := environment.m;
    SetBoth(environment, HTTPS_PROXY, https_proxy, host.httpsProxy);
    ghost var m1 := environment.m;
    SetBoth(environment, HTTP_PROXY, http_proxy, host.httpProxy);
    ghost var m2 := environment.m;
    SetBoth(environment, NO_PROXY, no_proxy, host.noProxy);
    ghost var m3 := environment.m;
    SetZone(environment, host.tz);
    Together(m, m1, m2, m3, environment.m, host);
  }

  method SetZone(environment: Environment, tz: string)
    modifies environment
    ensures environment.m == old(environment.m) + Zone(tz)
  {
    if tz != "" {
      environment.m := environment.m[TZ := tz];
    }
  }

  /** Sets a proxy variable in both spellings, unless it is unset. */
  method SetBoth(environment: Environment, upper: Name, lower: Name, value: string)
    modifies environment
    ensures environment.m == old(environment.m) + Pair(upper, lower, value)
  {
    if value != "" {
      environment.m := environment.m[upper := value];
      environment.m := environment.m[lower := value];
    }
  }

  function Zone(tz: string): Environ { if tz != "" then map[TZ := tz] else map[] }

  lemma MapAssoc(a: Environ, b: Environ, c: Environ)
    ensures a + (b + c) == a + b + c
  {
  }

  lemma Together(m: Environ, m1: Environ, m2: Environ, m3: Environ, m4: Environ, host: Host)
    requires m1 == m + Pair(HTTPS_PROXY, https_proxy, host.httpsProxy)
    requires m2 == m1 + Pair(HTTP_PROXY, http_proxy, host.httpProxy)
    requires m3 == m2 + Pair(NO_PROXY, no_proxy, host.noProxy) && m4 == m3 + Zone(host.tz)
    ensures m4 == m + VarsOf(host)
  {
    var a, b := Pair(HTTPS_PROXY, https_proxy, host.httpsProxy), Pair(HTTP_PROXY, http_proxy, host.httpProxy);
    var c, d := Pair(NO_PROXY, no_proxy, host.noProxy), Zone(host.tz);
    MapAssoc(m, a, b);
    MapAssoc(m, a + b, c);
    MapAssoc(m, a + b + c, d);
  }

  class ExecutionSpace {
    const id: Uuid
    var executors: seq<LiveSpec>
    var references: seq<Uuid>
    var status: Status

    constructor (id: Uuid)
      ensures this.id == id && executors == [] && references == [] && status == Pending
    {
      this.id := id;
      executors, references, status := [], [], Pending;
    }

    method Add(e: LiveSpec)
      modifies this
      ensures executors == old(executors) + [e] && references == old(references) + [e.id] && status == old(status)
    {
      executors := executors + [e];
      references := references + [e.id];
    }

    /** Executors are written separately. */
    function Encoded(): Record
      reads this
    {
      Record(id, references, status)
    }
  }
}

/** The provider's operations on the store. */
module Provider {
  import opened Options
  import opened ExecutionSpaces

  /** What goes wrong in a checkout: the first write, the executor at `failAt`, the last write, that of the failure. */
  datatype CheckoutFaults = CheckoutFaults(pending: bool, failAt: Option<nat>, last: bool, failure: bool)

  /** The number of executors that a checkout stores. */
  function StoredCount(amount: nat, failAt: Option<nat>): (n: nat)
    ensures n <= amount
  {
    if failAt.Some? && failAt.value < amount then failAt.value else amount
  }

  predicate Completes(amount: nat, faults: CheckoutFaults) {
    StoredCount(amount, faults.failAt) == amount && !faults.last
  }

  /** The checkout does not return: its last write fails, and that of the failure does not. */
  predicate Panics(amount: nat, faults: CheckoutFaults) {
    StoredCount(amount, faults.failAt) == amount && faults.last && !faults.failure
  }

  function FinalRecord(id: Uuid, ids: seq<Uuid>, faults: CheckoutFaults): Record {
    if Completes(|ids|, faults) then Record(id, ids, Done)
    else if faults.failure then Record(id, [], Pending)
    else Record(id, [], Failed)
  }

  function StoredSpec(id: Uuid, image: string, m: Environ, vars: HostVars): Blob {
    Spec(ExecutorSpec(id, image, EnvironmentOf(m, id, vars), ""))
  }

  /** The store with the executors of `ids` added. */
  function WithExecutors(s: Store, ids: seq<Uuid>, image: string, m: Environ, vars: HostVars): Store {
    if ids == [] then s
    else
      var last := ids[|ids| - 1];
      WithExecutors(s, ids[..|ids| - 1], image, m, vars)[last := StoredSpec(last, image, m, vars)]
  }

  lemma WithSnoc(s: Store, ids: seq<Uuid>, i: nat, image: string, m: Environ, vars: HostVars)
    requires i < |ids|
    ensures WithExecutors(s, ids[..i + 1], image, m, vars)
            == WithExecutors(s, ids[..i], image, m, vars)[ids[i] := StoredSpec(ids[i], image, m, vars)]
    ensures ids[..i + 1] == ids[..i] + [ids[i]]
  {
    assert ids[..i + 1][..i] == ids[..i];
  }

  /** What a checkout makes of the store. */
  function CheckoutStore(s: Store, id: Uuid, ids: seq<Uuid>, image: string, m: Environ, vars: HostVars,
                         faults: CheckoutFaults): Store
  {
    if faults.pending then s
    else
      WithExecutors(s[id := Space(Record(id, [], Pending))], ids[..StoredCount(|ids|, faults.failAt)], image, m, vars)
        [id := Space(FinalRecord(id, ids, faults))]
  }

  /**
   The record that a checkout leaves, in terms of what went wrong: DONE with all executors if nothing did,
   FAILED if an executor or the last write failed and that could be written, and otherwise PENDING.
   */
  lemma CheckoutRecord(s: Store, id: Uuid, ids: seq<Uuid>, image: string, m: Environ, vars: HostVars,
                       faults: CheckoutFaults)
    ensures var t := CheckoutStore(s, id, ids, image, m, vars, faults);
            var failed := (faults.failAt.Some? && faults.failAt.value < |ids|) || faults.last;
            if faults.pending then t == s
            else id in t && t[id] == Space(if !failed then Record(id, ids, Done)
                                           else if !faults.failure then Record(id, [], Failed)
                                           else Record(id, [], Pending))
    ensures Panics(|ids|, faults) <==>
              (faults.failAt.Some? ==> faults.failAt.value >= |ids|) && faults.last && !faults.failure
  {
  }

  /** Exactly the executors before the first that fails are stored; nothing else but the record changes. */
  lemma CheckoutSpecs(s: Store, id: Uuid, ids: seq<Uuid>, image: string, m: Environ, vars: HostVars,
                      faults: CheckoutFaults, e: Uuid)
    requires !faults.pending && e != id && forall i, j :: 0 <= i < j < |ids| ==> ids[i] != ids[j]
    ensures var t := CheckoutStore(s, id, ids, image, m, vars, faults);
            if exists k :: 0 <= k < |ids| && ids[k] == e && (faults.failAt.Some? ==> k < faults.failAt.value)
            then e in t && t[e] == Spec(ExecutorSpec(e, image, EnvironmentOf(m, e, vars), ""))
            else (e in t <==> e in s) && (e in s ==> t[e] == s[e])
  {
    var n := StoredCount(|ids|, faults.failAt);
    WithExactly(s[id := Space(Record(id, [], Pending))], ids[..n], image, m, vars, e);
    InPrefix(ids, n, e);
  }

  lemma InPrefix(ids: seq<Uuid>, n: nat, e: Uuid)
    requires n <= |ids|
    ensures e in ids[..n] <==> exists k :: 0 <= k < n && ids[k] == e
  {
    if k :| 0 <= k < n && ids[k] == e {
      assert ids[..n][k] == e;
    }
  }

  lemma {:induction false} WithExactly(s: Store, ids: seq<Uuid>, image: string, m: Environ, vars: HostVars, e: Uuid)
    ensures var t := WithExecutors(s, ids, image, m, vars);
            if e in ids then e in t && t[e] == Spec(ExecutorSpec(e, image, EnvironmentOf(m, e, vars), ""))
            else (e in t <==> e in s) && (e in s ==> t[e] == s[e])
  {
    if ids != [] {
      WithExactly(s, ids[..|ids| - 1], image, m, vars, e);
      assert ids == ids[..|ids| - 1] + [ids[|ids| - 1]];
    }
  }

  /** What a read of a specification finds: io.EOF for an absent key or a tombstone. */
  datatype Read = Found(spec: ExecutorSpec) | Eof | Error

  /** A stored execution space decodes as a specification without a build ID. */
  function ReadSpec(s: Store, id: Uuid, fails: bool): Read {
    if fails then Error
    else if id !in s || s[id].Tombstone? then Eof
    else if s[id].Spec? then Found(s[id].spec)
    else Found(ExecutorSpec(s[id].record.id, "", map[], ""))
  }

  function Tombstoned(s: Store, ids: seq<Uuid>): Store {
    if ids == [] then s else Tombstoned(s, ids[..|ids| - 1])[ids[|ids| - 1] := Tombstone]
  }

  /** `id` is that of the answer with status FAILED. */
  datatype StatusResult = Ok(record: Record, executors: seq<ExecutorSpec>) | Unavailable(id: Uuid)

  /** A stored specification decodes as an execution space without references or status. */
  function RecordAt(s: Store, id: Uuid, fails: bool): Option<Record> {
    if fails || id !in s || s[id].Tombstone? then None
    else if s[id].Space? then Some(s[id].record)
    else Some(Record(s[id].spec.id, [], Unset))
  }

  /** What was saved is read back, as what it is or as the other kind; absent or empty, there is nothing. */
  lemma ReadBack(s: Store, id: Uuid, e: ExecutorSpec, record: Record)
    ensures ReadSpec(s[id := Spec(e)], id, false) == Found(e)
    ensures ReadSpec(s[id := Tombstone], id, false) == Eof && ReadSpec(s - {id}, id, false) == Eof
    ensures ReadSpec(s, id, true) == Error
    ensures RecordAt(s[id := Space(record)], id, false) == Some(record) && RecordAt(s, id, true) == None
    ensures RecordAt(s[id := Tombstone], id, false) == None && RecordAt(s - {id}, id, false) == None
    ensures RecordAt(s[id := Spec(e)], id, false) == Some(Record(e.id, [], Unset))
  {
  }

  /** The read of the k-th executor of a record. */
  function Lookup(record: Record, snaps: seq<Store>, fails: seq<bool>, k: nat): Read
    requires k < |record.references| < |snaps| == |fails|
  {
    ReadSpec(snaps[k + 1], record.references[k], fails[k + 1])
  }

  /**
   All executors of the record, in the order of the references, if all of them are found; otherwise the
   first reference that is not.
   */
  predicate AnswersFor(r: StatusResult, record: Record, snaps: seq<Store>, fails: seq<bool>)
    requires |record.references| < |snaps| == |fails|
  {
    match r
    case Ok(found, executors) =>
      && found == record && |executors| == |record.references|
      && (forall k :: 0 <= k < |executors| ==> Lookup(record, snaps, fails, k) == Found(executors[k]))
    case Unavailable(id) =>
      exists n :: 0 <= n < |record.references| && id == record.references[n]
                  && !Lookup(record, snaps, fails, n).Found?
                  && forall k :: 0 <= k < n ==> Lookup(record, snaps, fails, k).Found?
  }

  /** The executors of `space` are the first of `ids`, and all refer to the one map. */
  predicate Alias(space: ExecutionSpace, ids: seq<Uuid>, image: string, environment: Environment)
    reads space
  {
    && |space.executors| <= |ids|
    && forall k :: 0 <= k < |space.executors| ==> space.executors[k] == LiveSpec(ids[k], image, environment, "")
  }

  /** The shared map is that of the executor created last. */
  predicate LastOwns(space: ExecutionSpace, environment: Environment, m: Environ, vars: HostVars)
    reads space, environment
  {
    space.executors != [] ==> environment.m == EnvironmentOf(m, space.executors[|space.executors| - 1].id, vars)
  }

  class ProviderCore {
    var store: Store

    constructor ()
      ensures store == map[]
    {
      store := map[];
    }

    method SaveExecutor(e: LiveSpec, fails: bool) returns (ok: bool)
      modifies this
      ensures ok == !fails && store == if ok then old(store)[e.id := Spec(e.Encoded())] else old(store)
    {
      if !fails {
        store := store[e.id := Spec(e.Encoded())];
      }
      return !fails;
    }

    /**
     A checkout on its own; `ids` are the fresh UUIDs that its executors draw, and `environment` is the
     one map that all of them share and overwrite. Each stored specification still has its own
     ENVIRONMENT_ID, because it is stored before the next one overwrites the map. In memory, all
     the executors end up with the ID of the last one.
     */
    method Checkout(id: Uuid, amount: int, image: string, environment: Environment, host: Host,
                    ids: seq<Uuid>, faults: CheckoutFaults)
      returns (space: ExecutionSpace, panics: bool)
      requires |ids| == (if amount < 0 then 0 else amount) && id !in ids
      modifies this, environment
      ensures fresh(space)
      ensures panics <==> !faults.pending && Panics(|ids|, faults)
      ensures store == CheckoutStore(old(store), id, ids, image, old(environment.m), VarsOf(host), faults)
      ensures faults.pending ==> environment.m == old(environment.m)
      ensures Alias(space, ids, image, environment)
      ensures LastOwns(space, environment, old(environment.m), VarsOf(host))
    {
      space := new ExecutionSpace(id);
      panics := false;
      if faults.pending {
        return;
      }
      store := store[id := Space(space.Encoded())];
      panics := Fill(space, image, environment, host, ids, faults);
    }

    /** A checkout from its PENDING record on. */
    method Fill(space: ExecutionSpace, image: string, environment: Environment, host: Host,
                ids: seq<Uuid>, faults: CheckoutFaults)
      returns (panics: bool)
      requires space.executors == [] && space.references == [] && space.status == Pending && space.id !in ids
      requires space.id in store && store[space.id] == Space(Record(space.id, [], Pending))
      modifies this, environment, space
      ensures panics == Panics(|ids|, faults)
      ensures store == WithExecutors(old(store), ids[..StoredCount(|ids|, faults.failAt)], image,
                                     old(environment.m), VarsOf(host))
                         [space.id := Space(FinalRecord(space.id, ids, faults))]
      ensures Alias(space, ids, image, environment)
      ensures LastOwns(space, environment, old(environment.m), VarsOf(host))
    {
      var ok := CheckoutExecutors(space, image, environment, host, ids, faults.failAt);
      if ok {
        space.status := Done;
      }
      if !Completes(|ids|, faults) && faults.failure {
        PendingStays(old(store), ids[..StoredCount(|ids|, faults.failAt)], image,
                     old(environment.m), VarsOf(host), space.id);
      }
      panics := Finish(space, ids, ok, faults);
    }

    /**
     The last write of Checkout: the space itself, or its failure. If the space cannot be written but its
     failure can, the code goes on to read the error of the latter, which is nil, and panics.
     */
    method Finish(space: ExecutionSpace, ids: seq<Uuid>, ok: bool, faults: CheckoutFaults) returns (panics: bool)
      requires ok == (StoredCount(|ids|, faults.failAt) == |ids|)
      requires ok ==> space.Encoded() == Record(space.id, ids, Done)
      modifies this
      ensures panics == Panics(|ids|, faults)
      ensures store == if !Completes(|ids|, faults) && faults.failure then old(store)
                       else old(store)[space.id := Space(FinalRecord(space.id, ids, faults))]
    {
      if ok && !faults.last {
        store := store[space.id := Space(space.Encoded())];
        return false;
      }
      if !faults.failure {
        store := store[space.id := Space(Record(space.id, [], Failed))];
        return ok;
      }
      return false;
    }

    /** The loop of Checkout: create, add and store one executor after the other. */
    method CheckoutExecutors(space: ExecutionSpace, image: string, environment: Environment, host: Host,
                             ids: seq<Uuid>, failAt: Option<nat>)
      returns (ok: bool)
      requires space.executors == [] && space.references == [] && space.status == Pending
      modifies this, environment, space
      ensures var n := StoredCount(|ids|, failAt);
              && ok == (n == |ids|)
              && store == WithExecutors(old(store), ids[..n], image, old(environment.m), VarsOf(host))
      ensures ok ==> space.references == ids
      ensures space.status == Pending && Alias(space, ids, image, environment)
      ensures LastOwns(space, environment, old(environment.m), VarsOf(host))
    {
      ghost var begun, base, vars := store, environment.m, VarsOf(host);
      var i := 0;
      while i < |ids|
        invariant i <= |ids| && (failAt.Some? && failAt.value < |ids| ==> i <= failAt.value)
        invariant space.status == Pending && Progress(space, image, environment, vars, ids, i, begun, base)
        invariant LastOwns(space, environment, base, vars)
      {
        ok := CheckoutOne(space, image, environment, host, ids, i, failAt == Some(i), vars, begun, base);
        if !ok {
          return;
        }
        i := i + 1;
      }
      assert ids[..i] == ids;
      return true;
    }

    /** The first `i` executors are created, added and stored. */
    ghost predicate Progress(space: ExecutionSpace, image: string, environment: Environment, vars: HostVars,
                             ids: seq<Uuid>, i: nat, begun: Store, base: Environ)
      requires i <= |ids|
      reads this, space, environment
    {
      && HasFirst(space, image, environment, ids, i)
      && environment.m == (if i == 0 then base else EnvironmentOf(base, ids[i - 1], vars))
      && store == WithExecutors(begun, ids[..i], image, base, vars)
    }

    /** The space has the first `i` executors. */
    static ghost predicate HasFirst(space: ExecutionSpace, image: string, environment: Environment,
                                    ids: seq<Uuid>, i: nat)
      requires i <= |ids|
      reads space
    {
      |space.executors| == i && space.references == ids[..i] && Alias(space, ids, image, environment)
    }

    static method AddNext(space: ExecutionSpace, e: LiveSpec, ghost image: string, ghost environment: Environment,
                          ghost ids: seq<Uuid>, ghost i: nat)
      requires i < |ids| && HasFirst(space, image, environment, ids, i) && e == LiveSpec(ids[i], image, environment, "")
      modifies space
      ensures HasFirst(space, image, environment, ids, i + 1) && space.executors[i] == e
      ensures space.status == old(space.status)
    {
      space.Add(e);
      assert ids[..i + 1] == ids[..i] + [ids[i]];
    }

    method CheckoutOne(space: ExecutionSpace, image: string, environment: Environment, host: Host,
                       ids: seq<Uuid>, i: nat, fails: bool,
                       ghost vars: HostVars, ghost begun: Store, ghost base: Environ)
      returns (ok: bool)
      requires i < |ids| && vars == VarsOf(host) && Progress(space, image, environment, vars, ids, i, begun, base)
      modifies this, environment, space
      ensures ok == !fails && space.status == old(space.status)
      ensures ok ==> Progress(space, image, environment, vars, ids, i + 1, begun, base)
      ensures !ok ==> store == WithExecutors(begun, ids[..i], image, base, vars)
      ensures HasFirst(space, image, environment, ids, i + 1)
      ensures environment.m == EnvironmentOf(base, ids[i], vars) && LastOwns(space, environment, base, vars)
    {
      var e := Overlay(image, environment, host, ids, i, vars, base);
      AddNext(space, e, image, environment, ids, i);
      ok := SaveExecutor(e, fails);
      WithSnoc(begun, ids, i, image, base, vars);
    }

    /** The next executor over the shared map, whose variables replace those of the one before. */
    method Overlay(image: string, environment: Environment, host: Host, ids: seq<Uuid>, i: nat,
                   ghost vars: HostVars, ghost base: Environ)
      returns (e: LiveSpec)
      requires i < |ids| && vars == VarsOf(host)
      requires environment.m == if i == 0 then base else EnvironmentOf(base, ids[i - 1], vars)
      modifies environment
      ensures e == LiveSpec(ids[i], image, environment, "") && environment.m == EnvironmentOf(base, ids[i], vars)
    {
      if i > 0 {
        Overwritten(base, ids[i - 1], ids[i], vars);
      }
      e := NewExecutorSpec(ids[i], image, environment, host);
    }

    /**
     `snaps` are the contents of the store at the read of the record and at those of its executors, and
     `fails` tells which of the reads fail. A failure names the space if the record was not read, and
     otherwise the first reference that was not found.
     */
    method Status(id: Uuid, snaps: seq<Store>, fails: seq<bool>) returns (r: StatusResult)
      requires snaps != [] && |fails| == |snaps|
      requires var record := RecordAt(snaps[0], id, false);
               record.Some? ==> |snaps| > |record.value.references|
      ensures var record := RecordAt(snaps[0], id, fails[0]);
              if record.None? then r == Unavailable(id) else AnswersFor(r, record.value, snaps, fails)
    {
      var read := RecordAt(snaps[0], id, fails[0]);
      if read.None? {
        return Unavailable(id);
      }
      var record := read.value;
      var executors := [];
      var i := 0;
      while i < |record.references|
        invariant i <= |record.references| && |executors| == i
        invariant forall k :: 0 <= k < i ==> Lookup(record, snaps, fails, k) == Found(executors[k])
      {
        var spec := Lookup(record, snaps, fails, i);
        if !spec.Found? {
          return Unavailable(record.references[i]);
        }
        executors := executors + [spec.spec];
        i := i + 1;
      }
      return Ok(record, executors);
    }

    /** `fails` tells for each write whether it fails. */
    method Checkin(ids: seq<Uuid>, fails: seq<bool>) returns (ok: bool)
      requires |fails| == |ids|
      modifies this
      ensures ok <==> true !in fails
      ensures ok ==> store == Tombstoned(old(store), ids)
      ensures !ok ==> exists n :: 0 <= n < |ids| && fails[n] && true !in fails[..n]
                                  && store == Tombstoned(old(store), ids[..n])
    {
      var i := 0;
      while i < |ids|
        invariant i <= |ids| && true !in fails[..i] && store == Tombstoned(old(store), ids[..i])
      {
        if fails[i] {
          return false;
        }
        store := store[ids[i] := Tombstone];
        assert ids[..i + 1][..i] == ids[..i];
        assert fails[..i + 1] == fails[..i] + [fails[i]];
        i := i + 1;
      }
      assert ids[..i] == ids && fails[..i] == fails;
      return true;
    }
  }

  /** The record of a checkout is not among its executors' writes. */
  lemma {:induction false} PendingStays(s: Store, ids: seq<Uuid>, image: string, m: Environ, vars: HostVars, id: Uuid)
    requires id in s && s[id] == Space(Record(id, [], Pending)) && id !in ids
    ensures WithExecutors(s, ids, image, m, vars)[id := s[id]] == WithExecutors(s, ids, image, m, vars)
  {
    if ids != [] {
      PendingStays(s, ids[..|ids| - 1], image, m, vars, id);
    }
  }

  /**
   Each of the stored executors carries its own ID in its environment, and the variables of its request: the
   other executors leave no trace in it, although all of them overwrite one map.
   */
  lemma StoredOwnIds(s: Store, ids: seq<Uuid>, image: string, m: Environ, host: Host, k: nat)
    requires k < |ids|
    ensures var after := WithExecutors(s, ids, image, m, VarsOf(host));
            && ids[k] in after && after[ids[k]].Spec?
            && var e := after[ids[k]].spec;
               && e.id == ids[k] && e.image == image && e.buildID == ""
               && ENVIRONMENT_ID in e.environment && e.environment[ENVIRONMENT_ID] == Text(ids[k])
               && forall name: string :: Kept(e.environment, m, Named(name))
  {
    WithExactly(s, ids, image, m, VarsOf(host), ids[k]);
    EnvironmentExactly(m, ids[k], host);
  }
}
