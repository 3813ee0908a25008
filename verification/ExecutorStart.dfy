/** Waiting for a started executor: the lookups of its sub suite, with two of them remembered. */
module SubSuites {
  import opened Options

  /** Events of the event repository, by their IDs. */
  datatype Env = Env(context: string, name: string)
  datatype Suite = Suite(id: string)

  /** The events that exist for the executor, which never change once they are there. */
  datatype Repository = Repository(env: Env, main: map<string, Suite>, sub: map<(string, string), Suite>)

  /** Which lookups of one attempt are answered. */
  datatype Answers = Answers(env: bool, main: bool, sub: bool)

  datatype Memory = Memory(env: Option<Env>, main: Option<Suite>)

  function LookupMain(r: Repository, context: string, answered: bool): Option<Suite> {
    if answered && context in r.main then Some(r.main[context]) else None
  }

  function LookupSub(r: Repository, main: string, name: string, answered: bool): Option<Suite> {
    if answered && (main, name) in r.sub then Some(r.sub[(main, name)]) else None
  }

  /** The lookup without memory: three queries, each needing the one before. */
  function Plain(r: Repository, a: Answers): Option<Suite> {
    if !a.env then None
    else
      match LookupMain(r, r.env.context, a.main)
      case None => None
      case Some(main) => LookupSub(r, main.id, r.env.name, a.sub)
  }

  /** What is remembered was found in the repository, the main suite only after the environment. */
  predicate Sound(r: Repository, m: Memory) {
    && (m.env.Some? ==> m.env.value == r.env)
    && (m.main.Some? ==> m.env.Some? && r.env.context in r.main && m.main.value == r.main[r.env.context])
  }

  /** The lookup finds the sub suite exactly if all three events are there and answered. */
  lemma PlainExactly(r: Repository, a: Answers, suite: Suite)
    ensures Plain(r, a) == Some(suite)
            <==> && a.env && a.main && a.sub && r.env.context in r.main
                 && (r.main[r.env.context].id, r.env.name) in r.sub
                 && r.sub[(r.main[r.env.context].id, r.env.name)] == suite
  {
  }

  class State {
    var environment: Option<Env>
    var mainSuite: Option<Suite>
    var envFetches: nat         // lookups of the environment that found it
    var mainFetches: nat

    constructor ()
      ensures environment == None && mainSuite == None && envFetches == 0 && mainFetches == 0
    {
      environment, mainSuite, envFetches, mainFetches := None, None, 0, 0;
    }

    function Remembered(): Memory
      reads this
    {
      Memory(environment, mainSuite)
    }

    /** A successful fetch happens at most once, namely when there is something to remember. */
    ghost predicate Valid(r: Repository)
      reads this
    {
      && Sound(r, Remembered())
      && envFetches == (if environment.Some? then 1 else 0)
      && mainFetches == (if mainSuite.Some? then 1 else 0)
    }

    /**
     One lookup. Whatever it finds is what the lookup without memory finds when everything is
     answered, and it finds the sub suite whenever the lookup without memory would.
     */
    method GetSubSuite(r: Repository, a: Answers) returns (suite: Option<Suite>)
      requires Valid(r)
      modifies this
      ensures Valid(r)
      ensures suite.Some? ==> suite == Plain(r, Answers(true, true, true))
      ensures Plain(r, a).Some? ==> suite == Plain(r, a)
      ensures suite.Some? <==> a.sub && Plain(r, Answers(true, true, true)).Some?
                               && (a.env || old(environment).Some?) && (a.main || old(mainSuite).Some?)
      ensures environment.Some? <==> old(environment).Some? || a.env
      ensures mainSuite.Some? <==> old(mainSuite).Some? || (environment.Some? && a.main && r.env.context in r.main)
    {
      if environment.None? {
        if !a.env {
          return None;
        }
        environment := Some(r.env);
        envFetches := envFetches + 1;
      }
      if environment.Some? && mainSuite.None? {
        var event := LookupMain(r, environment.value.context, a.main);
        if event.None? {
          return None;
        }
        mainSuite := event;
        mainFetches := mainFetches + 1;
      }
      if mainSuite.Some? && environment.Some? {
        return LookupSub(r, mainSuite.value.id, environment.value.name, a.sub);
      }
      return None;
    }
  }

  /** How the check that the job is alive ends. */
  datatype Alive = Yes | No | CheckFailed

  datatype Attempt = Attempt(alive: Alive, answers: Answers)

  /**
   The retries of waitStart; the context ends after the last of `attempts`. It succeeds exactly if
   some attempt finds the sub suite before the job is found dead, and over all the retries the
   environment and the main suite are each fetched successfully at most once.
   */
  method WaitStart(r: Repository, attempts: seq<Attempt>) returns (started: bool, envFetches: nat, mainFetches: nat)
    ensures started <==> exists k :: Succeeds(r, attempts, k)
    ensures envFetches <= 1 && mainFetches <= 1
  {
    var state := new State();
    var i := 0;
    while i < |attempts|
      invariant i <= |attempts| && fresh(state) && state.Valid(r)
      invariant state.environment.Some? <==> SawEnv(attempts[..i])
      invariant state.mainSuite.Some? <==> SawMain(r, attempts[..i])
      invariant forall k :: 0 <= k < i ==> !attempts[k].alive.No? && !Succeeds(r, attempts, k)
    {
      assert attempts[..i + 1][..i] == attempts[..i];
      match attempts[i].alive {
        case CheckFailed =>
        case No =>
          return false, state.envFetches, state.mainFetches;
        case Yes =>
          var event := state.GetSubSuite(r, attempts[i].answers);
          if event.Some? {
            assert Succeeds(r, attempts, i);
            return true, state.envFetches, state.mainFetches;
          }
      }
      i := i + 1;
    }
    return false, state.envFetches, state.mainFetches;
  }

  /** Some attempt with a living job has found the environment. */
  predicate SawEnv(attempts: seq<Attempt>) {
    attempts != [] &&
    var last := attempts[|attempts| - 1];
    SawEnv(attempts[..|attempts| - 1]) || (last.alive.Yes? && last.answers.env)
  }

  /** Some attempt has found the main suite, with the environment found by then. */
  predicate SawMain(r: Repository, attempts: seq<Attempt>) {
    attempts != [] &&
    var last := attempts[|attempts| - 1];
    || SawMain(r, attempts[..|attempts| - 1])
    || (last.alive.Yes? && SawEnv(attempts) && last.answers.main && r.env.context in r.main)
  }

  lemma {:induction false} SawEnvExactly(attempts: seq<Attempt>)
    ensures SawEnv(attempts) <==> exists j :: 0 <= j < |attempts| && FindsEnv(attempts[j])
  {
    if attempts != [] {
      var n := |attempts| - 1;
      SawEnvExactly(attempts[..n]);
      if j :| 0 <= j < |attempts| && FindsEnv(attempts[j]) {
        assert j < n ==> attempts[..n][j] == attempts[j];
      }
    }
  }

  predicate FindsEnv(a: Attempt) { a.alive.Yes? && a.answers.env }

  /** An attempt finds the main suite if some attempt up to it has found the environment. */
  predicate FindsMain(r: Repository, attempts: seq<Attempt>, j: nat)
    requires j < |attempts|
  {
    && attempts[j].alive.Yes? && attempts[j].answers.main && r.env.context in r.main
    && exists i :: 0 <= i <= j && FindsEnv(attempts[i])
  }

  lemma {:induction false} SawMainExactly(r: Repository, attempts: seq<Attempt>)
    ensures SawMain(r, attempts) <==> exists j :: 0 <= j < |attempts| && FindsMain(r, attempts, j)
  {
    if attempts != [] {
      var n, before := |attempts| - 1, attempts[..|attempts| - 1];
      SawMainExactly(r, before);
      SawEnvExactly(attempts);
      forall j | 0 <= j < n
        ensures FindsMain(r, before, j) <==> FindsMain(r, attempts, j)
      {
        assert forall i :: 0 <= i <= j ==> before[i] == attempts[i];
        if i :| 0 <= i <= j && FindsEnv(attempts[i]) {
          assert FindsEnv(before[i]);
        }
      }
      if j :| 0 <= j < |attempts| && FindsMain(r, attempts, j) {
        assert j < n ==> FindsMain(r, before, j);
      }
      if SawMain(r, before) {
        var j :| 0 <= j < |before| && FindsMain(r, before, j);
        assert FindsMain(r, attempts, j);
      }
      if attempts[n].alive.Yes? && SawEnv(attempts) && attempts[n].answers.main && r.env.context in r.main {
        assert FindsMain(r, attempts, n);
      }
    }
  }

  /** Attempt k finds the sub suite, all earlier ones having found the job alive or unknown. */
  predicate Succeeds(r: Repository, attempts: seq<Attempt>, k: nat) {
    && k < |attempts| && attempts[k].alive.Yes? && attempts[k].answers.sub
    && (forall j :: 0 <= j < k ==> !attempts[j].alive.No?)
    && Plain(r, Answers(true, true, true)).Some?
    && SawEnv(attempts[..k + 1]) && SawMain(r, attempts[..k + 1])
  }
}

/** The handler that starts an executor, with its compensations. */
module Starting {
  import opened Options
  import opened ExecutionSpaces
  import opened Provider
  import opened SubSuites

  /** What the handler asks of the executor, in order. */
  datatype Effect =
    | Started(job: string)
    | Cancelled(job: string)
    | Stopped(job: string)

  /**
   Which of the handler's steps fail, with a flag for each that tells whether the context has expired
   by the time its error is handled.
   */
  datatype Faults = Faults(
    body: bool,
    lookup: bool, lookupExpired: bool,
    start: bool, startExpired: bool,
    wait: bool, waitExpired: bool,
    save: bool, saveExpired: bool,
    runningExpired: bool)

  /** Kubernetes names the job after the executor, and Wait returns that name as the build ID. */
  function JobName(id: Uuid): string { "etr-" + Text(id) }

  function Target(store: Store, id: Uuid): ExecutorSpec
    requires ReadSpec(store, id, false).Found?
  {
    ReadSpec(store, id, false).spec
  }

  /** The handler gets as far as starting the job. */
  predicate StartsJob(store: Store, id: Uuid, f: Faults) {
    !f.body && ReadSpec(store, id, f.lookup).Found? && !f.start
  }

  /**
   Every run that starts a job and does not answer 204 attempts exactly one Cancel or Stop, of that very
   job: Cancel if waiting for it fails, Stop from then on. On 204 there is none, and the stored
   specification carries the job's build ID.
   */
  method ExecutorStart(provider: ProviderCore, id: Uuid, f: Faults, r: Repository, attempts: seq<Attempt>)
    returns (code: nat, effects: seq<Effect>)
    modifies provider
    ensures f.body ==> code == 400
    ensures !f.body && !ReadSpec(old(provider.store), id, f.lookup).Found? ==>
              code == if f.lookupExpired then 408 else 400
    ensures !f.body && ReadSpec(old(provider.store), id, f.lookup).Found? && f.start ==>
              code == if f.startExpired then 408 else 500
    ensures StartsJob(old(provider.store), id, f) ==>
              var job := JobName(Target(old(provider.store), id).id);
              if f.wait then
                code == (if f.waitExpired then 408 else 500) && effects == [Started(job), Cancelled(job)]
              else if f.save then
                code == (if f.saveExpired then 408 else 500) && effects == [Started(job), Stopped(job)]
              else if !exists k :: Succeeds(r, attempts, k) then
                code == (if f.runningExpired then 408 else 400) && effects == [Started(job), Stopped(job)]
              else
                code == 204 && effects == [Started(job)]
    ensures !StartsJob(old(provider.store), id, f) ==>
              code != 204 && effects == [] && provider.store == old(provider.store)
    ensures StartsJob(old(provider.store), id, f) ==>
              var spec := Target(old(provider.store), id);
              provider.store == if f.wait || f.save then old(provider.store)
                                else old(provider.store)[spec.id := Spec(spec.(buildID := JobName(spec.id)))]
    ensures code == 204 <==> StartsJob(old(provider.store), id, f) && !f.wait && !f.save
                             && exists k :: Succeeds(r, attempts, k)
  {
    effects := [];
    if f.body {
      return 400, effects;
    }
    var read := ReadSpec(provider.store, id, f.lookup);
    if !read.Found? {
      return if f.lookupExpired then 408 else 400, effects;
    }
    if f.start {
      return if f.startExpired then 408 else 500, effects;
    }
    var job := JobName(read.spec.id);
    effects := [Started(job)];
    if f.wait {
      effects := effects + [Cancelled(job)];
      return if f.waitExpired then 408 else 500, effects;
    }
    var buildID := job;
    var executor := read.spec.(buildID := buildID);
    if f.save {
      effects := effects + [Stopped(buildID)];
      return if f.saveExpired then 408 else 500, effects;
    }
    provider.store := provider.store[executor.id := Spec(executor)];
    var running, _, _ := WaitStart(r, attempts);
    if !running {
      effects := effects + [Stopped(buildID)];
      return if f.runningExpired then 408 else 400, effects;
    }
    return 204, effects;
  }
}
