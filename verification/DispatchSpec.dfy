/** One dispatch pass as a fold over the jobs it pops: the plain form, which looks everything up
    afresh for each job, and the fast form of ProcessQueue with its pre-filter and caches. */
module DispatchSpec {
  import opened Base
  import opened HeapSpec
  import opened WorkerPool

  datatype Job = Job(
    id: string, taskName: string, artifactVersion: string, priority: int, cost: int, createdAt: int)

  /** The queue comparator: higher priority number first, then the older job. */
  predicate JobBefore(a: Job, b: Job) {
    if a.priority != b.priority then a.priority > b.priority else a.createdAt < b.createdAt
  }

  lemma JobBeforeIsStrictWeak()
    ensures StrictWeak(JobBefore)
  {
  }

  /** list is None on a registry error; resolves covers Resolve and ResolveVersion. */
  datatype Registry = Registry(
    list: (string, string) -> Option<seq<(string, string)>>,
    resolves: (string, string, string, string) -> bool)

  /** What a pass meets outside the queue and the pool. order(j) is the map iteration order seen
      when job j is tried, select the configured selector at its n-th call, stored the jobs the
      job store can update, sendFails the (job, worker) pairs whose connection write fails. */
  datatype Env = Env(
    tasks: set<string>,
    registry: Option<Registry>,
    order: string -> seq<string>,
    select: (nat, seq<Conn>) -> nat,
    stored: set<string>,
    sendFails: set<(string, string)>)

  ghost predicate SelectorOk(env: Env) {
    forall n, ws :: ws != [] ==> env.select(n, ws) < |ws|
  }

  datatype Pass = Pass(
    pool: Pool,
    picks: nat,
    dispatched: seq<(Job, string)>,
    failed: seq<Job>,
    deferred: seq<Job>,
    sent: seq<(Job, string)>,
    shortage: bool)

  function Start(pool: Pool, picks: nat): Pass {
    Pass(pool, picks, [], [], [], [], false)
  }

  function Fail(p: Pass, job: Job): Pass { p.(failed := p.failed + [job]) }

  function Defer(p: Pass, job: Job, shortage: bool): Pass {
    p.(deferred := p.deferred + [job], shortage := p.shortage || shortage)
  }

  function Keys(platforms: seq<(string, string)>): seq<string> {
    if platforms == [] then [] else [PlatformKey(platforms[0].0, platforms[0].1)] + Keys(platforms[1..])
  }

  function ConnsOf(pool: Pool, ids: seq<string>): (cs: seq<Conn>)
    requires forall x :: x in ids ==> x in pool.workers
    ensures |cs| == |ids|
  {
    seq(|ids|, i requires 0 <= i < |ids| => pool.workers[ids[i]])
  }

  function Resolves(env: Env, job: Job, c: Conn): bool {
    env.registry.None? || env.registry.value.resolves(job.taskName, job.artifactVersion, c.os, c.arch)
  }

  /** tryProposeJob from the selected worker on: resolve, send, mark Proposing, reserve. */
  function Propose(env: Env, job: Job, p: Pass, w: string): Pass
    requires w in p.pool.workers
  {
    var c := p.pool.workers[w];
    if !Resolves(env, job, c) || (job.id, w) in env.sendFails then Defer(p, job, false)
    else
      var q := p.(sent := p.sent + [(job, w)]);
      if job.id !in env.stored then Defer(q, job, false)
      else
        match Assign(c, job.id, job.cost)
        case None => Defer(q, job, false)
        case Some(c') =>
          q.(pool := q.pool.(workers := q.pool.workers[w := c']), dispatched := q.dispatched + [(job, w)])
  }

  function Candidates(env: Env, job: Job, keys: seq<string>, pool: Pool): (r: seq<string>)
    ensures forall x :: x in r ==> x in pool.workers
  {
    Eligible(pool, keys, job.cost, job.id, env.order(job.id))
  }

  function Selected(env: Env, job: Job, keys: seq<string>, p: Pass): (w: string)
    requires SelectorOk(env) && Candidates(env, job, keys, p.pool) != []
    ensures w in Candidates(env, job, keys, p.pool)
  {
    var ws := Candidates(env, job, keys, p.pool);
    ws[env.select(p.picks, ConnsOf(p.pool, ws))]
  }

  /** tryProposeJob. */
  function TryPropose(env: Env, job: Job, keys: seq<string>, p: Pass): Pass
    requires SelectorOk(env)
  {
    if job.taskName !in env.tasks then Fail(p, job)
    else if env.registry.Some? && keys == [] then Defer(p, job, false)
    else if Candidates(env, job, keys, p.pool) == [] then Defer(p, job, true)
    else Propose(env, job, p.(picks := p.picks + 1), Selected(env, job, keys, p))
  }

  // ---- the plain pass ----

  function PlainStep(env: Env, job: Job, p: Pass): Pass
    requires SelectorOk(env)
  {
    if job.taskName !in env.tasks then Fail(p, job)
    else if env.registry.None? then TryPropose(env, job, [], p)
    else
      match env.registry.value.list(job.taskName, job.artifactVersion)
      case None => Defer(p, job, false)
      case Some(platforms) => TryPropose(env, job, Keys(platforms), p)
  }

  /** The platform constraint of a job; none without a registry. */
  function KeysFor(env: Env, job: Job): seq<string> {
    if env.registry.None? then []
    else
      match env.registry.value.list(job.taskName, job.artifactVersion)
      case None => []
      case Some(platforms) => Keys(platforms)
  }

  lemma {:induction false} KeysFind(platforms: seq<(string, string)>, key: string)
    ensures key in Keys(platforms) <==>
            exists i :: 0 <= i < |platforms| && platforms[i].0 + "/" + platforms[i].1 == key
    decreases |platforms|
  {
    if platforms != [] {
      KeysFind(platforms[1..], key);
      assert platforms == [platforms[0]] + platforms[1..];
    }
  }

  function PlainPass(env: Env, jobs: seq<Job>, p: Pass): Pass
    requires SelectorOk(env)
  {
    if jobs == [] then p else PlainPass(env, jobs[1..], PlainStep(env, jobs[0], p))
  }

  // ---- the fast pass ----

  datatype Caches = Caches(platforms: map<(string, string), seq<string>>, tasks: set<string>)

  /** What jobPlatformKeysForDispatch decides: go on with these keys, fail, or defer. */
  datatype Decision = Proceed(keys: seq<string>) | FailJob | DeferJob(shortage: bool)

  function RememberTask(env: Env, job: Job, caches: Caches): Caches {
    if job.taskName in caches.tasks then caches else caches.(tasks := caches.tasks + {job.taskName})
  }

  function PreFilter(keys: seq<string>, online: set<string>): Decision {
    if keys == [] then DeferJob(false)
    else if exists k :: k in keys && k in online then Proceed(keys)
    else DeferJob(true)
  }

  /** jobPlatformKeysForDispatch. */
  function Decide(env: Env, job: Job, online: set<string>, caches: Caches): (Decision, Caches) {
    if job.taskName !in caches.tasks && job.taskName !in env.tasks then (FailJob, caches)
    else
      var c1 := RememberTask(env, job, caches);
      if env.registry.None? then (Proceed([]), c1)
      else
        var key := (job.taskName, job.artifactVersion);
        if key in c1.platforms then (PreFilter(c1.platforms[key], online), c1)
        else
          match env.registry.value.list(job.taskName, job.artifactVersion)
          case None => (DeferJob(false), c1)
          case Some(platforms) =>
            (PreFilter(Keys(platforms), online), c1.(platforms := c1.platforms[key := Keys(platforms)]))
  }

  function FastStep(env: Env, job: Job, online: set<string>, caches: Caches, p: Pass): (Pass, Caches)
    requires SelectorOk(env)
  {
    var (d, c) := Decide(env, job, online, caches);
    match d
    case FailJob => (Fail(p, job), c)
    case DeferJob(shortage) => (Defer(p, job, shortage), c)
    case Proceed(keys) => (TryPropose(env, job, keys, p), c)
  }

  function FastPass(env: Env, jobs: seq<Job>, online: set<string>, caches: Caches, p: Pass): Pass
    requires SelectorOk(env)
  {
    if jobs == [] then p
    else
      var (p', c') := FastStep(env, jobs[0], online, caches, p);
      FastPass(env, jobs[1..], online, c', p')
  }

  /** Everything cached is what a fresh lookup would say. */
  predicate CachesOk(env: Env, caches: Caches) {
    && caches.tasks <= env.tasks
    && forall k :: k in caches.platforms ==>
         env.registry.Some? && env.registry.value.list(k.0, k.1).Some?
         && caches.platforms[k] == Keys(env.registry.value.list(k.0, k.1).value)
  }

  /** What was looked up once in a pass is not looked up again: the task if it is known, and its
      platforms if the registry listed them. */
  lemma DecideRemembers(env: Env, job: Job, online: set<string>, caches: Caches)
    ensures var c := Decide(env, job, online, caches).1;
            var key := (job.taskName, job.artifactVersion);
            && caches.tasks <= c.tasks && caches.platforms.Keys <= c.platforms.Keys
            && (job.taskName in env.tasks ==> job.taskName in c.tasks)
            && (job.taskName in env.tasks && env.registry.Some? && env.registry.value.list(key.0, key.1).Some? ==>
                  key in c.platforms)
  {
  }

  // ---- what a step may change in the pool ----

  predicate SameButLoad(a: Conn, b: Conn) {
    b == a.(occupiedCost := b.occupiedCost, inFlight := b.inFlight)
  }

  /** Workers only get busier: same identity, state and refusals, no less load. */
  predicate Busier(a: Pool, b: Pool) {
    && b.platform == a.platform && b.workers.Keys == a.workers.Keys
    && forall w :: w in a.workers ==>
         SameButLoad(a.workers[w], b.workers[w])
         && a.workers[w].occupiedCost <= b.workers[w].occupiedCost
         && a.workers[w].inFlight <= b.workers[w].inFlight
  }

  lemma BusierTrans(a: Pool, b: Pool, c: Pool)
    requires Busier(a, b) && Busier(b, c)
    ensures Busier(a, c)
  {
    forall w | w in a.workers
      ensures SameButLoad(a.workers[w], c.workers[w])
           && a.workers[w].occupiedCost <= c.workers[w].occupiedCost
           && a.workers[w].inFlight <= c.workers[w].inFlight
    {
      assert SameButLoad(a.workers[w], b.workers[w]) && SameButLoad(b.workers[w], c.workers[w]);
    }
  }

  lemma BusierKeepsIndex(a: Pool, b: Pool)
    requires Busier(a, b) && Indexed(a)
    ensures Indexed(b)
  {
    forall key ensures ListOk(b, key) {
      assert ListOk(a, key);
    }
    forall id | id in b.workers ensures ConnOk(b, id) {
      assert ConnOk(a, id);
    }
  }

  lemma BusierKeepsOnline(a: Pool, b: Pool)
    requires Busier(a, b)
    ensures OnlineKeys(b) == OnlineKeys(a)
  {
    forall ids: seq<string> ensures AnyOnline(b, ids) == AnyOnline(a, ids) {
      forall i | 0 <= i < |ids| && ids[i] in a.workers
        ensures a.workers[ids[i]].state == b.workers[ids[i]].state
      {
        assert SameButLoad(a.workers[ids[i]], b.workers[ids[i]]);
      }
    }
  }

  lemma BusierTakesLess(a: Pool, b: Pool, w: string, cost: int, job: string)
    requires Busier(a, b) && w in a.workers
    requires Takes(b.workers[w], cost, job)
    ensures Takes(a.workers[w], cost, job)
  {
    assert SameButLoad(a.workers[w], b.workers[w]);
  }

  lemma BusierRefl(a: Pool)
    ensures Busier(a, a)
  {
  }

  lemma ProposeBusier(env: Env, job: Job, p: Pass, w: string)
    requires w in p.pool.workers && job.cost >= 0
    ensures Busier(p.pool, Propose(env, job, p, w).pool)
  {
  }

  lemma NegativeCostHasNoCandidate(env: Env, job: Job, keys: seq<string>, pool: Pool)
    requires Candidates(env, job, keys, pool) != []
    ensures job.cost >= 0
  {
  }

  lemma StepBusier(env: Env, job: Job, p: Pass)
    requires SelectorOk(env)
    ensures Busier(p.pool, PlainStep(env, job, p).pool)
  {
    hide SelectorOk, Propose, Candidates, Busier;
    BusierRefl(p.pool);
    var keys := KeysFor(env, job);
    if Candidates(env, job, keys, p.pool) != [] {
      NegativeCostHasNoCandidate(env, job, keys, p.pool);
      ProposeBusier(env, job, p.(picks := p.picks + 1), Selected(env, job, keys, p));
    }
  }

  lemma {:induction false} PassBusier(env: Env, jobs: seq<Job>, p: Pass)
    requires SelectorOk(env)
    ensures Busier(p.pool, PlainPass(env, jobs, p).pool)
    decreases |jobs|
  {
    hide SelectorOk, Busier, PlainStep;
    if jobs == [] {
      BusierRefl(p.pool);
    } else {
      var p1 := PlainStep(env, jobs[0], p);
      StepBusier(env, jobs[0], p);
      PassBusier(env, jobs[1..], p1);
      BusierTrans(p.pool, p1.pool, PlainPass(env, jobs, p).pool);
    }
  }

  // ---- the fast pass is the plain pass ----

  lemma PreFilterHarmless(env: Env, job: Job, platforms: seq<(string, string)>, p: Pass)
    requires SelectorOk(env) && job.taskName in env.tasks && env.registry.Some?
    ensures match PreFilter(Keys(platforms), OnlineKeys(p.pool))
            case Proceed(keys) => keys == Keys(platforms)
            case FailJob => false
            case DeferJob(shortage) => Defer(p, job, shortage) == TryPropose(env, job, Keys(platforms), p)
  {
    var keys := Keys(platforms);
    if keys != [] && !exists k :: k in keys && k in OnlineKeys(p.pool) {
      OfflineMeansIneligible(p.pool, keys, job.cost, job.id);
    }
  }

  lemma FastStepIsPlain(env: Env, job: Job, caches: Caches, p: Pass)
    requires SelectorOk(env) && CachesOk(env, caches)
    ensures FastStep(env, job, OnlineKeys(p.pool), caches, p).0 == PlainStep(env, job, p)
    ensures CachesOk(env, FastStep(env, job, OnlineKeys(p.pool), caches, p).1)
  {
    hide SelectorOk, TryPropose, PreFilter, OnlineKeys;
    if job.taskName in env.tasks && env.registry.Some? {
      var l := env.registry.value.list(job.taskName, job.artifactVersion);
      if l.Some? {
        PreFilterHarmless(env, job, l.value, p);
      }
    }
  }

  /** The pre-filter and both caches change nothing: same dispatches and workers, same deferred
      and failed jobs in the same order, same shortage flag, same pool. */
  lemma {:induction false} FastPassIsPlain(env: Env, jobs: seq<Job>, online: set<string>, caches: Caches, p: Pass)
    requires SelectorOk(env) && CachesOk(env, caches) && online == OnlineKeys(p.pool)
    ensures FastPass(env, jobs, online, caches, p) == PlainPass(env, jobs, p)
    decreases |jobs|
  {
    hide SelectorOk, CachesOk, FastStep, PlainStep, OnlineKeys, Busier;
    if jobs != [] {
      FastStepIsPlain(env, jobs[0], caches, p);
      StepBusier(env, jobs[0], p);
      var (p', c') := FastStep(env, jobs[0], online, caches, p);
      BusierKeepsOnline(p.pool, p'.pool);
      FastPassIsPlain(env, jobs[1..], online, c', p');
    }
  }

  // ---- conservation ----

  function JobsOf(ds: seq<(Job, string)>): (js: seq<Job>)
    ensures |js| == |ds|
  {
    seq(|ds|, i requires 0 <= i < |ds| => ds[i].0)
  }

  ghost function Accounted(p: Pass): multiset<Job> {
    multiset(JobsOf(p.dispatched)) + multiset(p.failed) + multiset(p.deferred)
  }

  lemma JobsOfPush(ds: seq<(Job, string)>, d: (Job, string))
    ensures JobsOf(ds + [d]) == JobsOf(ds) + [d.0]
  {
  }

  predicate FailedAt(p: Pass, q: Pass, job: Job) {
    q.failed == p.failed + [job] && q.deferred == p.deferred && q.dispatched == p.dispatched && q.pool == p.pool
  }

  predicate DeferredAt(p: Pass, q: Pass, job: Job) {
    q.deferred == p.deferred + [job] && q.failed == p.failed && q.dispatched == p.dispatched && q.pool == p.pool
  }

  predicate DispatchedAt(p: Pass, q: Pass, job: Job, w: string) {
    && q.dispatched == p.dispatched + [(job, w)] && q.failed == p.failed && q.deferred == p.deferred
    && w in p.pool.workers && Assign(p.pool.workers[w], job.id, job.cost).Some?
    && q.pool == p.pool.(workers := p.pool.workers[w := Assign(p.pool.workers[w], job.id, job.cost).value])
  }

  lemma ProposeEnds(env: Env, job: Job, p: Pass, w: string)
    requires w in p.pool.workers
    ensures var q := Propose(env, job, p, w);
            DeferredAt(p, q, job) || DispatchedAt(p, q, job, w)
  {
  }

  /** A job popped by the pass fails, is deferred, or goes to one worker that reserves its cost. */
  lemma StepEnds(env: Env, job: Job, p: Pass)
    requires SelectorOk(env)
    ensures var q := PlainStep(env, job, p);
            FailedAt(p, q, job) || DeferredAt(p, q, job) || exists w :: DispatchedAt(p, q, job, w)
  {
    hide SelectorOk, Propose, Candidates;
    var keys := KeysFor(env, job);
    if Candidates(env, job, keys, p.pool) != [] {
      var w := Selected(env, job, keys, p);
      var p1 := p.(picks := p.picks + 1);
      ProposeEnds(env, job, p1, w);
      var q := Propose(env, job, p1, w);
      assert DeferredAt(p1, q, job) ==> DeferredAt(p, q, job);
      assert DispatchedAt(p1, q, job, w) ==> DispatchedAt(p, q, job, w);
    }
  }

  /** A job fails exactly if nobody knows its task. */
  lemma StepFailsIff(env: Env, job: Job, p: Pass)
    requires SelectorOk(env)
    ensures PlainStep(env, job, p).failed == p.failed + (if job.taskName in env.tasks then [] else [job])
    ensures FailedAt(p, PlainStep(env, job, p), job) <==> job.taskName !in env.tasks
  {
    StepEnds(env, job, p);
    hide SelectorOk, Propose, Candidates;
    var keys := KeysFor(env, job);
    if job.taskName in env.tasks && Candidates(env, job, keys, p.pool) != [] {
      ProposeEnds(env, job, p.(picks := p.picks + 1), Selected(env, job, keys, p));
    }
  }

  /** tryProposeJob looks the task up itself and fails exactly an unknown one, whatever the keys. */
  lemma ProposalFailsIff(env: Env, job: Job, keys: seq<string>, p: Pass)
    requires SelectorOk(env)
    ensures FailedAt(p, TryPropose(env, job, keys, p), job) <==> job.taskName !in env.tasks
  {
    hide SelectorOk, Propose, Candidates;
    if job.taskName in env.tasks && Candidates(env, job, keys, p.pool) != [] {
      ProposeEnds(env, job, p.(picks := p.picks + 1), Selected(env, job, keys, p));
    }
  }

  function UnknownOf(env: Env, jobs: seq<Job>): seq<Job> {
    if jobs == [] then []
    else (if jobs[0].taskName in env.tasks then [] else [jobs[0]]) + UnknownOf(env, jobs[1..])
  }

  /** A pass fails exactly the jobs of unknown tasks, in the order in which they are tried. */
  lemma {:induction false} PassFailsUnknown(env: Env, jobs: seq<Job>, p: Pass)
    requires SelectorOk(env)
    ensures PlainPass(env, jobs, p).failed == p.failed + UnknownOf(env, jobs)
    decreases |jobs|
  {
    hide SelectorOk, PlainStep;
    if jobs == [] {
      AppendNothing(p.failed, UnknownOf(env, jobs));
    } else {
      StepFailsIff(env, jobs[0], p);
      PassFailsUnknown(env, jobs[1..], PlainStep(env, jobs[0], p));
      Assoc(p.failed, if jobs[0].taskName in env.tasks then [] else [jobs[0]], UnknownOf(env, jobs[1..]));
    }
  }

  lemma StepAccounts(env: Env, job: Job, p: Pass)
    requires SelectorOk(env)
    ensures Accounted(PlainStep(env, job, p)) == Accounted(p) + multiset{job}
  {
    hide SelectorOk, PlainStep, JobsOf;
    var q := PlainStep(env, job, p);
    StepEnds(env, job, p);
    if w :| DispatchedAt(p, q, job, w) {
      JobsOfPush(p.dispatched, (job, w));
    }
  }

  /** Every popped job ends in exactly one of dispatched, failed and deferred. */
  lemma {:induction false} PassConserves(env: Env, jobs: seq<Job>, p: Pass)
    requires SelectorOk(env)
    ensures Accounted(PlainPass(env, jobs, p)) == Accounted(p) + multiset(jobs)
    decreases |jobs|
  {
    hide SelectorOk, PlainStep, Accounted;
    if jobs != [] {
      StepAccounts(env, jobs[0], p);
      PassConserves(env, jobs[1..], PlainStep(env, jobs[0], p));
      assert jobs == [jobs[0]] + jobs[1..];
    }
  }
}
