/** What a dispatch pass guarantees: jobs in flight where they were dispatched, no eligible job
    left behind, no priority inversion, and when a proposal can be sent for a job that stays
    queued. */
module DispatchGuarantees {
  import opened Base
  import opened WorkerPool
  import opened DispatchSpec

  // ---- states along the pass ----

  /** The pass just before its i-th job. */
  function Before(env: Env, jobs: seq<Job>, p: Pass, i: nat): Pass
    requires SelectorOk(env) && i <= |jobs|
  {
    PlainPass(env, jobs[..i], p)
  }

  lemma {:induction false} PassConcat(env: Env, a: seq<Job>, b: seq<Job>, p: Pass)
    requires SelectorOk(env)
    ensures PlainPass(env, a + b, p) == PlainPass(env, b, PlainPass(env, a, p))
    decreases |a|
  {
    hide SelectorOk, PlainStep;
    if a == [] {
      assert a + b == b;
    } else {
      PassConcat(env, a[1..], b, PlainStep(env, a[0], p));
      assert (a + b)[1..] == a[1..] + b && (a + b)[0] == a[0];
    }
  }

  lemma PassOne(env: Env, job: Job, p: Pass)
    requires SelectorOk(env)
    ensures PlainPass(env, [job], p) == PlainStep(env, job, p)
  {
    hide SelectorOk, PlainStep;
    assert [job][1..] == [];
  }

  lemma BeforeNext(env: Env, jobs: seq<Job>, p: Pass, i: nat)
    requires SelectorOk(env) && i < |jobs|
    ensures Before(env, jobs, p, i + 1) == PlainStep(env, jobs[i], Before(env, jobs, p, i))
    ensures PlainPass(env, jobs, p) == PlainPass(env, jobs[i + 1..], Before(env, jobs, p, i + 1))
  {
    hide SelectorOk, PlainStep, PlainPass;
    PassConcat(env, jobs[..i], [jobs[i]], p);
    assert jobs[..i] + [jobs[i]] == jobs[..i + 1];
    PassOne(env, jobs[i], Before(env, jobs, p, i));
    PassConcat(env, jobs[..i + 1], jobs[i + 1..], p);
    assert jobs[..i + 1] + jobs[i + 1..] == jobs;
  }

  // ---- in flight on exactly one worker ----

  function HeldBy(pool: Pool, job: string): set<string> {
    set w | w in pool.workers && job in pool.workers[w].inFlight
  }

  lemma StepHolds(env: Env, job: Job, p: Pass, x: string)
    requires SelectorOk(env)
    ensures var q := PlainStep(env, job, p);
            && (x != job.id ==> HeldBy(q.pool, x) == HeldBy(p.pool, x))
            && (q.dispatched == p.dispatched ==> HeldBy(q.pool, x) == HeldBy(p.pool, x))
            && (forall w :: DispatchedAt(p, q, job, w) ==> HeldBy(q.pool, job.id) == HeldBy(p.pool, job.id) + {w})
  {
    hide SelectorOk, PlainStep;
    var q := PlainStep(env, job, p);
    StepEnds(env, job, p);
    if w :| DispatchedAt(p, q, job, w) {
      assert HeldBy(q.pool, job.id) == HeldBy(p.pool, job.id) + {w};
      assert q.dispatched[|p.dispatched|] == (job, w);
      assert forall v :: DispatchedAt(p, q, job, v) ==> q.dispatched[|p.dispatched|] == (job, v);
    }
  }

  lemma {:induction false} PassHoldsOthers(env: Env, jobs: seq<Job>, p: Pass, x: string)
    requires SelectorOk(env) && forall j :: j in jobs ==> j.id != x
    ensures HeldBy(PlainPass(env, jobs, p).pool, x) == HeldBy(p.pool, x)
    decreases |jobs|
  {
    hide SelectorOk, PlainStep, HeldBy;
    if jobs != [] {
      StepHolds(env, jobs[0], p, x);
      PassHoldsOthers(env, jobs[1..], PlainStep(env, jobs[0], p), x);
    }
  }

  predicate UniqueIds(jobs: seq<Job>) {
    forall i, j :: 0 <= i < j < |jobs| ==> jobs[i].id != jobs[j].id
  }

  /** With unique identifiers, a job nobody held before the pass is held after it by the one
      worker it was dispatched to, and by nobody if it was deferred or failed. */
  lemma InFlightExactly(env: Env, jobs: seq<Job>, p: Pass, i: nat)
    requires SelectorOk(env) && UniqueIds(jobs) && i < |jobs|
    requires HeldBy(p.pool, jobs[i].id) == {}
    ensures var q, q' := Before(env, jobs, p, i), Before(env, jobs, p, i + 1);
            var held := HeldBy(PlainPass(env, jobs, p).pool, jobs[i].id);
            && (forall w :: DispatchedAt(q, q', jobs[i], w) ==> held == {w})
            && (q'.dispatched == q.dispatched ==> held == {})
  {
    hide SelectorOk, PlainStep, PlainPass, HeldBy, DispatchedAt;
    var q, q' := Before(env, jobs, p, i), Before(env, jobs, p, i + 1);
    BeforeNext(env, jobs, p, i);
    PassHoldsOthers(env, jobs[..i], p, jobs[i].id);
    StepHolds(env, jobs[i], q, jobs[i].id);
    PassHoldsOthers(env, jobs[i + 1..], q', jobs[i].id);
  }

  // ---- no eligible job left behind ----

  /** One of the platforms listed for the job is the worker's; any will do without a registry. */
  predicate PlatformFits(env: Env, job: Job, c: Conn) {
    env.registry.None?
    || var platforms := env.registry.value.list(job.taskName, job.artifactVersion);
       platforms.Some?
       && exists i :: 0 <= i < |platforms.value|
                      && platforms.value[i].0 + "/" + platforms.value[i].1 == c.os + "/" + c.arch
  }

  /** Worker w could run the job right now. */
  predicate CanTake(env: Env, pool: Pool, job: Job, w: string) {
    && job.taskName in env.tasks && job.cost >= 0
    && w in pool.workers
    && var c := pool.workers[w];
       && c.state == Online && (job.id == "" || job.id !in c.rejected)
       && (job.cost == 0 || c.occupiedCost + job.cost <= c.capacity)
       && PlatformFits(env, job, c)
  }

  /** No registry, send or store error concerns this job, and any worker on one of its listed
      platforms resolves to an artifact. */
  predicate NoErrors(env: Env, pool: Pool, job: Job) {
    && (env.registry.Some? ==> env.registry.value.list(job.taskName, job.artifactVersion).Some?)
    && job.id in env.stored
    && forall w :: w in pool.workers ==>
         (job.id, w) !in env.sendFails
         && (PlatformFits(env, job, pool.workers[w]) ==> Resolves(env, job, pool.workers[w]))
  }

  ghost predicate PoolOk(env: Env, pool: Pool, job: Job) {
    Indexed(pool) && Enumerates(env.order(job.id), pool.workers.Keys)
  }

  /** The registry lists a platform for the job, or there is no registry. */
  predicate HasPlatforms(env: Env, job: Job) {
    env.registry.None?
    || var platforms := env.registry.value.list(job.taskName, job.artifactVersion);
       platforms.Some? && platforms.value != []
  }

  lemma CanTakeIsCandidate(env: Env, pool: Pool, job: Job, w: string)
    requires PoolOk(env, pool, job) && job.taskName in env.tasks && HasPlatforms(env, job)
    ensures w in Candidates(env, job, KeysFor(env, job), pool) <==> CanTake(env, pool, job, w)
  {
    hide Indexed, Enumerates;
    if env.registry.Some? && w in pool.workers {
      KeysFind(env.registry.value.list(job.taskName, job.artifactVersion).value,
               pool.workers[w].os + "/" + pool.workers[w].arch);
    }
    EligibleExactly(pool, KeysFor(env, job), job.cost, job.id, env.order(job.id), w);
  }

  /** Without errors, a job that has a candidate is dispatched to the selected one. */
  lemma CandidateIsDispatched(env: Env, job: Job, p: Pass)
    requires SelectorOk(env) && PoolOk(env, p.pool, job) && NoErrors(env, p.pool, job)
    requires job.cost >= 1 && job.taskName in env.tasks
    requires env.registry.Some? ==> KeysFor(env, job) != []
    requires Candidates(env, job, KeysFor(env, job), p.pool) != []
    ensures DispatchedAt(p, PlainStep(env, job, p), job, Selected(env, job, KeysFor(env, job), p))
  {
    var w := Selected(env, job, KeysFor(env, job), p);
    CanTakeIsCandidate(env, p.pool, job, w);
    hide SelectorOk, PoolOk, Candidates;
  }

  /** A job deferred without an error had no worker that could take it. */
  lemma DeferredHadNoWorker(env: Env, job: Job, p: Pass, w: string)
    requires SelectorOk(env) && PoolOk(env, p.pool, job) && NoErrors(env, p.pool, job) && job.cost >= 1
    requires DeferredAt(p, PlainStep(env, job, p), job)
    ensures !CanTake(env, p.pool, job, w)
  {
    if job.taskName in env.tasks && (env.registry.None? || KeysFor(env, job) != []) {
      CanTakeIsCandidate(env, p.pool, job, w);
      if Candidates(env, job, KeysFor(env, job), p.pool) != [] {
        CandidateIsDispatched(env, job, p);
      }
    }
  }

  lemma CanTakeEarlier(env: Env, a: Pool, b: Pool, job: Job, w: string)
    requires Busier(a, b) && CanTake(env, b, job, w)
    ensures CanTake(env, a, job, w)
  {
    BusierTakesLess(a, b, w, job.cost, job.id);
    assert SameButLoad(a.workers[w], b.workers[w]);
  }

  lemma ConditionsPersist(env: Env, a: Pool, b: Pool, job: Job)
    requires Busier(a, b) && PoolOk(env, a, job) && NoErrors(env, a, job)
    ensures PoolOk(env, b, job) && NoErrors(env, b, job)
  {
    BusierKeepsIndex(a, b);
    forall w | w in b.workers ensures SameButLoad(a.workers[w], b.workers[w]) {
    }
  }

  ghost predicate CleanPass(env: Env, pool: Pool, jobs: seq<Job>) {
    forall j :: j in jobs ==> j.cost >= 1 && PoolOk(env, pool, j) && NoErrors(env, pool, j)
  }

  lemma CleanPersists(env: Env, a: Pool, b: Pool, jobs: seq<Job>)
    requires Busier(a, b) && CleanPass(env, a, jobs)
    ensures CleanPass(env, b, jobs)
  {
    forall j | j in jobs ensures PoolOk(env, b, j) && NoErrors(env, b, j) {
      ConditionsPersist(env, a, b, j);
    }
  }

  lemma DeferredStaysIneligible(env: Env, job: Job, p: Pass, final: Pool, w: string)
    requires SelectorOk(env) && PoolOk(env, p.pool, job) && NoErrors(env, p.pool, job) && job.cost >= 1
    requires DeferredAt(p, PlainStep(env, job, p), job) && Busier(p.pool, final)
    ensures !CanTake(env, final, job, w)
  {
    DeferredHadNoWorker(env, job, p, w);
    if CanTake(env, final, job, w) {
      CanTakeEarlier(env, p.pool, final, job, w);
    }
  }

  /** After a pass no job it put back has a worker that could run it: the pass is work-conserving. */
  lemma {:induction false} NoEligibleJobLeft(env: Env, jobs: seq<Job>, p: Pass, job: Job, w: string)
    requires SelectorOk(env) && CleanPass(env, p.pool, jobs)
    requires job in PlainPass(env, jobs, p).deferred && job !in p.deferred
    ensures !CanTake(env, PlainPass(env, jobs, p).pool, job, w)
    decreases |jobs|
  {
    hide SelectorOk, PlainStep, CanTake, Busier, PoolOk, NoErrors;
    if jobs != [] {
      var j, q := jobs[0], PlainStep(env, jobs[0], p);
      StepEnds(env, j, p);
      StepBusier(env, j, p);
      assert j in jobs;
      if job in q.deferred {
        assert job == j && DeferredAt(p, q, j);
        PassBusier(env, jobs, p);
        DeferredStaysIneligible(env, j, p, PlainPass(env, jobs, p).pool, w);
      } else {
        CleanPersists(env, p.pool, q.pool, jobs[1..]);
        NoEligibleJobLeft(env, jobs[1..], q, job, w);
      }
    }
  }

  lemma BusierAlong(env: Env, jobs: seq<Job>, p: Pass, i: nat, j: nat)
    requires SelectorOk(env) && i <= j <= |jobs|
    ensures Busier(Before(env, jobs, p, i).pool, Before(env, jobs, p, j).pool)
  {
    hide SelectorOk, PlainPass, Busier;
    PassConcat(env, jobs[..i], jobs[i..j], p);
    Slices(jobs, i, j);
    PassBusier(env, jobs[i..j], Before(env, jobs, p, i));
  }

  /** If a job popped earlier stays queued while one popped later is dispatched to w, then at that
      moment w could not have taken the earlier one. */
  lemma NoPriorityInversion(env: Env, jobs: seq<Job>, p: Pass, i: nat, j: nat, w: string)
    requires SelectorOk(env) && CleanPass(env, p.pool, jobs) && i < j < |jobs|
    requires DeferredAt(Before(env, jobs, p, i), Before(env, jobs, p, i + 1), jobs[i])
    requires DispatchedAt(Before(env, jobs, p, j), Before(env, jobs, p, j + 1), jobs[j], w)
    ensures !CanTake(env, Before(env, jobs, p, j).pool, jobs[i], w)
  {
    BusierAlong(env, jobs, p, 0, i);
    BusierAlong(env, jobs, p, i, j);
    assert Before(env, jobs, p, 0) == p by { assert jobs[..0] == []; }
    assert jobs[i] in jobs;
    ConditionsPersist(env, p.pool, Before(env, jobs, p, i).pool, jobs[i]);
    BeforeNext(env, jobs, p, i);
    hide SelectorOk, PlainPass, PlainStep, Busier, CleanPass, CanTake, DeferredAt, DispatchedAt;
    DeferredStaysIneligible(env, jobs[i], Before(env, jobs, p, i), Before(env, jobs, p, j).pool, w);
  }

  // ---- which worker, and when workers are short ----

  /** A known, dispatchable job that no worker can take right now. */
  ghost predicate LacksWorker(env: Env, pool: Pool, job: Job) {
    job.taskName in env.tasks && HasPlatforms(env, job) && forall w :: !CanTake(env, pool, job, w)
  }

  lemma KeysForAny(env: Env, job: Job)
    ensures env.registry.Some? ==> (KeysFor(env, job) != [] <==> HasPlatforms(env, job))
  {
  }

  lemma NoCandidateIff(env: Env, pool: Pool, job: Job)
    requires PoolOk(env, pool, job) && job.taskName in env.tasks && HasPlatforms(env, job)
    ensures Candidates(env, job, KeysFor(env, job), pool) == [] <==> LacksWorker(env, pool, job)
  {
    var ws := Candidates(env, job, KeysFor(env, job), pool);
    forall w ensures w in ws <==> CanTake(env, pool, job, w) {
      CanTakeIsCandidate(env, pool, job, w);
    }
    hide PoolOk, CanTake, Candidates;
    if ws != [] {
      assert ws[0] in ws;
    }
  }

  /** A step raises the shortage flag exactly if its job lacks a worker. */
  lemma StepShortageIff(env: Env, job: Job, p: Pass)
    requires SelectorOk(env) && PoolOk(env, p.pool, job)
    ensures PlainStep(env, job, p).shortage <==> p.shortage || LacksWorker(env, p.pool, job)
  {
    KeysForAny(env, job);
    if job.taskName in env.tasks && HasPlatforms(env, job) {
      NoCandidateIff(env, p.pool, job);
    }
    hide SelectorOk, PoolOk, CanTake, Candidates, Keys;
  }

  lemma PoolStaysOk(env: Env, a: Pool, b: Pool, job: Job)
    requires Busier(a, b) && PoolOk(env, a, job)
    ensures PoolOk(env, b, job)
  {
    BusierKeepsIndex(a, b);
  }

  lemma {:induction false} ShortageBefore(env: Env, jobs: seq<Job>, p: Pass, n: nat)
    requires SelectorOk(env) && n <= |jobs| && forall j :: j in jobs ==> PoolOk(env, p.pool, j)
    ensures Before(env, jobs, p, n).shortage <==>
            p.shortage || exists i :: 0 <= i < n && LacksWorker(env, Before(env, jobs, p, i).pool, jobs[i])
    decreases n
  {
    hide SelectorOk, PlainStep, LacksWorker, PoolOk, Busier;
    if n == 0 {
      assert jobs[..0] == [];
    } else {
      var m := n - 1;
      var q := Before(env, jobs, p, m);
      ShortageBefore(env, jobs, p, m);
      BeforeNext(env, jobs, p, m);
      PassBusier(env, jobs[..m], p);
      assert jobs[m] in jobs;
      PoolStaysOk(env, p.pool, q.pool, jobs[m]);
      hide Before, PlainPass;
      StepShortageIff(env, jobs[m], q);
    }
  }

  /** A pass reports a shortage exactly if some job lacked a worker when it was its turn. */
  lemma PassShortageIff(env: Env, jobs: seq<Job>, p: Pass)
    requires SelectorOk(env) && forall j :: j in jobs ==> PoolOk(env, p.pool, j)
    ensures PlainPass(env, jobs, p).shortage <==>
            p.shortage || exists i :: 0 <= i < |jobs| && LacksWorker(env, Before(env, jobs, p, i).pool, jobs[i])
  {
    ShortageBefore(env, jobs, p, |jobs|);
    assert jobs[..|jobs|] == jobs;
  }

  lemma ProposeGoesTo(env: Env, job: Job, p: Pass, v: string, w: string)
    requires v in p.pool.workers
    ensures DispatchedAt(p, Propose(env, job, p, v), job, w) <==>
            && w == v && Resolves(env, job, p.pool.workers[v]) && (job.id, v) !in env.sendFails
            && job.id in env.stored && Assign(p.pool.workers[v], job.id, job.cost).Some?
  {
    var q := Propose(env, job, p, v);
    ProposeEnds(env, job, p, v);
    assert q.dispatched == p.dispatched + [(job, v)] ==> q.dispatched[|p.dispatched|] == (job, v);
    assert DispatchedAt(p, q, job, w) ==> q.dispatched[|p.dispatched|] == (job, w);
  }

  /** With a candidate the step is a proposal to the one the selector names. */
  lemma StepProposes(env: Env, job: Job, p: Pass)
    requires SelectorOk(env) && job.taskName in env.tasks && HasPlatforms(env, job)
    requires Candidates(env, job, KeysFor(env, job), p.pool) != []
    ensures var ws := Candidates(env, job, KeysFor(env, job), p.pool);
            PlainStep(env, job, p) ==
            Propose(env, job, p.(picks := p.picks + 1), ws[env.select(p.picks, ConnsOf(p.pool, ws))])
  {
    KeysForAny(env, job);
    hide Propose, Eligible, SelectorOk, Keys;
  }

  /** Without one it is not dispatched. */
  lemma StepWithoutCandidate(env: Env, job: Job, p: Pass, w: string)
    requires SelectorOk(env)
    requires !(job.taskName in env.tasks && HasPlatforms(env, job)
               && Candidates(env, job, KeysFor(env, job), p.pool) != [])
    ensures !DispatchedAt(p, PlainStep(env, job, p), job, w)
  {
    KeysForAny(env, job);
    hide Propose, Eligible, SelectorOk, Keys;
    assert PlainStep(env, job, p).dispatched == p.dispatched;
  }

  /** The selector is shown the eligible connections in order, and the job goes to the one it names,
      exactly if the artifact resolves there, the message gets through, the store knows the job and
      the worker has room. */
  lemma DispatchedIff(env: Env, job: Job, p: Pass, w: string)
    requires SelectorOk(env) && PoolOk(env, p.pool, job)
    ensures var ws := Eligible(p.pool, KeysFor(env, job), job.cost, job.id, env.order(job.id));
            var conns := seq(|ws|, i requires 0 <= i < |ws| => p.pool.workers[ws[i]]);
            DispatchedAt(p, PlainStep(env, job, p), job, w) <==>
              && job.taskName in env.tasks && HasPlatforms(env, job)
              && ws != [] && w == ws[env.select(p.picks, conns)]
              && var c := p.pool.workers[w];
                 && (env.registry.Some? ==>
                       env.registry.value.resolves(job.taskName, job.artifactVersion, c.os, c.arch))
                 && (job.id, w) !in env.sendFails && job.id in env.stored && c.occupiedCost < c.capacity
  {
    var keys := KeysFor(env, job);
    var ws := Eligible(p.pool, keys, job.cost, job.id, env.order(job.id));
    var conns := seq(|ws|, i requires 0 <= i < |ws| => p.pool.workers[ws[i]]);
    assert conns == ConnsOf(p.pool, ws) && ws == Candidates(env, job, keys, p.pool);
    if job.taskName in env.tasks && HasPlatforms(env, job) && ws != [] {
      var v := ws[env.select(p.picks, conns)];
      CanTakeIsCandidate(env, p.pool, job, v);
      StepProposes(env, job, p);
      ProposeGoesTo(env, job, p.(picks := p.picks + 1), v, w);
      hide SelectorOk, PoolOk, Eligible, Candidates, Propose, PlainStep;
    } else {
      StepWithoutCandidate(env, job, p, w);
      hide SelectorOk, PoolOk, Eligible, Candidates, PlainStep, DispatchedAt;
    }
  }

  /** The selector always names a connection with the most free capacity, the longest idle one among
      equals. */
  ghost predicate PicksLeastLoaded(env: Env) {
    forall n, ws: seq<Conn>, i ::
      0 <= i < |ws| && env.select(n, ws) < |ws| ==> NoFreer(ws[i], ws[env.select(n, ws)])
  }

  /** With the default selector a job goes to the least loaded of all workers that could take it. */
  lemma GoesToLeastLoaded(env: Env, job: Job, p: Pass, w: string, v: string)
    requires SelectorOk(env) && PoolOk(env, p.pool, job) && PicksLeastLoaded(env)
    requires DispatchedAt(p, PlainStep(env, job, p), job, w) && CanTake(env, p.pool, job, v)
    ensures var c, best := p.pool.workers[v], p.pool.workers[w];
            || c.capacity - c.occupiedCost < best.capacity - best.occupiedCost
            || (c.capacity - c.occupiedCost == best.capacity - best.occupiedCost && best.lastIdleAt <= c.lastIdleAt)
  {
    var ws := Eligible(p.pool, KeysFor(env, job), job.cost, job.id, env.order(job.id));
    var conns := seq(|ws|, i requires 0 <= i < |ws| => p.pool.workers[ws[i]]);
    DispatchedIff(env, job, p, w);
    CanTakeIsCandidate(env, p.pool, job, v);
    hide PoolOk, Eligible, PlainStep, CanTake;
    var i :| 0 <= i < |ws| && ws[i] == v;
    assert conns[i] == p.pool.workers[v] && conns[env.select(p.picks, conns)] == p.pool.workers[w];
  }

  // ---- a proposal sent for a job that stays queued ----

  predicate SentButRequeued(p: Pass, q: Pass, job: Job) {
    |q.sent| > |p.sent| && DeferredAt(p, q, job)
  }

  /** The job reaches the connection write of tryProposeJob and the write succeeds. */
  predicate ReachesWorker(env: Env, job: Job, p: Pass, w: string) {
    && w in p.pool.workers
    && Resolves(env, job, p.pool.workers[w])
    && (job.id, w) !in env.sendFails
  }

  lemma ProposeSends(env: Env, job: Job, p: Pass, w: string)
    requires w in p.pool.workers
    ensures SentButRequeued(p, Propose(env, job, p, w), job) <==>
            ReachesWorker(env, job, p, w)
            && (job.id !in env.stored || Assign(p.pool.workers[w], job.id, job.cost).None?)
  {
  }

  /** A worker is told about a job that nevertheless goes back to the queue exactly when the job
      store does not know the job, or the job costs nothing and the selected worker is full. */
  lemma SentButRequeuedIff(env: Env, job: Job, p: Pass)
    requires SelectorOk(env) && PoolOk(env, p.pool, job)
    ensures var keys := KeysFor(env, job);
            SentButRequeued(p, PlainStep(env, job, p), job) <==>
              && job.taskName in env.tasks
              && (env.registry.Some? ==> keys != [])
              && Candidates(env, job, keys, p.pool) != []
              && var w := Selected(env, job, keys, p);
                 ReachesWorker(env, job, p, w)
                 && (job.id !in env.stored || (job.cost == 0 && Available(p.pool.workers[w]) <= 0))
  {
    var keys := KeysFor(env, job);
    if job.taskName in env.tasks && (env.registry.Some? ==> keys != []) && Candidates(env, job, keys, p.pool) != [] {
      NegativeCostHasNoCandidate(env, job, keys, p.pool);
      CanTakeIsCandidate(env, p.pool, job, Selected(env, job, keys, p));
      ProposeSends(env, job, p.(picks := p.picks + 1), Selected(env, job, keys, p));
    }
    hide SelectorOk, PoolOk, Candidates, Propose;
  }
}
