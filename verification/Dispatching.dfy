/** The manager's dispatch loop in its own form: a heap of job items re-prioritised in place,
    cancellation marks, and a loop over pops with per-pass caches. */
module Dispatching {
  import opened Base
  import opened HeapSpec
  import opened PriorityHeap
  import opened WorkerPool
  import opened DispatchSpec
  import opened QueuePass

  /** How one job leaves the loop of ProcessQueue. */
  datatype Outcome = Dispatched | Failed | Deferred(shortage: bool)

  /** The pass q is p plus a job that ended with this outcome, after this message if any. */
  predicate Ends(p: Pass, q: Pass, job: Job, out: Outcome, sentTo: Option<string>) {
    && q.sent == (if sentTo.Some? then p.sent + [(job, sentTo.value)] else p.sent)
    && q.failed == (if out.Failed? then p.failed + [job] else p.failed)
    && q.deferred == (if out.Deferred? then p.deferred + [job] else p.deferred)
    && q.shortage == (p.shortage || (out.Deferred? && out.shortage))
    && (out.Dispatched? ==> sentTo.Some? && q.dispatched == p.dispatched + [(job, sentTo.value)])
    && (!out.Dispatched? ==> q.dispatched == p.dispatched)
  }

  lemma {:induction false} KeysPush(platforms: seq<(string, string)>, p: (string, string))
    ensures Keys(platforms + [p]) == Keys(platforms) + [PlatformKey(p.0, p.1)]
    decreases |platforms|
  {
    if platforms != [] {
      KeysPush(platforms[1..], p);
      assert (platforms + [p])[1..] == platforms[1..] + [p];
    } else {
      assert platforms + [p] == [p];
    }
  }

  /** The key-building loop of jobPlatformKeysForDispatch. */
  method BuildKeys(platforms: seq<(string, string)>) returns (keys: seq<string>)
    ensures keys == Keys(platforms)
  {
    keys := [];
    for i := 0 to |platforms|
      invariant keys == Keys(platforms[..i])
    {
      assert platforms[..i + 1] == platforms[..i] + [platforms[i]];
      KeysPush(platforms[..i], platforms[i]);
      keys := keys + [PlatformKey(platforms[i].0, platforms[i].1)];
    }
    assert platforms[..|platforms|] == platforms;
  }

  /** The pre-filter loop: stops at the first key with an online worker. */
  method CheckOnline(keys: seq<string>, online: set<string>) returns (d: Decision)
    ensures d == PreFilter(keys, online)
  {
    if |keys| == 0 {
      return DeferJob(false);
    }
    for i := 0 to |keys|
      invariant forall j :: 0 <= j < i ==> keys[j] !in online
    {
      if keys[i] in online {
        return Proceed(keys);
      }
    }
    d := DeferJob(true);
  }

  method JobPlatformKeys(env: Env, job: Job, online: set<string>, caches: Caches)
    returns (d: Decision, caches': Caches)
    ensures (d, caches') == Decide(env, job, online, caches)
  {
    hide PreFilter, Keys;
    caches' := caches;
    if job.taskName !in caches'.tasks {
      if job.taskName !in env.tasks {
        return FailJob, caches';
      }
      caches' := caches'.(tasks := caches'.tasks + {job.taskName});
    }
    if env.registry.None? {
      return Proceed([]), caches';
    }
    var key := (job.taskName, job.artifactVersion);
    var keys;
    if key in caches'.platforms {
      keys := caches'.platforms[key];
    } else {
      var platforms := env.registry.value.list(job.taskName, job.artifactVersion);
      if platforms.None? {
        return DeferJob(false), caches';
      }
      keys := BuildKeys(platforms.value);
      caches' := caches'.(platforms := caches'.platforms[key := keys]);
    }
    d := CheckOnline(keys, online);
  }

  lemma NothingBoosted(jobs: seq<Job>, now: int, timeout: int)
    requires !AnyStarved(jobs, now, timeout)
    ensures BoostAll(jobs, now, timeout) == jobs
  {
  }

  /** What a pass still has to do: the job in hand, then whatever popping the queue yields. */
  function Rest(job: Option<Job>, queue: seq<Job>, marks: set<string>): seq<Job> {
    (if job.Some? then [job.value] else []) + Survivors(PopAll(JobBefore, queue), marks)
  }

  lemma FastPassNext(env: Env, job: Job, rest: seq<Job>, online: set<string>, caches: Caches, p: Pass)
    requires SelectorOk(env)
    ensures FastPass(env, [job] + rest, online, caches, p) ==
            var (p', c') := FastStep(env, job, online, caches, p); FastPass(env, rest, online, c', p')
  {
    assert ([job] + rest)[1..] == rest;
  }

  lemma NothingLeft(queue: seq<Job>, marks: set<string>)
    requires queue == []
    ensures Survivors(PopAll(JobBefore, queue), marks) == []
  {
  }

  lemma PopStep(queue: seq<Job>, marks: set<string>)
    requires queue != []
    ensures var rest := PopAll(JobBefore, PopRest(JobBefore, queue));
            && PopAll(JobBefore, queue) == [queue[0]] + rest
            && Survivors(PopAll(JobBefore, queue), marks) ==
                 (if queue[0].id in marks then Survivors(rest, marks - {queue[0].id})
                  else [queue[0]] + Survivors(rest, marks))
            && MarksAfter(PopAll(JobBefore, queue), marks) ==
                 MarksAfter(rest, if queue[0].id in marks then marks - {queue[0].id} else marks)
  {
    hide PopRest;
    var rest := PopAll(JobBefore, PopRest(JobBefore, queue));
    assert ([queue[0]] + rest)[1..] == rest;
  }

  lemma Emptied(env: Env, online: set<string>, caches: Caches, p: Pass, marks: set<string>)
    requires SelectorOk(env)
    ensures FastPass(env, Rest(None, [], marks), online, caches, p) == p
    ensures MarksAfter(PopAll(JobBefore, []), marks) == marks
  {
  }

  class Dispatcher {
    const queue: PriorityQueue<Job>
    var cancelledJobIDs: set<string>
    var pool: Pool
    var picks: nat   // selector calls made so far

    constructor (pool: Pool)
      ensures Valid() && queue.Values() == [] && cancelledJobIDs == {} && this.pool == pool && picks == 0
      ensures fresh(queue)
    {
      JobBeforeIsStrictWeak();
      queue := new PriorityQueue(JobBefore);
      cancelledJobIDs, this.pool, picks := {}, pool, 0;
    }

    /** Items know their places; between a boost and the rebuild that is all. */
    ghost predicate Wired()
      reads this, queue, queue.Repr
    {
      queue.Indexed() && queue.isHigherPriority == JobBefore
    }

    ghost predicate Valid()
      reads this, queue, queue.items, queue.Repr
    {
      queue.Valid() && queue.isHigherPriority == JobBefore
    }

    /** EnqueueJob without its wake-up signal. */
    method EnqueueJob(job: Job)
      requires Valid()
      modifies queue, queue.Repr
      ensures Valid() && queue.Values() == Push(JobBefore, old(queue.Values()), job)
      ensures multiset(queue.Values()) == old(multiset(queue.Values())) + multiset{job}
      ensures fresh(queue.Repr - old(queue.Repr))
    {
      hide IsHeap, StrictWeak, Push;
      var _ := queue.PushItem(job);
    }

    method FindMax() returns (maxP: int)
      ensures maxP == MaxPriority(queue.Values())
      ensures forall i :: 0 <= i < |queue.items| ==> queue.items[i].value.priority <= maxP
    {
      maxP := 0;
      for i := 0 to |queue.items|
        invariant maxP == MaxPriority(queue.Values()[..i])
        invariant forall k :: 0 <= k < i ==> queue.items[k].value.priority <= maxP
      {
        ghost var vs := queue.Values();
        assert vs[..i + 1][..i] == vs[..i];
        if queue.items[i].value.priority > maxP {
          maxP := queue.items[i].value.priority;
        }
      }
      assert queue.Values()[..|queue.items|] == queue.Values();
    }

    method BoostItem(i: nat, now: int, timeout: int, maxP: int) returns (changed: bool)
      requires Wired() && i < |queue.items| && queue.items[i].value.priority <= maxP
      modifies queue.Repr`value
      ensures Wired() && queue.Values() == old(queue.Values())[i := Boost(old(queue.Values())[i], now, timeout, maxP)]
      ensures changed == Starved(old(queue.Values())[i], now, timeout)
    {
      var item := queue.items[i];
      changed := now - item.value.createdAt > timeout && item.value.priority <= maxP;
      if changed {
        item.value := item.value.(priority := maxP + 1);
      }
      assert forall k :: 0 <= k < |queue.items| && k != i ==> queue.items[k] != item;
    }

    method Boosted(now: int, timeout: int, maxP: int) returns (dirty: bool)
      requires Wired() && forall i :: 0 <= i < |queue.items| ==> queue.items[i].value.priority <= maxP
      modifies queue.Repr`value
      ensures Wired() && queue.Values() == BoostAbove(old(queue.Values()), now, timeout, maxP)
      ensures dirty == AnyStarved(old(queue.Values()), now, timeout)
    {
      ghost var before := queue.Values();
      hide Boost, Starved;
      assert forall i :: 0 <= i < |before| ==> before[i].priority <= maxP;
      dirty := false;
      for i := 0 to |queue.items|
        invariant Wired() && |queue.Values()| == |before|
        invariant forall k :: 0 <= k < i ==> queue.Values()[k] == Boost(before[k], now, timeout, maxP)
        invariant forall k :: i <= k < |before| ==> queue.Values()[k] == before[k]
        invariant dirty ==> AnyStarved(before, now, timeout)
        invariant !dirty ==> forall k :: 0 <= k < i ==> !Starved(before[k], now, timeout)
      {
        assert queue.Values()[i] == before[i];
        var changed := BoostItem(i, now, timeout, maxP);
        dirty := dirty || changed;
      }
    }

    /** applyStarvationAging: boost in place, then rebuild the heap if anything changed. */
    method ApplyStarvationAging(now: int, timeout: int)
      requires Valid()
      modifies queue`items, queue.Repr
      ensures Valid() && queue.Values() == Aged(old(queue.Values()), now, timeout)
    {
      if timeout <= 0 {
        return;
      }
      ghost var before := queue.Values();
      hide Init, MaxPriority, AnyStarved, IsHeap, StrictWeak;
      var maxP := FindMax();
      var dirty := Boosted(now, timeout, maxP);
      if dirty {
        queue.Reheapify();
      } else {
        NothingBoosted(before, now, timeout);
      }
    }

    /** PopNextJobFromQueue: the first queued job that carries no mark; each job dropped on the
        way uses its mark up. */
    method PopNextJob() returns (job: Option<Job>)
      requires Valid()
      modifies this`cancelledJobIDs, queue`items, queue.Repr`index
      ensures Valid() && |queue.items| <= |old(queue.items)|
      ensures job.Some? ==> |queue.items| < |old(queue.items)|
      ensures job.None? ==> queue.items == []
      ensures Rest(job, queue.Values(), cancelledJobIDs) ==
              Survivors(PopAll(JobBefore, old(queue.Values())), old(cancelledJobIDs))
      ensures MarksAfter(PopAll(JobBefore, queue.Values()), cancelledJobIDs) ==
              MarksAfter(PopAll(JobBefore, old(queue.Values())), old(cancelledJobIDs))
      decreases |queue.items|
    {
      hide PopRest, Survivors, MarksAfter, PopAll, IsHeap, StrictWeak;
      ghost var v0, m0 := queue.Values(), cancelledJobIDs;
      if |queue.items| < 1 {
        assert Survivors(PopAll(JobBefore, v0), m0) == [] by {
          NothingLeft(v0, m0);
        }
        return None;
      }
      PopStep(v0, m0);
      job := queue.PopItem();
      assert queue.Values() == PopRest(JobBefore, v0);
      if job.value.id in cancelledJobIDs {
        cancelledJobIDs := cancelledJobIDs - {job.value.id};
        job := PopNextJob();
      }
    }

    /** tryProposeJob. p is the pass so far. */
    method TryProposeJob(env: Env, job: Job, keys: seq<string>, ghost p: Pass)
      returns (out: Outcome, sentTo: Option<string>, ghost q: Pass)
      requires SelectorOk(env) && p.pool == pool && p.picks == picks
      modifies this`pool, this`picks
      ensures q == TryPropose(env, job, keys, p) && q.pool == pool && q.picks == picks
      ensures Ends(p, q, job, out, sentTo)
    {
      q := TryPropose(env, job, keys, p);
      hide Eligible, SelectorOk, Assign;
      sentTo := None;
      if job.taskName !in env.tasks {
        return Failed, None, q;
      }
      if env.registry.Some? && |keys| == 0 {
        return Deferred(false), None, q;
      }
      var workers := EligibleWorkers(pool, keys, job.cost, job.id, env.order(job.id));
      if |workers| == 0 {
        return Deferred(true), None, q;
      }
      ghost var chosen := Selected(env, job, keys, p);
      var w := workers[env.select(picks, ConnsOf(pool, workers))];
      picks := picks + 1;
      var c := pool.workers[w];
      if env.registry.Some? && !env.registry.value.resolves(job.taskName, job.artifactVersion, c.os, c.arch) {
        return Deferred(false), None, q;
      }
      if (job.id, w) in env.sendFails {
        return Deferred(false), None, q;
      }
      sentTo := Some(w);
      if job.id !in env.stored {
        return Deferred(false), sentTo, q;
      }
      match Assign(c, job.id, job.cost) {
        case None =>
          out := Deferred(false);
        case Some(c') =>
          pool := pool.(workers := pool.workers[w := c']);
          out := Dispatched;
      }
    }

    /** The body of the loop of ProcessQueue, up to its bookkeeping. */
    method DispatchJob(env: Env, job: Job, online: set<string>, caches: Caches, ghost p: Pass)
      returns (out: Outcome, sentTo: Option<string>, caches': Caches, ghost q: Pass)
      requires SelectorOk(env) && p.pool == pool && p.picks == picks
      modifies this`pool, this`picks
      ensures (q, caches') == FastStep(env, job, online, caches, p) && q.pool == pool && q.picks == picks
      ensures Ends(p, q, job, out, sentTo)
    {
      hide SelectorOk, TryPropose, Decide;
      var d;
      d, caches' := JobPlatformKeys(env, job, online, caches);
      match d {
        case FailJob =>
          out, sentTo, q := Failed, None, Fail(p, job);
        case DeferJob(shortage) =>
          out, sentTo, q := Deferred(shortage), None, Defer(p, job, shortage);
        case Proceed(keys) =>
          out, sentTo, q := TryProposeJob(env, job, keys, p);
      }
    }

    /** The loop of ProcessQueue: the plain pass over the unmarked jobs in pop order. */
    method Drain(env: Env)
      returns (dispatched: nat, failed: seq<Job>, sent: seq<(Job, string)>, shortage: bool,
               deferred: seq<Job>, ghost p: Pass)
      requires Valid() && SelectorOk(env)
      modifies this, queue`items, queue.Repr`index
      ensures Valid() && queue.Values() == []
      ensures p == PlainPass(env, Survivors(PopAll(JobBefore, old(queue.Values())), old(cancelledJobIDs)),
                             Start(old(pool), old(picks)))
      ensures cancelledJobIDs == MarksAfter(PopAll(JobBefore, old(queue.Values())), old(cancelledJobIDs))
      ensures pool == p.pool && picks == p.picks && dispatched == |p.dispatched| && failed == p.failed
      ensures sent == p.sent && shortage == p.shortage && deferred == p.deferred
    {
      hide SelectorOk, PlainPass, Survivors, PopAll, MarksAfter, OnlineKeys, FastPass, FastStep, IsHeap, StrictWeak;
      ghost var jobs := Survivors(PopAll(JobBefore, queue.Values()), cancelledJobIDs);
      ghost var marks := MarksAfter(PopAll(JobBefore, queue.Values()), cancelledJobIDs);
      var online := OnlinePlatformKeys(pool);
      var caches := Caches(map[], {});
      p := Start(pool, picks);
      FastPassIsPlain(env, jobs, online, caches, p);
      ghost var final := FastPass(env, jobs, online, caches, p);
      dispatched, failed, sent, shortage, deferred := 0, [], [], false, [];
      var job := PopNextJob();
      while job.Some?
        invariant Valid() && (job.None? ==> queue.items == [])
        invariant FastPass(env, Rest(job, queue.Values(), cancelledJobIDs), online, caches, p) == final
        invariant MarksAfter(PopAll(JobBefore, queue.Values()), cancelledJobIDs) == marks
        invariant pool == p.pool && picks == p.picks && dispatched == |p.dispatched| && failed == p.failed
        invariant sent == p.sent && shortage == p.shortage && deferred == p.deferred
        decreases |queue.items| + if job.Some? then 1 else 0
      {
        FastPassNext(env, job.value, Survivors(PopAll(JobBefore, queue.Values()), cancelledJobIDs), online, caches, p);
        var out, sentTo;
        out, sentTo, caches, p := DispatchJob(env, job.value, online, caches, p);
        if sentTo.Some? {
          sent := sent + [(job.value, sentTo.value)];
        }
        match out {
          case Dispatched =>
            dispatched := dispatched + 1;
          case Failed =>
            failed := failed + [job.value];
          case Deferred(s) =>
            shortage := shortage || s;
            deferred := deferred + [job.value];
        }
        job := PopNextJob();
      }
      Emptied(env, online, caches, p, cancelledJobIDs);
    }

    /** The push-back loop at the end of ProcessQueue. */
    method Requeue(deferred: seq<Job>)
      requires Valid() && queue.Values() == []
      modifies queue, queue.Repr
      ensures Valid() && fresh(queue.Repr - old(queue.Repr))
      ensures queue.Values() == PushAll([], deferred)
    {
      hide Push, IsHeap, StrictWeak;
      for i := 0 to |deferred|
        invariant Valid() && fresh(queue.Repr - old(queue.Repr))
        invariant queue.Values() == PushAll([], deferred[..i])
      {
        assert deferred[..i + 1][..i] == deferred[..i];
        var _ := queue.PushItem(deferred[i]);
      }
      assert deferred[..|deferred|] == deferred;
    }

    /** ProcessQueue: does exactly what the plain pass over the aged, unmarked jobs does. */
    method ProcessQueue(env: Env, now: int, timeout: int)
      returns (dispatched: nat, failed: seq<Job>, sent: seq<(Job, string)>, shortage: bool)
      requires Valid() && SelectorOk(env)
      modifies this, queue, queue.Repr
      ensures Valid() && fresh(queue.Repr - old(queue.Repr))
      ensures var start := Start(old(pool), old(picks));
              var r := Process(env, old(queue.Values()), old(cancelledJobIDs), start, now, timeout);
              && queue.Values() == r.queue && cancelledJobIDs == r.marks
              && pool == r.pass.pool && picks == r.pass.picks
              && dispatched == |r.pass.dispatched| && failed == r.pass.failed
              && sent == r.pass.sent && shortage == r.pass.shortage
    {
      hide SelectorOk, IsHeap, StrictWeak, PlainPass, Survivors, PopAll, MarksAfter, PushAll, Aged;
      ApplyStarvationAging(now, timeout);
      ghost var p;
      var deferred;
      dispatched, failed, sent, shortage, deferred, p := Drain(env);
      Requeue(deferred);
    }
  }
}
