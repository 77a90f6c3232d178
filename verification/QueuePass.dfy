/** A dispatch pass from queue to queue: starvation aging, popping with cancellation marks, the
    pass itself, and putting the deferred jobs back. */
module QueuePass {
  import opened Base
  import opened HeapSpec
  import opened WorkerPool
  import opened DispatchSpec
  import opened DispatchGuarantees

  // ---- aging ----

  function MaxPriority(jobs: seq<Job>): (m: int)
    ensures m >= 0
    ensures forall j :: j in jobs ==> j.priority <= m
    ensures m == 0 || exists j :: j in jobs && j.priority == m
  {
    if jobs == [] then 0
    else
      var n := |jobs| - 1;
      var m := MaxPriority(jobs[..n]);
      assert jobs == jobs[..n] + [jobs[n]];
      if jobs[n].priority > m then jobs[n].priority else m
  }

  predicate Starved(job: Job, now: int, timeout: int) {
    now - job.createdAt > timeout
  }

  function Boost(job: Job, now: int, timeout: int, max: int): Job {
    if Starved(job, now, timeout) && job.priority <= max then job.(priority := max + 1) else job
  }

  function BoostAbove(jobs: seq<Job>, now: int, timeout: int, max: int): (r: seq<Job>)
    ensures |r| == |jobs|
    ensures forall i :: 0 <= i < |jobs| ==> r[i] == Boost(jobs[i], now, timeout, max)
  {
    seq(|jobs|, i requires 0 <= i < |jobs| => Boost(jobs[i], now, timeout, max))
  }

  function BoostAll(jobs: seq<Job>, now: int, timeout: int): (r: seq<Job>)
    ensures |r| == |jobs|
    ensures forall i :: 0 <= i < |jobs| ==> r[i] == Boost(jobs[i], now, timeout, MaxPriority(jobs))
  {
    BoostAbove(jobs, now, timeout, MaxPriority(jobs))
  }

  predicate AnyStarved(jobs: seq<Job>, now: int, timeout: int) {
    exists i :: 0 <= i < |jobs| && Starved(jobs[i], now, timeout)
  }

  /** applyStarvationAging on the queue's slice. */
  function Aged(queue: seq<Job>, now: int, timeout: int): seq<Job> {
    if timeout <= 0 || !AnyStarved(queue, now, timeout) then queue
    else Init(JobBefore, BoostAll(queue, now, timeout))
  }

  /** The queue's jobs with their priorities after aging. */
  function AgedJobs(queue: seq<Job>, now: int, timeout: int): seq<Job> {
    if timeout <= 0 then queue else BoostAll(queue, now, timeout)
  }

  lemma AgedKeepsHeap(queue: seq<Job>, now: int, timeout: int)
    requires IsHeap(JobBefore, queue)
    ensures IsHeap(JobBefore, Aged(queue, now, timeout))
    ensures multiset(Aged(queue, now, timeout)) == multiset(AgedJobs(queue, now, timeout))
  {
    JobBeforeIsStrictWeak();
    if timeout > 0 {
      if AnyStarved(queue, now, timeout) {
        InitBuilds(JobBefore, BoostAll(queue, now, timeout));
      } else {
        assert BoostAll(queue, now, timeout) == queue;
      }
    }
  }

  /** In which order a queue is emptied after aging. */
  function PopOrder(queue: seq<Job>, now: int, timeout: int): seq<Job> {
    PopAll(JobBefore, Aged(queue, now, timeout))
  }

  lemma PopOrderSorts(queue: seq<Job>, now: int, timeout: int)
    requires IsHeap(JobBefore, queue)
    ensures InOrder(JobBefore, PopOrder(queue, now, timeout))
    ensures multiset(PopOrder(queue, now, timeout)) == multiset(AgedJobs(queue, now, timeout))
    ensures var out := PopOrder(queue, now, timeout);
            forall i, j :: 0 <= i < j < |out| ==>
              out[i].priority > out[j].priority
              || (out[i].priority == out[j].priority && out[i].createdAt <= out[j].createdAt)
  {
    JobBeforeIsStrictWeak();
    AgedKeepsHeap(queue, now, timeout);
    hide StrictWeak, IsHeap, Aged;
    PopAllSorts(JobBefore, Aged(queue, now, timeout));
  }

  /** Aging changes priorities only: one above all others for a job that has waited for longer than
      the timeout, the same as before for any other. */
  lemma AgedExactly(queue: seq<Job>, now: int, timeout: int, i: nat)
    requires i < |queue|
    ensures |AgedJobs(queue, now, timeout)| == |queue|
    ensures var q, a := queue[i], AgedJobs(queue, now, timeout)[i];
            && a == q.(priority := a.priority)
            && (timeout > 0 && now - q.createdAt > timeout ==>
                  a.priority > 0 && (forall j :: j in queue ==> j.priority < a.priority)
                  && (a.priority == 1 || exists j :: j in queue && j.priority == a.priority - 1))
            && (timeout <= 0 || now - q.createdAt <= timeout ==> a.priority == q.priority)
  {
    assert queue[i] in queue;
  }

  lemma AgedJobPriority(queue: seq<Job>, now: int, timeout: int, job: Job)
    requires timeout > 0 && job in AgedJobs(queue, now, timeout)
    ensures now - job.createdAt > timeout ==> job.priority == MaxPriority(queue) + 1
    ensures now - job.createdAt <= timeout ==> job in queue && job.priority <= MaxPriority(queue)
  {
    var b := BoostAll(queue, now, timeout);
    var i :| 0 <= i < |b| && b[i] == job;
    assert queue[i] in queue;
  }

  /** After aging, every job that waited for longer than the timeout comes out before every other one,
      oldest first; the others are the original jobs, higher priority first, then the older ones. */
  lemma AgingOrder(queue: seq<Job>, now: int, timeout: int, i: nat, j: nat)
    requires IsHeap(JobBefore, queue) && timeout > 0
    requires i < j < |PopOrder(queue, now, timeout)|
    ensures var out := PopOrder(queue, now, timeout);
            && (now - out[j].createdAt > timeout ==>
                  now - out[i].createdAt > timeout && out[i].createdAt <= out[j].createdAt)
            && (now - out[i].createdAt <= timeout ==>
                  && out[i] in queue && out[j] in queue && now - out[j].createdAt <= timeout
                  && (out[i].priority > out[j].priority
                      || (out[i].priority == out[j].priority && out[i].createdAt <= out[j].createdAt)))
  {
    var out := PopOrder(queue, now, timeout);
    PopOrderSorts(queue, now, timeout);
    assert !JobBefore(out[j], out[i]);
    hide IsHeap, InOrder, PopOrder;
    assert out[i] in multiset(out) && out[j] in multiset(out);
    AgedJobPriority(queue, now, timeout, out[i]);
    AgedJobPriority(queue, now, timeout, out[j]);
  }

  // ---- cancellation marks ----

  /** The jobs PopNextJobFromQueue hands out, popping in the given order. */
  function Survivors(order: seq<Job>, marks: set<string>): (js: seq<Job>)
    ensures |js| <= |order|
  {
    if order == [] then []
    else if order[0].id in marks then Survivors(order[1..], marks - {order[0].id})
    else [order[0]] + Survivors(order[1..], marks)
  }

  function Discarded(order: seq<Job>, marks: set<string>): seq<Job> {
    if order == [] then []
    else if order[0].id in marks then [order[0]] + Discarded(order[1..], marks - {order[0].id})
    else Discarded(order[1..], marks)
  }

  function MarksAfter(order: seq<Job>, marks: set<string>): set<string> {
    if order == [] then marks
    else if order[0].id in marks then MarksAfter(order[1..], marks - {order[0].id})
    else MarksAfter(order[1..], marks)
  }

  lemma {:induction false} PoppedIsKeptOrDiscarded(order: seq<Job>, marks: set<string>)
    ensures multiset(order) == multiset(Survivors(order, marks)) + multiset(Discarded(order, marks))
    decreases |order|
  {
    if order != [] {
      PoppedIsKeptOrDiscarded(order[1..], if order[0].id in marks then marks - {order[0].id} else marks);
      assert order == [order[0]] + order[1..];
    }
  }

  lemma UniqueTail(order: seq<Job>)
    requires UniqueIds(order) && order != []
    ensures UniqueIds(order[1..])
    ensures forall j :: j in order[1..] ==> j.id != order[0].id
  {
    var t := order[1..];
    assert forall i :: 0 <= i < |t| ==> t[i] == order[i + 1];
  }

  function IdsOf(jobs: seq<Job>): set<string> {
    set j | j in jobs :: j.id
  }

  lemma {:induction false} SubsetOfOrder(order: seq<Job>, marks: set<string>)
    ensures forall j :: j in Survivors(order, marks) ==> j in order
    ensures forall j :: j in Discarded(order, marks) ==> j in order
    decreases |order|
  {
    if order != [] {
      SubsetOfOrder(order[1..], if order[0].id in marks then marks - {order[0].id} else marks);
    }
  }

  /** With unique identifiers a mark removes the one job it names and is used up by it. */
  lemma {:induction false} MarksAreExact(order: seq<Job>, marks: set<string>)
    requires UniqueIds(order)
    ensures forall j :: j in order ==> (j in Discarded(order, marks) <==> j.id in marks)
    ensures forall j :: j in order ==> (j in Survivors(order, marks) <==> j.id !in marks)
    ensures MarksAfter(order, marks) == marks - IdsOf(order)
    decreases |order|
  {
    if order != [] {
      var h, t := order[0], order[1..];
      UniqueTail(order);
      hide UniqueIds;
      var m := if h.id in marks then marks - {h.id} else marks;
      assert order == [h] + t;
      MarksAreExact(t, m);
      SubsetOfOrder(t, m);
      assert IdsOf(order) == {h.id} + IdsOf(t);
    }
  }

  lemma {:induction false} SurvivorsInOrder(order: seq<Job>, marks: set<string>)
    requires InOrder(JobBefore, order)
    ensures InOrder(JobBefore, Survivors(order, marks))
    decreases |order|
  {
    if order != [] {
      var t := order[1..];
      assert forall i :: 0 <= i < |t| ==> t[i] == order[i + 1];
      if order[0].id in marks {
        SurvivorsInOrder(t, marks - {order[0].id});
      } else {
        SurvivorsInOrder(t, marks);
        SubsetOfOrder(t, marks);
        var r := Survivors(t, marks);
        forall j | 0 <= j < |r| ensures !JobBefore(r[j], order[0]) {
          assert r[j] in t;
        }
        ConsInOrder(JobBefore, order[0], r);
      }
    }
  }

  // ---- the whole pass ----

  function PushAll(queue: seq<Job>, jobs: seq<Job>): seq<Job> {
    if jobs == [] then queue
    else Push(JobBefore, PushAll(queue, jobs[..|jobs| - 1]), jobs[|jobs| - 1])
  }

  lemma {:induction false} PushAllKeepsHeap(queue: seq<Job>, jobs: seq<Job>)
    requires IsHeap(JobBefore, queue)
    ensures IsHeap(JobBefore, PushAll(queue, jobs))
    ensures multiset(PushAll(queue, jobs)) == multiset(queue) + multiset(jobs)
    decreases |jobs|
  {
    if jobs != [] {
      var n := |jobs| - 1;
      PushAllKeepsHeap(queue, jobs[..n]);
      JobBeforeIsStrictWeak();
      hide IsHeap, StrictWeak, Push;
      PushKeepsHeap(JobBefore, PushAll(queue, jobs[..n]), jobs[n]);
      SplitLast(jobs);
      assert multiset(jobs) == multiset(jobs[..n]) + multiset{jobs[n]};
    }
  }

  datatype Result = Result(queue: seq<Job>, marks: set<string>, pass: Pass)

  function Tried(queue: seq<Job>, marks: set<string>, now: int, timeout: int): seq<Job> {
    Survivors(PopOrder(queue, now, timeout), marks)
  }

  /** ProcessQueue without its caches. */
  function Process(env: Env, queue: seq<Job>, marks: set<string>, start: Pass, now: int, timeout: int): Result
    requires SelectorOk(env)
  {
    var p := PlainPass(env, Tried(queue, marks, now, timeout), start);
    Result(PushAll([], p.deferred), MarksAfter(PopOrder(queue, now, timeout), marks), p)
  }

  lemma EmptyIsHeap()
    ensures IsHeap(JobBefore, [])
  {
  }

  lemma TriedConserves(env: Env, jobs: seq<Job>, start: Pass)
    requires SelectorOk(env) && start.dispatched == [] && start.failed == [] && start.deferred == []
    ensures var p := PlainPass(env, jobs, start);
            && IsHeap(JobBefore, PushAll([], p.deferred))
            && multiset(jobs) == multiset(JobsOf(p.dispatched)) + multiset(p.failed) + multiset(PushAll([], p.deferred))
  {
    hide SelectorOk, PlainPass, PushAll, IsHeap;
    var p := PlainPass(env, jobs, start);
    var none: seq<Job> := [];
    assert IsHeap(JobBefore, none) by {
      EmptyIsHeap();
    }
    PassConserves(env, jobs, start);
    PushAllKeepsHeap(none, p.deferred);
    assert JobsOf(start.dispatched) == none && multiset(none) == multiset{};
    assert Accounted(p) == multiset(jobs);
    assert multiset(PushAll(none, p.deferred)) == multiset(p.deferred);
  }

  /** Conservation: the queue before the pass, with aged priorities, is split between dispatched,
      failed, discarded by a mark, and the queue after the pass, which is a heap again. */
  lemma ProcessConserves(env: Env, queue: seq<Job>, marks: set<string>, pool: Pool, picks: nat, now: int, timeout: int)
    requires SelectorOk(env) && IsHeap(JobBefore, queue)
    ensures var r := Process(env, queue, marks, Start(pool, picks), now, timeout);
            && IsHeap(JobBefore, r.queue)
            && multiset(AgedJobs(queue, now, timeout)) ==
                 multiset(JobsOf(r.pass.dispatched)) + multiset(r.pass.failed)
                 + multiset(Discarded(PopOrder(queue, now, timeout), marks)) + multiset(r.queue)
  {
    var order := PopOrder(queue, now, timeout);
    PopOrderSorts(queue, now, timeout);
    PoppedIsKeptOrDiscarded(order, marks);
    hide SelectorOk, IsHeap, InOrder, PlainPass, PushAll, PopOrder, Survivors, Discarded, AgedJobs, JobsOf;
    TriedConserves(env, Survivors(order, marks), Start(pool, picks));
  }

  /** No priority inversion in terms of the comparator: while a worker w is given a job, no job
      that precedes it and stays queued could have run on w. */
  lemma HigherPriorityFirst(env: Env, queue: seq<Job>, marks: set<string>, start: Pass, now: int, timeout: int,
                            i: nat, j: nat, w: string)
    requires SelectorOk(env) && IsHeap(JobBefore, queue)
    requires var jobs := Tried(queue, marks, now, timeout);
             && i < |jobs| && j < |jobs|
             && (jobs[i].priority > jobs[j].priority
                 || (jobs[i].priority == jobs[j].priority && jobs[i].createdAt < jobs[j].createdAt))
             && CleanPass(env, start.pool, jobs)
             && DeferredAt(Before(env, jobs, start, i), Before(env, jobs, start, i + 1), jobs[i])
             && DispatchedAt(Before(env, jobs, start, j), Before(env, jobs, start, j + 1), jobs[j], w)
    ensures var jobs := Tried(queue, marks, now, timeout);
            i < j && !CanTake(env, Before(env, jobs, start, j).pool, jobs[i], w)
  {
    var jobs := Tried(queue, marks, now, timeout);
    PopOrderSorts(queue, now, timeout);
    SurvivorsInOrder(PopOrder(queue, now, timeout), marks);
    hide SelectorOk, IsHeap, InOrder, Tried, CleanPass, DeferredAt, DispatchedAt, Before, CanTake;
    NoPriorityInversion(env, jobs, start, i, j, w);
  }

  /** After the pass no job in the queue has a worker that could run it. */
  lemma NothingRunnableLeft(env: Env, queue: seq<Job>, marks: set<string>, pool: Pool, picks: nat,
                            now: int, timeout: int, job: Job, w: string)
    requires SelectorOk(env) && CleanPass(env, pool, Tried(queue, marks, now, timeout))
    requires job in Process(env, queue, marks, Start(pool, picks), now, timeout).queue
    ensures !CanTake(env, Process(env, queue, marks, Start(pool, picks), now, timeout).pass.pool, job, w)
  {
    var jobs := Tried(queue, marks, now, timeout);
    hide SelectorOk, CleanPass, CanTake, PlainPass, PushAll, Tried;
    var p := PlainPass(env, jobs, Start(pool, picks));
    EmptyIsHeap();
    hide IsHeap;
    PushAllKeepsHeap([], p.deferred);
    assert job in multiset(PushAll([], p.deferred));
    NoEligibleJobLeft(env, jobs, Start(pool, picks), job, w);
  }

  /** The jobs a pass fails are exactly the tried ones of unknown tasks. */
  lemma FailsUnknownExactly(env: Env, queue: seq<Job>, marks: set<string>, pool: Pool, picks: nat,
                            now: int, timeout: int)
    requires SelectorOk(env)
    ensures Process(env, queue, marks, Start(pool, picks), now, timeout).pass.failed
            == UnknownOf(env, Tried(queue, marks, now, timeout))
  {
    var jobs := Tried(queue, marks, now, timeout);
    hide SelectorOk, PlainPass, Tried, UnknownOf;
    PassFailsUnknown(env, jobs, Start(pool, picks));
    assert [] + UnknownOf(env, jobs) == UnknownOf(env, jobs);
  }

  /** A pass reports a shortage exactly if some tried job lacked a worker when it was its turn. */
  lemma ShortageExactly(env: Env, queue: seq<Job>, marks: set<string>, pool: Pool, picks: nat, now: int, timeout: int)
    requires SelectorOk(env) && forall j :: j in Tried(queue, marks, now, timeout) ==> PoolOk(env, pool, j)
    ensures var jobs, start := Tried(queue, marks, now, timeout), Start(pool, picks);
            Process(env, queue, marks, start, now, timeout).pass.shortage <==>
            exists i :: 0 <= i < |jobs| && LacksWorker(env, Before(env, jobs, start, i).pool, jobs[i])
  {
    hide SelectorOk, PlainPass, Tried, PoolOk, LacksWorker;
    PassShortageIff(env, Tried(queue, marks, now, timeout), Start(pool, picks));
  }

  lemma TriedIsAged(queue: seq<Job>, marks: set<string>, now: int, timeout: int, job: Job)
    requires IsHeap(JobBefore, queue) && job in Tried(queue, marks, now, timeout)
    ensures job in AgedJobs(queue, now, timeout)
  {
    PopOrderSorts(queue, now, timeout);
    SubsetOfOrder(PopOrder(queue, now, timeout), marks);
    hide IsHeap, InOrder, PopOrder, AgedJobs, Survivors, Discarded;
    assert job in multiset(PopOrder(queue, now, timeout));
  }

  lemma FirstIsServed(env: Env, job: Job, p: Pass, w: string)
    requires SelectorOk(env) && PoolOk(env, p.pool, job) && NoErrors(env, p.pool, job)
    requires job.cost >= 1 && CanTake(env, p.pool, job, w)
    ensures exists v :: DispatchedAt(p, PlainStep(env, job, p), job, v)
  {
    CanTakeIsCandidate(env, p.pool, job, w);
    hide SelectorOk, PoolOk, NoErrors, PlainStep, DispatchedAt, Candidates;
    CandidateIsDispatched(env, job, p);
  }

  /** Starvation freedom of one pass: if a job that is tried has waited too long, the first one
      tried is the one that has waited longest, and any worker able to run it gets it run. */
  lemma LongestStarvedIsServed(env: Env, queue: seq<Job>, marks: set<string>, pool: Pool, picks: nat,
                               now: int, timeout: int, i: nat, w: string)
    requires SelectorOk(env) && IsHeap(JobBefore, queue) && timeout > 0
    requires var jobs := Tried(queue, marks, now, timeout);
             i < |jobs| && now - jobs[i].createdAt > timeout && CleanPass(env, pool, jobs)
    ensures var jobs := Tried(queue, marks, now, timeout);
            && now - jobs[0].createdAt > timeout && jobs[0].createdAt <= jobs[i].createdAt
            && (CanTake(env, pool, jobs[0], w) ==>
                  exists v :: DispatchedAt(Start(pool, picks), PlainStep(env, jobs[0], Start(pool, picks)), jobs[0], v))
  {
    var jobs := Tried(queue, marks, now, timeout);
    PopOrderSorts(queue, now, timeout);
    SurvivorsInOrder(PopOrder(queue, now, timeout), marks);
    assert i > 0 ==> !JobBefore(jobs[i], jobs[0]);
    assert jobs[0] in jobs && jobs[i] in jobs;
    TriedIsAged(queue, marks, now, timeout, jobs[0]);
    TriedIsAged(queue, marks, now, timeout, jobs[i]);
    hide IsHeap, InOrder, Tried, PlainStep;
    AgedJobPriority(queue, now, timeout, jobs[0]);
    AgedJobPriority(queue, now, timeout, jobs[i]);
    if CanTake(env, pool, jobs[0], w) {
      FirstIsServed(env, jobs[0], Start(pool, picks), w);
    }
  }
}
