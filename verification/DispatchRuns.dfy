/** The manager over whole runs: jobs are enqueued and cancelled, passes dispatch them, and workers
    give them back. No job is ever in two places, and the capacity books stay balanced. */
module DispatchRuns {
  import opened Base
  import opened HeapSpec
  import opened WorkerPool
  import opened DispatchSpec
  import opened DispatchGuarantees
  import opened QueuePass
  import opened Accounting

  // ---- unique identifiers do not depend on the order ----

  function IdCount(jobs: seq<Job>, id: string): nat {
    if jobs == [] then 0
    else IdCount(jobs[..|jobs| - 1], id) + if jobs[|jobs| - 1].id == id then 1 else 0
  }

  lemma {:induction false} CountConcat(a: seq<Job>, b: seq<Job>, id: string)
    ensures IdCount(a + b, id) == IdCount(a, id) + IdCount(b, id)
    decreases |b|
  {
    if b == [] {
      assert a + b == a;
    } else {
      var n := |b| - 1;
      CountConcat(a, b[..n], id);
      assert (a + b)[..|a + b| - 1] == a + b[..n];
    }
  }

  lemma CountWithout(jobs: seq<Job>, i: nat, id: string)
    requires i < |jobs|
    ensures IdCount(jobs, id) == IdCount(jobs[..i] + jobs[i + 1..], id) + if jobs[i].id == id then 1 else 0
  {
    var one := [jobs[i]];
    assert jobs == jobs[..i] + one + jobs[i + 1..];
    CountConcat(jobs[..i] + one, jobs[i + 1..], id);
    CountConcat(jobs[..i], one, id);
    CountConcat(jobs[..i], jobs[i + 1..], id);
    assert one[..0] == [] && IdCount(one, id) == if jobs[i].id == id then 1 else 0;
  }

  lemma RemoveOne(jobs: seq<Job>, i: nat)
    requires i < |jobs|
    ensures multiset(jobs) == multiset(jobs[..i] + jobs[i + 1..]) + multiset{jobs[i]}
  {
    assert jobs == jobs[..i] + [jobs[i]] + jobs[i + 1..];
  }

  lemma CancelOne(a: multiset<Job>, b: multiset<Job>, j: Job)
    requires a + multiset{j} == b + multiset{j}
    ensures a == b
  {
    assert a == a + multiset{j} - multiset{j};
    assert b == b + multiset{j} - multiset{j};
  }

  lemma {:induction false} CountPermuted(a: seq<Job>, b: seq<Job>, id: string)
    requires multiset(a) == multiset(b)
    ensures IdCount(a, id) == IdCount(b, id)
    decreases |a|
  {
    if a == [] {
      assert |multiset(b)| == 0;
    } else {
      var n := |a| - 1;
      assert a[n] in multiset(a);
      var i :| 0 <= i < |b| && b[i] == a[n];
      var rest := b[..i] + b[i + 1..];
      RemoveOne(b, i);
      RemoveOne(a, n);
      assert a[..n] + a[n + 1..] == a[..n];
      CancelOne(multiset(a[..n]), multiset(rest), a[n]);
      CountPermuted(a[..n], rest, id);
      CountWithout(b, i, id);
    }
  }

  lemma CountTwice(jobs: seq<Job>, i: nat, j: nat)
    requires i < j < |jobs| && jobs[i].id == jobs[j].id
    ensures IdCount(jobs, jobs[i].id) >= 2
  {
    var id := jobs[i].id;
    CountWithout(jobs, j, id);
    var rest := jobs[..j] + jobs[j + 1..];
    assert rest[i] == jobs[i];
    CountWithout(rest, i, id);
  }

  lemma {:induction false} CountUnique(jobs: seq<Job>, id: string)
    requires UniqueIds(jobs)
    ensures IdCount(jobs, id) <= 1
    ensures IdCount(jobs, id) == 1 ==> exists i :: 0 <= i < |jobs| && jobs[i].id == id
    decreases |jobs|
  {
    if jobs != [] {
      var n := |jobs| - 1;
      CountUnique(jobs[..n], id);
      assert IdCount(jobs[..n], id) == 1 ==> exists i :: 0 <= i < n && jobs[..n][i].id == id && jobs[i].id == id;
    }
  }

  lemma UniquePermuted(a: seq<Job>, b: seq<Job>)
    requires UniqueIds(a) && multiset(a) == multiset(b)
    ensures UniqueIds(b)
  {
    forall i, j | 0 <= i < j < |b| ensures b[i].id != b[j].id {
      CountUnique(a, b[i].id);
      CountPermuted(a, b, b[i].id);
      if b[i].id == b[j].id {
        CountTwice(b, i, j);
      }
    }
  }

  lemma MembersPermuted(a: seq<Job>, b: seq<Job>, j: Job)
    requires multiset(a) == multiset(b)
    ensures j in a <==> j in b
  {
    assert j in a <==> j in multiset(a);
    assert j in b <==> j in multiset(b);
  }

  // ---- along one pass ----

  /** No job is held by two workers. */
  predicate Exclusive(books: Books) {
    forall v, w, id :: v in books && w in books && id in books[v] && id in books[w] ==> v == w
  }

  predicate AllUnheld(books: Books, jobs: seq<Job>) {
    forall j :: j in jobs ==> Unheld(books, j.id)
  }

  /** Somewhere in a pass: the jobs still to be tried and those deferred so far have different
      identifiers and are held by nobody, and the books are balanced. */
  ghost predicate PassOk(books: Books, p: Pass, jobs: seq<Job>) {
    var b := Enter(books, p.dispatched);
    Balanced(p.pool, b) && Exclusive(b) && UniqueIds(p.deferred + jobs) && AllUnheld(b, p.deferred + jobs)
  }

  lemma DropAt(a: seq<Job>, job: Job, b: seq<Job>, i: nat)
    requires i < |a + b|
    ensures (a + b)[i] == (a + ([job] + b))[if i < |a| then i else i + 1]
  {
  }

  lemma UniqueWithout(s: seq<Job>, t: seq<Job>, n: nat)
    requires UniqueIds(s) && n < |s| == |t| + 1
    requires forall i :: 0 <= i < |t| ==> t[i] == s[if i < n then i else i + 1]
    ensures UniqueIds(t) && forall j :: j in t ==> j in s && j.id != s[n].id
  {
    forall j | j in t ensures j in s && j.id != s[n].id {
      var i :| 0 <= i < |t| && t[i] == j;
      assert s[if i < n then i else i + 1] == j;
    }
    forall i, j | 0 <= i < j < |t| ensures t[i].id != t[j].id {
      assert s[if i < n then i else i + 1].id != s[if j < n then j else j + 1].id;
    }
  }

  lemma DropOne(a: seq<Job>, job: Job, b: seq<Job>)
    requires UniqueIds(a + ([job] + b))
    ensures UniqueIds(a + b)
    ensures forall j :: j in a + b ==> j in a + ([job] + b) && j.id != job.id
  {
    var s, t, n := a + ([job] + b), a + b, |a|;
    assert s[n] == job && |s| == |t| + 1;
    forall i | 0 <= i < |t| ensures t[i] == s[if i < n then i else i + 1] {
      DropAt(a, job, b, i);
    }
    UniqueWithout(s, t, n);
  }

  lemma TakenIsExclusive(b: Books, job: Job, w: string)
    requires Exclusive(b) && w in b && Unheld(b, job.id)
    ensures Exclusive(b[w := b[w][job.id := job.cost]])
    ensures forall x :: x != job.id && Unheld(b, x) ==> Unheld(b[w := b[w][job.id := job.cost]], x)
  {
  }

  lemma DispatchedIsOnTheBooks(pool: Pool, b: Books, w: string)
    requires Balanced(pool, b) && w in pool.workers
    ensures w in b
  {
  }

  lemma StepKeepsPassOk(env: Env, job: Job, rest: seq<Job>, p: Pass, books: Books)
    requires SelectorOk(env) && PassOk(books, p, [job] + rest)
    ensures PassOk(books, PlainStep(env, job, p), rest)
  {
    var b := Enter(books, p.dispatched);
    var q := PlainStep(env, job, p);
    assert job in p.deferred + ([job] + rest);
    StepBalances(env, job, p, books);
    DropOne(p.deferred, job, rest);
    StepEnds(env, job, p);
    Assoc(p.deferred, [job], rest);
    hide SelectorOk, PlainStep, Balanced, Enter, UniqueIds, Unheld, Exclusive;
    if w :| DispatchedAt(p, q, job, w) {
      DispatchedIsOnTheBooks(p.pool, b, w);
      TakenIsExclusive(b, job, w);
      EnterPush(books, p.dispatched, job, w);
    }
  }

  lemma {:induction false} PassKeepsPassOk(env: Env, jobs: seq<Job>, p: Pass, books: Books)
    requires SelectorOk(env) && PassOk(books, p, jobs)
    ensures PassOk(books, PlainPass(env, jobs, p), [])
    decreases |jobs|
  {
    hide SelectorOk, PassOk, PlainStep;
    if jobs != [] {
      assert jobs == [jobs[0]] + jobs[1..];
      StepKeepsPassOk(env, jobs[0], jobs[1..], p, books);
      PassKeepsPassOk(env, jobs[1..], PlainStep(env, jobs[0], p), books);
    }
  }

  // ---- whole runs ----

  /** What became of jobs: enqueued, failed by a pass, discarded by a mark, given back. */
  datatype History = History(entered: seq<Job>, failed: seq<Job>, discarded: seq<Job>, returned: multiset<string>)

  datatype Manager = Manager(
    queue: seq<Job>, marks: set<string>, pool: Pool, picks: nat, books: Books, past: History)

  datatype Event =
    | Enqueue(job: Job)
    | Cancel(id: string)
    | DispatchRun(env: Env, now: int, timeout: int)
    | GiveBack(worker: string, id: string, cost: int, at: int)

  /** A job enters the queue only while it is nowhere, and is given back by its holder at its own
      cost. */
  ghost predicate Allowed(m: Manager, e: Event) {
    match e
    case Enqueue(job) => Unheld(m.books, job.id) && forall j :: j in m.queue ==> j.id != job.id
    case Cancel(_) => true
    case DispatchRun(env, _, _) => SelectorOk(env)
    case GiveBack(w, id, cost, _) => w in m.books && w in m.pool.workers && id in m.books[w] && m.books[w][id] == cost
  }

  ghost function Next(m: Manager, e: Event): Manager
    requires Allowed(m, e)
  {
    match e
    case Enqueue(job) =>
      m.(queue := Push(JobBefore, m.queue, job), past := m.past.(entered := m.past.entered + [job]))
    case Cancel(id) => m.(marks := m.marks + {id})
    case DispatchRun(env, now, timeout) =>
      var r := Process(env, m.queue, m.marks, Start(m.pool, m.picks), now, timeout);
      Manager(r.queue, r.marks, r.pass.pool, r.pass.picks, Enter(m.books, r.pass.dispatched),
              m.past.(failed := m.past.failed + r.pass.failed,
                      discarded := m.past.discarded + Discarded(PopOrder(m.queue, now, timeout), m.marks)))
    case GiveBack(w, id, cost, at) =>
      m.(pool := m.pool.(workers := m.pool.workers[w := Complete(m.pool.workers[w], id, cost, at)]),
         books := m.books[w := m.books[w] - {id}],
         past := m.past.(returned := m.past.returned + multiset{id}))
  }

  /** Every job is in the queue once, or with one worker, or neither; the queue is a heap and the
      books are balanced. */
  ghost predicate Inv(m: Manager) {
    && IsHeap(JobBefore, m.queue) && UniqueIds(m.queue) && AllUnheld(m.books, m.queue)
    && Balanced(m.pool, m.books) && Exclusive(m.books)
  }

  lemma {:induction false} SurvivorsUnique(order: seq<Job>, marks: set<string>)
    requires UniqueIds(order)
    ensures UniqueIds(Survivors(order, marks))
    decreases |order|
  {
    if order != [] {
      var t := order[1..];
      UniqueTail(order);
      if order[0].id in marks {
        SurvivorsUnique(t, marks - {order[0].id});
      } else {
        SurvivorsUnique(t, marks);
        SubsetOfOrder(t, marks);
        var r := Survivors(t, marks);
        forall j | 0 <= j < |r| ensures r[j].id != order[0].id {
          assert r[j] in t;
        }
      }
    }
  }

  lemma TriedOk(queue: seq<Job>, marks: set<string>, now: int, timeout: int, books: Books)
    requires IsHeap(JobBefore, queue) && UniqueIds(queue) && AllUnheld(books, queue)
    ensures UniqueIds(Tried(queue, marks, now, timeout)) && AllUnheld(books, Tried(queue, marks, now, timeout))
  {
    var aged, order := AgedJobs(queue, now, timeout), PopOrder(queue, now, timeout);
    assert |aged| == |queue| && forall i :: 0 <= i < |queue| ==> aged[i].id == queue[i].id;
    assert UniqueIds(aged);
    forall j | j in aged ensures Unheld(books, j.id) {
      var i :| 0 <= i < |aged| && aged[i] == j;
      assert queue[i] in queue;
    }
    PopOrderSorts(queue, now, timeout);
    hide IsHeap, InOrder, PopOrder, AgedJobs, Unheld;
    UniquePermuted(aged, order);
    SurvivorsUnique(order, marks);
    SubsetOfOrder(order, marks);
    forall j | j in Survivors(order, marks) ensures Unheld(books, j.id) {
      MembersPermuted(aged, order, j);
    }
  }

  lemma DispatchRunKeepsInv(m: Manager, env: Env, now: int, timeout: int)
    requires Inv(m) && SelectorOk(env)
    ensures Inv(Next(m, DispatchRun(env, now, timeout)))
  {
    var jobs, start := Tried(m.queue, m.marks, now, timeout), Start(m.pool, m.picks);
    TriedOk(m.queue, m.marks, now, timeout, m.books);
    assert start.deferred + jobs == jobs && Enter(m.books, start.dispatched) == m.books;
    EmptyIsHeap();
    hide IsHeap, SelectorOk, UniqueIds, Unheld, Exclusive, Balanced, Tried, PlainPass, PopOrder, PushAll, Enter;
    PassKeepsPassOk(env, jobs, start, m.books);
    var p := PlainPass(env, jobs, start);
    assert p.deferred + [] == p.deferred;
    PushAllKeepsHeap([], p.deferred);
    var q := PushAll([], p.deferred);
    assert multiset(p.deferred) == multiset(q);
    UniquePermuted(p.deferred, q);
    forall j | j in q ensures Unheld(Enter(m.books, p.dispatched), j.id) {
      MembersPermuted(p.deferred, q, j);
    }
  }

  lemma EnqueueKeepsInv(m: Manager, job: Job)
    requires Inv(m) && Allowed(m, Enqueue(job))
    ensures Inv(Next(m, Enqueue(job)))
  {
    JobBeforeIsStrictWeak();
    var with := m.queue + [job];
    assert UniqueIds(with);
    PushKeepsHeap(JobBefore, m.queue, job);
    hide IsHeap, StrictWeak, UniqueIds, Unheld, Exclusive, Balanced, Push;
    var q := Push(JobBefore, m.queue, job);
    assert multiset(with) == multiset(q);
    UniquePermuted(with, q);
    forall j | j in q ensures Unheld(m.books, j.id) {
      MembersPermuted(with, q, j);
    }
  }

  /** A job given back is with no worker any more, and the clamp at zero does not fire. */
  lemma GiveBackKeepsInv(m: Manager, w: string, id: string, cost: int, at: int)
    requires Inv(m) && Allowed(m, GiveBack(w, id, cost, at))
    ensures Inv(Next(m, GiveBack(w, id, cost, at)))
    ensures Unheld(Next(m, GiveBack(w, id, cost, at)).books, id)
    ensures m.pool.workers[w].occupiedCost - cost >= 0
  {
    RestoreBalances(m.pool, m.books, w, id, cost, at);
    hide IsHeap, UniqueIds, Balanced;
  }

  lemma NextKeepsInv(m: Manager, e: Event)
    requires Inv(m) && Allowed(m, e)
    ensures Inv(Next(m, e))
  {
    match e
    case Enqueue(job) => { hide Inv, Next; EnqueueKeepsInv(m, job); }
    case Cancel(_) => {}
    case DispatchRun(env, now, timeout) => { hide Inv, Next; DispatchRunKeepsInv(m, env, now, timeout); }
    case GiveBack(w, id, cost, at) => { hide Inv, Next; GiveBackKeepsInv(m, w, id, cost, at); }
  }

  ghost predicate AllowedRun(m: Manager, es: seq<Event>)
    decreases |es|
  {
    es == [] || (Allowed(m, es[0]) && AllowedRun(Next(m, es[0]), es[1..]))
  }

  ghost function RunOf(m: Manager, es: seq<Event>): Manager
    requires AllowedRun(m, es)
    decreases |es|
  {
    if es == [] then m else RunOf(Next(m, es[0]), es[1..])
  }

  lemma {:induction false} RunKeepsInv(m: Manager, es: seq<Event>)
    requires Inv(m) && AllowedRun(m, es)
    ensures Inv(RunOf(m, es))
    decreases |es|
  {
    hide Inv, Allowed, Next;
    if es != [] {
      NextKeepsInv(m, es[0]);
      RunKeepsInv(Next(m, es[0]), es[1..]);
    }
  }

  /** Over every run of enqueues, cancellations, passes and restores, a job is queued at most once,
      never both queued and in flight, never in flight on two workers, and each worker's occupied
      cost is that of its jobs in flight, between zero and its capacity. */
  lemma NoJobInTwoPlaces(m: Manager, es: seq<Event>, job: Job, v: string, w: string)
    requires Inv(m) && AllowedRun(m, es)
    requires v in RunOf(m, es).pool.workers && w in RunOf(m, es).pool.workers
    ensures var n := RunOf(m, es);
            && UniqueIds(n.queue)
            && (job in n.queue ==> job.id !in n.pool.workers[v].inFlight)
            && (job.id in n.pool.workers[v].inFlight && job.id in n.pool.workers[w].inFlight ==> v == w)
            && v in n.books && n.pool.workers[v].occupiedCost == Sum(n.books[v])
            && 0 <= n.pool.workers[v].occupiedCost <= n.pool.workers[v].capacity
  {
    RunKeepsInv(m, es);
    hide RunOf, AllowedRun, IsHeap, UniqueIds;
    var n := RunOf(m, es);
    SumNonNegative(n.books[v]);
    assert Balances(n.pool.workers[v], n.books[v]) && Balances(n.pool.workers[w], n.books[w]);
  }

  // ---- nothing is lost ----

  predicate Held(books: Books, id: string) {
    exists w :: w in books && id in books[w]
  }

  function HeldCount(books: Books, id: string): nat {
    if Held(books, id) then 1 else 0
  }

  /** Every time a job with this identifier was enqueued is accounted for: it is queued, in flight,
      failed, discarded by a mark, or given back. */
  predicate Conserved(m: Manager, id: string) {
    IdCount(m.past.entered, id) ==
    IdCount(m.queue, id) + HeldCount(m.books, id)
    + IdCount(m.past.failed, id) + IdCount(m.past.discarded, id) + m.past.returned[id]
  }

  lemma TakenIsHeld(b: Books, job: Job, w: string, id: string)
    requires w in b && Unheld(b, job.id)
    ensures HeldCount(b[w := b[w][job.id := job.cost]], id) == HeldCount(b, id) + if job.id == id then 1 else 0
  {
    var b' := b[w := b[w][job.id := job.cost]];
    if id == job.id {
      assert id in b'[w];
    } else if v :| v in b && id in b[v] {
      assert id in b'[v];
    }
  }

  lemma CountOne(job: Job, id: string)
    ensures IdCount([job], id) == if job.id == id then 1 else 0
  {
    assert [job][..0] == [];
  }

  lemma StepHeld(env: Env, job: Job, rest: seq<Job>, p: Pass, books: Books, id: string)
    requires SelectorOk(env) && PassOk(books, p, [job] + rest)
    requires HeldCount(Enter(books, p.dispatched), id) == HeldCount(books, id) + IdCount(JobsOf(p.dispatched), id)
    ensures var q := PlainStep(env, job, p);
            HeldCount(Enter(books, q.dispatched), id) == HeldCount(books, id) + IdCount(JobsOf(q.dispatched), id)
  {
    var b := Enter(books, p.dispatched);
    var q := PlainStep(env, job, p);
    assert job in p.deferred + ([job] + rest);
    StepEnds(env, job, p);
    hide SelectorOk, PlainStep, Balanced, Enter, UniqueIds, Unheld, Exclusive, Held, HeldCount;
    if w :| DispatchedAt(p, q, job, w) {
      DispatchedIsOnTheBooks(p.pool, b, w);
      TakenIsHeld(b, job, w, id);
      EnterPush(books, p.dispatched, job, w);
      JobsOfPush(p.dispatched, (job, w));
      CountConcat(JobsOf(p.dispatched), [job], id);
      CountOne(job, id);
    }
  }

  lemma {:induction false} PassHeld(env: Env, jobs: seq<Job>, p: Pass, books: Books, id: string)
    requires SelectorOk(env) && PassOk(books, p, jobs)
    requires HeldCount(Enter(books, p.dispatched), id) == HeldCount(books, id) + IdCount(JobsOf(p.dispatched), id)
    ensures var q := PlainPass(env, jobs, p);
            HeldCount(Enter(books, q.dispatched), id) == HeldCount(books, id) + IdCount(JobsOf(q.dispatched), id)
    decreases |jobs|
  {
    hide SelectorOk, PassOk, PlainStep, HeldCount, IdCount, Enter;
    if jobs != [] {
      assert jobs == [jobs[0]] + jobs[1..];
      StepKeepsPassOk(env, jobs[0], jobs[1..], p, books);
      StepHeld(env, jobs[0], jobs[1..], p, books, id);
      PassHeld(env, jobs[1..], PlainStep(env, jobs[0], p), books, id);
    }
  }

  lemma {:induction false} AgedCount(queue: seq<Job>, aged: seq<Job>, id: string)
    requires |aged| == |queue| && forall i :: 0 <= i < |queue| ==> aged[i].id == queue[i].id
    ensures IdCount(aged, id) == IdCount(queue, id)
    decreases |queue|
  {
    if queue != [] {
      AgedCount(queue[..|queue| - 1], aged[..|aged| - 1], id);
    }
  }

  lemma Joined(a: seq<Job>, b: seq<Job>, id: string) returns (s: seq<Job>)
    ensures multiset(s) == multiset(a) + multiset(b) && IdCount(s, id) == IdCount(a, id) + IdCount(b, id)
  {
    s := a + b;
    CountConcat(a, b, id);
  }

  lemma CountTwo(whole: seq<Job>, a: seq<Job>, b: seq<Job>, id: string)
    requires multiset(whole) == multiset(a) + multiset(b)
    ensures IdCount(whole, id) == IdCount(a, id) + IdCount(b, id)
  {
    hide IdCount;
    var ab := Joined(a, b, id);
    CountPermuted(whole, ab, id);
  }

  lemma CountThree(whole: seq<Job>, a: seq<Job>, b: seq<Job>, c: seq<Job>, id: string)
    requires multiset(whole) == multiset(a) + multiset(b) + multiset(c)
    ensures IdCount(whole, id) == IdCount(a, id) + IdCount(b, id) + IdCount(c, id)
  {
    hide IdCount;
    var ab := Joined(a, b, id);
    CountTwo(whole, ab, c, id);
  }

  /** The four ends of a pass, counted. */
  lemma PassCounts(env: Env, m: Manager, now: int, timeout: int, id: string)
    requires SelectorOk(env) && IsHeap(JobBefore, m.queue)
    ensures var r := Process(env, m.queue, m.marks, Start(m.pool, m.picks), now, timeout);
            IdCount(m.queue, id) ==
            IdCount(JobsOf(r.pass.dispatched), id) + IdCount(r.pass.failed, id)
            + IdCount(Discarded(PopOrder(m.queue, now, timeout), m.marks), id) + IdCount(r.queue, id)
  {
    var aged := AgedJobs(m.queue, now, timeout);
    assert |aged| == |m.queue| && forall i :: 0 <= i < |aged| ==> aged[i].id == m.queue[i].id;
    AgedCount(m.queue, aged, id);
    var order, start := PopOrder(m.queue, now, timeout), Start(m.pool, m.picks);
    PopOrderSorts(m.queue, now, timeout);
    PoppedIsKeptOrDiscarded(order, m.marks);
    var jobs, x := Survivors(order, m.marks), Discarded(order, m.marks);
    TriedConserves(env, jobs, start);
    hide SelectorOk, IsHeap, InOrder, AgedJobs, PopOrder, Survivors, Discarded, PlainPass, PushAll, JobsOf, IdCount;
    var p := PlainPass(env, jobs, start);
    CountPermuted(aged, order, id);
    CountTwo(order, jobs, x, id);
    CountThree(jobs, JobsOf(p.dispatched), p.failed, PushAll([], p.deferred), id);
  }

  lemma StartsClean(books: Books, pool: Pool, picks: nat, jobs: seq<Job>, id: string)
    ensures var start := Start(pool, picks);
            && start.deferred + jobs == jobs && Enter(books, start.dispatched) == books
            && IdCount(JobsOf(start.dispatched), id) == 0
  {
  }

  lemma StartIsPassOk(m: Manager, jobs: seq<Job>)
    requires Balanced(m.pool, m.books) && Exclusive(m.books) && UniqueIds(jobs) && AllUnheld(m.books, jobs)
    ensures PassOk(m.books, Start(m.pool, m.picks), jobs)
  {
    StartsClean(m.books, m.pool, m.picks, jobs, "");
    hide Enter, UniqueIds, AllUnheld, Balanced, Exclusive;
  }

  lemma HeldAfterPass(m: Manager, env: Env, now: int, timeout: int, id: string)
    requires Inv(m) && SelectorOk(env)
    ensures var r := Process(env, m.queue, m.marks, Start(m.pool, m.picks), now, timeout);
            HeldCount(Enter(m.books, r.pass.dispatched), id) ==
            HeldCount(m.books, id) + IdCount(JobsOf(r.pass.dispatched), id)
  {
    var jobs, start := Tried(m.queue, m.marks, now, timeout), Start(m.pool, m.picks);
    TriedOk(m.queue, m.marks, now, timeout, m.books);
    StartIsPassOk(m, jobs);
    StartsClean(m.books, m.pool, m.picks, jobs, id);
    hide Inv, SelectorOk, Tried, PlainPass, PopOrder, PushAll, Enter, PassOk, HeldCount, IdCount, JobsOf;
    PassHeld(env, jobs, start, m.books, id);
  }

  lemma DispatchRunConserves(m: Manager, env: Env, now: int, timeout: int, id: string)
    requires Inv(m) && SelectorOk(env) && Conserved(m, id)
    ensures Conserved(Next(m, DispatchRun(env, now, timeout)), id)
  {
    PassCounts(env, m, now, timeout, id);
    HeldAfterPass(m, env, now, timeout, id);
    hide Inv, SelectorOk, Process, PopOrder, Enter, HeldCount, IdCount, JobsOf, Discarded;
    var r := Process(env, m.queue, m.marks, Start(m.pool, m.picks), now, timeout);
    CountConcat(m.past.failed, r.pass.failed, id);
    CountConcat(m.past.discarded, Discarded(PopOrder(m.queue, now, timeout), m.marks), id);
  }

  lemma EnqueueConserves(m: Manager, job: Job, id: string)
    requires Inv(m) && Allowed(m, Enqueue(job)) && Conserved(m, id)
    ensures Conserved(Next(m, Enqueue(job)), id)
  {
    JobBeforeIsStrictWeak();
    PushKeepsHeap(JobBefore, m.queue, job);
    hide IsHeap, StrictWeak, Push, IdCount, HeldCount;
    assert multiset(m.queue + [job]) == multiset(Push(JobBefore, m.queue, job));
    CountPermuted(m.queue + [job], Push(JobBefore, m.queue, job), id);
    CountConcat(m.queue, [job], id);
    CountConcat(m.past.entered, [job], id);
  }

  lemma GiveBackConserves(m: Manager, w: string, given: string, cost: int, at: int, id: string)
    requires Inv(m) && Allowed(m, GiveBack(w, given, cost, at)) && Conserved(m, id)
    ensures Conserved(Next(m, GiveBack(w, given, cost, at)), id)
  {
    var n := Next(m, GiveBack(w, given, cost, at));
    hide IsHeap, UniqueIds, Balanced, IdCount;
    if id == given {
      assert Held(m.books, id) && !Held(n.books, id);
    } else {
      if v :| v in m.books && id in m.books[v] {
        assert id in n.books[v];
      }
    }
  }

  lemma NextConserves(m: Manager, e: Event, id: string)
    requires Inv(m) && Allowed(m, e) && Conserved(m, id)
    ensures Conserved(Next(m, e), id)
  {
    match e
    case Enqueue(job) => { hide Inv, Next; EnqueueConserves(m, job, id); }
    case Cancel(_) => {}
    case DispatchRun(env, now, timeout) => { hide Inv, Next; DispatchRunConserves(m, env, now, timeout, id); }
    case GiveBack(w, given, cost, at) => { hide Inv, Next; GiveBackConserves(m, w, given, cost, at, id); }
  }

  /** Conservation over whole runs: no job is ever lost or invented. */
  lemma {:induction false} NoJobIsLost(m: Manager, es: seq<Event>, id: string)
    requires Inv(m) && AllowedRun(m, es) && Conserved(m, id)
    ensures Conserved(RunOf(m, es), id)
    decreases |es|
  {
    hide Inv, Allowed, Next, Conserved;
    if es != [] {
      NextKeepsInv(m, es[0]);
      NextConserves(m, es[0], id);
      NoJobIsLost(Next(m, es[0]), es[1..], id);
    }
  }

  // ---- cancellation ----

  lemma OrderIsUnique(queue: seq<Job>, now: int, timeout: int, id: string)
    requires IsHeap(JobBefore, queue) && UniqueIds(queue)
    ensures UniqueIds(PopOrder(queue, now, timeout))
    ensures IdCount(PopOrder(queue, now, timeout), id) == IdCount(queue, id) <= 1
  {
    var aged, order := AgedJobs(queue, now, timeout), PopOrder(queue, now, timeout);
    assert |aged| == |queue| && forall i :: 0 <= i < |queue| ==> aged[i].id == queue[i].id;
    assert UniqueIds(aged);
    PopOrderSorts(queue, now, timeout);
    hide IsHeap, InOrder, PopOrder, AgedJobs, UniqueIds;
    UniquePermuted(aged, order);
    AgedCount(queue, aged, id);
    CountPermuted(aged, order, id);
    CountUnique(queue, id);
  }

  lemma CountMember(jobs: seq<Job>, id: string)
    requires UniqueIds(jobs)
    ensures IdCount(jobs, id) == 1 <==> id in IdsOf(jobs)
  {
    CountUnique(jobs, id);
    if i :| 0 <= i < |jobs| && jobs[i].id == id {
      CountWithout(jobs, i, id);
      assert jobs[i] in jobs;
    }
  }

  lemma MarkDiscards(order: seq<Job>, marks: set<string>, id: string)
    requires UniqueIds(order) && id in marks && id in IdsOf(order)
    ensures IdCount(Discarded(order, marks), id) >= 1
  {
    MarksAreExact(order, marks);
    var j :| j in order && j.id == id;
    var ds := Discarded(order, marks);
    assert j in ds;
    var i :| 0 <= i < |ds| && ds[i] == j;
    CountWithout(ds, i, id);
  }

  /** What the pass after a cancellation does with the one job that was cancelled. */
  lemma MarkedEndsDiscarded(m: Manager, env: Env, now: int, timeout: int, id: string)
    requires Inv(m) && SelectorOk(env) && id in m.marks && IdCount(m.queue, id) > 0
    ensures var r := Process(env, m.queue, m.marks, Start(m.pool, m.picks), now, timeout);
            && IdCount(r.queue, id) == 0 && IdCount(r.pass.failed, id) == 0
            && IdCount(JobsOf(r.pass.dispatched), id) == 0
            && IdCount(Discarded(PopOrder(m.queue, now, timeout), m.marks), id) == 1
  {
    var order := PopOrder(m.queue, now, timeout);
    OrderIsUnique(m.queue, now, timeout, id);
    CountMember(order, id);
    MarkDiscards(order, m.marks, id);
    PassCounts(env, m, now, timeout, id);
    hide *;
  }

  lemma QueuedIsNotHeld(m: Manager, id: string)
    requires AllUnheld(m.books, m.queue) && UniqueIds(m.queue) && IdCount(m.queue, id) > 0
    ensures !Held(m.books, id)
  {
    CountUnique(m.queue, id);
    var i :| 0 <= i < |m.queue| && m.queue[i].id == id;
    assert m.queue[i] in m.queue;
  }

  /** A cancellation mark outlives the next pass exactly if its job was not queued. */
  lemma MarkStaysIff(m: Manager, env: Env, now: int, timeout: int, id: string)
    requires Inv(m) && SelectorOk(env)
    ensures id in Next(Next(m, Cancel(id)), DispatchRun(env, now, timeout)).marks <==> IdCount(m.queue, id) == 0
  {
    var order := PopOrder(m.queue, now, timeout);
    OrderIsUnique(m.queue, now, timeout, id);
    MarksAreExact(order, m.marks + {id});
    CountMember(order, id);
    hide Inv, SelectorOk, PlainPass, PopOrder, PushAll, Tried, Enter, IdCount, UniqueIds, IsHeap, Discarded;
  }

  /** A job that is cancelled while it is queued is thrown away by the next pass, which neither
      dispatches nor fails it nor puts it back. */
  lemma CancelledIsDiscarded(m: Manager, env: Env, now: int, timeout: int, id: string)
    requires Inv(m) && SelectorOk(env) && IdCount(m.queue, id) > 0
    ensures var n := Next(Next(m, Cancel(id)), DispatchRun(env, now, timeout));
            && IdCount(n.queue, id) == 0 && !Held(n.books, id)
            && IdCount(n.past.failed, id) == IdCount(m.past.failed, id)
            && IdCount(n.past.discarded, id) == IdCount(m.past.discarded, id) + 1
  {
    var c := Next(m, Cancel(id));
    QueuedIsNotHeld(m, id);
    assert Inv(c);
    hide Inv, SelectorOk, Process, PopOrder, Enter, IdCount, JobsOf, Discarded, UniqueIds, IsHeap;
    MarkedEndsDiscarded(c, env, now, timeout, id);
    HeldAfterPass(c, env, now, timeout, id);
    var r := Process(env, c.queue, c.marks, Start(c.pool, c.picks), now, timeout);
    CountConcat(m.past.failed, r.pass.failed, id);
    CountConcat(m.past.discarded, Discarded(PopOrder(m.queue, now, timeout), c.marks), id);
  }
}
