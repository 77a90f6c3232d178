/** The manager's books about worker capacity: what is reserved when a job is dispatched and given
    back when it ends. */
module Accounting {
  import opened Base
  import opened WorkerPool
  import opened DispatchSpec

  /** CompleteTask, with its clamp at zero. */
  function Complete(c: Conn, job: string, cost: int, now: int): Conn {
    var left := c.occupiedCost - cost;
    c.(inFlight := c.inFlight - {job}, occupiedCost := if left < 0 then 0 else left, lastIdleAt := now)
  }

  /** A connection's counters agree with the jobs it holds and their costs. */
  ghost predicate Balances(c: Conn, held: map<string, int>) {
    && held.Keys == c.inFlight
    && (forall k :: k in held ==> held[k] >= 0)
    && c.occupiedCost == Sum(held) <= c.capacity
  }

  /** Reserving keeps the books exactly if the job was not already held at a cost. */
  lemma AssignBalancesIff(c: Conn, held: map<string, int>, job: string, cost: nat)
    requires Balances(c, held) && Assign(c, job, cost).Some?
    ensures Balances(Assign(c, job, cost).value, held[job := cost]) <==> CostOf(held, job) == 0
  {
    SumSet(held, job, cost);
  }

  /** Giving back keeps the books exactly if the cost is the one reserved for the job; the clamp
      hides a larger one only when the job was all the worker held. */
  lemma CompleteBalancesIff(c: Conn, held: map<string, int>, job: string, cost: int, now: int)
    requires Balances(c, held)
    ensures Balances(Complete(c, job, cost, now), held - {job}) <==>
            cost == CostOf(held, job) || (c.occupiedCost == CostOf(held, job) && cost >= c.occupiedCost)
    ensures job in held && cost == held[job] ==> c.occupiedCost - cost >= 0
  {
    SumNonNegative(held);
    if job in held {
      SumWithout(held, job);
    } else {
      assert held - {job} == held;
    }
  }

  class WorkerConn {
    const workerID: string
    const os: string
    const arch: string
    var capacity: int
    var occupiedCost: int
    var inFlight: set<string>
    var state: WorkerState
    var lastIdleAt: int
    var rejected: set<string>

    constructor (workerID: string, os: string, arch: string, capacity: int, now: int)
      ensures View() == Conn(workerID, os, arch, capacity, 0, {}, Online, now, {})
      ensures capacity >= 0 ==> Balances(View(), map[])
    {
      this.workerID, this.os, this.arch, this.capacity := workerID, os, arch, capacity;
      occupiedCost, inFlight, state, lastIdleAt, rejected := 0, {}, Online, now, {};
    }

    function View(): Conn
      reads this
    {
      Conn(workerID, os, arch, capacity, occupiedCost, inFlight, state, lastIdleAt, rejected)
    }

    /** AssignTask: refuses without touching anything, or reserves the cost. */
    method AssignTask(taskID: string, cost: int) returns (ok: bool)
      modifies this`inFlight, this`occupiedCost
      ensures ok <==> Assign(old(View()), taskID, cost).Some?
      ensures View() == if ok then Assign(old(View()), taskID, cost).value else old(View())
      ensures forall held :: old(Balances(View(), held)) && ok && taskID !in held && cost >= 0 ==>
                Balances(View(), held[taskID := cost])
    {
      ghost var before := View();
      var avail := capacity - occupiedCost;
      if avail <= 0 || avail - cost < 0 {
        return false;
      }
      inFlight, occupiedCost := inFlight + {taskID}, occupiedCost + cost;
      ok := true;
      forall held | Balances(before, held) && taskID !in held && cost >= 0
        ensures Balances(View(), held[taskID := cost])
      {
        AssignBalancesIff(before, held, taskID, cost);
      }
    }

    method CompleteTask(taskID: string, cost: int, now: int)
      modifies this`inFlight, this`occupiedCost, this`lastIdleAt
      ensures View() == Complete(old(View()), taskID, cost, now)
      ensures inFlight == old(inFlight) - {taskID} && lastIdleAt == now
      ensures occupiedCost == if old(occupiedCost) >= cost then old(occupiedCost) - cost else 0
      ensures forall held :: old(Balances(View(), held)) && taskID in held && held[taskID] == cost ==>
                Balances(View(), held - {taskID}) && occupiedCost == old(occupiedCost) - cost
    {
      ghost var before := View();
      inFlight, occupiedCost := inFlight - {taskID}, occupiedCost - cost;
      if occupiedCost < 0 {
        occupiedCost := 0;
      }
      lastIdleAt := now;
      forall held | Balances(before, held) && taskID in held && held[taskID] == cost
        ensures Balances(View(), held - {taskID}) && occupiedCost == before.occupiedCost - cost
      {
        CompleteBalancesIff(before, held, taskID, cost, now);
      }
    }
  }

  // ---- the whole pool ----

  type Books = map<string, map<string, int>>

  ghost predicate Balanced(pool: Pool, books: Books) {
    books.Keys == pool.workers.Keys && forall w :: w in books ==> Balances(pool.workers[w], books[w])
  }

  predicate Unheld(books: Books, job: string) {
    forall w :: w in books ==> job !in books[w]
  }

  /** The books after these jobs went to these workers. */
  function Enter(books: Books, ds: seq<(Job, string)>): Books {
    if ds == [] then books
    else
      var b, d := Enter(books, ds[..|ds| - 1]), ds[|ds| - 1];
      if d.1 in b then b[d.1 := b[d.1][d.0.id := d.0.cost]] else b
  }

  lemma EnterPush(books: Books, ds: seq<(Job, string)>, job: Job, w: string)
    requires w in Enter(books, ds)
    ensures var b := Enter(books, ds); Enter(books, ds + [(job, w)]) == b[w := b[w][job.id := job.cost]]
  {
    DropLast(ds, (job, w));
  }

  lemma DispatchedCost(env: Env, job: Job, p: Pass)
    requires SelectorOk(env) && PlainStep(env, job, p).dispatched != p.dispatched
    ensures job.cost >= 0
  {
    hide SelectorOk, Candidates;
    var keys := KeysFor(env, job);
    if Candidates(env, job, keys, p.pool) != [] {
      NegativeCostHasNoCandidate(env, job, keys, p.pool);
    }
  }

  lemma DispatchBalances(pool: Pool, books: Books, job: Job, w: string)
    requires Balanced(pool, books) && w in pool.workers && Assign(pool.workers[w], job.id, job.cost).Some?
    requires job.cost >= 0 && Unheld(books, job.id)
    ensures Balanced(pool.(workers := pool.workers[w := Assign(pool.workers[w], job.id, job.cost).value]),
                     books[w := books[w][job.id := job.cost]])
  {
    AssignBalancesIff(pool.workers[w], books[w], job.id, job.cost);
    hide Balances, Assign;
  }

  /** One job of a dispatch pass keeps every worker's books. */
  lemma StepBalances(env: Env, job: Job, p: Pass, books: Books)
    requires SelectorOk(env) && Balanced(p.pool, Enter(books, p.dispatched))
    requires Unheld(Enter(books, p.dispatched), job.id)
    ensures var q := PlainStep(env, job, p);
            && Balanced(q.pool, Enter(books, q.dispatched))
            && forall x :: x != job.id && Unheld(Enter(books, p.dispatched), x) ==>
                 Unheld(Enter(books, q.dispatched), x)
  {
    hide SelectorOk, PlainStep, Balances, Enter, Assign;
    var q := PlainStep(env, job, p);
    StepEnds(env, job, p);
    if w :| DispatchedAt(p, q, job, w) {
      assert |q.dispatched| > |p.dispatched|;
      DispatchedCost(env, job, p);
      DispatchBalances(p.pool, Enter(books, p.dispatched), job, w);
      EnterPush(books, p.dispatched, job, w);
    }
  }

  /** A held job given back by its holder at its own cost: balanced, and the clamp does not fire. */
  lemma RestoreBalances(pool: Pool, books: Books, w: string, job: string, cost: int, now: int)
    requires Balanced(pool, books) && w in books && job in books[w] && books[w][job] == cost
    ensures Balanced(pool.(workers := pool.workers[w := Complete(pool.workers[w], job, cost, now)]),
                     books[w := books[w] - {job}])
    ensures pool.workers[w].occupiedCost - cost >= 0
  {
    CompleteBalancesIff(pool.workers[w], books[w], job, cost, now);
    hide Balances, Complete;
  }
}
