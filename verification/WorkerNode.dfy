/** The worker's side of capacity: jobs are reserved when accepted, run when dispatched and
    released when done. First the handlers one by one, then all of them interleaved with the
    heartbeat and the drain command. */
module WorkerNode {
  import opened Base
  import opened WorkerPool

  /** What tasksMu protects: used capacity, accepted and running jobs with their costs. */
  datatype Load = Load(used: int, pending: map<string, int>, tasks: map<string, int>)

  function Reserve(l: Load, capacity: int, job: string, cost: int): Load {
    if l.used + cost <= capacity then l.(used := l.used + cost, pending := l.pending[job := cost]) else l
  }

  function Begin(l: Load, job: string): Load {
    if job in l.pending then l.(pending := l.pending - {job}, tasks := l.tasks[job := l.pending[job]]) else l
  }

  function Release(l: Load, job: string): Load {
    if job in l.tasks then l.(used := l.used - l.tasks[job], tasks := l.tasks - {job}) else l
  }

  /** The used capacity is what accepted and running jobs cost, and is within the limit. */
  ghost predicate Fits(l: Load, capacity: int) {
    && l.used == Sum(l.pending) + Sum(l.tasks) && l.used <= capacity
    && (forall j :: j in l.pending ==> l.pending[j] >= 0)
    && (forall j :: j in l.tasks ==> l.tasks[j] >= 0)
  }

  /** Accepting keeps the books exactly if it is refused or the job was not pending at a cost. */
  lemma ReserveFitsIff(l: Load, capacity: int, job: string, cost: nat)
    requires Fits(l, capacity)
    ensures Fits(Reserve(l, capacity, job, cost), capacity) <==> l.used + cost > capacity || CostOf(l.pending, job) == 0
  {
    SumSet(l.pending, job, cost);
  }

  /** Starting keeps the books exactly if the job was not already running at a cost. */
  lemma BeginFitsIff(l: Load, capacity: int, job: string)
    requires Fits(l, capacity)
    ensures Fits(Begin(l, job), capacity) <==> job !in l.pending || CostOf(l.tasks, job) == 0
  {
    if job in l.pending {
      SumWithout(l.pending, job);
      SumSet(l.tasks, job, l.pending[job]);
    }
  }

  lemma ReleaseFits(l: Load, capacity: int, job: string)
    requires Fits(l, capacity)
    ensures Fits(Release(l, job), capacity) && 0 <= Release(l, job).used <= l.used
  {
    SumNonNegative(l.pending);
    SumNonNegative(l.tasks);
    if job in l.tasks {
      SumWithout(l.tasks, job);
    }
  }

  datatype Reply = Accept | RejectDraining | RejectPressure | RejectMissingDeps | RejectCapacity

  class Worker {
    const capacity: int
    var state: WorkerState
    var usedCap: int
    var pendingJobs: map<string, int>
    var tasks: map<string, int>

    constructor (capacity: int)
      ensures this.capacity == capacity && state == Online && View() == Load(0, map[], map[])
      ensures capacity >= 0 ==> Fits(View(), capacity)
    {
      this.capacity, state, usedCap, pendingJobs, tasks := capacity, Online, 0, map[], map[];
    }

    function View(): Load
      reads this
    {
      Load(usedCap, pendingJobs, tasks)
    }

    /** handlePropose: accepted only while online and within capacity, and then reserved. */
    method HandlePropose(job: string, cost: int, overLimit: bool, missingDeps: bool) returns (reply: Reply)
      modifies this`usedCap, this`pendingJobs
      ensures reply == Accept <==> state == Online && !overLimit && !missingDeps && old(usedCap) + cost <= capacity
      ensures reply == RejectDraining <==> state != Online
      ensures reply == RejectPressure <==> state == Online && overLimit
      ensures reply == RejectMissingDeps <==> state == Online && !overLimit && missingDeps
      ensures View() == if reply == Accept then Reserve(old(View()), capacity, job, cost) else old(View())
      ensures old(Fits(View(), capacity)) && cost >= 0 && job !in old(pendingJobs) ==> Fits(View(), capacity)
    {
      ghost var before := View();
      if state != Online {
        return RejectDraining;
      }
      if overLimit {
        return RejectPressure;
      }
      if missingDeps {
        return RejectMissingDeps;
      }
      var canAccept := usedCap + cost <= capacity;
      if canAccept {
        usedCap := usedCap + cost;
        pendingJobs := pendingJobs[job := cost];
      }
      if Fits(before, capacity) && cost >= 0 {
        ReserveFitsIff(before, capacity, job, cost);
      }
      reply := if canAccept then Accept else RejectCapacity;
    }

    /** handleDispatch up to the start of the job. */
    method HandleDispatch(job: string) returns (known: bool)
      modifies this`pendingJobs, this`tasks
      ensures known <==> job in old(pendingJobs)
      ensures View() == Begin(old(View()), job)
      ensures old(Fits(View(), capacity)) && job !in old(tasks) ==> Fits(View(), capacity)
    {
      ghost var before := View();
      if job !in pendingJobs {
        return false;
      }
      var cost := pendingJobs[job];
      pendingJobs := pendingJobs - {job};
      tasks := tasks[job := cost];
      if Fits(before, capacity) {
        BeginFitsIff(before, capacity, job);
      }
      known := true;
    }

    /** releaseTask: gives the cost back once, and closes a draining worker with nothing running. */
    method ReleaseTask(job: string) returns (closed: bool)
      modifies this`usedCap, this`tasks, this`state
      ensures View() == Release(old(View()), job)
      ensures old(Fits(View(), capacity)) ==> Fits(View(), capacity)
      ensures closed <==> (old(state) == Draining || old(state) == ShuttingDown) && tasks == map[]
      ensures state == if closed then ShuttingDown else old(state)
    {
      ghost var before := View();
      if job in tasks {
        usedCap := usedCap - tasks[job];
        tasks := tasks - {job};
      }
      if Fits(before, capacity) {
        ReleaseFits(before, capacity, job);
      }
      closed := (state == Draining || state == ShuttingDown) && |tasks| == 0;
      if closed {
        state := ShuttingDown;
      }
    }

    /** The drain command of handleSystem: whatever the state was, HandlePropose refuses from now on
        while nobody else stores one, running jobs go on, and a worker with none is told to close. */
    method Drain() returns (closed: bool)
      modifies this`state
      ensures View() == old(View()) && (closed <==> tasks == map[])
      ensures state == if closed then ShuttingDown else Draining
    {
      state := Draining;
      closed := |tasks| == 0;
      if closed {
        state := ShuttingDown;
      }
    }
  }

  // ---- all handlers interleaved ----

  /** A propose handler: not yet looked at the state, found it online, answered. */
  datatype Pc = Arrived | Checked | Accepted | Rejected

  datatype Proposal = Proposal(job: string, cost: nat, pc: Pc)

  /** The connection routine: connected, decided to connect again, waiting for the connection. */
  datatype Link = Connected | Retrying | Dialing

  /** beat: the heartbeat has found the state Online or Pressure and is about to store one of the
      two again. */
  datatype Node = Node(
    capacity: int, state: WorkerState, beat: bool, link: Link, load: Load, proposals: seq<Proposal>)

  datatype Step =
    | Arrive(job: string, cost: nat)
    | Check(i: nat, refused: bool)   // state, resource limits and dependencies
    | Answer(i: nat)                 // the reservation under the mutex
    | Dispatched(job: string)
    | Finished(job: string)
    | BeatCheck | BeatStore(over: bool)
    | DrainStore                     // state := Draining
    | CloseStore                     // state := ShuttingDown, by drain, release or shutdown
    | Disconnect                     // the connection ends and the routine looks at the state
    | Reset                          // it starts over: state := Offline, empty books
    | Connect                        // the new connection stands: state := Online

  predicate At(n: Node, i: nat, pc: Pc) {
    i < |n.proposals| && n.proposals[i].pc == pc
  }

  predicate Can(n: Node, step: Step) {
    match step
    case Check(i, _) => At(n, i, Arrived)
    case Answer(i) => At(n, i, Checked)
    case BeatStore(_) => n.beat
    case Disconnect => n.link != Retrying && n.state != ShuttingDown
    case Reset => n.link == Retrying
    case Connect => n.link == Dialing
    case _ => true
  }

  function SetPc(n: Node, i: nat, pc: Pc): Node
    requires i < |n.proposals|
  {
    n.(proposals := n.proposals[i := n.proposals[i].(pc := pc)])
  }

  function Do(n: Node, step: Step): Node
    requires Can(n, step)
  {
    match step
    case Arrive(job, cost) => n.(proposals := n.proposals + [Proposal(job, cost, Arrived)])
    case Check(i, refused) => SetPc(n, i, if n.state == Online && !refused then Checked else Rejected)
    case Answer(i) =>
      var p := n.proposals[i];
      if n.load.used + p.cost <= n.capacity then
        SetPc(n, i, Accepted).(load := Reserve(n.load, n.capacity, p.job, p.cost))
      else SetPc(n, i, Rejected)
    case Dispatched(job) => n.(load := Begin(n.load, job))
    case Finished(job) => n.(load := Release(n.load, job))
    case BeatCheck => n.(beat := n.state == Online || n.state == Pressure)
    case BeatStore(over) => n.(beat := false, state := if over then Pressure else Online)
    case DrainStore => n.(state := Draining)
    case CloseStore => n.(state := ShuttingDown)
    case Disconnect => n.(link := Retrying)
    case Reset => n.(state := Offline, load := Load(0, map[], map[]), link := Dialing)
    case Connect => n.(state := Online, link := Connected)
  }

  /** A proposal gets one verdict and keeps it: let through exactly if the worker is online and has
      nothing against it, accepted exactly if its cost then fits, and then reserved. */
  lemma VerdictIs(n: Node, step: Step, i: nat)
    requires Can(n, step) && i < |n.proposals|
    ensures var p, q, m := n.proposals[i], Do(n, step).proposals[i], Do(n, step);
            && q.job == p.job && q.cost == p.cost
            && (p.pc == Arrived ==>
                  (q.pc == Checked <==> step == Check(i, false) && n.state == Online)
                  && (q.pc == Rejected <==> step == Check(i, true) || (step == Check(i, false) && n.state != Online))
                  && q.pc != Accepted)
            && (p.pc == Checked ==>
                  (q.pc == Accepted <==> step == Answer(i) && n.load.used + p.cost <= n.capacity)
                  && (q.pc == Rejected <==> step == Answer(i) && n.load.used + p.cost > n.capacity)
                  && q.pc != Arrived)
            && (p.pc == Accepted || p.pc == Rejected ==> q.pc == p.pc)
            && (p.pc != Accepted && q.pc == Accepted ==>
                  m.load.pending == n.load.pending[p.job := p.cost] && m.load.used == n.load.used + p.cost
                  && m.load.tasks == n.load.tasks)
  {
  }

  /** A dispatch starts exactly an accepted job, at the cost reserved for it; its end gives that cost
      back. */
  lemma LoadIs(n: Node, job: string)
    ensures var l, m := n.load, Do(n, Dispatched(job)).load;
            && m.used == l.used
            && (job in l.pending ==> m.pending == l.pending - {job} && m.tasks == l.tasks[job := l.pending[job]])
            && (job !in l.pending ==> m == l)
    ensures var l, m := n.load, Do(n, Finished(job)).load;
            && m.pending == l.pending
            && (job in l.tasks ==> m.used == l.used - l.tasks[job] && m.tasks == l.tasks - {job})
            && (job !in l.tasks ==> m == l)
  {
  }

  /** Who stores which state. A heartbeat stores one only if it found the worker open; a lost
      connection is built up again through Offline to Online, unless the worker is shutting down. */
  lemma StateIs(n: Node, step: Step)
    requires Can(n, step)
    ensures var m := Do(n, step);
            && (step.BeatStore? ==> n.beat && !m.beat && m.state == if step.over then Pressure else Online)
            && (step.BeatCheck? ==> (m.beat <==> n.state == Online || n.state == Pressure) && m.state == n.state)
            && (step.DrainStore? ==> m.state == Draining) && (step.CloseStore? ==> m.state == ShuttingDown)
            && (step.Disconnect? ==> n.link != Retrying && n.state != ShuttingDown
                                     && m.link == Retrying && m.state == n.state)
            && (step.Reset? ==> n.link == Retrying && m.link == Dialing && m.state == Offline
                                && m.load == Load(0, map[], map[]))
            && (step.Connect? ==> n.link == Dialing && m.link == Connected && m.state == Online)
            && (!step.BeatCheck? && !step.BeatStore? ==> m.beat == n.beat)
            && (m.state != n.state ==>
                  step.BeatStore? || step.DrainStore? || step.CloseStore? || step.Reset? || step.Connect?)
            && (m.link != n.link ==> step.Disconnect? || step.Reset? || step.Connect?)
  {
  }

  predicate Runs(n: Node, steps: seq<Step>)
    decreases |steps|
  {
    steps == [] || (Can(n, steps[0]) && Runs(Do(n, steps[0]), steps[1..]))
  }

  function After(n: Node, steps: seq<Step>): Node
    requires Runs(n, steps)
    decreases |steps|
  {
    if steps == [] then n else After(Do(n, steps[0]), steps[1..])
  }

  /** No job is accepted while it is pending, or started while it is running. */
  predicate DistinctWhileHeld(n: Node, step: Step)
    requires Can(n, step)
  {
    match step
    case Answer(i) => n.proposals[i].job !in n.load.pending
    case Dispatched(job) => job !in n.load.tasks
    case _ => true
  }

  predicate DistinctRun(n: Node, steps: seq<Step>)
    requires Runs(n, steps)
    decreases |steps|
  {
    steps == [] || (DistinctWhileHeld(n, steps[0]) && DistinctRun(Do(n, steps[0]), steps[1..]))
  }

  lemma StepFits(n: Node, step: Step)
    requires Fits(n.load, n.capacity) && Can(n, step) && DistinctWhileHeld(n, step)
    ensures Fits(Do(n, step).load, Do(n, step).capacity)
  {
    match step
    case Answer(i) => { ReserveFitsIff(n.load, n.capacity, n.proposals[i].job, n.proposals[i].cost); }
    case Dispatched(job) => { BeginFitsIff(n.load, n.capacity, job); }
    case Finished(job) => { ReleaseFits(n.load, n.capacity, job); }
    case Reset => {
      SumNonNegative(n.load.pending);
      SumNonNegative(n.load.tasks);
    }
    case _ => {}
  }

  /** The books of a connection never exceed the capacity, however the handlers interleave. */
  lemma {:induction false} NeverOvercommits(n: Node, steps: seq<Step>)
    requires Fits(n.load, n.capacity) && Runs(n, steps) && DistinctRun(n, steps)
    ensures Fits(After(n, steps).load, n.capacity)
    decreases |steps|
  {
    if steps != [] {
      StepFits(n, steps[0]);
      assert Do(n, steps[0]).capacity == n.capacity;
      hide Can, Do, Fits, DistinctWhileHeld;
      NeverOvercommits(Do(n, steps[0]), steps[1..]);
    }
  }

  // ---- what becomes of accepted jobs ----

  function Holds(l: Load, job: string): nat {
    One(job in l.pending) + One(job in l.tasks)
  }

  predicate AcceptsJob(n: Node, step: Step, job: string)
    requires Can(n, step)
  {
    step.Answer? && n.proposals[step.i].job == job && n.load.used + n.proposals[step.i].cost <= n.capacity
  }

  predicate EndsJob(n: Node, step: Step, job: string) {
    step == Finished(job) && job in n.load.tasks
  }

  /** How often the run accepts the job. */
  function Accepts(n: Node, steps: seq<Step>, job: string): nat
    requires Runs(n, steps)
    decreases |steps|
  {
    if steps == [] then 0 else One(AcceptsJob(n, steps[0], job)) + Accepts(Do(n, steps[0]), steps[1..], job)
  }

  /** How often the run brings the job to its end. */
  function Finishes(n: Node, steps: seq<Step>, job: string): nat
    requires Runs(n, steps)
    decreases |steps|
  {
    if steps == [] then 0 else One(EndsJob(n, steps[0], job)) + Finishes(Do(n, steps[0]), steps[1..], job)
  }

  predicate Without(steps: seq<Step>, barred: Step) {
    forall i :: 0 <= i < |steps| ==> steps[i] != barred
  }

  lemma StepConserves(n: Node, step: Step, job: string)
    requires Can(n, step) && DistinctWhileHeld(n, step) && step != Reset
    ensures Holds(Do(n, step).load, job) + One(EndsJob(n, step, job))
         == Holds(n.load, job) + One(AcceptsJob(n, step, job))
  {
  }

  /** On one connection every acceptance of a job is answered by its end, or the job is still there. */
  lemma {:induction false} AcceptedIsHeldOrFinished(n: Node, steps: seq<Step>, job: string)
    requires Runs(n, steps) && DistinctRun(n, steps) && Without(steps, Reset)
    ensures Holds(After(n, steps).load, job) + Finishes(n, steps, job)
         == Holds(n.load, job) + Accepts(n, steps, job)
    decreases |steps|
  {
    if steps != [] {
      StepConserves(n, steps[0], job);
      hide Can, Do, DistinctWhileHeld, Holds, AcceptsJob, EndsJob;
      AcceptedIsHeldOrFinished(Do(n, steps[0]), steps[1..], job);
    }
  }

  /** A worker closes once nothing runs. It has then finished every job it accepted on the connection
      exactly if no accepted job was still waiting for its dispatch. */
  lemma CloseDropsIff(n: Node, steps: seq<Step>)
    requires n.load.pending == n.load.tasks == map[]
    requires Runs(n, steps) && DistinctRun(n, steps) && Without(steps, Reset) && After(n, steps).load.tasks == map[]
    ensures (forall job :: Accepts(n, steps, job) == Finishes(n, steps, job)) <==> After(n, steps).load.pending == map[]
  {
    var l := After(n, steps).load;
    hide Runs, After, DistinctRun, Accepts, Finishes;
    forall job ensures Accepts(n, steps, job) == Finishes(n, steps, job) + One(job in l.pending) {
      AcceptedIsHeldOrFinished(n, steps, job);
    }
    if l.pending != map[] {
      var job :| job in l.pending;
      assert Accepts(n, steps, job) == Finishes(n, steps, job) + 1;
    }
  }

  // ---- draining ----

  /** The proposals that had passed their checks, or were answered, before. */
  function Seen(n: Node): set<int> {
    set i | 0 <= i < |n.proposals| && n.proposals[i].pc != Arrived
  }

  /** Every other proposal has not been let through. */
  predicate NoneAfter(n: Node, seen: set<int>) {
    forall i :: 0 <= i < |n.proposals| && i !in seen ==> n.proposals[i].pc == Arrived || n.proposals[i].pc == Rejected
  }

  /** The run accepts a proposal that was not yet checked at n. */
  predicate AcceptsUnchecked(n: Node, steps: seq<Step>) {
    Runs(n, steps)
    && exists i :: 0 <= i < |After(n, steps).proposals| && i !in Seen(n) && After(n, steps).proposals[i].pc == Accepted
  }

  /** Steps that do not touch the proposals may come first. */
  lemma Prepend(n: Node, step: Step, steps: seq<Step>)
    requires Can(n, step) && Do(n, step).proposals == n.proposals && AcceptsUnchecked(Do(n, step), steps)
    ensures AcceptsUnchecked(n, [step] + steps)
  {
    hide Can, Do;
    assert ([step] + steps)[1..] == steps;
    assert Runs(n, [step] + steps) && After(n, [step] + steps) == After(Do(n, step), steps);
    assert Seen(n) == Seen(Do(n, step));
  }

  function Visit(n: Node): seq<Step> {
    [Arrive("", 0), Check(|n.proposals|, false), Answer(|n.proposals|)]
  }

  lemma OnlineAccepts(n: Node)
    requires n.state == Online && n.load.used <= n.capacity
    ensures AcceptsUnchecked(n, Visit(n))
  {
    var k, steps := |n.proposals|, Visit(n);
    var n1 := Do(n, Arrive("", 0));
    var n2 := Do(n1, Check(k, false));
    var n3 := Do(n2, Answer(k));
    assert steps[1..] == [Check(k, false), Answer(k)] && steps[1..][1..] == [Answer(k)];
    assert steps[1..][1..][1..] == [] && Runs(n3, []) && After(n3, []) == n3;
    assert Runs(n2, steps[1..][1..]) && After(n2, steps[1..][1..]) == n3;
    assert Runs(n1, steps[1..]) && After(n1, steps[1..]) == n3;
    assert Runs(n, steps) && After(n, steps) == n3;
    assert n3.proposals[k].pc == Accepted && k !in Seen(n);
  }

  lemma LateBeatReopens(n: Node)
    requires n.beat && n.load.used <= n.capacity
    ensures exists steps :: AcceptsUnchecked(n, steps) && Without(steps, Connect) && Without(steps, DrainStore)
  {
    var n1 := Do(n, BeatStore(false));
    OnlineAccepts(n1);
    Prepend(n, BeatStore(false), Visit(n1));
    assert Without([BeatStore(false)] + Visit(n1), Connect);
  }

  lemma DialingReopens(n: Node)
    requires n.link == Dialing && n.load.used <= n.capacity
    ensures AcceptsUnchecked(n, [Connect] + Visit(n))
  {
    OnlineAccepts(Do(n, Connect));
    Prepend(n, Connect, Visit(n));
  }

  lemma RetryingReopens(n: Node)
    requires n.link == Retrying && 0 <= n.capacity
    ensures AcceptsUnchecked(n, [Reset] + ([Connect] + Visit(n)))
  {
    var n1 := Do(n, Reset);
    DialingReopens(n1);
    Prepend(n, Reset, [Connect] + Visit(n));
  }

  /** A worker that may still connect again reopens by doing so. */
  lemma ReconnectReopens(n: Node)
    requires n.link != Connected || n.state != ShuttingDown
    requires 0 <= n.capacity && n.load.used <= n.capacity
    ensures exists steps :: AcceptsUnchecked(n, steps) && Without(steps, DrainStore)
  {
    match n.link
    case Dialing => {
      DialingReopens(n);
      assert Without([Connect] + Visit(n), DrainStore);
    }
    case Retrying => {
      RetryingReopens(n);
      assert Without([Reset] + ([Connect] + Visit(n)), DrainStore);
    }
    case Connected => {
      var n1 := Do(n, Disconnect);
      RetryingReopens(n1);
      var steps := [Reset] + ([Connect] + Visit(n));
      Prepend(n, Disconnect, steps);
      assert Without([Disconnect] + steps, DrainStore);
    }
  }

  predicate Shut(n: Node) {
    !n.beat && n.state != Online && n.state != Pressure
  }

  lemma ShutStep(n: Node, step: Step, seen: set<int>)
    requires Shut(n) && NoneAfter(n, seen) && Can(n, step) && step != Connect
    ensures Shut(Do(n, step)) && NoneAfter(Do(n, step), seen)
  {
  }

  lemma {:induction false} ShutRun(n: Node, steps: seq<Step>, seen: set<int>)
    requires Shut(n) && NoneAfter(n, seen) && Runs(n, steps) && Without(steps, Connect)
    ensures NoneAfter(After(n, steps), seen)
    decreases |steps|
  {
    if steps != [] {
      ShutStep(n, steps[0], seen);
      hide Can, Do, Shut, NoneAfter;
      ShutRun(Do(n, steps[0]), steps[1..], seen);
    }
  }

  /** A proposal first looked at after the drain command stored its state is never accepted, in any
      interleaving, exactly if no heartbeat was between its check and its store and the worker
      does not connect again. A draining worker always may. */
  lemma DrainIff(n: Node, reconnects: bool)
    requires 0 <= n.capacity && n.load.used <= n.capacity
    ensures !n.beat && !reconnects <==>
            forall steps :: (reconnects || Without(steps, Connect)) ==> !AcceptsUnchecked(Do(n, DrainStore), steps)
  {
    var d := Do(n, DrainStore);
    if n.beat {
      LateBeatReopens(d);
    } else if reconnects {
      ReconnectReopens(d);
    } else {
      forall steps | Without(steps, Connect) ensures !AcceptsUnchecked(d, steps) {
        if Runs(d, steps) {
          ShutRun(d, steps, Seen(d));
        }
      }
    }
  }

  predicate ShutForGood(n: Node) {
    !n.beat && n.state == ShuttingDown && n.link == Connected
  }

  lemma ShutForGoodStep(n: Node, step: Step, seen: set<int>)
    requires ShutForGood(n) && NoneAfter(n, seen) && Can(n, step) && step != DrainStore
    ensures ShutForGood(Do(n, step)) && NoneAfter(Do(n, step), seen)
  {
  }

  lemma {:induction false} ShutForGoodRun(n: Node, steps: seq<Step>, seen: set<int>)
    requires ShutForGood(n) && NoneAfter(n, seen) && Runs(n, steps) && Without(steps, DrainStore)
    ensures NoneAfter(After(n, steps), seen)
    decreases |steps|
  {
    if steps != [] {
      ShutForGoodStep(n, steps[0], seen);
      hide Can, Do, ShutForGood, NoneAfter;
      ShutForGoodRun(Do(n, steps[0]), steps[1..], seen);
    }
  }

  /** Once shutting down is stored, nothing short of another drain command brings the worker back,
      exactly if no heartbeat was in between and no new connection was under way. */
  lemma ShutdownIff(n: Node)
    requires n.state == ShuttingDown && 0 <= n.capacity && n.load.used <= n.capacity
    ensures !n.beat && n.link == Connected <==>
            forall steps :: Without(steps, DrainStore) ==> !AcceptsUnchecked(n, steps)
  {
    if n.beat {
      LateBeatReopens(n);
    } else if n.link != Connected {
      ReconnectReopens(n);
    } else {
      forall steps | Without(steps, DrainStore) ensures !AcceptsUnchecked(n, steps) {
        if Runs(n, steps) {
          ShutForGoodRun(n, steps, Seen(n));
        }
      }
    }
  }

  // ---- a drain that drops a job ----

  lemma {:induction false} Extend(n: Node, steps: seq<Step>, step: Step, job: string)
    requires Runs(n, steps) && DistinctRun(n, steps)
    requires Can(After(n, steps), step) && DistinctWhileHeld(After(n, steps), step)
    ensures Runs(n, steps + [step]) && DistinctRun(n, steps + [step])
    ensures After(n, steps + [step]) == Do(After(n, steps), step)
    ensures Accepts(n, steps + [step], job) == Accepts(n, steps, job) + One(AcceptsJob(After(n, steps), step, job))
    ensures Finishes(n, steps + [step], job) == Finishes(n, steps, job) + One(EndsJob(After(n, steps), step, job))
    decreases |steps|
  {
    hide Can, Do, DistinctWhileHeld, AcceptsJob, EndsJob;
    if steps == [] {
      assert steps + [step] == [step] && [step][1..] == [];
    } else {
      assert (steps + [step])[1..] == steps[1..] + [step];
      Extend(Do(n, steps[0]), steps[1..], step, job);
    }
  }

  lemma AcceptOne(n: Node, job: string) returns (steps: seq<Step>)
    requires n.state == Online && n.load.used <= n.capacity && n.load.pending == n.load.tasks == map[]
    ensures Runs(n, steps) && DistinctRun(n, steps)
    ensures After(n, steps).state == Online && After(n, steps).load.tasks == map[]
    ensures Accepts(n, steps, job) == 1 && Finishes(n, steps, job) == 0
  {
    var k := |n.proposals|;
    steps := [];
    assert Runs(n, steps) && DistinctRun(n, steps) && After(n, steps) == n;
    assert Accepts(n, steps, job) == Finishes(n, steps, job) == 0;
    hide Runs, After, DistinctRun, Accepts, Finishes;
    Extend(n, steps, Arrive(job, 0), job);
    steps := steps + [Arrive(job, 0)];
    Extend(n, steps, Check(k, false), job);
    steps := steps + [Check(k, false)];
    Extend(n, steps, Answer(k), job);
    steps := steps + [Answer(k)];
  }

  /** An idle online worker accepts a job, is told to drain before the dispatch, and closes. */
  lemma DrainDropsAccepted(n: Node, job: string) returns (steps: seq<Step>)
    requires n.state == Online && n.load.used <= n.capacity && n.load.pending == n.load.tasks == map[]
    ensures Runs(n, steps) && DistinctRun(n, steps)
    ensures After(n, steps).state == ShuttingDown && After(n, steps).load.tasks == map[]
    ensures Accepts(n, steps, job) == 1 && Finishes(n, steps, job) == 0
  {
    hide Runs, After, DistinctRun, Accepts, Finishes;
    steps := AcceptOne(n, job);
    Extend(n, steps, DrainStore, job);
    steps := steps + [DrainStore];
    Extend(n, steps, CloseStore, job);
    steps := steps + [CloseStore];
  }
}
