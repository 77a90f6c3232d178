/** How the manager schedules the consolidation phase of a parent job. Every worker message is
    handled in its own goroutine; a handler is split at its store calls, and the steps of all
    handlers, of the dispatcher and of the emission of new children interleave freely. */
module Consolidation {

  datatype Status =
    | Pending | Proposing | Accepted | Provisioning | Running | AwaitingChildren
    | Completed | Failed | Cancelled

  predicate IsTerminal(s: Status) {
    s == Completed || s == Failed || s == Cancelled
  }

  /** Where a result handler stands: it has read a live job, has written the outcome, holds a
      sibling listing in which every child was Completed, has won the guarded update, is through. */
  datatype Pc = Read | Marked | Listed | Won | Done

  /** ok: handleJobCompleted; otherwise handleFailJob, reached with no retries left. */
  datatype Handler = Handler(child: string, ok: bool, pc: Pc)

  function Outcome(h: Handler): Status {
    if h.ok then Completed else Failed
  }

  /** Bookkeeping about the current wave of children: announced to the store, how often the parent
      was scheduled, whether anybody wrote the parent after that, whether the parent left
      AwaitingChildren by another write, whether a handler failed the parent, and whether somebody
      wrote the parent after that. */
  datatype Wave = Wave(
    announced: bool, scheduled: nat, touched: bool, moved: bool, failedParent: bool, rewritten: bool)

  /** What the parent is to do when it is dispatched again. */
  datatype Phase = Run | Consolidate

  /** reported: the children a handler has marked Failed. awaits counts how often the parent entered
      AwaitingChildren. */
  datatype State = State(
    parent: Status, phase: Phase, children: map<string, Status>, handlers: seq<Handler>,
    wave: Wave, reported: set<string>, awaits: nat, wins: nat, enqueued: nat)

  /** A running job that has emitted nothing yet. */
  predicate Initial(s: State) {
    s.parent == Running && s.phase == Run && s.children == map[] && s.handlers == []
    && s.wave == Wave(false, 0, false, false, false, false) && s.reported == {} && s.awaits == s.wins == s.enqueued == 0
  }

  datatype Step =
    | Arrive(child: string, ok: bool)            // a result message; the handler reads the job
    | Mark(h: nat)                               // UpdateJob on the child
    | List(h: nat)                               // ListChildJobs and the check of every sibling
    | Guard(h: nat)                              // the guarded UpdateJob on the parent
    | Enqueue(h: nat)                            // EnqueueJob(parent)
    | FailParent(h: nat)                         // UpdateJob on the parent, unconditional
    | ChildWrite(child: string, status: Status)  // dispatcher (failures too), start, retry, cancel
    | ParentWrite(status: Status)                // the same for the parent
    | SaveChild(child: string)                   // SaveJob of an emitted child
    | Await                                      // UpdateJob of the parent to AwaitingChildren

  predicate At(s: State, h: nat, pc: Pc) {
    h < |s.handlers| && s.handlers[h].pc == pc
  }

  /** A second emission may arrive while the parent waits: only a terminal parent refuses one, and
      that is read before the first child is saved. */
  predicate Can(s: State, step: Step) {
    match step
    case Arrive(c, _) => c in s.children
    case Mark(h) => At(s, h, Read) && s.handlers[h].child in s.children
    case List(h) => At(s, h, Marked) && s.handlers[h].ok
    case Guard(h) => At(s, h, Listed)
    case Enqueue(h) => At(s, h, Won)
    case FailParent(h) => At(s, h, Marked) && !s.handlers[h].ok
    case ChildWrite(c, st) => c in s.children && st != Completed
    case ParentWrite(st) => st != AwaitingChildren
    case SaveChild(c) => c !in s.children
    case Await => true
  }

  predicate AllCompleted(s: State) {
    forall c :: c in s.children ==> s.children[c] == Completed
  }

  function SetPc(s: State, h: nat, pc: Pc): State
    requires h < |s.handlers|
  {
    s.(handlers := s.handlers[h := s.handlers[h].(pc := pc)])
  }

  function LeaveAwaiting(s: State, to: Status): State {
    s.(parent := to, wave := s.wave.(moved := s.wave.moved || s.parent == AwaitingChildren))
  }

  function Do(s: State, step: Step): State
    requires Can(s, step)
  {
    match step
    case Arrive(c, ok) =>
      s.(handlers := s.handlers + [Handler(c, ok, if IsTerminal(s.children[c]) then Done else Read)])
    case Mark(h) =>
      SetPc(s, h, Marked).(children := s.children[s.handlers[h].child := Outcome(s.handlers[h])],
                           reported := s.reported + if s.handlers[h].ok then {} else {s.handlers[h].child})
    case List(h) => SetPc(s, h, if AllCompleted(s) then Listed else Done)
    case Guard(h) =>
      if s.parent != AwaitingChildren then SetPc(s, h, Done)
      else
        SetPc(s, h, Won).(parent := Pending, phase := Consolidate, wins := s.wins + 1,
                          wave := s.wave.(scheduled := s.wave.scheduled + 1, touched := false))
    case Enqueue(h) => SetPc(s, h, Done).(enqueued := s.enqueued + 1)
    case FailParent(h) =>
      var t := LeaveAwaiting(SetPc(s, h, Done), Failed);
      t.(wave := t.wave.(touched := true, failedParent := true, rewritten := false))
    case ChildWrite(c, st) => s.(children := s.children[c := st])
    case ParentWrite(st) =>
      var t := LeaveAwaiting(s, st);
      t.(wave := t.wave.(touched := true, rewritten := s.wave.failedParent))
    case SaveChild(c) =>
      s.(children := s.children[c := Pending],
         wave := s.wave.(announced := false, scheduled := 0, moved := false))
    case Await =>
      s.(parent := AwaitingChildren,
         awaits := if s.parent == AwaitingChildren then s.awaits else s.awaits + 1,
         wave := s.wave.(announced := true, scheduled := 0, moved := false, rewritten := s.wave.failedParent))
  }

  // ---- runs ----

  predicate Runs(s: State, steps: seq<Step>)
    decreases |steps|
  {
    steps == [] || (Can(s, steps[0]) && Runs(Do(s, steps[0]), steps[1..]))
  }

  function After(s: State, steps: seq<Step>): State
    requires Runs(s, steps)
    decreases |steps|
  {
    if steps == [] then s else After(Do(s, steps[0]), steps[1..])
  }

  // ---- what holds of every run ----

  function Winners(hs: seq<Handler>): nat {
    if hs == [] then 0
    else Winners(hs[..|hs| - 1]) + if hs[|hs| - 1].pc == Won then 1 else 0
  }

  /** Every stay in AwaitingChildren is ended by at most one win, each win not yet enqueued is held
      by its winner, an announced wave still waits, was scheduled or was moved by others, and a parent
      is to consolidate exactly once it was ever scheduled, and is Pending until somebody writes it. */
  predicate Guarded(s: State) {
    && s.wins + (if s.parent == AwaitingChildren then 1 else 0) <= s.awaits
    && s.wave.scheduled <= 1 && s.wave.scheduled <= s.wins
    && (s.parent == AwaitingChildren ==> s.wave.scheduled == 0 && !s.wave.moved)
    && s.wins == s.enqueued + Winners(s.handlers)
    && (s.wave.announced ==> s.parent == AwaitingChildren || s.wave.scheduled == 1 || s.wave.moved)
    && (s.wave.failedParent && !s.wave.rewritten ==> s.parent == Failed)
    && (s.wave.scheduled == 1 && !s.wave.touched ==> s.parent == Pending)
    && (s.phase == Consolidate <==> s.wins > 0)
  }

  /** What the bookkeeping records, event by event. */
  lemma HistoryIs(s: State, step: Step)
    requires Can(s, step)
    ensures var t := Do(s, step);
            var win := step.Guard? && s.parent == AwaitingChildren;
            var written := step.FailParent? || step.ParentWrite?;
            && (forall c :: c in t.reported <==>
                  c in s.reported || (step.Mark? && !s.handlers[step.h].ok && s.handlers[step.h].child == c))
            && (t.awaits == s.awaits + 1 <==> step.Await? && s.parent != AwaitingChildren)
            && (t.awaits == s.awaits || t.awaits == s.awaits + 1)
            && (t.enqueued == s.enqueued + 1 <==> step.Enqueue?) && (step.Enqueue? || t.enqueued == s.enqueued)
            && (t.wave.announced <==> !step.SaveChild? && (step.Await? || s.wave.announced))
            && t.wave.scheduled ==
                 (if step.SaveChild? || step.Await? then 0 else s.wave.scheduled + if win then 1 else 0)
            && (t.wave.touched <==> written || (!win && s.wave.touched))
            && (t.wave.moved <==>
                  !step.SaveChild? && !step.Await? && (s.wave.moved || (written && s.parent == AwaitingChildren)))
            && (t.wave.failedParent <==> step.FailParent? || s.wave.failedParent)
            && (t.wave.rewritten <==>
                  if step.ParentWrite? || step.Await? then s.wave.failedParent
                  else !step.FailParent? && s.wave.rewritten)
  {
  }

  /** A win is a guarded update of a waiting parent: it puts the parent back to Pending, to
      consolidate, and touches no child. */
  lemma WinIs(s: State, step: Step)
    requires Can(s, step)
    ensures Do(s, step).wins > s.wins <==> step.Guard? && s.parent == AwaitingChildren
    ensures Do(s, step).wins > s.wins ==>
            var t := Do(s, step);
            && t.parent == Pending && t.phase == Consolidate && t.children == s.children
            && t.wins == s.wins + 1 && At(t, step.h, Won)
  {
  }

  lemma {:induction false} WinnersSet(hs: seq<Handler>, h: nat, pc: Pc)
    requires h < |hs|
    ensures Winners(hs[h := hs[h].(pc := pc)]) + (if hs[h].pc == Won then 1 else 0)
            == Winners(hs) + (if pc == Won then 1 else 0)
    decreases |hs|
  {
    var n := |hs| - 1;
    var hs' := hs[h := hs[h].(pc := pc)];
    if h == n {
      assert hs'[..n] == hs[..n];
    } else {
      WinnersSet(hs[..n], h, pc);
      assert hs'[..n] == hs[..n][h := hs[h].(pc := pc)];
    }
  }

  lemma {:induction false} NoWinners(hs: seq<Handler>)
    requires forall i :: 0 <= i < |hs| ==> hs[i].pc == Done
    ensures Winners(hs) == 0
    decreases |hs|
  {
    if hs != [] {
      NoWinners(hs[..|hs| - 1]);
    }
  }

  lemma StepKeepsWinners(s: State, step: Step)
    requires s.wins == s.enqueued + Winners(s.handlers) && Can(s, step)
    ensures Do(s, step).wins == Do(s, step).enqueued + Winners(Do(s, step).handlers)
  {
    match step
    case Arrive(c, ok) => {
      var hs := Do(s, step).handlers;
      assert hs[..|hs| - 1] == s.handlers;
    }
    case Mark(h) => { WinnersSet(s.handlers, h, Marked); }
    case List(h) => { WinnersSet(s.handlers, h, if AllCompleted(s) then Listed else Done); }
    case Guard(h) => { WinnersSet(s.handlers, h, if s.parent != AwaitingChildren then Done else Won); }
    case Enqueue(h) => { WinnersSet(s.handlers, h, Done); }
    case FailParent(h) => { WinnersSet(s.handlers, h, Done); }
    case _ => {}
  }

  lemma StepKeepsGuarded(s: State, step: Step)
    requires Guarded(s) && Can(s, step)
    ensures Guarded(Do(s, step))
  {
    StepKeepsWinners(s, step);
    hide Winners, AllCompleted;
  }

  /** At most one win for every time the parent entered AwaitingChildren, in every interleaving. */
  lemma {:induction false} AtMostOncePerWave(s: State, steps: seq<Step>)
    requires Guarded(s) && Runs(s, steps)
    ensures Guarded(After(s, steps))
    decreases |steps|
  {
    hide Guarded, Can, Do;
    if steps != [] {
      StepKeepsGuarded(s, steps[0]);
      AtMostOncePerWave(Do(s, steps[0]), steps[1..]);
    }
  }

  // ---- what holds when settled children stay settled ----

  /** The step overwrites no outcome a child already has. */
  predicate Settles(s: State, step: Step)
    requires Can(s, step)
  {
    match step
    case Mark(h) =>
      var was := s.children[s.handlers[h].child];
      !IsTerminal(was) || was == Outcome(s.handlers[h])
    case ChildWrite(c, _) => !IsTerminal(s.children[c])
    case _ => true
  }

  predicate NoneListed(s: State) {
    forall i :: 0 <= i < |s.handlers| ==> s.handlers[i].pc != Listed
  }

  /** While a handler holds a passed listing, no child joins a waiting parent and no parent begins
      to wait; and a parent begins to wait only with work to do. */
  predicate EmitsSafely(s: State, step: Step) {
    && (step.SaveChild? && s.parent == AwaitingChildren ==> NoneListed(s))
    && (step.Await? && s.parent != AwaitingChildren ==> NoneListed(s) && !AllCompleted(s))
  }

  predicate Orderly(s: State, step: Step)
    requires Can(s, step)
  {
    Settles(s, step) && EmitsSafely(s, step)
  }

  predicate OrderlyRun(s: State, steps: seq<Step>)
    requires Runs(s, steps)
    decreases |steps|
  {
    steps == [] || (Orderly(s, steps[0]) && OrderlyRun(Do(s, steps[0]), steps[1..]))
  }

  predicate ListingsHold(s: State) {
    s.parent == AwaitingChildren && !NoneListed(s) ==> AllCompleted(s)
  }

  predicate ScheduledMeansCompleted(s: State) {
    s.wave.scheduled > 0 ==> AllCompleted(s)
  }

  predicate SomeoneWillLook(s: State) {
    exists i :: 0 <= i < |s.handlers| && s.handlers[i].ok && (s.handlers[i].pc == Marked || s.handlers[i].pc == Listed)
  }

  predicate NotForgotten(s: State) {
    s.parent == AwaitingChildren && AllCompleted(s) ==> SomeoneWillLook(s)
  }

  /** Holds of failures that handlers report; the dispatcher writes one without a follow-up. */
  predicate FailureIsHandled(s: State) {
    s.reported != {} ==>
      s.wave.failedParent || exists i :: 0 <= i < |s.handlers| && !s.handlers[i].ok && s.handlers[i].pc == Marked
  }

  predicate OnlySuccessLists(s: State) {
    forall i :: 0 <= i < |s.handlers| && s.handlers[i].pc == Listed ==> s.handlers[i].ok
  }

  predicate Inv(s: State) {
    && Guarded(s) && OnlySuccessLists(s)
    && ListingsHold(s) && ScheduledMeansCompleted(s) && NotForgotten(s) && FailureIsHandled(s)
  }

  lemma KeepsListings(s: State, step: Step)
    requires ListingsHold(s) && Can(s, step) && Orderly(s, step)
    ensures ListingsHold(Do(s, step))
  {
    var t := Do(s, step);
    if t.parent == AwaitingChildren && !NoneListed(t) {
      var i :| 0 <= i < |t.handlers| && t.handlers[i].pc == Listed;
      assert i < |s.handlers|;
    }
  }

  lemma KeepsScheduled(s: State, step: Step)
    requires ScheduledMeansCompleted(s) && ListingsHold(s) && Can(s, step) && Orderly(s, step)
    ensures ScheduledMeansCompleted(Do(s, step))
  {
    match step
    case Guard(h) => { assert !NoneListed(s); }
    case _ => {}
  }

  lemma KeepsLooking(s: State, t: State)
    requires SomeoneWillLook(s)
    requires |t.handlers| >= |s.handlers|
    requires forall i :: 0 <= i < |s.handlers| && (s.handlers[i].pc == Marked || s.handlers[i].pc == Listed) ==>
               t.handlers[i] == s.handlers[i]
    ensures SomeoneWillLook(t)
  {
    var i :| 0 <= i < |s.handlers| && s.handlers[i].ok && (s.handlers[i].pc == Marked || s.handlers[i].pc == Listed);
    assert t.handlers[i] == s.handlers[i];
  }

  lemma KeepsLookout(s: State, step: Step)
    requires NotForgotten(s) && OnlySuccessLists(s) && Can(s, step) && Orderly(s, step)
    ensures NotForgotten(Do(s, step)) && OnlySuccessLists(Do(s, step))
  {
    var t := Do(s, step);
    assert step.ChildWrite? ==> step.child in t.children && t.children[step.child] == step.status;
    assert step.SaveChild? ==> step.child in t.children && t.children[step.child] == Pending;
    assert step.Mark? ==> s.handlers[step.h].child in t.children
                          && t.children[s.handlers[step.h].child] == Outcome(s.handlers[step.h]);
    if t.parent == AwaitingChildren && AllCompleted(t) {
      match step
      case Mark(h) => { assert t.handlers[h].ok && t.handlers[h].pc == Marked; }
      case List(h) => { assert t.handlers[h].ok && t.handlers[h].pc == Listed; }
      case Arrive(_, _) => { KeepsLooking(s, t); }
      case Enqueue(h) => { KeepsLooking(s, t); }
      case Await => { KeepsLooking(s, t); }
      case _ => {}
    }
  }

  lemma KeepsFailureHandled(s: State, step: Step)
    requires FailureIsHandled(s) && Can(s, step)
    ensures FailureIsHandled(Do(s, step))
  {
    var t := Do(s, step);
    if t.reported != {} && !t.wave.failedParent {
      if step.Mark? && !s.handlers[step.h].ok {
        assert !t.handlers[step.h].ok && t.handlers[step.h].pc == Marked;
      } else {
        var i :| 0 <= i < |s.handlers| && !s.handlers[i].ok && s.handlers[i].pc == Marked;
        assert t.handlers[i] == s.handlers[i];
      }
    }
  }

  lemma StepKeepsInv(s: State, step: Step)
    requires Inv(s) && Can(s, step) && Orderly(s, step)
    ensures Inv(Do(s, step))
  {
    StepKeepsGuarded(s, step);
    KeepsListings(s, step);
    KeepsScheduled(s, step);
    KeepsLookout(s, step);
    KeepsFailureHandled(s, step);
  }

  lemma {:induction false} RunKeepsInv(s: State, steps: seq<Step>)
    requires Inv(s) && Runs(s, steps) && OrderlyRun(s, steps)
    ensures Inv(After(s, steps))
    decreases |steps|
  {
    hide Inv, Can, Do, Orderly;
    if steps != [] {
      StepKeepsInv(s, steps[0]);
      RunKeepsInv(Do(s, steps[0]), steps[1..]);
    }
  }

  // ---- the promises ----

  predicate Quiet(s: State) {
    forall i :: 0 <= i < |s.handlers| ==> s.handlers[i].pc == Done
  }

  lemma InitialInv(s: State)
    requires Initial(s)
    ensures Inv(s)
  {
    NoWinners(s.handlers);
    hide Winners;
  }

  /** Some step of the run schedules the parent while a child is not Completed. */
  predicate Premature(s: State, steps: seq<Step>)
    requires Runs(s, steps)
    decreases |steps|
  {
    steps != []
    && ((Do(s, steps[0]).wins > s.wins && !AllCompleted(s)) || Premature(Do(s, steps[0]), steps[1..]))
  }

  lemma WinIsSound(s: State, step: Step)
    requires Inv(s) && Can(s, step)
    ensures Do(s, step).wins > s.wins ==> AllCompleted(s)
  {
    if step.Guard? {
      assert !NoneListed(s);
    }
  }

  /** The parent is only ever scheduled with every child Completed. */
  lemma {:induction false} NeverPremature(s: State, steps: seq<Step>)
    requires Inv(s) && Runs(s, steps) && OrderlyRun(s, steps)
    ensures !Premature(s, steps)
    decreases |steps|
  {
    if steps != [] {
      StepKeepsInv(s, steps[0]);
      WinIsSound(s, steps[0]);
      hide Inv, Can, Do, Orderly;
      NeverPremature(Do(s, steps[0]), steps[1..]);
    }
  }

  /** Failed or Cancelled: over in a way that keeps the wave from completing. */
  predicate Lost(st: Status) {
    st == Failed || st == Cancelled
  }

  predicate AnyLost(s: State) {
    exists c :: c in s.children && Lost(s.children[c])
  }

  predicate AllTerminal(s: State) {
    forall c :: c in s.children ==> IsTerminal(s.children[c])
  }

  /** What a wave has come to: scheduled once and enqueued if all children completed and nobody
      else moved the parent, which is then Pending, to consolidate, until somebody writes it; never
      scheduled if a child is lost; the parent failed, unless somebody wrote it later, if a handler
      reported a failure; and with every child over, the parent still waits exactly if a child is
      lost and nothing moved the parent. */
  predicate Settled(s: State) {
    && s.wins == s.enqueued
    && (s.wave.announced && !s.wave.moved && AllCompleted(s) ==>
          s.wave.scheduled == 1 && s.phase == Consolidate && (s.wave.touched || s.parent == Pending))
    && (AnyLost(s) ==> s.wave.scheduled == 0)
    && (s.reported != {} ==> s.wave.rewritten || s.parent == Failed)
    && (s.wave.announced && AllTerminal(s) ==>
          (s.parent == AwaitingChildren <==> AnyLost(s) && !s.wave.moved))
  }

  lemma QuietMeansSettled(s: State)
    requires Inv(s) && Quiet(s)
    ensures Settled(s)
  {
    hide Winners;
    NoWinners(s.handlers);
  }

  /** Every orderly run from the start, once no handler is in flight, has settled its wave. */
  lemma WaveOutcome(s: State, steps: seq<Step>)
    requires Initial(s)
    requires Runs(s, steps) && OrderlyRun(s, steps)
    requires Quiet(After(s, steps))
    ensures Settled(After(s, steps)) && !Premature(s, steps)
  {
    InitialInv(s);
    hide Inv, Runs, After, OrderlyRun, Premature, Quiet, Settled;
    RunKeepsInv(s, steps);
    NeverPremature(s, steps);
    QuietMeansSettled(After(s, steps));
  }

  lemma LossStays(s: State, step: Step, c: string)
    requires Can(s, step) && Settles(s, step) && NoneListed(s)
    requires c in s.children && Lost(s.children[c])
    ensures var t := Do(s, step);
            c in t.children && Lost(t.children[c]) && NoneListed(t) && t.wins == s.wins
  {
  }

  /** While no handler holds a listing, a child that failed or was cancelled keeps the parent from
      being scheduled as long as outcomes stand. */
  lemma {:induction false} NoSchedulingAfterLoss(s: State, steps: seq<Step>, c: string)
    requires NoneListed(s) && Runs(s, steps) && OrderlyRun(s, steps)
    requires c in s.children && Lost(s.children[c])
    ensures After(s, steps).wins == s.wins
    decreases |steps|
  {
    if steps != [] {
      LossStays(s, steps[0], c);
      hide Can, Do, Settles, NoneListed;
      NoSchedulingAfterLoss(Do(s, steps[0]), steps[1..], c);
    }
  }

  lemma FailureStays(s: State, step: Step, c: string)
    requires Inv(s) && Can(s, step) && Orderly(s, step)
    requires c in s.children && s.children[c] == Failed
    ensures var t := Do(s, step); c in t.children && t.children[c] == Failed && t.wins == s.wins
  {
    if step.Guard? {
      assert !NoneListed(s);
    }
  }

  /** After a child failed no step of an orderly run schedules the parent again. */
  lemma {:induction false} NoSchedulingAfterFailure(s: State, steps: seq<Step>, c: string)
    requires Inv(s) && Runs(s, steps) && OrderlyRun(s, steps)
    requires c in s.children && s.children[c] == Failed
    ensures After(s, steps).wins == s.wins
    decreases |steps|
  {
    hide Inv;
    if steps != [] {
      StepKeepsInv(s, steps[0]);
      FailureStays(s, steps[0], c);
      hide Can, Do, Orderly;
      NoSchedulingAfterFailure(Do(s, steps[0]), steps[1..], c);
    }
  }

  // ---- exactly when a step outside the rules does harm ----

  /** An orderly run from s that schedules too early. */
  predicate Breaks(s: State, steps: seq<Step>) {
    Runs(s, steps) && OrderlyRun(s, steps) && Premature(s, steps)
  }

  lemma SoundForEver(t: State)
    requires Inv(t)
    ensures forall steps :: !Breaks(t, steps)
  {
    forall steps ensures !Breaks(t, steps) {
      if Runs(t, steps) && OrderlyRun(t, steps) {
        NeverPremature(t, steps);
      }
    }
  }

  /** A held listing, a waiting parent and an unfinished child: the holder schedules too early. */
  lemma HolderBreaks(t: State, h: nat)
    requires At(t, h, Listed) && t.parent == AwaitingChildren && !AllCompleted(t)
    ensures Breaks(t, [Guard(h)])
  {
    assert [Guard(h)][1..] == [];
    assert Runs(Do(t, Guard(h)), [Guard(h)][1..]);
  }

  lemma SomeHolderBreaks(t: State)
    requires !NoneListed(t) && t.parent == AwaitingChildren && !AllCompleted(t)
    ensures exists steps :: Breaks(t, steps)
  {
    var h :| 0 <= h < |t.handlers| && t.handlers[h].pc == Listed;
    HolderBreaks(t, h);
  }

  /** A parent begins to wait safely exactly if no handler still holds a passed listing from
      before: otherwise that handler can schedule the new wave before its children ran. */
  lemma WaveSafeIff(s: State)
    requires Inv(s) && s.parent != AwaitingChildren && !AllCompleted(s)
    ensures NoneListed(s) <==> forall steps :: !Breaks(Do(s, Await), steps)
  {
    if NoneListed(s) {
      StepKeepsInv(s, Await);
      SoundForEver(Do(s, Await));
    } else {
      SomeHolderBreaks(Do(s, Await));
    }
  }

  /** Steps that leave a child unfinished: a status write that lands after its result, a failure
      written over its success, a further child of a second emission. */
  predicate Unfinishes(s: State, step: Step)
    requires Can(s, step)
  {
    step.ChildWrite? || step.SaveChild? || (step.Mark? && !s.handlers[step.h].ok)
  }

  lemma UnfinishedChild(s: State, step: Step)
    requires Can(s, step) && Unfinishes(s, step)
    ensures !AllCompleted(Do(s, step)) && Do(s, step).parent == s.parent
    ensures NoneListed(Do(s, step)) <==> NoneListed(s)
  {
    var t := Do(s, step);
    var c := if step.Mark? then s.handlers[step.h].child else step.child;
    assert c in t.children && t.children[c] != Completed;
    assert forall i :: 0 <= i < |s.handlers| ==> (t.handlers[i].pc == Listed <==> s.handlers[i].pc == Listed);
  }

  lemma UnfinishedKeepsInv(s: State, step: Step)
    requires Inv(s) && s.parent == AwaitingChildren && NoneListed(s)
    requires Can(s, step) && Unfinishes(s, step)
    ensures Inv(Do(s, step))
  {
    StepKeepsGuarded(s, step);
    KeepsFailureHandled(s, step);
    UnfinishedChild(s, step);
  }

  /** Whatever the child's status was, a step that leaves it unfinished while the parent waits is
      harmless in every continuation exactly if no handler holds a passed listing. */
  lemma UnfinishedIff(s: State, step: Step)
    requires Inv(s) && s.parent == AwaitingChildren && Can(s, step) && Unfinishes(s, step)
    ensures NoneListed(s) <==> forall steps :: !Breaks(Do(s, step), steps)
  {
    UnfinishedChild(s, step);
    if NoneListed(s) {
      UnfinishedKeepsInv(s, step);
      hide Inv, Do, Can;
      SoundForEver(Do(s, step));
    } else {
      hide Inv, Do, Can;
      SomeHolderBreaks(Do(s, step));
    }
  }

  // ---- a wave that is lost ----

  /** No step of the run writes a result for the child. */
  predicate NoResultFor(s: State, steps: seq<Step>, c: string)
    requires Runs(s, steps)
    decreases |steps|
  {
    steps == []
    || (!(steps[0].Mark? && s.handlers[steps[0].h].child == c) && NoResultFor(Do(s, steps[0]), steps[1..], c))
  }

  lemma StaysUnfinished(s: State, step: Step, c: string)
    requires Can(s, step) && c in s.children && s.children[c] != Completed && NoneListed(s)
    requires !(step.Mark? && s.handlers[step.h].child == c)
    ensures var t := Do(s, step);
            c in t.children && t.children[c] != Completed && NoneListed(t) && t.wins == s.wins
  {
  }

  /** Without a listing and with an unfinished child nothing at all, orderly or not, schedules the
      parent before that child has a result. */
  lemma {:induction false} NobodySchedules(s: State, steps: seq<Step>, c: string)
    requires c in s.children && s.children[c] != Completed && NoneListed(s)
    requires Runs(s, steps) && NoResultFor(s, steps, c)
    ensures After(s, steps).wins == s.wins
    decreases |steps|
  {
    if steps != [] {
      StaysUnfinished(s, steps[0], c);
      hide Can, Do, NoneListed;
      NobodySchedules(Do(s, steps[0]), steps[1..], c);
    }
  }

  /** A run without a result for the child that schedules the parent. */
  predicate SchedulesWithout(s: State, steps: seq<Step>, c: string) {
    Runs(s, steps) && NoResultFor(s, steps, c) && After(s, steps).wins > s.wins
  }

  lemma OneStep(s: State, a: Step)
    requires Can(s, a)
    ensures Runs(s, [a]) && After(s, [a]) == Do(s, a)
  {
    hide Can, Do;
    assert [a][1..] == [];
  }

  lemma TwoSteps(s: State, a: Step, b: Step)
    requires Can(s, a) && Can(Do(s, a), b)
    ensures Runs(s, [a, b]) && After(s, [a, b]) == Do(Do(s, a), b)
  {
    hide Can, Do;
    assert [a, b][1..] == [b];
    OneStep(Do(s, a), b);
  }

  lemma HolderSchedules(t: State, g: nat, c: string)
    requires At(t, g, Listed) && t.parent == AwaitingChildren
    ensures SchedulesWithout(t, [Guard(g)], c)
  {
    OneStep(t, Guard(g));
    assert NoResultFor(Do(t, Guard(g)), [Guard(g)][1..], c);
  }

  /** A completed wave that its last handler was about to schedule: a late status write on any of
      its children loses it, exactly if no handler held a listing. Then no continuation whatever
      schedules the parent without a new result for that child. */
  lemma LateWriteLosesWave(s: State, h: nat, c: string, status: Status)
    requires s.parent == AwaitingChildren && AllCompleted(s) && Can(s, List(h)) && Can(s, ChildWrite(c, status))
    ensures Runs(s, [List(h), Guard(h)]) && After(s, [List(h), Guard(h)]).wins == s.wins + 1
    ensures NoneListed(s) <==> forall steps :: !SchedulesWithout(Do(s, ChildWrite(c, status)), steps, c)
  {
    TwoSteps(s, List(h), Guard(h));
    var t := Do(s, ChildWrite(c, status));
    if NoneListed(s) {
      forall steps ensures !SchedulesWithout(t, steps, c) {
        if Runs(t, steps) && NoResultFor(t, steps, c) {
          NobodySchedules(t, steps, c);
        }
      }
    } else {
      var g :| 0 <= g < |s.handlers| && s.handlers[g].pc == Listed;
      HolderSchedules(t, g, c);
    }
  }

  // ---- a wave that waits for ever ----

  /** An orderly run that schedules the parent. */
  predicate Schedules(s: State, steps: seq<Step>) {
    Runs(s, steps) && OrderlyRun(s, steps) && After(s, steps).wins > s.wins
  }

  lemma SchedulesAfterTwo(s: State, a: Step, b: Step, steps: seq<Step>)
    requires Can(s, a) && Orderly(s, a) && Can(Do(s, a), b) && Orderly(Do(s, a), b)
    requires Do(Do(s, a), b).wins == s.wins && Schedules(Do(Do(s, a), b), steps)
    ensures Schedules(s, [a] + ([b] + steps))
  {
    hide Can, Do, Orderly;
    assert ([b] + steps)[1..] == steps && ([a] + ([b] + steps))[1..] == [b] + steps;
    assert Runs(Do(s, a), [b] + steps) && OrderlyRun(Do(s, a), [b] + steps);
    assert After(Do(s, a), [b] + steps) == After(Do(Do(s, a), b), steps);
  }

  lemma LastLookerSchedules(s: State, g: nat)
    requires s.parent == AwaitingChildren && AllCompleted(s) && At(s, g, Marked) && s.handlers[g].ok
    ensures Schedules(s, [List(g), Guard(g)])
  {
    TwoSteps(s, List(g), Guard(g));
    assert [List(g), Guard(g)][1..] == [Guard(g)] && [Guard(g)][1..] == [];
    var t := Do(s, List(g));
    assert OrderlyRun(t, [Guard(g)]);
  }

  /** The handler can still end the wait of a parent whose children are all over: it holds a
      listing, will find every child Completed, or is about to fail the parent. */
  predicate Finisher(s: State, h: nat) {
    h < |s.handlers|
    && var r := s.handlers[h];
    || r.pc == Listed
    || (r.ok && AllCompleted(s) && (r.pc == Marked || (r.pc == Read && r.child in s.children)))
    || (!r.ok && (r.pc == Marked || (r.pc == Read && r.child in s.children && s.children[r.child] == Failed)))
  }

  predicate NoFinisher(s: State) {
    forall h :: 0 <= h < |s.handlers| ==> !Finisher(s, h)
  }

  /** Nobody else writes the parent, and no child is emitted. */
  predicate OnTheirOwn(steps: seq<Step>) {
    forall i :: 0 <= i < |steps| ==> !steps[i].ParentWrite? && !steps[i].SaveChild?
  }

  /** An orderly run in which the handlers by themselves end the wait. */
  predicate Ends(s: State, steps: seq<Step>) {
    Runs(s, steps) && OrderlyRun(s, steps) && OnTheirOwn(steps) && After(s, steps).parent != AwaitingChildren
  }

  predicate Stuck(s: State) {
    s.parent == AwaitingChildren && AllTerminal(s) && NoFinisher(s)
  }

  lemma StuckStep(s: State, step: Step)
    requires Stuck(s) && Can(s, step) && Orderly(s, step) && OnTheirOwn([step])
    ensures Stuck(Do(s, step)) && Do(s, step).wins == s.wins
  {
    var t := Do(s, step);
    assert [step][0] == step;
    assert step.Mark? || step.List? || step.Guard? || step.FailParent? ==> !Finisher(s, step.h);
    assert t.children == s.children;
    forall h | 0 <= h < |t.handlers| ensures !Finisher(t, h) {
      if h < |s.handlers| {
        assert !Finisher(s, h);
      }
    }
  }

  lemma {:induction false} StuckRun(s: State, steps: seq<Step>)
    requires Stuck(s) && Runs(s, steps) && OrderlyRun(s, steps) && OnTheirOwn(steps)
    ensures After(s, steps).parent == AwaitingChildren && After(s, steps).wins == s.wins
    decreases |steps|
  {
    if steps != [] {
      StuckStep(s, steps[0]);
      hide Can, Do, Orderly;
      StuckRun(Do(s, steps[0]), steps[1..]);
    }
  }

  lemma EndsAfterOne(s: State, a: Step, steps: seq<Step>)
    requires Can(s, a) && Orderly(s, a) && OnTheirOwn([a]) && Ends(Do(s, a), steps)
    ensures Ends(s, [a] + steps)
  {
    hide Can, Do, Orderly;
    assert [a][0] == a && ([a] + steps)[1..] == steps;
  }

  lemma OneStepEnds(s: State, a: Step)
    requires a.Guard? || a.FailParent?
    requires Can(s, a) && Orderly(s, a) && Do(s, a).parent != AwaitingChildren
    ensures Ends(s, [a])
  {
    OneStep(s, a);
    hide Can, Do, Orderly;
    assert [a][1..] == [] && OrderlyRun(Do(s, a), [a][1..]);
  }

  lemma MarkedEnds(s: State, h: nat)
    requires s.parent == AwaitingChildren && At(s, h, Marked) && (s.handlers[h].ok ==> AllCompleted(s))
    ensures exists steps :: Ends(s, steps)
  {
    if s.handlers[h].ok {
      OneStepEnds(Do(s, List(h)), Guard(h));
      EndsAfterOne(s, List(h), [Guard(h)]);
    } else {
      OneStepEnds(s, FailParent(h));
    }
  }

  lemma FinisherEnds(s: State, h: nat)
    requires s.parent == AwaitingChildren && AllTerminal(s) && Finisher(s, h)
    ensures exists steps :: Ends(s, steps)
  {
    if s.handlers[h].pc == Listed {
      OneStepEnds(s, Guard(h));
    } else if s.handlers[h].pc == Marked {
      MarkedEnds(s, h);
    } else {
      var t := Do(s, Mark(h));
      assert t.children == s.children;
      MarkedEnds(t, h);
      var steps :| Ends(t, steps);
      EndsAfterOne(s, Mark(h), steps);
    }
  }

  /** A parent that waits for children that are all over stops waiting by its handlers' work, in some
      continuation, exactly if a handler is on its way to end the wait. */
  lemma WaitEndsIff(s: State)
    requires s.parent == AwaitingChildren && AllTerminal(s)
    ensures (exists steps :: Ends(s, steps)) <==> exists h :: Finisher(s, h)
  {
    if h :| Finisher(s, h) {
      FinisherEnds(s, h);
    } else {
      forall steps ensures !Ends(s, steps) {
        if Runs(s, steps) && OrderlyRun(s, steps) && OnTheirOwn(steps) {
          StuckRun(s, steps);
        }
      }
    }
  }

  /** With no handler in flight and every child over, whether completed, failed or cancelled, a
      waiting parent waits for ever. */
  lemma QuietWaveHangs(s: State, steps: seq<Step>)
    requires s.parent == AwaitingChildren && AllTerminal(s) && Quiet(s)
    requires Runs(s, steps) && OrderlyRun(s, steps) && OnTheirOwn(steps)
    ensures After(s, steps).parent == AwaitingChildren && After(s, steps).wins == s.wins
  {
    StuckRun(s, steps);
  }

  /** After every orderly run, once no handler is in flight and every child is over: the parent is
      left waiting for ever exactly if a child failed or was cancelled and nothing else moved the
      parent. */
  lemma LostWaveHangsIff(s: State, steps: seq<Step>)
    requires Initial(s) && Runs(s, steps) && OrderlyRun(s, steps)
    requires var t := After(s, steps); Quiet(t) && AllTerminal(t) && t.wave.announced
    ensures var t := After(s, steps);
            (t.parent == AwaitingChildren && forall more :: !Ends(t, more)) <==> AnyLost(t) && !t.wave.moved
  {
    var t := After(s, steps);
    WaveOutcome(s, steps);
    if t.parent == AwaitingChildren {
      assert NoFinisher(t);
      hide Runs, After, OrderlyRun;
      WaitEndsIff(t);
    }
  }

  /** The handler of a success that will still look at the siblings. */
  predicate OnTheWay(s: State, h: nat) {
    h < |s.handlers|
    && var r := s.handlers[h];
    r.pc == Listed || (r.ok && (r.pc == Marked || (r.pc == Read && r.child in s.children)))
  }

  predicate NobodyOnTheWay(s: State) {
    forall h :: 0 <= h < |s.handlers| ==> !OnTheWay(s, h)
  }

  lemma IdleStep(s: State, step: Step)
    requires AllCompleted(s) && NobodyOnTheWay(s)
    requires Can(s, step) && Orderly(s, step) && !step.SaveChild?
    ensures var t := Do(s, step); AllCompleted(t) && NobodyOnTheWay(t) && t.wins == s.wins
  {
    var t := Do(s, step);
    assert step.Mark? || step.List? || step.Guard? ==> !OnTheWay(s, step.h);
    forall h | 0 <= h < |t.handlers| ensures !OnTheWay(t, h) {
      if h < |s.handlers| {
        assert !OnTheWay(s, h);
      }
    }
  }

  lemma {:induction false} IdleRun(s: State, steps: seq<Step>)
    requires AllCompleted(s) && NobodyOnTheWay(s)
    requires Runs(s, steps) && OrderlyRun(s, steps)
    requires forall i :: 0 <= i < |steps| ==> !steps[i].SaveChild?
    ensures After(s, steps).wins == s.wins
    decreases |steps|
  {
    if steps != [] {
      IdleStep(s, steps[0]);
      hide Can, Do, Orderly, AllCompleted, NobodyOnTheWay;
      IdleRun(Do(s, steps[0]), steps[1..]);
    }
  }

  /** An orderly run that schedules the parent without another child. */
  predicate SchedulesAsIs(s: State, steps: seq<Step>) {
    Schedules(s, steps) && forall i :: 0 <= i < |steps| ==> !steps[i].SaveChild?
  }

  lemma SchedulesAfterOne(s: State, a: Step, steps: seq<Step>)
    requires Can(s, a) && Orderly(s, a) && Do(s, a).wins == s.wins && Schedules(Do(s, a), steps)
    ensures Schedules(s, [a] + steps)
  {
    hide Can, Do, Orderly;
    assert ([a] + steps)[1..] == steps;
  }

  lemma OnTheWaySchedules(s: State, h: nat)
    requires s.parent == AwaitingChildren && AllCompleted(s) && OnTheWay(s, h)
    ensures exists steps :: SchedulesAsIs(s, steps)
  {
    if s.handlers[h].pc == Read {
      LastLookerSchedules(Do(s, Mark(h)), h);
      SchedulesAfterOne(s, Mark(h), [List(h), Guard(h)]);
      assert SchedulesAsIs(s, [Mark(h)] + [List(h), Guard(h)]);
    } else if s.handlers[h].pc == Marked {
      LastLookerSchedules(s, h);
      assert SchedulesAsIs(s, [List(h), Guard(h)]);
    } else {
      OneStep(s, Guard(h));
      assert OrderlyRun(Do(s, Guard(h)), [Guard(h)][1..]);
      assert SchedulesAsIs(s, [Guard(h)]);
    }
  }

  /** A waiting parent without unfinished children, as after an empty list of children, is still
      scheduled in some continuation exactly if a handler of an earlier success is on its way. */
  lemma EmptyWaveIff(s: State)
    requires s.parent == AwaitingChildren && AllCompleted(s)
    ensures (exists steps :: SchedulesAsIs(s, steps)) <==> exists h :: OnTheWay(s, h)
  {
    if h :| OnTheWay(s, h) {
      OnTheWaySchedules(s, h);
    } else {
      forall steps: seq<Step> ensures !SchedulesAsIs(s, steps) {
        if Runs(s, steps) && OrderlyRun(s, steps) && forall i :: 0 <= i < |steps| ==> !steps[i].SaveChild? {
          IdleRun(s, steps);
        }
      }
    }
  }

  // ---- contradicting results ----

  function Unfinished(s: State): set<string> {
    set c | c in s.children && s.children[c] != Completed
  }

  lemma NoneUnfinished(s: State)
    requires Unfinished(s) == {}
    ensures AllCompleted(s)
  {
    forall c | c in s.children ensures s.children[c] == Completed {
      assert c !in Unfinished(s);
    }
  }

  /** A report of success for an unfinished child, read and marked. */
  lemma CompleteChild(s: State, c: string) returns (t: State)
    requires c in Unfinished(s) && !Lost(s.children[c])
    ensures var a, b := Arrive(c, true), Mark(|s.handlers|);
            && Can(s, a) && Orderly(s, a) && Can(Do(s, a), b) && Orderly(Do(s, a), b) && t == Do(Do(s, a), b)
    ensures t.children == s.children[c := Completed] && Unfinished(t) == Unfinished(s) - {c}
    ensures t.handlers == s.handlers + [Handler(c, true, Marked)] && t.parent == s.parent && t.wins == s.wins
  {
    t := Do(Do(s, Arrive(c, true)), Mark(|s.handlers|));
  }

  /** If no child is lost, its unfinished children can all still complete, and then the handler
      schedules the parent. */
  lemma {:induction false} CanStillSchedule(s: State, g: nat)
    requires s.parent == AwaitingChildren && At(s, g, Marked) && s.handlers[g].ok
    requires forall c :: c in s.children ==> !Lost(s.children[c])
    ensures exists steps :: Schedules(s, steps)
    decreases |Unfinished(s)|
  {
    if c :| c in Unfinished(s) {
      hide Schedules, Can, Do, Orderly;
      var s2 := CompleteChild(s, c);
      assert s2.handlers[g] == s.handlers[g];
      CanStillSchedule(s2, g);
      var steps :| Schedules(s2, steps);
      SchedulesAfterTwo(s, Arrive(c, true), Mark(|s.handlers|), steps);
    } else {
      NoneUnfinished(s);
      LastLookerSchedules(s, g);
    }
  }

  /** A success written over a failure or a cancellation while the parent waits: the parent can
      still be scheduled exactly if no other child is lost. */
  lemma ContradictingIff(s: State, g: nat)
    requires Inv(s) && s.parent == AwaitingChildren
    requires Can(s, Mark(g)) && s.handlers[g].ok && Lost(s.children[s.handlers[g].child])
    ensures (exists steps :: Schedules(Do(s, Mark(g)), steps)) <==>
            forall c :: c in s.children && c != s.handlers[g].child ==> !Lost(s.children[c])
  {
    var d, t := s.handlers[g].child, Do(s, Mark(g));
    assert !AllCompleted(s) && NoneListed(s);
    if forall c :: c in s.children && c != d ==> !Lost(s.children[c]) {
      CanStillSchedule(t, g);
    } else {
      var c :| c in s.children && c != d && Lost(s.children[c]);
      assert c in t.children && Lost(t.children[c]) && NoneListed(t);
      forall steps ensures !Schedules(t, steps) {
        if Runs(t, steps) && OrderlyRun(t, steps) {
          NoSchedulingAfterLoss(t, steps, c);
        }
      }
    }
  }

  // ---- runs from the start that reach the failing states ----

  lemma {:induction false} Extend(s: State, steps: seq<Step>, step: Step)
    requires Runs(s, steps) && OrderlyRun(s, steps)
    requires Can(After(s, steps), step) && Orderly(After(s, steps), step)
    ensures Runs(s, steps + [step]) && OrderlyRun(s, steps + [step])
    ensures After(s, steps + [step]) == Do(After(s, steps), step)
    decreases |steps|
  {
    hide Can, Do, Orderly;
    if steps == [] {
      assert steps + [step] == [step] && [step][1..] == [];
    } else {
      assert (steps + [step])[1..] == steps[1..] + [step];
      Extend(Do(s, steps[0]), steps[1..], step);
    }
  }

  lemma NobodyLeft(t: State, c: string, status: Status)
    requires t.parent == AwaitingChildren && t.handlers == [] && t.children == map[c := status] && Lost(status)
    ensures forall more :: !Ends(t, more)
  {
    hide Ends;
    WaitEndsIff(t);
  }

  lemma OneAnnounced(s: State, c: string) returns (steps: seq<Step>)
    requires Initial(s)
    ensures Runs(s, steps) && OrderlyRun(s, steps)
    ensures var t := After(s, steps);
            t.parent == AwaitingChildren && t.children == map[c := Pending] && t.handlers == []
  {
    steps := [];
    assert Runs(s, steps) && OrderlyRun(s, steps) && After(s, steps) == s;
    hide Runs, After, OrderlyRun;
    Extend(s, steps, SaveChild(c));
    steps := steps + [SaveChild(c)];
    assert After(s, steps).children[c] == Pending;
    Extend(s, steps, Await);
    steps := steps + [Await];
  }

  /** A child failed by the dispatcher or cancelled leaves its parent waiting for ever, in a run from
      the start. */
  lemma LossHangs(s: State, c: string, status: Status) returns (steps: seq<Step>)
    requires Initial(s) && Lost(status)
    ensures Runs(s, steps) && OrderlyRun(s, steps)
    ensures var t := After(s, steps);
            t.parent == AwaitingChildren && t.children == map[c := status] && forall more :: !Ends(t, more)
  {
    hide Runs, After, OrderlyRun, Ends;
    steps := OneAnnounced(s, c);
    Extend(s, steps, ChildWrite(c, status));
    steps := steps + [ChildWrite(c, status)];
    NobodyLeft(After(s, steps), c, status);
  }

  lemma Announced(s: State) returns (steps: seq<Step>)
    requires Initial(s)
    ensures Runs(s, steps) && OrderlyRun(s, steps)
    ensures var t := After(s, steps);
            && t.parent == AwaitingChildren && t.children == map["a" := Pending, "b" := Pending]
            && t.handlers == [] && t.wins == 0
  {
    steps := [];
    assert Runs(s, steps) && OrderlyRun(s, steps) && After(s, steps) == s;
    hide Runs, After, OrderlyRun;
    Extend(s, steps, SaveChild("a"));
    steps := steps + [SaveChild("a")];
    Extend(s, steps, SaveChild("b"));
    steps := steps + [SaveChild("b")];
    assert After(s, steps).children["a"] == Pending;
    Extend(s, steps, Await);
    steps := steps + [Await];
  }

  /** Two children complete and both handlers list before either reaches the guard. */
  lemma TwoListings(s: State) returns (steps: seq<Step>)
    requires Initial(s)
    ensures Runs(s, steps) && OrderlyRun(s, steps)
    ensures var t := After(s, steps);
            && t.parent == AwaitingChildren && t.children == map["a" := Completed, "b" := Completed]
            && t.handlers == [Handler("a", true, Listed), Handler("b", true, Listed)] && t.wins == 0
  {
    hide Runs, After, OrderlyRun;
    steps := Announced(s);
    Extend(s, steps, Arrive("a", true));
    steps := steps + [Arrive("a", true)];
    Extend(s, steps, Arrive("b", true));
    steps := steps + [Arrive("b", true)];
    Extend(s, steps, Mark(0));
    steps := steps + [Mark(0)];
    Extend(s, steps, Mark(1));
    steps := steps + [Mark(1)];
    assert After(s, steps).children == map["a" := Completed, "b" := Completed];
    Extend(s, steps, List(0));
    steps := steps + [List(0)];
    Extend(s, steps, List(1));
    steps := steps + [List(1)];
  }

  /** An orderly run from the start reaches a state in which announcing the next wave is not safe. */
  lemma UnsafeWaveIsReached(s: State) returns (steps: seq<Step>)
    requires Initial(s)
    ensures Runs(s, steps) && OrderlyRun(s, steps)
    ensures var t := After(s, steps);
            && Inv(t) && t.parent == Running && !AllCompleted(t) && !NoneListed(t)
            && exists more :: Breaks(Do(t, Await), more)
  {
    steps := TwoListings(s);
    InitialInv(s);
    hide Runs, After, OrderlyRun, Inv;
    Extend(s, steps, Guard(0));
    steps := steps + [Guard(0)];
    Extend(s, steps, ParentWrite(Running));
    steps := steps + [ParentWrite(Running)];
    Extend(s, steps, SaveChild("c"));
    steps := steps + [SaveChild("c")];
    var t := After(s, steps);
    assert t.children["c"] == Pending && t.handlers[1].pc == Listed;
    RunKeepsInv(s, steps);
    WaveSafeIff(t);
  }
}
