/** Duplicate suppression for artifact downloads: concurrent callers of one key share a single
    execution. Every critical section, the function call itself and every wake-up is a step, and
    the steps of all goroutines interleave freely. */
module SingleFlight {
  import opened Base

  /** How the given function ended: with a value or error, by panic, or by runtime.Goexit. */
  datatype Outcome<T> = Returned(val: T) | Panicked | Exited

  /** Ran: c.val and c.err are set; Finished: the deferred section has run. */
  datatype Phase<T> = Executing | Ran(outcome: Outcome<T>) | Finished(outcome: Outcome<T>)

  datatype Call<T> = Call(key: string, phase: Phase<T>, dups: nat, chans: seq<nat>)

  /** Owner and Waiter came through Do, Channel through DoChan. */
  datatype Kind = Owner | Waiter | Channel

  datatype Got<T> = Got(outcome: Outcome<T>, shared: bool)

  datatype Caller<T> = Caller(kind: Kind, call: nat, got: Option<Got<T>>)

  /** crashed: a panic that must not be recovered has taken the process down. */
  datatype State<T> = State(
    m: map<string, nat>, calls: seq<Call<T>>, callers: seq<Caller<T>>, forgets: map<string, nat>, crashed: bool)

  datatype Step<T> =
    | Do(key: string)
    | DoChan(key: string)
    | Return(c: nat, outcome: Outcome<T>)   // fn ends
    | Finish(c: nat)                        // the deferred section of doCall
    | Resume(i: nat)                        // a caller of Do gets past the wait, or past doCall
    | Forget(key: string)

  function Forgets<T>(s: State<T>, key: string): nat {
    if key in s.forgets then s.forgets[key] else 0
  }

  predicate Can<T(==)>(s: State<T>, step: Step<T>) {
    && !s.crashed
    && match step
       case Return(c, _) => c < |s.calls| && s.calls[c].phase.Executing?
       case Finish(c) => c < |s.calls| && s.calls[c].phase.Ran?
       case Resume(i) =>
         && i < |s.callers| && s.callers[i].kind != Channel && s.callers[i].got.None?
         && s.callers[i].call < |s.calls| && s.calls[s.callers[i].call].phase.Finished?
       case _ => true
  }

  /** Joins the call in flight for the key, or starts one. */
  function Enter<T>(s: State<T>, key: string, viaChannel: bool): State<T> {
    var i := |s.callers|;
    var chans := if viaChannel then [i] else [];
    if key in s.m && s.m[key] < |s.calls| then
      var c := s.m[key];
      s.(calls := s.calls[c := s.calls[c].(dups := s.calls[c].dups + 1, chans := s.calls[c].chans + chans)],
         callers := s.callers + [Caller(if viaChannel then Channel else Waiter, c, None)])
    else
      s.(m := s.m[key := |s.calls|],
         calls := s.calls + [Call(key, Executing, 0, chans)],
         callers := s.callers + [Caller(if viaChannel then Channel else Owner, |s.calls|, None)])
  }

  /** Sends the result to every channel of a call. */
  function Deliver<T>(callers: seq<Caller<T>>, chans: seq<nat>, got: Got<T>): (r: seq<Caller<T>>)
    ensures |r| == |callers|
    ensures forall i :: 0 <= i < |r| ==> r[i] == if i in chans then callers[i].(got := Some(got)) else callers[i]
  {
    seq(|callers|, i requires 0 <= i < |callers| => if i in chans then callers[i].(got := Some(got)) else callers[i])
  }

  function FinishCall<T>(s: State<T>, c: nat): State<T>
    requires c < |s.calls| && s.calls[c].phase.Ran?
  {
    var call := s.calls[c];
    var o := call.phase.outcome;
    s.(calls := s.calls[c := call.(phase := Finished(o))],
       m := if call.key in s.m && s.m[call.key] == c then s.m - {call.key} else s.m,
       callers := if o.Returned? then Deliver(s.callers, call.chans, Got(o, call.dups > 0)) else s.callers,
       crashed := o.Panicked? && call.chans != [])
  }

  function After<T(==)>(s: State<T>, step: Step<T>): State<T>
    requires Can(s, step)
  {
    match step
    case Do(key) => Enter(s, key, false)
    case DoChan(key) => Enter(s, key, true)
    case Return(c, o) => s.(calls := s.calls[c := s.calls[c].(phase := Ran(o))])
    case Finish(c) => FinishCall(s, c)
    case Resume(i) =>
      var r := s.callers[i];
      var call := s.calls[r.call];
      s.(callers := s.callers[i := r.(got := Some(Got(call.phase.outcome, r.kind == Waiter || call.dups > 0)))])
    case Forget(key) => s.(m := s.m - {key}, forgets := s.forgets[key := Forgets(s, key) + 1])
  }

  predicate Runs<T(==)>(s: State<T>, steps: seq<Step<T>>)
    decreases |steps|
  {
    steps == [] || (Can(s, steps[0]) && Runs(After(s, steps[0]), steps[1..]))
  }

  function Final<T(==)>(s: State<T>, steps: seq<Step<T>>): State<T>
    requires Runs(s, steps)
    decreases |steps|
  {
    if steps == [] then s else Final(After(s, steps[0]), steps[1..])
  }

  // ---- invariants ----

  /** A call in the map belongs to its key and is not finished. */
  predicate MapOk<T>(s: State<T>) {
    forall k :: k in s.m ==> s.m[k] < |s.calls| && s.calls[s.m[k]].key == k && !s.calls[s.m[k]].phase.Finished?
  }

  /** Calls of a key that are not finished. */
  function Live<T>(calls: seq<Call<T>>, key: string): nat {
    if calls == [] then 0
    else
      var n := |calls| - 1;
      Live(calls[..n], key) + if calls[n].key == key && !calls[n].phase.Finished? then 1 else 0
  }

  predicate FewLive<T>(s: State<T>, key: string) {
    Live(s.calls, key) <= Forgets(s, key) + if key in s.m then 1 else 0
  }

  /** The callers that joined a call. */
  function Joined<T>(callers: seq<Caller<T>>, c: nat): nat {
    if callers == [] then 0
    else
      var n := |callers| - 1;
      Joined(callers[..n], c) + if callers[n].call == c then 1 else 0
  }

  predicate CallOk<T>(s: State<T>, c: nat)
    requires c < |s.calls|
  {
    && Joined(s.callers, c) == s.calls[c].dups + 1
    && forall i :: i in s.calls[c].chans ==> i < |s.callers| && s.callers[i].kind == Channel && s.callers[i].call == c
  }

  predicate CallerOk<T(==)>(s: State<T>, i: nat)
    requires i < |s.callers|
  {
    var r := s.callers[i];
    && r.call < |s.calls|
    && var call := s.calls[r.call];
       && (r.kind == Channel ==> i in call.chans)
       && (r.kind == Waiter ==> call.dups > 0)
       && (r.got.Some? ==> call.phase.Finished? && r.got.value == Got(call.phase.outcome, call.dups > 0))
       && (r.kind == Channel && call.phase.Finished? ==> (r.got.Some? <==> call.phase.outcome.Returned?))
  }

  ghost predicate Inv<T>(s: State<T>) {
    && MapOk(s)
    && (forall k :: FewLive(s, k))
    && (forall c :: 0 <= c < |s.calls| ==> CallOk(s, c))
    && (forall i :: 0 <= i < |s.callers| ==> CallerOk(s, i))
  }

  // ---- counting ----

  lemma {:induction false} LiveSet<T>(calls: seq<Call<T>>, c: nat, call: Call<T>, key: string)
    requires c < |calls| && call.key == calls[c].key
    ensures Live(calls[c := call], key) ==
            Live(calls, key)
            + (if call.key == key && !call.phase.Finished? then 1 else 0)
            - (if call.key == key && !calls[c].phase.Finished? then 1 else 0)
    decreases |calls|
  {
    var n := |calls| - 1;
    if c == n {
      assert calls[c := call][..n] == calls[..n];
    } else {
      assert calls[c := call][..n] == calls[..n][c := call];
      LiveSet(calls[..n], c, call, key);
    }
  }

  lemma LivePush<T>(calls: seq<Call<T>>, call: Call<T>, key: string)
    ensures Live(calls + [call], key) == Live(calls, key) + if call.key == key && !call.phase.Finished? then 1 else 0
  {
    DropLast(calls, call);
  }

  lemma JoinedPush<T>(callers: seq<Caller<T>>, r: Caller<T>, c: nat)
    ensures Joined(callers + [r], c) == Joined(callers, c) + if r.call == c then 1 else 0
  {
    DropLast(callers, r);
  }

  lemma {:induction false} JoinedSame<T>(a: seq<Caller<T>>, b: seq<Caller<T>>, c: nat)
    requires |a| == |b| && forall i :: 0 <= i < |a| ==> a[i].call == b[i].call
    ensures Joined(a, c) == Joined(b, c)
    decreases |a|
  {
    if a != [] {
      JoinedSame(a[..|a| - 1], b[..|b| - 1], c);
    }
  }

  lemma {:induction false} JoinedNone<T>(callers: seq<Caller<T>>, c: nat)
    requires forall i :: 0 <= i < |callers| ==> callers[i].call < c
    ensures Joined(callers, c) == 0
    decreases |callers|
  {
    if callers != [] {
      JoinedNone(callers[..|callers| - 1], c);
    }
  }

  // ---- every step keeps the invariant ----

  lemma JoinKeeps<T>(s: State<T>, key: string, viaChannel: bool)
    requires Inv(s) && key in s.m
    ensures Inv(Enter(s, key, viaChannel))
  {
    hide Live, Joined;
    var t := Enter(s, key, viaChannel);
    var c := s.m[key];
    forall k ensures FewLive(t, k) {
      assert FewLive(s, k);
      LiveSet(s.calls, c, t.calls[c], k);
    }
    forall d | 0 <= d < |t.calls| ensures CallOk(t, d) {
      assert CallOk(s, d);
      JoinedPush(s.callers, t.callers[|s.callers|], d);
    }
    forall i | 0 <= i < |t.callers| ensures CallerOk(t, i) {
      if i < |s.callers| {
        assert CallerOk(s, i);
      }
    }
  }

  lemma StartKeeps<T>(s: State<T>, key: string, viaChannel: bool)
    requires Inv(s) && key !in s.m
    ensures Inv(Enter(s, key, viaChannel))
  {
    hide Live, Joined;
    var t := Enter(s, key, viaChannel);
    var c := |s.calls|;
    forall k ensures FewLive(t, k) {
      assert FewLive(s, k);
      LivePush(s.calls, t.calls[c], k);
    }
    forall d | 0 <= d < |t.calls| ensures CallOk(t, d) {
      JoinedPush(s.callers, t.callers[|s.callers|], d);
      if d < c {
        assert CallOk(s, d);
      } else {
        forall i | 0 <= i < |s.callers| ensures s.callers[i].call < c {
          assert CallerOk(s, i);
        }
        JoinedNone(s.callers, c);
      }
    }
    forall i | 0 <= i < |t.callers| ensures CallerOk(t, i) {
      if i < |s.callers| {
        assert CallerOk(s, i);
      }
    }
  }

  lemma ReturnKeeps<T>(s: State<T>, c: nat, o: Outcome<T>)
    requires Inv(s) && Can(s, Return(c, o))
    ensures Inv(After(s, Return(c, o)))
  {
    hide Live, Joined;
    var t := After(s, Return(c, o));
    forall k ensures FewLive(t, k) {
      assert FewLive(s, k);
      LiveSet(s.calls, c, t.calls[c], k);
    }
    forall d | 0 <= d < |t.calls| ensures CallOk(t, d) {
      assert CallOk(s, d);
    }
    forall i | 0 <= i < |t.callers| ensures CallerOk(t, i) {
      assert CallerOk(s, i);
    }
  }

  lemma FinishKeeps<T>(s: State<T>, c: nat)
    requires Inv(s) && Can(s, Finish(c))
    ensures Inv(FinishCall(s, c))
  {
    hide Live, Joined;
    var t := FinishCall(s, c);
    forall k ensures FewLive(t, k) {
      assert FewLive(s, k);
      LiveSet(s.calls, c, t.calls[c], k);
    }
    forall d | 0 <= d < |t.calls| ensures CallOk(t, d) {
      assert CallOk(s, d);
      JoinedSame(s.callers, t.callers, d);
    }
    assert CallOk(s, c);
    forall i | 0 <= i < |t.callers| ensures CallerOk(t, i) {
      assert CallerOk(s, i);
    }
  }

  lemma ResumeKeeps<T>(s: State<T>, i: nat)
    requires Inv(s) && Can(s, Resume(i))
    ensures Inv(After(s, Resume(i)))
  {
    hide Live, Joined;
    var t := After(s, Resume(i));
    forall k ensures FewLive(t, k) {
      assert FewLive(s, k);
    }
    forall d | 0 <= d < |t.calls| ensures CallOk(t, d) {
      assert CallOk(s, d);
      JoinedSame(s.callers, t.callers, d);
    }
    forall j | 0 <= j < |t.callers| ensures CallerOk(t, j) {
      assert CallerOk(s, j);
    }
  }

  lemma ForgetKeeps<T>(s: State<T>, key: string)
    requires Inv(s) && Can(s, Forget(key))
    ensures Inv(After(s, Forget(key)))
  {
    hide Live, Joined;
    var t := After(s, Forget(key));
    forall k ensures FewLive(t, k) {
      assert FewLive(s, k);
    }
    forall d | 0 <= d < |t.calls| ensures CallOk(t, d) {
      assert CallOk(s, d);
    }
    forall j | 0 <= j < |t.callers| ensures CallerOk(t, j) {
      assert CallerOk(s, j);
    }
  }

  lemma StepKeepsInv<T>(s: State<T>, step: Step<T>)
    requires Inv(s) && Can(s, step)
    ensures Inv(After(s, step))
  {
    match step
    case Do(key) => { if key in s.m { JoinKeeps(s, key, false); } else { StartKeeps(s, key, false); } }
    case DoChan(key) => { if key in s.m { JoinKeeps(s, key, true); } else { StartKeeps(s, key, true); } }
    case Return(c, o) => { ReturnKeeps(s, c, o); }
    case Finish(c) => { FinishKeeps(s, c); }
    case Resume(i) => { ResumeKeeps(s, i); }
    case Forget(key) => { ForgetKeeps(s, key); }
  }

  predicate Initial<T>(s: State<T>) {
    s.m == map[] && s.calls == [] && s.callers == [] && s.forgets == map[] && !s.crashed
  }

  lemma {:induction false} RunKeepsInv<T>(s: State<T>, steps: seq<Step<T>>)
    requires Inv(s) && Runs(s, steps)
    ensures Inv(Final(s, steps))
    decreases |steps|
  {
    hide Inv, Can, After;
    if steps != [] {
      StepKeepsInv(s, steps[0]);
      RunKeepsInv(After(s, steps[0]), steps[1..]);
    }
  }

  lemma EveryRun<T>(s: State<T>, steps: seq<Step<T>>)
    requires Initial(s) && Runs(s, steps)
    ensures Inv(Final(s, steps))
  {
    assert Inv(s);
    hide Inv, Runs, Final;
    RunKeepsInv(s, steps);
  }

  // ---- the promises ----

  /** How often the run forgets the key. */
  function ForgetSteps<T>(steps: seq<Step<T>>, key: string): nat {
    if steps == [] then 0 else One(steps[0] == Forget(key)) + ForgetSteps(steps[1..], key)
  }

  lemma {:induction false} ForgetsCounted<T>(s: State<T>, steps: seq<Step<T>>, key: string)
    requires Runs(s, steps)
    ensures Forgets(Final(s, steps), key) == Forgets(s, key) + ForgetSteps(steps, key)
    decreases |steps|
  {
    if steps != [] {
      assert Forgets(After(s, steps[0]), key) == Forgets(s, key) + One(steps[0] == Forget(key));
      hide After, Can, Forgets;
      ForgetsCounted(After(s, steps[0]), steps[1..], key);
    }
  }

  /** n forgets of a key allow at most n + 1 overlapping executions, and without any there is only
      the one in the map, which is not finished. */
  lemma OverlapBound<T>(s: State<T>, steps: seq<Step<T>>, key: string)
    requires Initial(s) && Runs(s, steps)
    ensures var t := Final(s, steps);
            && Live(t.calls, key) <= ForgetSteps(steps, key) + 1
            && (key in t.m ==> t.m[key] < |t.calls| && !t.calls[t.m[key]].phase.Finished?)
            && (key !in t.m ==> Live(t.calls, key) <= ForgetSteps(steps, key))
  {
    EveryRun(s, steps);
    ForgetsCounted(s, steps, key);
    hide Runs, Final, Live;
    assert FewLive(Final(s, steps), key);
  }

  /** Whoever gets a result gets that of the call they joined: the same for all, marked as shared
      exactly if somebody else joined too. A channel gets one exactly if the function returned. */
  lemma ResultsAgree<T>(s: State<T>, steps: seq<Step<T>>, i: nat)
    requires Initial(s) && Runs(s, steps) && i < |Final(s, steps).callers|
    ensures var t := Final(s, steps);
            var r := t.callers[i];
            && r.call < |t.calls|
            && (r.got.Some? ==>
                  && t.calls[r.call].phase == Finished(r.got.value.outcome)
                  && (r.got.value.shared <==> Joined(t.callers, r.call) >= 2))
            && (r.kind == Channel && t.calls[r.call].phase.Finished? ==>
                  (r.got.Some? <==> t.calls[r.call].phase.outcome.Returned?))
  {
    EveryRun(s, steps);
    hide Runs, Final, Joined;
    var t := Final(s, steps);
    assert CallerOk(t, i);
    assert CallOk(t, t.callers[i].call);
  }

  /** Finishing a call takes exactly that call out of the map; a newer one for its key stays. */
  lemma FinishRemovesOnlyItself<T>(s: State<T>, c: nat, k: string)
    requires Inv(s) && Can(s, Finish(c))
    ensures var t := After(s, Finish(c));
            && (k in t.m <==> k in s.m && s.m[k] != c)
            && (k in t.m ==> t.m[k] == s.m[k])
  {
  }

  /** After a Forget the next caller starts a new execution instead of joining the old one. */
  lemma ForgetStartsAfresh<T>(s: State<T>, key: string)
    requires Inv(s) && !s.crashed
    ensures var t := After(After(s, Forget(key)), Do(key));
            && |t.calls| == |s.calls| + 1 && t.calls[..|s.calls|] == s.calls
            && t.callers == s.callers + [Caller(Owner, |s.calls|, None)]
  {
  }

  // ---- everybody is served ----

  /** The deferred section takes the process down exactly if the function panicked and a channel is
      waiting, which would block for ever. */
  lemma CrashIff<T>(s: State<T>, c: nat)
    requires Inv(s) && Can(s, Finish(c))
    ensures After(s, Finish(c)).crashed <==>
            s.calls[c].phase.outcome.Panicked?
            && exists i :: 0 <= i < |s.callers| && s.callers[i].kind == Channel && s.callers[i].call == c
  {
    assert CallOk(s, c);
    if s.calls[c].chans != [] {
      assert s.calls[c].chans[0] in s.calls[c].chans;
    }
    forall i | 0 <= i < |s.callers| && s.callers[i].kind == Channel && s.callers[i].call == c
      ensures i in s.calls[c].chans
    {
      assert CallerOk(s, i);
    }
    hide Joined;
  }

  lemma StepThen<T>(s: State<T>, step: Step<T>, rest: seq<Step<T>>)
    requires Can(s, step) && Runs(After(s, step), rest)
    ensures Runs(s, [step] + rest) && Final(s, [step] + rest) == Final(After(s, step), rest)
  {
    hide Can, After;
    assert ([step] + rest)[1..] == rest;
  }

  lemma ThreeSteps<T>(s: State<T>, a: Step<T>, b: Step<T>, c: Step<T>)
    requires Can(s, a) && Can(After(s, a), b) && Can(After(After(s, a), b), c)
    ensures Runs(s, [a, b, c]) && Final(s, [a, b, c]) == After(After(After(s, a), b), c)
  {
    var s1 := After(s, a);
    var s2 := After(s1, b);
    var s3 := After(s2, c);
    assert Runs(s3, []) && Final(s3, []) == s3;
    hide Can, After, Runs, Final;
    StepThen(s2, c, []);
    StepThen(s1, b, [c] + []);
    StepThen(s, a, [b] + ([c] + []));
    assert [a] + ([b] + ([c] + [])) == [a, b, c];
  }

  /** Whoever waits for a running call gets what the function ends with, however it ends, as soon as
      the call is finished and they are scheduled, unless a panic took the process down. */
  lemma WaiterIsServed<T>(s: State<T>, i: nat, o: Outcome<T>)
    requires Inv(s) && !s.crashed && i < |s.callers| && s.callers[i].kind != Channel && s.callers[i].got.None?
    requires var c := s.callers[i].call; c < |s.calls| && s.calls[c].phase.Executing?
    requires o.Panicked? ==> s.calls[s.callers[i].call].chans == []
    ensures var c := s.callers[i].call;
            var steps := [Return(c, o), Finish(c), Resume(i)];
            && Runs(s, steps) && i < |Final(s, steps).callers|
            && Final(s, steps).callers[i].got == Some(Got(o, s.calls[c].dups > 0))
  {
    var c := s.callers[i].call;
    var s1 := After(s, Return(c, o));
    var s2 := After(s1, Finish(c));
    assert CallerOk(s, i) && CallOk(s, c);
    hide Inv, Joined;
    assert s2.callers[i] == s.callers[i];
    ThreeSteps(s, Return(c, o), Finish(c), Resume(i));
  }

  /** A channel has its result as soon as the call is finished. */
  lemma ChannelIsServed<T>(s: State<T>, i: nat, v: T)
    requires Inv(s) && !s.crashed && i < |s.callers| && s.callers[i].kind == Channel
    requires var c := s.callers[i].call; c < |s.calls| && s.calls[c].phase.Executing?
    ensures var c := s.callers[i].call;
            Can(s, Return(c, Returned(v))) && Can(After(s, Return(c, Returned(v))), Finish(c))
    ensures var c := s.callers[i].call;
            var t := After(After(s, Return(c, Returned(v))), Finish(c));
            t.callers[i].got == Some(Got(Returned(v), s.calls[c].dups > 0)) && !t.crashed
  {
    assert CallerOk(s, i);
    hide Inv, Joined;
  }
}
