/** A run of the store in which a webhook identifier is used twice and a crash brings back a value
    the webhook never had: why the crash theorem asks for fresh identifiers. */
module StoreLimits {
  import opened Base
  import opened StoreModel
  import opened JournalCodec
  import opened StoreMachine
  import opened StoreRecovery

  lemma FoldPush(v: Option<Value>, es: seq<Entry>, e: Entry)
    requires Legal(v, es) && AcceptsAt(FoldAt(v, es), e)
    ensures FoldAt(v, es + [e]) == ApplyAt(FoldAt(v, es), e)
    ensures Legal(v, es + [e])
  {
    DropLast(es, e);
    LegalPush(v, es, e);
  }

  /** A delay of the first delivery on top of the second one is a value neither of them ever had. */
  lemma MixtureWasNeverHeld(a: Hook, b: Hook, attempts: int, next: int)
    requires a.id == b.id && a.fields != b.fields
    requires b.attempts != attempts
    ensures var es := [EnqueueHook(a), NackHook(a.id, attempts, next), AckHook(a.id), EnqueueHook(b)];
            var back := FoldAt(FoldAt(None, es), es[1..2]);
            && Legal(None, es)
            && back == Some(Hk(b.(attempts := attempts, nextAttemptAt := next)))
            && forall v :: 0 <= v <= 4 ==> FoldAt(None, es[..v]) != back
  {
    var e1, e2, e3, e4 := EnqueueHook(a), NackHook(a.id, attempts, next), AckHook(a.id), EnqueueHook(b);
    var es := [e1, e2, e3, e4];
    FoldPush(None, [], e1);
    assert [] + [e1] == [e1];
    FoldPush(None, [e1], e2);
    assert [e1] + [e2] == [e1, e2];
    FoldPush(None, [e1, e2], e3);
    assert [e1, e2] + [e3] == [e1, e2, e3];
    FoldPush(None, [e1, e2, e3], e4);
    assert [e1, e2, e3] + [e4] == es;
    FoldAtConcat(FoldAt(None, es), [], [e2]);
    assert [] + [e2] == [e2] && es[1..2] == [e2] && [e2][..0] == [];
    assert es[..0] == [] && es[..1] == [e1] && es[..2] == [e1, e2] && es[..3] == [e1, e2, e3] && es[..4] == es;
  }

  /** A change that is sent and waits in the channel. */
  lemma Changed(c: Codec<Entry>, st: State, e: Entry)
    requires Inv(c, st) && Can(c, st, Mutate(e))
    ensures Runs(c, st, [Mutate(e), Send(KeyOf(e))])
    ensures After(c, st, [Mutate(e), Send(KeyOf(e))]) ==
            st.(mem := Apply(st.mem, e), log := st.log + [e], sent := st.sent + [e], channel := st.channel + [e])
    ensures Inv(c, After(c, st, [Mutate(e), Send(KeyOf(e))]))
  {
    MutatorSteps(c, st, e);
    hide Inv;
    TwoSteps(c, st, Mutate(e), Send(KeyOf(e)));
  }

  /** A change that reaches the write buffer before anything else happens. */
  lemma WriteThrough(c: Codec<Entry>, st: State, e: Entry)
    requires Inv(c, st) && Can(c, st, Mutate(e)) && st.phase == Running && st.channel == []
    ensures Runs(c, st, [Mutate(e), Send(KeyOf(e)), Take])
    ensures After(c, st, [Mutate(e), Send(KeyOf(e)), Take]) ==
            st.(mem := Apply(st.mem, e), log := st.log + [e], sent := st.sent + [e], buffer := st.buffer + [e])
    ensures Inv(c, After(c, st, [Mutate(e), Send(KeyOf(e)), Take]))
  {
    Changed(c, st, e);
    hide Inv;
    var s2 := After(c, st, [Mutate(e), Send(KeyOf(e))]);
    TakeStep(c, s2);
    RunsConcat(c, st, [Mutate(e), Send(KeyOf(e))], [Take]);
    assert [Mutate(e), Send(KeyOf(e))] + [Take] == [Mutate(e), Send(KeyOf(e)), Take];
    assert [] + [e] == [e] && [e][1..] == [];
  }

  // ---- the run ----

  /** The state after both deliveries, when the second compaction has renamed its snapshot. */
  function Reused(c: Codec<Entry>, d: Disk, a: Hook, b: Hook, attempts: int, next: int): State {
    var e1, e2, e3, e4 := EnqueueHook(a), NackHook(a.id, attempts, next), AckHook(a.id), EnqueueHook(b);
    var m0 := Recover(c, d);
    var m1 := Apply(m0, e1);
    var m4 := Apply(Apply(Apply(m1, e2), e3), e4);
    State(d, m0, [e1, e2, e3, e4], m4, map[], [e1, e2, e3, e4], [e3, e4], [],
          [Rename(m0, 0), Truncate, Append(e1), Rename(m1, 1), Truncate, Append(e2), Rename(m4, 4)], 0, Renamed)
  }

  /** First delivery written and compacted away. */
  lemma FirstDelivery(c: Codec<Entry>, d: Disk, a: Hook) returns (steps: seq<Step>)
    ensures Runs(c, Open(c, d), steps) && Inv(c, After(c, Open(c, d), steps))
    ensures var m0, e1 := Recover(c, d), EnqueueHook(a);
            var m1 := Apply(m0, e1);
            After(c, Open(c, d), steps) ==
            State(d, m0, [e1], m1, map[], [e1], [], [],
                  [Rename(m0, 0), Truncate, Append(e1), Rename(m1, 1), Truncate], 0, Running)
  {
    var st, e1 := Open(c, d), EnqueueHook(a);
    OpenEstablishesInv(c, d);
    hide Inv, Recover;
    WriteThrough(c, st, e1);
    var w := [Mutate(e1), Send(KeyOf(e1)), Take];
    var s1 := After(c, st, w);
    Compacted(c, s1);
    RunsConcat(c, st, w, [StartCompact, RenameSnapshot] + [TruncateJournal]);
    steps := w + ([StartCompact, RenameSnapshot] + [TruncateJournal]);
    assert AppendOps([e1]) == [Append(e1)];
    assert [] + [e1] == [e1];
    var m0, m1 := st.mem, s1.mem;
    assert [Rename(m0, 0), Truncate] + [Append(e1)] + [Rename(m1, 1)] + [Truncate]
        == [Rename(m0, 0), Truncate, Append(e1), Rename(m1, 1), Truncate];
  }

  /** The delay of the first delivery is written; its acknowledgement and the second delivery only
      reach memory and the channel when the next compaction takes its snapshot. */
  lemma SecondDelivery(c: Codec<Entry>, st: State, a: Hook, b: Hook, attempts: int, next: int)
    returns (steps: seq<Step>)
    requires Inv(c, st) && st.phase == Running && st.channel == [] && st.buffer == [] && st.pending == map[]
    requires a.id == b.id && a.id in st.mem.webhooks
    ensures Runs(c, st, steps)
    ensures var e2, e3, e4 := NackHook(a.id, attempts, next), AckHook(a.id), EnqueueHook(b);
            var m4 := Apply(Apply(Apply(st.mem, e2), e3), e4);
            After(c, st, steps) ==
            st.(mem := m4, log := st.log + [e2] + [e3] + [e4], sent := st.sent + [e2] + [e3] + [e4],
                channel := [e3, e4], ops := st.ops + [Append(e2)] + [Rename(m4, |st.log| + 3)], phase := Renamed)
  {
    var e2, e3, e4 := NackHook(a.id, attempts, next), AckHook(a.id), EnqueueHook(b);
    hide Inv, Runs, After;
    WriteThrough(c, st, e2);
    steps := [Mutate(e2), Send(KeyOf(e2)), Take];
    var s2 := After(c, st, steps);
    Changed(c, s2, e3);
    RunsConcat(c, st, steps, [Mutate(e3), Send(KeyOf(e3))]);
    steps := steps + [Mutate(e3), Send(KeyOf(e3))];
    var s3 := After(c, st, steps);
    Changed(c, s3, e4);
    RunsConcat(c, st, steps, [Mutate(e4), Send(KeyOf(e4))]);
    steps := steps + [Mutate(e4), Send(KeyOf(e4))];
    var s4 := After(c, st, steps);
    Compacted(c, s4);
    RunsConcat(c, st, steps, [StartCompact, RenameSnapshot]);
    steps := steps + [StartCompact, RenameSnapshot];
    assert [] + [e2] == [e2] && AppendOps([e2]) == [Append(e2)];
    assert [] + [e3] + [e4] == [e3, e4];
  }

  /** The whole run reaches the state above. */
  lemma ReusedIsReached(c: Codec<Entry>, d: Disk, a: Hook, b: Hook, attempts: int, next: int) returns (steps: seq<Step>)
    requires a.id == b.id
    ensures Runs(c, Open(c, d), steps) && After(c, Open(c, d), steps) == Reused(c, d, a, b, attempts, next)
  {
    var first := FirstDelivery(c, d, a);
    hide Inv, Recover, Runs, After;
    var st := After(c, Open(c, d), first);
    assert a.id in st.mem.webhooks;
    var second := SecondDelivery(c, st, a, b, attempts, next);
    RunsConcat(c, Open(c, d), first, second);
    steps := first + second;
    var e1, e2, e3, e4 := EnqueueHook(a), NackHook(a.id, attempts, next), AckHook(a.id), EnqueueHook(b);
    assert [e1] + [e2] + [e3] + [e4] == [e1, e2, e3, e4];
    var m0, m1, m4 := st.init, st.mem, After(c, Open(c, d), steps).mem;
    assert [Rename(m0, 0), Truncate, Append(e1), Rename(m1, 1), Truncate] + [Append(e2)] + [Rename(m4, 4)]
        == [Rename(m0, 0), Truncate, Append(e1), Rename(m1, 1), Truncate, Append(e2), Rename(m4, 4)];
  }

  /** What the files of that state hold: the first line dropped, the second kept, all four changes
      in the snapshot. */
  lemma ReusedFiles(c: Codec<Entry>, d: Disk, a: Hook, b: Hook, attempts: int, next: int)
    ensures var st := Reused(c, d, a, b, attempts, next);
            && Appends(st.ops) == [EnqueueHook(a), NackHook(a.id, attempts, next)]
            && Dropped(st.ops) == 1 && SnapshotAt(st.ops) == 4
  {
    hide Recover, Apply, Appends, Dropped, SnapshotAt;
    var ops := Reused(c, d, a, b, attempts, next).ops;
    assert ops == [] + [ops[0]] + [ops[1]] + [ops[2]] + [ops[3]] + [ops[4]] + [ops[5]] + [ops[6]];
    OpsPush([], ops[0]);
    OpsPush([] + [ops[0]], ops[1]);
    OpsPush([] + [ops[0]] + [ops[1]], ops[2]);
    OpsPush([] + [ops[0]] + [ops[1]] + [ops[2]], ops[3]);
    OpsPush([] + [ops[0]] + [ops[1]] + [ops[2]] + [ops[3]], ops[4]);
    OpsPush([] + [ops[0]] + [ops[1]] + [ops[2]] + [ops[3]] + [ops[4]], ops[5]);
    OpsPush([] + [ops[0]] + [ops[1]] + [ops[2]] + [ops[3]] + [ops[4]] + [ops[5]], ops[6]);
    NoLines();
  }

  lemma RecoverIs(c: Codec<Entry>, st: State, kept: nat)
    requires kept <= |st.ops|
    ensures Recover(c, CrashDisk(c, st, kept, [])) ==
            Replay(DiskAfter(c, st.found, st.ops[..kept]).snapshot, Parse(c, CrashDisk(c, st, kept, []).journal))
  {
  }

  /** One line of a key dropped, one kept, and four changes in the snapshot. */
  lemma OneLineOverFour(c: Codec<Entry>, st: State, k: Key)
    requires Sound(c) && Inv(c, st) && |st.log| == 4 && forall i :: 0 <= i < 4 ==> KeyOf(st.log[i]) == k
    requires Appends(st.ops) == [st.log[0], st.log[1]] && Dropped(st.ops) == 1 && SnapshotAt(st.ops) == 4
    ensures |st.ops| >= 2 && CanCrash(c, st, |st.ops|, []) && Of(st.log, k) == st.log
    ensures Get(Recover(c, CrashDisk(c, st, |st.ops|, [])), k) ==
            FoldAt(FoldAt(Get(st.init, k), st.log), st.log[1..2])
  {
    var es, n := st.log, |st.ops|;
    OfAll(es, k);
    OfAll([es[0]], k);
    OfAll([es[0], es[1]], k);
    hide Inv, Recover, Appends, Dropped, SnapshotAt, Of, FoldAt, DiskAfter, Parse, Replay, Get;
    assert st.ops[..n] == st.ops && es[..4] == es;
    assert [es[0], es[1]][..1] == [es[0]] && [es[0], es[1]][1..] == [es[1]];
    assert [es[0]] + [es[1]] == [es[0], es[1]];
    var lines := SurvivingLines(c, st, n, []);
    var x, y, z := KeyRecovery(c, st, n, lines, k);
    RecoverIs(c, st, n);
  }

  /** Recovery of the webhook from those files: the delay on top of the second delivery. */
  lemma ReusedRecovers(c: Codec<Entry>, d: Disk, a: Hook, b: Hook, attempts: int, next: int)
    requires Sound(c) && a.id == b.id && a.id !in Recover(c, d).webhooks
    ensures var st := Reused(c, d, a, b, attempts, next);
            var k, es := Key(HookKind, a.id), st.log;
            && CanCrash(c, st, |st.ops|, []) && Of(st.log, k) == es && Get(st.init, k) == None
            && Get(Recover(c, CrashDisk(c, st, |st.ops|, [])), k) == FoldAt(FoldAt(None, es), es[1..2])
  {
    var steps := ReusedIsReached(c, d, a, b, attempts, next);
    OpenEstablishesInv(c, d);
    RunKeepsInv(c, Open(c, d), steps);
    ReusedFiles(c, d, a, b, attempts, next);
    hide Inv, Recover, Apply, Appends, Dropped, SnapshotAt, Of, FoldAt, Runs, After, CrashDisk, CanCrash;
    OneLineOverFour(c, Reused(c, d, a, b, attempts, next), Key(HookKind, a.id));
  }

  /** A webhook identifier used again after its acknowledgement: a run from any files, ended by a
      crash after a rename, brings back a value the webhook never had. */
  lemma ReusedHookIdMixes(c: Codec<Entry>, d: Disk, a: Hook, b: Hook, attempts: int, next: int)
    returns (steps: seq<Step>)
    requires Sound(c) && a.id == b.id && a.id !in Recover(c, d).webhooks
    requires a.fields != b.fields && b.attempts != attempts
    ensures Runs(c, Open(c, d), steps)
    ensures var st, k := After(c, Open(c, d), steps), Key(HookKind, a.id);
            && st.durable <= |st.ops| && CanCrash(c, st, |st.ops|, [])
            && !HeldSince(st, k, 0, Get(Recover(c, CrashDisk(c, st, |st.ops|, [])), k))
  {
    steps := ReusedIsReached(c, d, a, b, attempts, next);
    ReusedRecovers(c, d, a, b, attempts, next);
    MixtureWasNeverHeld(a, b, attempts, next);
    hide Inv, Recover, Apply, Of, FoldAt, Runs, After, CrashDisk, CanCrash;
  }
}
