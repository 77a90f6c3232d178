/** What FSStore gives back after a crash and after a clean close, over every run of the step
    system in StoreMachine. */
module StoreRecovery {
  import opened Base
  import opened StoreModel
  import opened JournalCodec
  import opened StoreMachine

  // ---- runs ----

  ghost predicate Runs(c: Codec<Entry>, st: State, steps: seq<Step>)
    decreases |steps|
  {
    steps == [] || (Can(c, st, steps[0]) && Runs(c, Do(c, st, steps[0]), steps[1..]))
  }

  function After(c: Codec<Entry>, st: State, steps: seq<Step>): State
    requires Runs(c, st, steps)
    decreases |steps|
  {
    if steps == [] then st else After(c, Do(c, st, steps[0]), steps[1..])
  }

  /** The invariant holds in every state any run reaches, crashes and reopenings included. */
  lemma {:induction false} RunKeepsInv(c: Codec<Entry>, st: State, steps: seq<Step>)
    requires Inv(c, st) && Runs(c, st, steps)
    ensures Inv(c, After(c, st, steps))
    decreases |steps|
  {
    if steps != [] {
      StepKeepsInv(c, st, steps[0]);
      RunKeepsInv(c, Do(c, st, steps[0]), steps[1..]);
    }
  }

  // ---- counting lines ----

  lemma NoLines()
    ensures Appends([]) == []
  {
  }

  lemma OpsPush(ops: seq<DiskOp>, op: DiskOp)
    ensures Appends(ops + [op]) == Appends(ops) + (if op.Append? then [op.entry] else [])
    ensures Dropped(ops + [op]) == if op.Truncate? then |Appends(ops)| else Dropped(ops)
    ensures SnapshotAt(ops + [op]) == if op.Rename? then op.at else SnapshotAt(ops)
  {
    DropLast(ops, op);
    assert Appends(ops) + [] == Appends(ops);
  }

  lemma {:induction false} OfAll(es: seq<Entry>, k: Key)
    requires forall i :: 0 <= i < |es| ==> KeyOf(es[i]) == k
    ensures Of(es, k) == es
    decreases |es|
  {
    if es != [] {
      OfAll(es[..|es| - 1], k);
      SplitLast(es);
    }
  }

  // ---- steps in a row ----

  lemma {:induction false} RunsThen(c: Codec<Entry>, st: State, steps: seq<Step>, step: Step)
    requires Runs(c, st, steps) && Can(c, After(c, st, steps), step)
    ensures Runs(c, st, steps + [step])
    ensures After(c, st, steps + [step]) == Do(c, After(c, st, steps), step)
    decreases |steps|
  {
    if steps == [] {
      assert [] + [step] == [step] && [step][1..] == [];
    } else {
      RunsThen(c, Do(c, st, steps[0]), steps[1..], step);
      assert (steps + [step])[1..] == steps[1..] + [step];
    }
  }

  /** A mutator that nobody interrupts, as one change of state. */
  lemma MutatorSteps(c: Codec<Entry>, st: State, e: Entry)
    requires Inv(c, st) && Can(c, st, Mutate(e))
    ensures var s1 := Do(c, st, Mutate(e));
            var s2 := Do(c, s1, Send(KeyOf(e)));
            && Inv(c, s2)
            && s2 == st.(mem := Apply(st.mem, e), log := st.log + [e],
                         sent := st.sent + [e], channel := st.channel + [e])
  {
    hide Inv;
    var s1 := Do(c, st, Mutate(e));
    StepKeepsInv(c, st, Mutate(e));
    StepKeepsInv(c, s1, Send(KeyOf(e)));
    assert st.pending[KeyOf(e) := e] - {KeyOf(e)} == st.pending;
  }

  lemma TakeStep(c: Codec<Entry>, st: State)
    requires Inv(c, st) && Can(c, st, Take)
    ensures Do(c, st, Take) == st.(buffer := st.buffer + [st.channel[0]], channel := st.channel[1..])
    ensures Inv(c, Do(c, st, Take))
    ensures Runs(c, st, [Take]) && After(c, st, [Take]) == Do(c, st, Take)
  {
    hide Inv;
    StepKeepsInv(c, st, Take);
    assert [Take][1..] == [];
  }

  lemma FlushSyncStep(c: Codec<Entry>, st: State)
    requires Inv(c, st) && Can(c, st, FlushSync)
    ensures var ops' := st.ops + AppendOps(st.buffer);
            Do(c, st, FlushSync) == st.(ops := ops', buffer := [], durable := |ops'|)
    ensures Inv(c, Do(c, st, FlushSync))
  {
    hide Inv;
    StepKeepsInv(c, st, FlushSync);
    assert st.buffer[..|st.buffer|] == st.buffer;
  }

  /** A compaction that succeeds, as one change of state. */
  lemma CompactSteps(c: Codec<Entry>, st: State)
    requires Inv(c, st) && st.phase == Running
    ensures var s1 := Do(c, st, StartCompact);
            var s2 := Do(c, s1, RenameSnapshot);
            var s3 := Do(c, s2, TruncateJournal);
            && Can(c, s1, RenameSnapshot) && Can(c, s2, TruncateJournal)
            && Inv(c, s3)
            && s3 == st.(ops := st.ops + AppendOps(st.buffer) + [Rename(st.mem, |st.log|)] + [Truncate], buffer := [])
  {
    hide Inv;
    var s1 := Do(c, st, StartCompact);
    var s2 := Do(c, s1, RenameSnapshot);
    StepKeepsInv(c, st, StartCompact);
    StepKeepsInv(c, s1, RenameSnapshot);
    StepKeepsInv(c, s2, TruncateJournal);
    assert st.buffer[..|st.buffer|] == st.buffer;
  }

  lemma {:induction false} RunsConcat(c: Codec<Entry>, st: State, a: seq<Step>, b: seq<Step>)
    requires Runs(c, st, a) && Runs(c, After(c, st, a), b)
    ensures Runs(c, st, a + b) && After(c, st, a + b) == After(c, After(c, st, a), b)
    decreases |a|
  {
    hide Can, Do;
    if a == [] {
      assert a + b == b;
    } else {
      assert (a + b)[1..] == a[1..] + b;
      RunsConcat(c, Do(c, st, a[0]), a[1..], b);
    }
  }

  lemma TwoSteps(c: Codec<Entry>, st: State, a: Step, b: Step)
    requires Can(c, st, a) && Can(c, Do(c, st, a), b)
    ensures Runs(c, st, [a, b]) && After(c, st, [a, b]) == Do(c, Do(c, st, a), b)
  {
    hide Can, Do;
    assert [a, b][1..] == [b] && [b][1..] == [];
    var s1 := Do(c, st, a);
    assert Runs(c, s1, [b]) && After(c, s1, [b]) == Do(c, s1, b);
  }

  /** The first two steps of a compaction, and all three. */
  lemma Compacted(c: Codec<Entry>, st: State)
    requires Inv(c, st) && st.phase == Running
    ensures Runs(c, st, [StartCompact, RenameSnapshot])
    ensures After(c, st, [StartCompact, RenameSnapshot]) ==
            st.(ops := st.ops + AppendOps(st.buffer) + [Rename(st.mem, |st.log|)], buffer := [], phase := Renamed)
    ensures Inv(c, After(c, st, [StartCompact, RenameSnapshot]))
    ensures Runs(c, st, [StartCompact, RenameSnapshot] + [TruncateJournal])
    ensures After(c, st, [StartCompact, RenameSnapshot] + [TruncateJournal]) ==
            st.(ops := st.ops + AppendOps(st.buffer) + [Rename(st.mem, |st.log|)] + [Truncate], buffer := [])
    ensures Inv(c, After(c, st, [StartCompact, RenameSnapshot] + [TruncateJournal]))
  {
    CompactSteps(c, st);
    StepKeepsInv(c, st, StartCompact);
    StepKeepsInv(c, Do(c, st, StartCompact), RenameSnapshot);
    hide Inv;
    TwoSteps(c, st, StartCompact, RenameSnapshot);
    RunsThen(c, st, [StartCompact, RenameSnapshot], TruncateJournal);
    assert st.buffer[..|st.buffer|] == st.buffer && st.buffer[|st.buffer|..] == [];
  }

  // ---- what survives a crash ----

  /** Version v of key k: its value after the first v changes made to it since opening. */
  function ValueAt(st: State, k: Key, v: nat): Option<Value>
    requires v <= |Of(st.log, k)|
  {
    FoldAt(Get(st.init, k), Of(st.log, k)[..v])
  }

  /** The number of changes to k whose journal lines are known to be on disk. */
  function SyncedVersion(st: State, k: Key): nat
    requires st.durable <= |st.ops|
  {
    |Of(Appends(st.ops[..st.durable]), k)|
  }

  lemma AppendsPrefix(ops: seq<DiskOp>, i: nat, j: nat)
    requires i <= j <= |ops|
    ensures Appends(ops[..i]) <= Appends(ops[..j])
  {
    AppendsConcat(ops[..i], ops[i..j]);
    assert ops[..i] + ops[i..j] == ops[..j];
  }

  lemma NextLineIsSent(c: Codec<Entry>, st: State, i: nat)
    requires Inv(c, st) && i <= |st.ops| && NextLine(st, i).Some?
    ensures Appends(st.ops[..i]) + [NextLine(st, i).value] <= st.sent
  {
    if i < |st.ops| {
      assert st.ops[..i + 1] == st.ops[..i] + [st.ops[i]];
      AppendsConcat(st.ops[..i], [st.ops[i]]);
      AppendsPrefix(st.ops, i + 1, |st.ops|);
      assert st.ops[..|st.ops|] == st.ops;
      assert Appends([st.ops[i]]) == [st.ops[i].entry];
    } else {
      assert st.ops[..i] == st.ops;
      assert st.sent == Appends(st.ops) + [st.buffer[0]] + st.buffer[1..] + st.channel;
    }
  }

  /** The lines a truncation removed, and the lines written since. */
  function DroppedLines(ops: seq<DiskOp>): seq<Entry> { Appends(ops)[..Dropped(ops)] }
  function KeptLines(ops: seq<DiskOp>): seq<Entry> { Appends(ops)[Dropped(ops)..] }

  lemma KeptAreSent(c: Codec<Entry>, st: State, kept: nat)
    requires Inv(c, st) && kept <= |st.ops|
    ensures Appends(st.ops[..kept]) <= st.sent
    ensures DroppedLines(st.ops[..kept]) + KeptLines(st.ops[..kept]) == Appends(st.ops[..kept])
  {
    AppendsPrefix(st.ops, kept, |st.ops|);
    assert st.ops[..|st.ops|] == st.ops;
  }

  lemma PrefixOfConcat<T>(a: seq<T>, b: seq<T>, c: seq<T>, whole: seq<T>)
    requires a + b + c <= whole
    ensures a + (b + c) <= whole
  {
    assert a + (b + c) == a + b + c;
  }

  /** The journal a crash leaves decodes to the lines kept since the last truncation, possibly
      with the one that was being written. */
  lemma SurvivingLines(c: Codec<Entry>, st: State, kept: nat, torn: seq<byte>) returns (lines: seq<Entry>)
    requires Sound(c) && Inv(c, st) && CanCrash(c, st, kept, torn) && kept >= 2
    ensures Parse(c, CrashDisk(c, st, kept, torn).journal) == lines
    ensures KeptLines(st.ops[..kept]) <= lines
    ensures torn == [] ==> lines == KeptLines(st.ops[..kept])
    ensures DroppedLines(st.ops[..kept]) + lines <= st.sent
  {
    var keptLines := KeptLines(st.ops[..kept]);
    assert DiskOk(c, st, kept);
    KeptAreSent(c, st, kept);
    lines := keptLines;
    if torn == [] {
      ParseEncodeAll(c, keptLines);
      assert EncodeAll(c, keptLines) + torn == EncodeAll(c, keptLines);
    } else {
      var e := NextLine(st, kept).value;
      ParseTorn(c, keptLines, e, torn);
      assert keptLines + [] == keptLines;
      if |torn| >= |c.enc(e)| {
        NextLineIsSent(c, st, kept);
        lines := keptLines + [e];
        PrefixOfConcat(DroppedLines(st.ops[..kept]), keptLines, [e], st.sent);
      }
    }
  }

  lemma Stretch<T>(x: seq<T>, y: seq<T>, xy: seq<T>, whole: seq<T>)
    requires xy == x + y && xy <= whole
    ensures |xy| == |x| + |y| <= |whole| && y == whole[|x|..|xy|]
  {
    assert y == xy[|x|..];
    assert xy == whole[..|xy|];
  }

  /** Any stretch of the channel's order, seen from one key, is a stretch of its changes. */
  lemma StretchOf(st: State, k: Key, x: seq<Entry>, y: seq<Entry>)
    requires KeyOk(st, k) && x + y <= st.sent
    ensures |Of(x + y, k)| == |Of(x, k)| + |Of(y, k)| <= |Of(st.log, k)|
    ensures Of(y, k) == Of(st.log, k)[|Of(x, k)|..|Of(x + y, k)|]
  {
    hide Of, KeyOk;
    var xy := x + y;
    assert Of(xy, k) == Of(x, k) + Of(y, k) by {
      OfConcat(x, y, k);
    }
    assert Of(xy, k) <= Of(st.log, k) by {
      SentIsPrefix(st, xy, k);
    }
    Stretch(Of(x, k), Of(y, k), Of(xy, k), Of(st.log, k));
  }

  lemma SnapshotVersion(c: Codec<Entry>, st: State, at: nat, k: Key) returns (s: nat)
    requires at <= |st.log|
    ensures s == |Of(st.log[..at], k)| <= |Of(st.log, k)|
    ensures Get(Replay(st.init, st.log[..at]), k) == ValueAt(st, k, s)
  {
    s := |Of(st.log[..at], k)|;
    OfPrefix(st.log[..at], st.log, k);
    assert Of(st.log, k)[..s] == Of(st.log[..at], k);
    ReplayAt(st.init, st.log[..at], k);
  }

  /** Recovery seen from one key: the snapshot holds version s, the journal replays the changes
      a..b over it, and every change the journal has dropped is in the snapshot. */
  lemma KeyRecovery(c: Codec<Entry>, st: State, kept: nat, lines: seq<Entry>, k: Key)
    returns (a: nat, b: nat, s: nat)
    requires Inv(c, st) && 2 <= kept <= |st.ops|
    requires DroppedLines(st.ops[..kept]) + lines <= st.sent
    ensures a <= b <= |Of(st.log, k)| && a <= s <= |Of(st.log, k)|
    ensures a == |Of(DroppedLines(st.ops[..kept]), k)|
    ensures b == |Of(DroppedLines(st.ops[..kept]) + lines, k)|
    ensures SnapshotAt(st.ops[..kept]) <= |st.log|
    ensures s == |Of(st.log[..SnapshotAt(st.ops[..kept])], k)|
    ensures Get(Replay(DiskAfter(c, st.found, st.ops[..kept]).snapshot, lines), k)
         == FoldAt(ValueAt(st, k, s), Of(st.log, k)[a..b])
  {
    var p := st.ops[..kept];
    assert DiskOk(c, st, kept) && KeyOk(st, k);
    assert Covers(st.log, SnapshotAt(p), DroppedLines(p), k);
    StretchOf(st, k, DroppedLines(p), lines);
    s := SnapshotVersion(c, st, SnapshotAt(p), k);
    a, b := |Of(DroppedLines(p), k)|, |Of(DroppedLines(p) + lines, k)|;
    ReplayAt(Replay(st.init, st.log[..SnapshotAt(p)]), lines, k);
  }

  /** During the compaction of opening itself nothing has been appended yet. */
  lemma BootPrefix(c: Codec<Entry>, st: State, kept: nat, torn: seq<byte>)
    requires Inv(c, st) && CanCrash(c, st, kept, torn) && kept < 2
    ensures torn == []
    ensures Appends(st.ops[..kept]) == []
    ensures Recover(c, CrashDisk(c, st, kept, torn)) == st.init
  {
    assert NextLine(st, kept) == None;
    if kept == 0 {
      assert st.ops[..0] == [];
      assert CrashDisk(c, st, 0, []) == st.found by { assert st.found.journal + [] == st.found.journal; }
    } else {
      assert st.ops[..1] == [st.ops[0]];
      assert DiskAfter(c, st.found, []) == st.found;
      assert CrashDisk(c, st, 1, []) == st.found.(snapshot := st.init) by {
        assert st.found.journal + [] == st.found.journal;
      }
      ReplayTwice(st.found.snapshot, Parse(c, st.found.journal));
    }
  }

  /** Identifiers of webhooks are enqueued once: new ones are not in the maps found at opening
      and are not repeated. The dispatcher makes each one with a fresh ULID. */
  predicate FreshHookIds(init: Maps, log: seq<Entry>) {
    && (forall i :: 0 <= i < |log| && log[i].EnqueueHook? ==> log[i].hook.id !in init.webhooks)
    && (forall i, j :: 0 <= i < j < |log| && log[i].EnqueueHook? && log[j].EnqueueHook? ==>
          log[i].hook.id != log[j].hook.id)
  }

  lemma {:induction false} OfMembers(es: seq<Entry>, k: Key)
    ensures forall e :: e in Of(es, k) ==> e in es
  {
    if es != [] {
      OfMembers(es[..|es| - 1], k);
    }
  }

  lemma {:induction false} AbsentThroughout(es: seq<Entry>)
    requires OnlyAcksAndNacks(es)
    ensures NeverHeld(None, es)
  {
    if es != [] {
      assert forall i :: 0 <= i < |es| - 1 ==> es[..|es| - 1][i] == es[i];
      AbsentThroughout(es[..|es| - 1]);
    }
  }

  lemma EnqueuedOncePush(v: Option<Value>, es: seq<Entry>, e: Entry)
    requires EnqueuedOnce(v, es)
    requires e.EnqueueHook? ==> NeverHeld(v, es)
    ensures EnqueuedOnce(v, es + [e])
  {
    assert (es + [e])[..|es|] == es;
  }

  lemma FreshWasAbsent(init: Maps, log: seq<Entry>, e: Entry)
    requires e.EnqueueHook? && e.hook.id !in init.webhooks
    requires forall x :: x in log && x.EnqueueHook? ==> x.hook.id != e.hook.id
    ensures NeverHeld(Get(init, KeyOf(e)), Of(log, KeyOf(e)))
  {
    var k := KeyOf(e);
    OfMembers(log, k);
    forall x | x in Of(log, k) ensures x.AckHook? || x.NackHook? {
      assert KeyOf(x) == k;
    }
    AbsentThroughout(Of(log, k));
  }

  lemma {:induction false} FreshMeansOnce(init: Maps, log: seq<Entry>, k: Key)
    requires FreshHookIds(init, log)
    ensures EnqueuedOnce(Get(init, k), Of(log, k))
  {
    if log != [] {
      var n := |log| - 1;
      assert FreshHookIds(init, log[..n]);
      FreshMeansOnce(init, log[..n], k);
      assert log[..n] + [log[n]] == log;
      OfPush(log[..n], log[n], k);
      if KeyOf(log[n]) == k {
        if log[n].EnqueueHook? {
          FreshWasAbsent(init, log[..n], log[n]);
        }
        EnqueuedOncePush(Get(init, k), Of(log[..n], k), log[n]);
      } else {
        assert Of(log[..n], k) + [] == Of(log[..n], k);
      }
    }
  }

  ghost predicate HeldSince(st: State, k: Key, since: nat, value: Option<Value>) {
    exists v :: since <= v <= |Of(st.log, k)| && value == ValueAt(st, k, v)
  }

  lemma SyncedWithin(c: Codec<Entry>, st: State, kept: nat, lines: seq<Entry>, k: Key)
    requires Inv(c, st) && st.durable <= kept <= |st.ops|
    requires KeptLines(st.ops[..kept]) <= lines
    ensures SyncedVersion(st, k) <= |Of(DroppedLines(st.ops[..kept]) + lines, k)|
  {
    AppendsPrefix(st.ops, st.durable, kept);
    KeptAreSent(c, st, kept);
    OfPrefix(Appends(st.ops[..st.durable]), DroppedLines(st.ops[..kept]) + lines, k);
  }

  lemma SnapshotWins(st: State, k: Key, a: nat, b: nat, s: nat)
    requires KeyOk(st, k) && EnqueuedOnce(Get(st.init, k), Of(st.log, k))
    requires a <= b <= |Of(st.log, k)| && a <= s <= |Of(st.log, k)|
    ensures FoldAt(ValueAt(st, k, s), Of(st.log, k)[a..b]) == ValueAt(st, k, b)
            || (b <= s && FoldAt(ValueAt(st, k, s), Of(st.log, k)[a..b]) == ValueAt(st, k, s))
  {
    SnapshotAhead(Get(st.init, k), Of(st.log, k), k, a, b, s);
  }

  lemma CrashWhileOpening(c: Codec<Entry>, st: State, kept: nat, torn: seq<byte>, k: Key)
    requires Inv(c, st) && CanCrash(c, st, kept, torn) && kept < 2
    ensures HeldSince(st, k, SyncedVersion(st, k), Get(Recover(c, CrashDisk(c, st, kept, torn)), k))
  {
    BootPrefix(c, st, kept, torn);
    AppendsPrefix(st.ops, st.durable, kept);
    assert Get(st.init, k) == ValueAt(st, k, 0);
  }

  lemma CrashWhileRunning(c: Codec<Entry>, st: State, kept: nat, torn: seq<byte>, k: Key)
    requires Sound(c) && Inv(c, st) && CanCrash(c, st, kept, torn) && kept >= 2
    requires EnqueuedOnce(Get(st.init, k), Of(st.log, k))
    ensures HeldSince(st, k, SyncedVersion(st, k), Get(Recover(c, CrashDisk(c, st, kept, torn)), k))
  {
    assert KeyOk(st, k);
    hide Inv;
    hide KeyOk;
    var lines := SurvivingLines(c, st, kept, torn);
    var a, b, s := KeyRecovery(c, st, kept, lines, k);
    SnapshotWins(st, k, a, b, s);
    SyncedWithin(c, st, kept, lines, k);
  }

  /** Wherever the crash strikes - inside a line, between rename and truncate, after a compaction
      that ran ahead of the channel - every key comes back with a value it really held, no older
      than its last synced journal line. */
  lemma CrashRecoversHeldValue(c: Codec<Entry>, st: State, kept: nat, torn: seq<byte>, k: Key)
    requires Sound(c) && Inv(c, st) && CanCrash(c, st, kept, torn)
    requires FreshHookIds(st.init, st.log)
    ensures HeldSince(st, k, SyncedVersion(st, k), Get(Do(c, st, CrashAndReopen(kept, torn)).mem, k))
  {
    if kept < 2 {
      CrashWhileOpening(c, st, kept, torn, k);
    } else {
      FreshMeansOnce(st.init, st.log, k);
      CrashWhileRunning(c, st, kept, torn, k);
    }
  }

  lemma VersionsIff(st: State, k: Key, a: nat, b: nat, s: nat)
    requires KeyOk(st, k) && a <= b <= |Of(st.log, k)| && a <= s <= |Of(st.log, k)|
    ensures var back := FoldAt(ValueAt(st, k, s), Of(st.log, k)[a..b]);
            (back == ValueAt(st, k, b) || (b <= s && back == ValueAt(st, k, s)))
            <==> !Mixes(Get(st.init, k), Of(st.log, k), a, b, s)
  {
    hide Mixes, FoldAt, Of;
    NoMixtureIff(Get(st.init, k), Of(st.log, k), k, a, b, s);
  }

  /** The same crash without any condition on webhook identifiers. The journal has dropped the
      first a changes of the key and still shows those up to b, the snapshot contains the first s:
      the key comes back with version b or a later s exactly if the surviving lines do not mix two
      deliveries of one webhook. */
  lemma CrashExactly(c: Codec<Entry>, st: State, kept: nat, torn: seq<byte>, k: Key) returns (a: nat, b: nat, s: nat)
    requires Sound(c) && Inv(c, st) && CanCrash(c, st, kept, torn) && kept >= 2
    ensures a == |Of(DroppedLines(st.ops[..kept]), k)|
    ensures b == |Of(DroppedLines(st.ops[..kept]) + Parse(c, CrashDisk(c, st, kept, torn).journal), k)|
    ensures SnapshotAt(st.ops[..kept]) <= |st.log| && s == |Of(st.log[..SnapshotAt(st.ops[..kept])], k)|
    ensures a <= b <= |Of(st.log, k)| && a <= s <= |Of(st.log, k)| && SyncedVersion(st, k) <= b
    ensures var back := Get(Recover(c, CrashDisk(c, st, kept, torn)), k);
            (back == ValueAt(st, k, b) || (b <= s && back == ValueAt(st, k, s)))
            <==> !Mixes(Get(st.init, k), Of(st.log, k), a, b, s)
  {
    assert KeyOk(st, k);
    hide Inv, KeyOk, Mixes, FoldAt, Of;
    var lines := SurvivingLines(c, st, kept, torn);
    a, b, s := KeyRecovery(c, st, kept, lines, k);
    VersionsIff(st, k, a, b, s);
    SyncedWithin(c, st, kept, lines, k);
  }

  // ---- clean close ----

  /** Close has returned: no store method is running, the writer has drained the channel and its
      last act was flushSync. */
  predicate Closed(st: State) {
    && st.pending == map[] && st.channel == [] && st.buffer == []
    && st.phase == Running && st.durable == |st.ops|
  }

  lemma FoldTail(v: Option<Value>, pre: seq<Entry>, mid: seq<Entry>, post: seq<Entry>)
    requires FoldAt(FoldAt(v, pre + mid), mid) == FoldAt(v, pre + mid)
    ensures FoldAt(FoldAt(v, pre + mid), mid + post) == FoldAt(v, pre + mid + post)
  {
    FoldAtConcat(FoldAt(v, pre + mid), mid, post);
    FoldAtConcat(v, pre + mid, post);
  }

  lemma WholeJournal(v: Option<Value>, es: seq<Entry>, a: nat, s: nat)
    requires Legal(v, es) && a <= s <= |es|
    ensures FoldAt(FoldAt(v, es[..s]), es[a..]) == FoldAt(v, es)
  {
    StaleReplay(v, es, a, s);
    Slices(es, a, s);
    FoldTail(v, es[..a], es[a..s], es[s..]);
  }

  lemma ClosedKey(c: Codec<Entry>, st: State, k: Key)
    requires Inv(c, st) && Closed(st)
    ensures DroppedLines(st.ops) + KeptLines(st.ops) == st.sent
    ensures Get(Replay(DiskAfter(c, st.found, st.ops).snapshot, KeptLines(st.ops)), k) == Get(st.mem, k)
  {
    assert st.ops[..|st.ops|] == st.ops;
    assert st.sent == Appends(st.ops);
    KeptAreSent(c, st, |st.ops|);
    var a, b, s := KeyRecovery(c, st, |st.ops|, KeptLines(st.ops), k);
    var es := Of(st.log, k);
    assert es == Of(st.sent, k) by {
      assert KeyOk(st, k) && Unsent(st, k) == [];
    }
    assert es[a..b] == es[a..];
    ReplayAt(st.init, st.log, k);
    WholeJournal(Get(st.init, k), es, a, s);
  }

  lemma ClosedDisk(c: Codec<Entry>, st: State)
    requires Sound(c) && Inv(c, st) && Closed(st)
    ensures Recover(c, CrashDisk(c, st, |st.ops|, []))
         == Replay(DiskAfter(c, st.found, st.ops).snapshot, KeptLines(st.ops))
  {
    assert st.ops[..|st.ops|] == st.ops;
    assert DiskOk(c, st, |st.ops|);
    ParseEncodeAll(c, KeptLines(st.ops));
    var j := DiskAfter(c, st.found, st.ops).journal;
    assert j + [] == j;
  }

  /** Reopening after a clean close gives exactly the final maps, however many compactions ran and
      wherever they fell between memory steps and sends. No condition on webhook identifiers. */
  lemma CleanReopenIsExact(c: Codec<Entry>, st: State, kept: nat, torn: seq<byte>)
    requires Sound(c) && Inv(c, st) && Closed(st) && CanCrash(c, st, kept, torn)
    ensures Do(c, st, CrashAndReopen(kept, torn)).mem == st.mem
  {
    ClosedDisk(c, st);
    assert kept == |st.ops| && st.ops[..kept] == st.ops && torn == [];
    hide Inv;
    var m := Recover(c, CrashDisk(c, st, kept, torn));
    forall k ensures Get(m, k) == Get(st.mem, k) {
      ClosedKey(c, st, k);
    }
    MapsEqual(m, st.mem);
  }

  // ---- over whole runs ----

  /** Starting from whatever a first or earlier process left on disk, after any run with any
      number of crashes and compactions, a clean close preserves the store exactly. */
  lemma EveryRunReopensExactly(c: Codec<Entry>, d: Disk, steps: seq<Step>, kept: nat, torn: seq<byte>)
    requires Sound(c) && Runs(c, Open(c, d), steps)
    requires Closed(After(c, Open(c, d), steps))
    requires CanCrash(c, After(c, Open(c, d), steps), kept, torn)
    ensures Do(c, After(c, Open(c, d), steps), CrashAndReopen(kept, torn)).mem == After(c, Open(c, d), steps).mem
  {
    OpenEstablishesInv(c, d);
    RunKeepsInv(c, Open(c, d), steps);
    CleanReopenIsExact(c, After(c, Open(c, d), steps), kept, torn);
  }

  /** The same for a crash at any reachable state. */
  lemma EveryCrashIsRecent(c: Codec<Entry>, d: Disk, steps: seq<Step>, kept: nat, torn: seq<byte>, k: Key)
    requires Sound(c) && Runs(c, Open(c, d), steps)
    requires var st := After(c, Open(c, d), steps);
             CanCrash(c, st, kept, torn) && FreshHookIds(st.init, st.log)
    ensures var st := After(c, Open(c, d), steps);
            st.durable <= |st.ops|
            && HeldSince(st, k, SyncedVersion(st, k), Get(Do(c, st, CrashAndReopen(kept, torn)).mem, k))
  {
    OpenEstablishesInv(c, d);
    RunKeepsInv(c, Open(c, d), steps);
    CrashRecoversHeldValue(c, After(c, Open(c, d), steps), kept, torn, k);
  }

  // ---- which failures are covered ----

  /** A crash may strike after any file operation since the last sync, the last one included, and in
      the middle of the line that comes next, after any number of its bytes. */
  lemma CrashAnywhere(c: Codec<Entry>, st: State, kept: nat, n: nat)
    requires st.durable <= kept <= |st.ops|
    ensures CanCrash(c, st, kept, [])
    ensures kept < |st.ops| && st.ops[kept].Append? && n <= |Line(c, st.ops[kept].entry)| ==>
            CanCrash(c, st, kept, Line(c, st.ops[kept].entry)[..n])
    ensures kept == |st.ops| && st.buffer != [] && n <= |Line(c, st.buffer[0])| ==>
            CanCrash(c, st, kept, Line(c, st.buffer[0])[..n])
  {
  }

  /** The buffer may spill any number of its lines at any time, and a compaction may be given up
      before the rename and before the truncation, after which the writer goes on. */
  lemma WriterMay(c: Codec<Entry>, st: State, n: nat)
    ensures st.phase == Running && n <= |st.buffer| ==> Can(c, st, Flush(n))
    ensures st.phase == Running ==> Can(c, st, FlushSync) && Can(c, st, StartCompact)
    ensures st.phase != Running ==> Can(c, st, AbandonCompact) && Do(c, st, AbandonCompact) == st.(phase := Running)
  {
  }

  // ---- a store that syncs after every entry ----

  /** Every line written is known to be on disk. */
  predicate AllSynced(st: State) {
    st.buffer == [] && st.durable <= |st.ops| && Appends(st.ops[..st.durable]) == Appends(st.ops)
  }

  lemma SyncedIsWritten(c: Codec<Entry>, st: State, k: Key)
    requires Inv(c, st) && AllSynced(st) && Of(st.channel, k) == [] && k !in st.pending
    ensures SyncedVersion(st, k) == |Of(st.log, k)|
  {
    assert KeyOk(st, k) && Unsent(st, k) == [];
    AppendNothing(Appends(st.ops), st.buffer);
    OfConcat(Appends(st.ops), st.channel, k);
    hide Inv, KeyOk, Of;
    AppendNothing(Of(Appends(st.ops), k), Of(st.channel, k));
    AppendNothing(Of(st.sent, k), Unsent(st, k));
  }

  lemma HeldAtEnd(st: State, k: Key, value: Option<Value>)
    requires st.mem == Replay(st.init, st.log) && HeldSince(st, k, |Of(st.log, k)|, value)
    ensures value == Get(st.mem, k)
  {
    ReplayAt(st.init, st.log, k);
    var changes := Of(st.log, k);
    hide Of, Replay, FoldAt;
    assert changes[..|changes|] == changes;
  }

  /** No written entry is lost: whenever the writer is through with the entries of a key, a crash at
      any moment brings the key back exactly as memory has it. */
  lemma NothingWrittenIsLost(c: Codec<Entry>, st: State, kept: nat, torn: seq<byte>, k: Key)
    requires Sound(c) && Inv(c, st) && CanCrash(c, st, kept, torn) && FreshHookIds(st.init, st.log)
    requires AllSynced(st) && Of(st.channel, k) == [] && k !in st.pending
    ensures Get(Do(c, st, CrashAndReopen(kept, torn)).mem, k) == Get(st.mem, k)
  {
    assert st.mem == Replay(st.init, st.log) && st.durable <= |st.ops|;
    hide *;
    CrashRecoversHeldValue(c, st, kept, torn, k);
    SyncedIsWritten(c, st, k);
    HeldAtEnd(st, k, Get(Do(c, st, CrashAndReopen(kept, torn)).mem, k));
  }

  lemma OpenIsSynced(c: Codec<Entry>, d: Disk)
    ensures AllSynced(Open(c, d))
  {
    var m := Recover(c, d);
    NoLines();
    OpsPush([], Rename(m, 0));
    OpsPush([Rename(m, 0)], Truncate);
    assert [] + [Rename(m, 0)] == [Rename(m, 0)] && [Rename(m, 0)] + [Truncate] == Open(c, d).ops;
  }

  /** Mutators do not touch the files. */
  lemma MutatorKeepsSynced(c: Codec<Entry>, st: State, e: Entry)
    requires AllSynced(st) && Can(c, st, Mutate(e))
    ensures AllSynced(Do(c, Do(c, st, Mutate(e)), Send(KeyOf(e))))
  {
  }

  /** A compaction appends no line. */
  lemma CompactionKeepsSynced(st: State, ops: seq<DiskOp>)
    requires AllSynced(st) && Appends(ops) == []
    ensures AllSynced(st.(ops := st.ops + ops))
  {
    AppendsConcat(st.ops, ops);
    AppendNothing(Appends(st.ops), Appends(ops));
    assert (st.ops + ops)[..st.durable] == st.ops[..st.durable];
  }
}
