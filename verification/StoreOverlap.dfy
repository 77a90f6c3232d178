/** The store when writers of one key overlap: a mutator changes memory under the lock and sends its
    entry later, so the entries of two mutators may reach the channel in the opposite order. The
    background writer is that of StoreMachine. */
module StoreOverlap {
  import opened Base
  import opened StoreModel
  import opened JournalCodec
  import opened StoreMachine
  import opened StoreRecovery

  /** The machine's state, whose own record of unsent entries stays empty, and every entry some
      mutator has yet to send. */
  datatype Store = Store(st: State, unsent: seq<Entry>)

  datatype Move =
    | Change(e: Entry)      // locked section of a mutator
    | Hand(i: nat)          // some mutator sends its entry
    | Writer(step: Step)    // a step of the background writer

  predicate WriterStep(step: Step) {
    step.Take? || step.Flush? || step.FlushSync? || step.StartCompact?
    || step.RenameSnapshot? || step.TruncateJournal? || step.AbandonCompact?
  }

  predicate CanMove(c: Codec<Entry>, s: Store, move: Move) {
    match move
    case Change(e) => Accepts(s.st.mem, e)
    case Hand(i) => i < |s.unsent|
    case Writer(step) => WriterStep(step) && Can(c, s.st, step)
  }

  function Without(es: seq<Entry>, i: nat): seq<Entry>
    requires i < |es|
  {
    es[..i] + es[i + 1..]
  }

  function Make(c: Codec<Entry>, s: Store, move: Move): Store
    requires CanMove(c, s, move)
  {
    match move
    case Change(e) =>
      Store(s.st.(mem := Apply(s.st.mem, e), log := s.st.log + [e]), s.unsent + [e])
    case Hand(i) =>
      var e := s.unsent[i];
      Store(s.st.(channel := s.st.channel + [e], sent := s.st.sent + [e]), Without(s.unsent, i))
    case Writer(step) => s.(st := Do(c, s.st, step))
  }

  // ---- the invariant ----

  ghost predicate Counted(s: Store, k: Key) {
    |Of(s.st.sent, k)| + |Of(s.unsent, k)| == |Of(s.st.log, k)|
  }

  /** Everything sent or still to be sent is a change memory went through, each as often. */
  ghost predicate Traced(s: Store) {
    && (forall e :: e in s.st.sent ==> e in s.st.log)
    && (forall e :: e in s.unsent ==> e in s.st.log)
    && forall k :: Counted(s, k)
  }

  ghost predicate FilesOk(c: Codec<Entry>, st: State) {
    && st.mem == Replay(st.init, st.log)
    && st.sent == Appends(st.ops) + st.buffer + st.channel
    && DiskOk(c, st, |st.ops|) && PhaseOk(c, st)
  }

  ghost predicate OverlapInv(c: Codec<Entry>, s: Store) {
    Traced(s) && FilesOk(c, s.st)
  }

  lemma OfWithout(es: seq<Entry>, i: nat, k: Key)
    requires i < |es|
    ensures |Of(es, k)| == |Of(Without(es, i), k)| + if KeyOf(es[i]) == k then 1 else 0
  {
    var one := [es[i]];
    assert es == es[..i] + (one + es[i + 1..]);
    OfConcat(es[..i], one + es[i + 1..], k);
    OfConcat(one, es[i + 1..], k);
    OfConcat(es[..i], es[i + 1..], k);
    assert one == [] + one;
    OfPush([], es[i], k);
  }

  lemma LongerLogKeepsFiles(c: Codec<Entry>, st: State, e: Entry)
    requires FilesOk(c, st)
    ensures FilesOk(c, st.(mem := Apply(st.mem, e), log := st.log + [e]))
  {
    var st' := st.(mem := Apply(st.mem, e), log := st.log + [e]);
    ReplayPush(st.init, st.log, e);
    var p := st.ops[..|st.ops|];
    LongerLog(st, st', SnapshotAt(p), Appends(p)[..Dropped(p)]);
    LongerLogKeepsPhase(c, st, st');
  }

  lemma ChangeKeeps(c: Codec<Entry>, s: Store, e: Entry)
    requires OverlapInv(c, s) && CanMove(c, s, Change(e))
    ensures OverlapInv(c, Make(c, s, Change(e)))
  {
    var t := Make(c, s, Change(e));
    LongerLogKeepsFiles(c, s.st, e);
    hide FilesOk;
    forall k ensures Counted(t, k) {
      assert Counted(s, k);
      OfPush(s.st.log, e, k);
      OfPush(s.unsent, e, k);
    }
  }

  lemma HandKeeps(c: Codec<Entry>, s: Store, i: nat)
    requires OverlapInv(c, s) && CanMove(c, s, Hand(i))
    ensures OverlapInv(c, Make(c, s, Hand(i)))
  {
    var t, e := Make(c, s, Hand(i)), s.unsent[i];
    Assoc(Appends(s.st.ops) + s.st.buffer, s.st.channel, [e]);
    assert FilesOk(c, t.st) by {
      LongerLogKeepsPhase(c, s.st, t.st);
    }
    hide FilesOk;
    forall k ensures Counted(t, k) {
      assert Counted(s, k);
      OfPush(s.st.sent, e, k);
      OfWithout(s.unsent, i, k);
    }
  }

  lemma TakeKeepsFiles(c: Codec<Entry>, st: State)
    requires FilesOk(c, st) && Can(c, st, Take)
    ensures FilesOk(c, Do(c, st, Take))
  {
    assert [st.channel[0]] + st.channel[1..] == st.channel;
    Assoc(Appends(st.ops) + st.buffer, [st.channel[0]], st.channel[1..]);
    Assoc(Appends(st.ops), st.buffer, [st.channel[0]]);
  }

  lemma SpillOneKeepsFiles(c: Codec<Entry>, st: State)
    requires FilesOk(c, st) && st.phase == Running && st.buffer != []
    ensures FilesOk(c, FlushN(st, 1))
  {
    var e, st' := st.buffer[0], FlushN(st, 1);
    assert AppendOps(st.buffer[..1]) == [Append(e)];
    AppendKeepsDiskOk(c, st, st', e);
    hide DiskOk;
    assert [e] + st.buffer[1..] == st.buffer;
    Assoc(Appends(st.ops), [e], st.buffer[1..]);
  }

  lemma {:induction false} SpillKeepsFiles(c: Codec<Entry>, st: State, n: nat)
    requires FilesOk(c, st) && st.phase == Running && n <= |st.buffer|
    ensures FilesOk(c, FlushN(st, n))
    decreases n
  {
    hide FilesOk;
    if n == 0 {
      FlushNone(st);
    } else {
      SpillOneKeepsFiles(c, st);
      SpillKeepsFiles(c, FlushN(st, 1), n - 1);
      FlushSplit(st, n);
    }
  }

  lemma SameTrace(s: Store, t: Store)
    requires Traced(s) && t.unsent == s.unsent && t.st.sent == s.st.sent && t.st.log == s.st.log
    ensures Traced(t)
  {
    forall k ensures Counted(t, k) {
      assert Counted(s, k);
    }
  }

  /** Everything written so far was in memory first, so it is in a snapshot of memory. */
  lemma WrittenIsInMemory(c: Codec<Entry>, s: Store, k: Key)
    requires OverlapInv(c, s)
    ensures Covers(s.st.log, |s.st.log|, Appends(s.st.ops), k)
  {
    assert Counted(s, k);
    assert Appends(s.st.ops) <= s.st.sent;
    OfPrefix(Appends(s.st.ops), s.st.sent, k);
    assert s.st.log[..|s.st.log|] == s.st.log;
  }

  lemma SameFiles(c: Codec<Entry>, f: State, snap: Maps, at: nat)
    requires FilesOk(c, f) && f.phase == Running && f.buffer == [] && at == |f.log| && snap == f.mem
    requires forall k :: Covers(f.log, |f.log|, Appends(f.ops), k)
    ensures FilesOk(c, f.(phase := Snapped(snap, at)))
  {
    assert f.log[..|f.log|] == f.log;
    var t := f.(phase := Snapped(snap, at));
    assert DiskOk(c, t, |t.ops|) by {
      assert DiskOk(c, f, |f.ops|);
    }
    hide DiskOk, Covers;
  }

  lemma StartKeepsFiles(c: Codec<Entry>, s: Store)
    requires OverlapInv(c, s) && Can(c, s.st, StartCompact)
    ensures FilesOk(c, Do(c, s.st, StartCompact))
  {
    var st := s.st;
    SpillKeepsFiles(c, st, |st.buffer|);
    var f := FlushN(st, |st.buffer|);
    hide FilesOk, Covers;
    assert OverlapInv(c, s.(st := f)) by {
      SameTrace(s, s.(st := f));
    }
    forall k ensures Covers(f.log, |f.log|, Appends(f.ops), k) {
      WrittenIsInMemory(c, s.(st := f), k);
    }
    SameFiles(c, f, st.mem, |st.log|);
  }

  lemma SwapKeepsFiles(c: Codec<Entry>, st: State)
    requires FilesOk(c, st) && Can(c, st, RenameSnapshot)
    ensures FilesOk(c, Do(c, st, RenameSnapshot))
  {
    var st' := Do(c, st, RenameSnapshot);
    RenameKeepsDiskOk(c, st, st');
    hide DiskOk;
    forall k ensures Covers(st'.log, SnapshotAt(st'.ops), Appends(st'.ops), k) {
      assert Covers(st.log, st.phase.at, Appends(st.ops), k);
    }
  }

  lemma CutKeepsFiles(c: Codec<Entry>, st: State)
    requires FilesOk(c, st) && Can(c, st, TruncateJournal)
    ensures FilesOk(c, Do(c, st, TruncateJournal))
  {
    TruncateKeepsDiskOk(c, st, Do(c, st, TruncateJournal));
    hide DiskOk;
  }

  lemma FlushIs(c: Codec<Entry>, st: State, n: nat)
    requires Can(c, st, Flush(n))
    ensures Do(c, st, Flush(n)) == FlushN(st, n)
  {
  }

  lemma SyncKeepsFiles(c: Codec<Entry>, st: State)
    requires FilesOk(c, st) && Can(c, st, FlushSync)
    ensures FilesOk(c, Do(c, st, FlushSync))
  {
    SpillKeepsFiles(c, st, |st.buffer|);
    var f := FlushN(st, |st.buffer|);
    assert DiskOk(c, f.(durable := |f.ops|), |f.ops|) by {
      assert DiskOk(c, f, |f.ops|);
    }
    hide DiskOk, FlushN;
  }

  lemma AbandonKeepsFiles(c: Codec<Entry>, st: State)
    requires FilesOk(c, st) && Can(c, st, AbandonCompact)
    ensures FilesOk(c, Do(c, st, AbandonCompact))
  {
  }

  lemma WriterKeeps(c: Codec<Entry>, s: Store, step: Step)
    requires OverlapInv(c, s) && CanMove(c, s, Writer(step))
    ensures OverlapInv(c, Make(c, s, Writer(step)))
  {
    var t := Make(c, s, Writer(step));
    SameTrace(s, t);
    hide FilesOk, Traced, Do;
    match step
    case Take => TakeKeepsFiles(c, s.st);
    case Flush(n) => FlushIs(c, s.st, n); SpillKeepsFiles(c, s.st, n);
    case FlushSync => SyncKeepsFiles(c, s.st);
    case StartCompact => StartKeepsFiles(c, s);
    case RenameSnapshot => SwapKeepsFiles(c, s.st);
    case TruncateJournal => CutKeepsFiles(c, s.st);
    case AbandonCompact => AbandonKeepsFiles(c, s.st);
  }

  lemma MoveKeepsInv(c: Codec<Entry>, s: Store, move: Move)
    requires OverlapInv(c, s) && CanMove(c, s, move)
    ensures OverlapInv(c, Make(c, s, move))
  {
    hide OverlapInv;
    match move
    case Change(e) => ChangeKeeps(c, s, e);
    case Hand(i) => HandKeeps(c, s, i);
    case Writer(step) => WriterKeeps(c, s, step);
  }

  // ---- runs ----

  ghost predicate Moves(c: Codec<Entry>, s: Store, moves: seq<Move>)
    decreases |moves|
  {
    moves == [] || (CanMove(c, s, moves[0]) && Moves(c, Make(c, s, moves[0]), moves[1..]))
  }

  ghost function Reached(c: Codec<Entry>, s: Store, moves: seq<Move>): Store
    requires Moves(c, s, moves)
    decreases |moves|
  {
    if moves == [] then s else Reached(c, Make(c, s, moves[0]), moves[1..])
  }

  function Opened(c: Codec<Entry>, d: Disk): Store {
    Store(Open(c, d), [])
  }

  lemma OpenedInv(c: Codec<Entry>, d: Disk)
    ensures OverlapInv(c, Opened(c, d))
  {
    OpenEstablishesInv(c, d);
    var st := Open(c, d);
    assert st.ops[..|st.ops|] == st.ops;
    forall k ensures Counted(Opened(c, d), k) {
    }
  }

  lemma {:induction false} MovesKeepInv(c: Codec<Entry>, s: Store, moves: seq<Move>)
    requires OverlapInv(c, s) && Moves(c, s, moves)
    ensures OverlapInv(c, Reached(c, s, moves))
    decreases |moves|
  {
    hide OverlapInv, CanMove, Make;
    if moves != [] {
      MoveKeepsInv(c, s, moves[0]);
      MovesKeepInv(c, Make(c, s, moves[0]), moves[1..]);
    }
  }

  // ---- reopening after a clean close ----

  /** Every mutator has returned and the writer has drained its channel. */
  predicate ClosedStore(s: Store) {
    s.unsent == [] && s.st.channel == [] && s.st.buffer == [] && s.st.phase == Running
  }

  ghost predicate NoNacks(es: seq<Entry>, k: Key) {
    forall i :: 0 <= i < |Of(es, k)| ==> !Of(es, k)[i].NackHook?
  }

  lemma LastDecides(v: Option<Value>, es: seq<Entry>)
    requires es != [] && !es[|es| - 1].NackHook?
    ensures FoldAt(v, es) == ApplyAt(None, es[|es| - 1])
  {
  }

  lemma {:induction false} OfIsIn(es: seq<Entry>, k: Key, e: Entry)
    ensures e in Of(es, k) <==> e in es && KeyOf(e) == k
    decreases |es|
  {
    if es != [] {
      OfIsIn(es[..|es| - 1], k, e);
      SplitLast(es);
    }
  }

  lemma AllCovered(lines: seq<Entry>, n: nat, log: seq<Entry>, at: nat, k: Key)
    requires n <= |lines| && at <= |log| && |Of(lines, k)| == |Of(log, k)| && Of(lines[n..], k) == []
    requires Covers(log, at, lines[..n], k)
    ensures Of(log[..at], k) == Of(log, k)
  {
    Slices(lines, n, n);
    OfConcat(lines[..n], lines[n..], k);
    OfPrefix(log[..at], log, k);
    hide Of;
  }

  /** Without kept lines of the key, the snapshot already contains its every change. */
  lemma NothingKept(c: Codec<Entry>, s: Store, k: Key)
    requires OverlapInv(c, s) && ClosedStore(s) && Of(KeptLines(s.st.ops), k) == []
    ensures SnapshotAt(s.st.ops) <= |s.st.log| && Of(s.st.log[..SnapshotAt(s.st.ops)], k) == Of(s.st.log, k)
  {
    var st := s.st;
    var lines, at := Appends(st.ops), SnapshotAt(st.ops);
    assert st.ops[..|st.ops|] == st.ops;
    assert Counted(s, k) && Covers(st.log, at, lines[..Dropped(st.ops)], k);
    hide DiskOk, PhaseOk, Traced, Covers, Appends, Dropped, SnapshotAt, Replay;
    assert st.sent == lines;
    AllCovered(lines, Dropped(st.ops), st.log, at, k);
  }

  /** What reopening finds for a key. */
  lemma ReopenedValue(c: Codec<Entry>, s: Store, k: Key)
    requires Sound(c) && OverlapInv(c, s)
    ensures var st := s.st;
            SnapshotAt(st.ops) <= |st.log|
            && Get(Recover(c, DiskAfter(c, st.found, st.ops)), k) ==
               FoldAt(FoldAt(Get(st.init, k), Of(st.log[..SnapshotAt(st.ops)], k)), Of(KeptLines(st.ops), k))
  {
    var st := s.st;
    assert st.ops[..|st.ops|] == st.ops;
    ParseEncodeAll(c, KeptLines(st.ops));
    ReplayAt(st.init, st.log[..SnapshotAt(st.ops)], k);
    ReplayAt(Replay(st.init, st.log[..SnapshotAt(st.ops)]), KeptLines(st.ops), k);
  }

  lemma KeptAreChanges(c: Codec<Entry>, s: Store, k: Key)
    requires OverlapInv(c, s) && ClosedStore(s) && NoNacks(s.st.log, k) && Of(KeptLines(s.st.ops), k) != []
    ensures var kept := Of(KeptLines(s.st.ops), k); !kept[|kept| - 1].NackHook?
    ensures Of(s.st.log, k) != []
  {
    var lines := KeptLines(s.st.ops);
    var kept := Of(lines, k);
    var e := kept[|kept| - 1];
    OfIsIn(lines, k, e);
    assert e in Appends(s.st.ops) && s.st.sent == Appends(s.st.ops);
    OfIsIn(s.st.log, k, e);
  }

  /** After a clean close reopening is exact at a key that is never delayed, exactly if no line of
      it was written since the journal was last truncated, or the last such line has the effect of
      the key's last change in memory. */
  lemma ReopenIff(c: Codec<Entry>, s: Store, k: Key)
    requires Sound(c) && OverlapInv(c, s) && ClosedStore(s) && NoNacks(s.st.log, k)
    ensures var kept, changes := Of(KeptLines(s.st.ops), k), Of(s.st.log, k);
            Get(Recover(c, DiskAfter(c, s.st.found, s.st.ops)), k) == Get(s.st.mem, k) <==>
            kept == []
            || (changes != [] && ApplyAt(None, kept[|kept| - 1]) == ApplyAt(None, changes[|changes| - 1]))
    ensures var kept := Of(KeptLines(s.st.ops), k);
            kept != [] ==>
              Get(Recover(c, DiskAfter(c, s.st.found, s.st.ops)), k) == ApplyAt(None, kept[|kept| - 1])
  {
    var st := s.st;
    var kept, changes := Of(KeptLines(st.ops), k), Of(st.log, k);
    ReopenedValue(c, s, k);
    ReplayAt(st.init, st.log, k);
    if kept == [] {
      NothingKept(c, s, k);
    } else {
      KeptAreChanges(c, s, k);
      hide Of, KeptLines, SnapshotAt;
      LastDecides(FoldAt(Get(st.init, k), Of(st.log[..SnapshotAt(st.ops)], k)), kept);
      LastDecides(Get(st.init, k), changes);
    }
  }

  // ---- a run that diverges ----

  lemma {:induction false} MovesThen(c: Codec<Entry>, s: Store, moves: seq<Move>, move: Move)
    requires Moves(c, s, moves) && CanMove(c, Reached(c, s, moves), move)
    ensures Moves(c, s, moves + [move])
    ensures Reached(c, s, moves + [move]) == Make(c, Reached(c, s, moves), move)
    decreases |moves|
  {
    hide CanMove, Make;
    if moves == [] {
      assert moves + [move] == [move] && [move][1..] == [];
    } else {
      assert (moves + [move])[1..] == moves[1..] + [move];
      MovesThen(c, Make(c, s, moves[0]), moves[1..], move);
    }
  }

  /** Two saves change memory in one order and reach the channel in the other. */
  lemma SentInReverse(c: Codec<Entry>, d: Disk, first: Record, second: Record) returns (moves: seq<Move>)
    ensures Moves(c, Opened(c, d), moves)
    ensures var p, q, st := PutJob(first), PutJob(second), Open(c, d);
            Reached(c, Opened(c, d), moves) ==
            Store(st.(mem := Apply(Apply(st.mem, p), q), log := [p, q], sent := [q, p], channel := [q, p]), [])
  {
    var p, q, s := PutJob(first), PutJob(second), Opened(c, d);
    moves := [];
    assert Moves(c, s, moves) && Reached(c, s, moves) == s;
    hide Moves, Reached, Recover, Apply;
    MovesThen(c, s, moves, Change(p));
    moves := moves + [Change(p)];
    MovesThen(c, s, moves, Change(q));
    moves := moves + [Change(q)];
    assert Reached(c, s, moves).unsent == [p, q] && Reached(c, s, moves).st.log == [p, q];
    MovesThen(c, s, moves, Hand(1));
    moves := moves + [Hand(1)];
    assert Reached(c, s, moves).unsent == [p] && Reached(c, s, moves).st.sent == [q];
    MovesThen(c, s, moves, Hand(0));
    moves := moves + [Hand(0)];
    assert [q] + [p] == [q, p];
  }

  /** The writer takes both and syncs. */
  lemma WrittenInReverse(c: Codec<Entry>, d: Disk, first: Record, second: Record) returns (moves: seq<Move>)
    ensures Moves(c, Opened(c, d), moves)
    ensures var p, q, t := PutJob(first), PutJob(second), Reached(c, Opened(c, d), moves);
            && ClosedStore(t) && t.st.log == [p, q] && t.st.mem == Apply(Apply(Recover(c, d), p), q)
            && t.st.ops == Open(c, d).ops + [Append(q)] + [Append(p)]
  {
    var p, q, s := PutJob(first), PutJob(second), Opened(c, d);
    moves := SentInReverse(c, d, first, second);
    hide Moves, Reached, Recover, Apply;
    MovesThen(c, s, moves, Writer(Take));
    moves := moves + [Writer(Take)];
    assert [q, p][1..] == [p] && [] + [q] == [q] && [p][1..] == [];
    assert Reached(c, s, moves).st.buffer == [q] && Reached(c, s, moves).st.channel == [p];
    MovesThen(c, s, moves, Writer(Take));
    moves := moves + [Writer(Take)];
    var buffer := Reached(c, s, moves).st.buffer;
    assert buffer == [q, p];
    MovesThen(c, s, moves, Writer(FlushSync));
    moves := moves + [Writer(FlushSync)];
    assert buffer[..2] == buffer && buffer[2..] == [] && AppendOps(buffer) == [Append(q)] + [Append(p)];
    Assoc(Open(c, d).ops, [Append(q)], [Append(p)]);
  }

  lemma ReverseLines(c: Codec<Entry>, d: Disk, p: Entry, q: Entry)
    ensures KeptLines(Open(c, d).ops + [Append(q)] + [Append(p)]) == [q, p]
  {
    var m := Recover(c, d);
    hide Recover, Appends, Dropped, SnapshotAt;
    assert Open(c, d).ops == [] + [Rename(m, 0)] + [Truncate];
    NoLines();
    OpsPush([], Rename(m, 0));
    OpsPush([] + [Rename(m, 0)], Truncate);
    OpsPush(Open(c, d).ops, Append(q));
    OpsPush(Open(c, d).ops + [Append(q)], Append(p));
  }

  lemma NoNackAmong(es: seq<Entry>, k: Key)
    requires forall i :: 0 <= i < |es| ==> !es[i].NackHook?
    ensures NoNacks(es, k)
  {
    forall i | 0 <= i < |Of(es, k)| ensures !Of(es, k)[i].NackHook? {
      OfIsIn(es, k, Of(es, k)[i]);
    }
  }

  lemma LastOfKey(es: seq<Entry>, k: Key)
    requires es != [] && KeyOf(es[|es| - 1]) == k
    ensures Of(es, k) != [] && Of(es, k)[|Of(es, k)| - 1] == es[|es| - 1]
  {
  }

  /** The last kept line of a key decides what comes back. */
  lemma LastLineComesBack(c: Codec<Entry>, t: Store, p: Entry, k: Key)
    requires Sound(c) && OverlapInv(c, t) && ClosedStore(t)
    requires forall i :: 0 <= i < |t.st.log| ==> !t.st.log[i].NackHook?
    requires KeptLines(t.st.ops) != [] && KeptLines(t.st.ops)[|KeptLines(t.st.ops)| - 1] == p && KeyOf(p) == k
    ensures Get(Recover(c, DiskAfter(c, t.st.found, t.st.ops)), k) == ApplyAt(None, p)
  {
    NoNackAmong(t.st.log, k);
    LastOfKey(KeptLines(t.st.ops), k);
    hide *;
    ReopenIff(c, t, k);
  }

  /** From any files, two overlapping saves of one job and a clean close: reopening brings
      back the first value although memory held the second. */
  lemma OverlapDiverges(c: Codec<Entry>, d: Disk, first: Record, second: Record) returns (moves: seq<Move>)
    requires Sound(c) && first.id == second.id
    ensures Moves(c, Opened(c, d), moves)
    ensures var t, k := Reached(c, Opened(c, d), moves), Key(JobKind, first.id);
            && ClosedStore(t) && Get(t.st.mem, k) == Some(Rec(second))
            && Get(Recover(c, DiskAfter(c, t.st.found, t.st.ops)), k) == Some(Rec(first))
  {
    var p, q, k := PutJob(first), PutJob(second), Key(JobKind, first.id);
    moves := WrittenInReverse(c, d, first, second);
    OpenedInv(c, d);
    MovesKeepInv(c, Opened(c, d), moves);
    ReverseLines(c, d, p, q);
    hide OverlapInv, Moves, Reached, Recover, DiskAfter, KeptLines;
    LastLineComesBack(c, Reached(c, Opened(c, d), moves), p, k);
  }
}
