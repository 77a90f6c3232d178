/** FSStore as a step system: writers change memory and later send a journal entry, one
    background writer buffers, syncs and compacts, and the process may crash at any point.
    The disk is the list of file operations issued so far; a crash keeps any prefix of it that
    contains everything synced, with the next line possibly torn.
    Writers do not overlap on one key: a key with an unsent entry accepts no new change. */
module StoreMachine {
  import opened Base
  import opened StoreModel
  import opened JournalCodec

  datatype Disk = Disk(snapshot: Maps, journal: seq<byte>)

  /** A rename remembers how many memory steps its snapshot contains. */
  datatype DiskOp = Append(entry: Entry) | Rename(snap: Maps, at: nat) | Truncate

  /** Where the background writer is inside compact. */
  datatype Phase = Running | Snapped(snap: Maps, at: nat) | Renamed

  /** init, log and sent are history: the maps after opening, every memory step in lock order,
      and every channel send in channel order. */
  datatype State = State(
    found: Disk,
    init: Maps,
    log: seq<Entry>,
    mem: Maps,
    pending: map<Key, Entry>,
    sent: seq<Entry>,
    channel: seq<Entry>,
    buffer: seq<Entry>,
    ops: seq<DiskOp>,
    durable: nat,
    phase: Phase)

  datatype Step =
    | Mutate(e: Entry)               // locked section of a mutator
    | Send(k: Key)                   // fs.journalCh <- e
    | Take                           // writer receives and encodes into its buffer
    | Flush(n: nat)                  // the buffer spills n lines to the file
    | FlushSync                      // flushSync
    | StartCompact                   // doCompact: flush, then snapshot under the read lock
    | RenameSnapshot                 // tmp file renamed over snapshot.json
    | TruncateJournal
    | AbandonCompact                 // compact returned an error
    | CrashAndReopen(kept: nat, torn: seq<byte>)

  // ---- the disk ----

  function Appends(ops: seq<DiskOp>): seq<Entry> {
    if ops == [] then []
    else
      var last := ops[|ops| - 1];
      Appends(ops[..|ops| - 1]) + (if last.Append? then [last.entry] else [])
  }

  function AppendOps(es: seq<Entry>): (ops: seq<DiskOp>)
    ensures |ops| == |es|
  {
    seq(|es|, i requires 0 <= i < |es| => Append(es[i]))
  }

  function DiskAfter(c: Codec<Entry>, d: Disk, ops: seq<DiskOp>): Disk {
    if ops == [] then d
    else
      var d' := DiskAfter(c, d, ops[..|ops| - 1]);
      match ops[|ops| - 1]
      case Append(e) => d'.(journal := d'.journal + Line(c, e))
      case Rename(snap, _) => d'.(snapshot := snap)
      case Truncate => d'.(journal := [])
  }

  /** loadSnapshot, then replayJournal. */
  function Recover(c: Codec<Entry>, d: Disk): Maps {
    Replay(d.snapshot, Parse(c, d.journal))
  }

  /** OpenFSStore recovers and compacts before the writer starts; neither file operation of that
      compaction is synced yet. */
  function Open(c: Codec<Entry>, d: Disk): State {
    var m := Recover(c, d);
    State(d, m, [], m, map[], [], [], [], [Rename(m, 0), Truncate], 0, Running)
  }

  /** The line being written right after the first i operations, if it is a line. */
  function NextLine(st: State, i: nat): Option<Entry>
    requires i <= |st.ops|
  {
    if i < |st.ops| then (if st.ops[i].Append? then Some(st.ops[i].entry) else None)
    else if st.buffer != [] then Some(st.buffer[0]) else None
  }

  predicate CanCrash(c: Codec<Entry>, st: State, kept: nat, torn: seq<byte>) {
    && st.durable <= kept <= |st.ops|
    && (torn != [] ==> NextLine(st, kept).Some? && torn <= Line(c, NextLine(st, kept).value))
  }

  function CrashDisk(c: Codec<Entry>, st: State, kept: nat, torn: seq<byte>): Disk
    requires kept <= |st.ops|
  {
    var d := DiskAfter(c, st.found, st.ops[..kept]);
    d.(journal := d.journal + torn)
  }

  // ---- steps ----

  predicate Can(c: Codec<Entry>, st: State, step: Step) {
    match step
    case Mutate(e) => Accepts(st.mem, e) && KeyOf(e) !in st.pending
    case Send(k) => k in st.pending
    case Take => st.phase == Running && st.channel != []
    case Flush(n) => st.phase == Running && n <= |st.buffer|
    case FlushSync => st.phase == Running
    case StartCompact => st.phase == Running
    case RenameSnapshot => st.phase.Snapped?
    case TruncateJournal => st.phase == Renamed
    case AbandonCompact => st.phase != Running
    case CrashAndReopen(kept, torn) => CanCrash(c, st, kept, torn)
  }

  function FlushN(st: State, n: nat): State
    requires n <= |st.buffer|
  {
    st.(ops := st.ops + AppendOps(st.buffer[..n]), buffer := st.buffer[n..])
  }

  function Do(c: Codec<Entry>, st: State, step: Step): State
    requires Can(c, st, step)
  {
    match step
    case Mutate(e) =>
      st.(mem := Apply(st.mem, e), log := st.log + [e], pending := st.pending[KeyOf(e) := e])
    case Send(k) =>
      st.(channel := st.channel + [st.pending[k]], sent := st.sent + [st.pending[k]], pending := st.pending - {k})
    case Take => st.(buffer := st.buffer + [st.channel[0]], channel := st.channel[1..])
    case Flush(n) => FlushN(st, n)
    case FlushSync => var f := FlushN(st, |st.buffer|); f.(durable := |f.ops|)
    case StartCompact => FlushN(st, |st.buffer|).(phase := Snapped(st.mem, |st.log|))
    case RenameSnapshot => st.(ops := st.ops + [Rename(st.phase.snap, st.phase.at)], phase := Renamed)
    case TruncateJournal => st.(ops := st.ops + [Truncate], phase := Running)
    case AbandonCompact => st.(phase := Running)
    case CrashAndReopen(kept, torn) => Open(c, CrashDisk(c, st, kept, torn))
  }

  // ---- the invariant ----

  function Unsent(st: State, k: Key): seq<Entry> {
    if k in st.pending then [st.pending[k]] else []
  }

  /** Number of appended lines that the last truncation removed. */
  function Dropped(ops: seq<DiskOp>): (n: nat)
    ensures n <= |Appends(ops)|
  {
    if ops == [] then 0
    else if ops[|ops| - 1].Truncate? then |Appends(ops)|
    else Dropped(ops[..|ops| - 1])
  }

  function SnapshotAt(ops: seq<DiskOp>): nat {
    if ops == [] then 0
    else if ops[|ops| - 1].Rename? then ops[|ops| - 1].at
    else SnapshotAt(ops[..|ops| - 1])
  }

  ghost predicate Covers(log: seq<Entry>, at: nat, es: seq<Entry>, k: Key)
    requires at <= |log|
  {
    |Of(es, k)| <= |Of(log[..at], k)|
  }

  /** The snapshot on disk is a state memory was in, and it contains every line already dropped. */
  ghost predicate DiskOk(c: Codec<Entry>, st: State, i: nat)
    requires i <= |st.ops|
  {
    var p := st.ops[..i];
    && SnapshotAt(p) <= |st.log|
    && DiskAfter(c, st.found, p).snapshot == Replay(st.init, st.log[..SnapshotAt(p)])
    && DiskAfter(c, st.found, p).journal == EncodeAll(c, Appends(p)[Dropped(p)..])
    && forall k :: Covers(st.log, SnapshotAt(p), Appends(p)[..Dropped(p)], k)
  }

  ghost predicate KeyOk(st: State, k: Key) {
    && (k in st.pending ==> KeyOf(st.pending[k]) == k)
    && Of(st.log, k) == Of(st.sent, k) + Unsent(st, k)
    && Legal(Get(st.init, k), Of(st.log, k))
  }

  ghost predicate KeysOk(st: State) {
    forall k :: KeyOk(st, k)
  }

  ghost predicate DisksOk(c: Codec<Entry>, st: State) {
    forall i :: 2 <= i <= |st.ops| ==> DiskOk(c, st, i)
  }

  ghost predicate PhaseOk(c: Codec<Entry>, st: State) {
    match st.phase
    case Running => true
    case Snapped(snap, at) =>
      && st.buffer == []
      && at <= |st.log|
      && snap == Replay(st.init, st.log[..at])
      && forall k :: Covers(st.log, at, Appends(st.ops), k)
    case Renamed =>
      && st.buffer == []
      && SnapshotAt(st.ops) <= |st.log|
      && forall k :: Covers(st.log, SnapshotAt(st.ops), Appends(st.ops), k)
  }

  ghost predicate Inv(c: Codec<Entry>, st: State) {
    && st.init == Recover(c, st.found)
    && st.mem == Replay(st.init, st.log)
    && st.sent == Appends(st.ops) + st.buffer + st.channel
    && st.durable <= |st.ops|
    && |st.ops| >= 2 && st.ops[0] == Rename(st.init, 0) && st.ops[1] == Truncate
    && KeysOk(st)
    && DisksOk(c, st)
    && PhaseOk(c, st)
  }

  // ---- helper facts ----

  lemma {:induction false} AppendsConcat(a: seq<DiskOp>, b: seq<DiskOp>)
    ensures Appends(a + b) == Appends(a) + Appends(b)
  {
    if b == [] {
      assert a + b == a;
    } else {
      var b' := b[..|b| - 1];
      AppendsConcat(a, b');
      assert (a + b)[..|a + b| - 1] == a + b';
      assert Appends(a + b') + (if b[|b| - 1].Append? then [b[|b| - 1].entry] else [])
          == Appends(a) + Appends(b);
    }
  }

  lemma {:induction false} AppendsOfAppendOps(es: seq<Entry>)
    ensures Appends(AppendOps(es)) == es
    decreases |es|
  {
    if es != [] {
      var n := |es| - 1;
      AppendsOfAppendOps(es[..n]);
      assert AppendOps(es)[..n] == AppendOps(es[..n]);
      SplitLast(es);
    }
  }

  lemma OfPrefix(a: seq<Entry>, b: seq<Entry>, k: Key)
    requires a <= b
    ensures Of(a, k) <= Of(b, k)
    ensures |Of(a, k)| <= |Of(b, k)|
  {
    OfConcat(a, b[|a|..], k);
    assert a == b[..|a|];
    Slices(b, |a|, |a|);
  }

  /** What was sent for a key is a prefix of what memory did to it. */
  lemma SentIsPrefix(st: State, es: seq<Entry>, k: Key)
    requires KeyOk(st, k) && es <= st.sent
    ensures Of(es, k) <= Of(st.log, k)
  {
    OfPrefix(es, st.sent, k);
  }

  // ---- every step keeps the invariant ----

  lemma LegalPush(v: Option<Value>, es: seq<Entry>, e: Entry)
    requires Legal(v, es) && AcceptsAt(FoldAt(v, es), e)
    ensures Legal(v, es + [e])
  {
    DropLast(es, e);
  }

  lemma MutateKeepsKey(st: State, st': State, e: Entry, k: Key)
    requires KeyOk(st, k) && st.mem == Replay(st.init, st.log)
    requires Accepts(st.mem, e) && KeyOf(e) !in st.pending
    requires st'.init == st.init && st'.sent == st.sent
    requires st'.log == st.log + [e] && st'.pending == st.pending[KeyOf(e) := e]
    ensures KeyOk(st', k)
  {
    OfPush(st.log, e, k);
    ReplayAt(st.init, st.log, k);
    hide Of, Replay;
    if KeyOf(e) == k {
      LegalPush(Get(st.init, k), Of(st.log, k), e);
      assert Of(st.sent, k) + [] == Of(st.sent, k);
    } else {
      assert Of(st.log, k) + [] == Of(st.log, k);
    }
  }

  /** A longer log leaves every earlier moment as it was. */
  lemma LongerLog(st: State, st': State, at: nat, es: seq<Entry>)
    requires at <= |st.log| && st.log <= st'.log
    ensures st'.log[..at] == st.log[..at]
    ensures (forall k :: Covers(st.log, at, es, k)) ==> forall k :: Covers(st'.log, at, es, k)
  {
    assert st'.log[..at] == st.log[..at];
    if forall k :: Covers(st.log, at, es, k) {
      forall k ensures Covers(st'.log, at, es, k) {
        assert Covers(st.log, at, es, k);
      }
    }
  }

  lemma LongerLogKeepsDisk(c: Codec<Entry>, st: State, st': State)
    requires st'.found == st.found && st'.init == st.init && st'.ops == st.ops && st.log <= st'.log
    requires DisksOk(c, st)
    ensures DisksOk(c, st')
  {
    forall i | 2 <= i <= |st.ops| ensures DiskOk(c, st', i) {
      assert DiskOk(c, st, i);
      var p := st.ops[..i];
      LongerLog(st, st', SnapshotAt(p), Appends(p)[..Dropped(p)]);
    }
  }

  lemma LongerLogKeepsPhase(c: Codec<Entry>, st: State, st': State)
    requires st'.init == st.init && st'.ops == st.ops && st'.buffer == st.buffer && st'.phase == st.phase
    requires st.log <= st'.log && PhaseOk(c, st)
    ensures PhaseOk(c, st')
  {
    match st.phase
    case Running =>
    case Snapped(snap, at) => LongerLog(st, st', at, Appends(st.ops));
    case Renamed => LongerLog(st, st', SnapshotAt(st.ops), Appends(st.ops));
  }

  lemma MutateKeepsInv(c: Codec<Entry>, st: State, e: Entry)
    requires Inv(c, st) && Can(c, st, Mutate(e))
    ensures Inv(c, Do(c, st, Mutate(e)))
  {
    var st' := Do(c, st, Mutate(e));
    assert KeysOk(st') by {
      forall k ensures KeyOk(st', k) {
        assert KeyOk(st, k);
        MutateKeepsKey(st, st', e, k);
      }
    }
    hide KeysOk;
    LongerLogKeepsDisk(c, st, st');
    hide DisksOk;
    LongerLogKeepsPhase(c, st, st');
    ReplayPush(st.init, st.log, e);
  }

  lemma SendKeepsOwnKey(st: State, st': State, e: Entry, k: Key)
    requires KeyOk(st, k) && KeyOf(e) == k && Unsent(st, k) == [e]
    requires st'.init == st.init && st'.log == st.log
    requires st'.sent == st.sent + [e] && k !in st'.pending
    ensures KeyOk(st', k)
  {
    OfPush(st.sent, e, k);
    var rest := Unsent(st', k);
    assert rest == [];
    hide Of, Legal, Get, Unsent;
    AppendNothing(Of(st'.sent, k), rest);
  }

  lemma SendKeepsOtherKey(st: State, st': State, e: Entry, j: Key)
    requires KeyOk(st, j) && KeyOf(e) != j
    requires st'.init == st.init && st'.log == st.log
    requires st'.sent == st.sent + [e] && Unsent(st', j) == Unsent(st, j)
    requires j in st'.pending ==> j in st.pending && st'.pending[j] == st.pending[j]
    ensures KeyOk(st', j)
  {
    OfPush(st.sent, e, j);
    hide Of, Legal, Get, Unsent;
    assert Of(st'.sent, j) == Of(st.sent, j);
  }

  lemma SendKeepsKeys(st: State, st': State, k: Key)
    requires KeysOk(st) && k in st.pending
    requires st'.init == st.init && st'.log == st.log
    requires st'.sent == st.sent + [st.pending[k]] && st'.pending == st.pending - {k}
    ensures KeysOk(st')
  {
    assert KeyOk(st, k);
    forall j ensures KeyOk(st', j) {
      assert KeyOk(st, j);
      if j == k {
        SendKeepsOwnKey(st, st', st.pending[k], k);
      } else {
        SendKeepsOtherKey(st, st', st.pending[k], j);
      }
    }
  }

  lemma SendKeepsInv(c: Codec<Entry>, st: State, k: Key)
    requires Inv(c, st) && Can(c, st, Send(k))
    ensures Inv(c, Do(c, st, Send(k)))
  {
    var st' := Do(c, st, Send(k));
    hide KeysOk, DisksOk, PhaseOk, Replay, Recover, Appends;
    SendKeepsKeys(st, st', k);
    LongerLogKeepsDisk(c, st, st');
    LongerLogKeepsPhase(c, st, st');
    Assoc(Appends(st.ops) + st.buffer, st.channel, [st.pending[k]]);
  }

  lemma SameKeys(st: State, st': State)
    requires st'.init == st.init && st'.log == st.log && st'.sent == st.sent && st'.pending == st.pending
    requires KeysOk(st)
    ensures KeysOk(st')
  {
    forall k ensures KeyOk(st', k) {
      assert KeyOk(st, k);
    }
  }

  lemma TakeKeepsInv(c: Codec<Entry>, st: State)
    requires Inv(c, st) && Can(c, st, Take)
    ensures Inv(c, Do(c, st, Take))
  {
    var st' := Do(c, st, Take);
    SameKeys(st, st');
    hide KeysOk;
    LongerLogKeepsDisk(c, st, st');
    hide DisksOk;
    assert [st.channel[0]] + st.channel[1..] == st.channel;
    Assoc(Appends(st.ops) + st.buffer, [st.channel[0]], st.channel[1..]);
    Assoc(Appends(st.ops), st.buffer, [st.channel[0]]);
  }

  /** One more operation at the end of the disk's list. */
  lemma PushOp(c: Codec<Entry>, st: State, st': State, op: DiskOp)
    requires st'.found == st.found && st'.init == st.init && st'.log == st.log && st'.ops == st.ops + [op]
    requires |st.ops| >= 2 && DisksOk(c, st)
    requires DiskOk(c, st', |st'.ops|)
    ensures DisksOk(c, st')
  {
    forall i | 2 <= i <= |st.ops| ensures DiskOk(c, st', i) {
      assert DiskOk(c, st, i);
      assert st'.ops[..i] == st.ops[..i];
    }
  }

  lemma AppendKeepsDiskOk(c: Codec<Entry>, st: State, st': State, e: Entry)
    requires st'.found == st.found && st'.init == st.init && st'.log == st.log
    requires st'.ops == st.ops + [Append(e)]
    requires DiskOk(c, st, |st.ops|)
    ensures Appends(st'.ops) == Appends(st.ops) + [e]
    ensures DiskOk(c, st', |st'.ops|)
  {
    var p := st.ops;
    assert st'.ops[..|p|] == p && st.ops[..|p|] == p && st'.ops[..|p| + 1] == st'.ops;
    EncodeAllAppend(c, Appends(p)[Dropped(p)..], [e]);
    assert EncodeAll(c, [e]) == Line(c, e);
    assert (Appends(p) + [e])[Dropped(p)..] == Appends(p)[Dropped(p)..] + [e];
    assert (Appends(p) + [e])[..Dropped(p)] == Appends(p)[..Dropped(p)];
    forall k ensures Covers(st'.log, SnapshotAt(st'.ops), Appends(st'.ops)[..Dropped(st'.ops)], k) {
      assert Covers(st.log, SnapshotAt(p), Appends(p)[..Dropped(p)], k);
    }
  }

  lemma FlushOneKeepsInv(c: Codec<Entry>, st: State)
    requires Inv(c, st) && st.phase == Running && st.buffer != []
    ensures Inv(c, FlushN(st, 1))
  {
    var e := st.buffer[0];
    var st' := FlushN(st, 1);
    assert AppendOps(st.buffer[..1]) == [Append(e)];
    assert DiskOk(c, st, |st.ops|);
    AppendKeepsDiskOk(c, st, st', e);
    PushOp(c, st, st', Append(e));
    SameKeys(st, st');
    hide KeysOk, DisksOk, DiskOk;
    assert [e] + st.buffer[1..] == st.buffer;
    Assoc(Appends(st.ops), [e], st.buffer[1..]);
  }

  lemma AppendOpsConcat(a: seq<Entry>, b: seq<Entry>)
    ensures AppendOps(a + b) == AppendOps(a) + AppendOps(b)
  {
  }

  lemma FlushSplit(st: State, n: nat)
    requires 0 < n <= |st.buffer|
    ensures FlushN(FlushN(st, 1), n - 1) == FlushN(st, n)
  {
    var x, y := st.buffer[..1], st.buffer[1..][..n - 1];
    assert st.buffer[1..][n - 1..] == st.buffer[n..];
    assert x + y == st.buffer[..n];
    AppendOpsConcat(x, y);
    Assoc(st.ops, AppendOps(x), AppendOps(y));
  }

  lemma FlushNone(st: State)
    ensures FlushN(st, 0) == st
  {
    assert AppendOps(st.buffer[..0]) == [];
  }

  lemma {:induction false} FlushKeepsInv(c: Codec<Entry>, st: State, n: nat)
    requires Inv(c, st) && st.phase == Running && n <= |st.buffer|
    ensures Inv(c, FlushN(st, n))
    decreases n
  {
    hide Inv;
    if n == 0 {
      FlushNone(st);
    } else {
      FlushOneKeepsInv(c, st);
      FlushKeepsInv(c, FlushN(st, 1), n - 1);
      FlushSplit(st, n);
    }
  }

  lemma FlushSyncKeepsInv(c: Codec<Entry>, st: State)
    requires Inv(c, st) && Can(c, st, FlushSync)
    ensures Inv(c, Do(c, st, FlushSync))
  {
    FlushKeepsInv(c, st, |st.buffer|);
    var f := FlushN(st, |st.buffer|);
    var st' := f.(durable := |f.ops|);
    SameKeys(f, st');
    hide KeysOk;
    LongerLogKeepsDisk(c, f, st');
  }

  /** Everything written so far is in memory, so it is in a snapshot of memory. */
  lemma MemoryCoversDisk(c: Codec<Entry>, st: State, k: Key)
    requires Inv(c, st)
    ensures Covers(st.log, |st.log|, Appends(st.ops), k)
  {
    assert KeyOk(st, k);
    assert Appends(st.ops) <= st.sent;
    SentIsPrefix(st, Appends(st.ops), k);
    assert st.log[..|st.log|] == st.log;
  }

  lemma StartCompactKeepsInv(c: Codec<Entry>, st: State)
    requires Inv(c, st) && Can(c, st, StartCompact)
    ensures Inv(c, Do(c, st, StartCompact))
  {
    FlushKeepsInv(c, st, |st.buffer|);
    var f := FlushN(st, |st.buffer|);
    var st' := Do(c, st, StartCompact);
    SameKeys(f, st');
    LongerLogKeepsDisk(c, f, st');
    forall k ensures Covers(st'.log, |st.log|, Appends(st'.ops), k) {
      MemoryCoversDisk(c, f, k);
    }
    hide KeysOk, DisksOk;
    assert st.log[..|st.log|] == st.log;
  }

  lemma RenameKeepsDiskOk(c: Codec<Entry>, st: State, st': State)
    requires st.phase.Snapped? && PhaseOk(c, st) && DiskOk(c, st, |st.ops|)
    requires st'.found == st.found && st'.init == st.init && st'.log == st.log
    requires st'.ops == st.ops + [Rename(st.phase.snap, st.phase.at)]
    ensures Appends(st'.ops) == Appends(st.ops) && SnapshotAt(st'.ops) == st.phase.at
    ensures DiskOk(c, st', |st'.ops|)
  {
    var p := st.ops;
    assert st'.ops[..|p|] == p && st.ops[..|p|] == p && st'.ops[..|p| + 1] == st'.ops;
    assert Appends(st'.ops) == Appends(p) && Dropped(st'.ops) == Dropped(p) && SnapshotAt(st'.ops) == st.phase.at;
    forall k ensures Covers(st'.log, st.phase.at, Appends(p)[..Dropped(p)], k) {
      assert Covers(st.log, st.phase.at, Appends(p), k);
      OfPrefix(Appends(p)[..Dropped(p)], Appends(p), k);
    }
  }

  lemma RenameKeepsInv(c: Codec<Entry>, st: State)
    requires Inv(c, st) && Can(c, st, RenameSnapshot)
    ensures Inv(c, Do(c, st, RenameSnapshot))
  {
    var st' := Do(c, st, RenameSnapshot);
    assert DiskOk(c, st, |st.ops|);
    RenameKeepsDiskOk(c, st, st');
    PushOp(c, st, st', Rename(st.phase.snap, st.phase.at));
    SameKeys(st, st');
    hide KeysOk, DisksOk, DiskOk;
    forall k ensures Covers(st'.log, SnapshotAt(st'.ops), Appends(st'.ops), k) {
      assert Covers(st.log, st.phase.at, Appends(st.ops), k);
    }
  }

  lemma TruncateKeepsDiskOk(c: Codec<Entry>, st: State, st': State)
    requires st.phase == Renamed && PhaseOk(c, st) && DiskOk(c, st, |st.ops|)
    requires st'.found == st.found && st'.init == st.init && st'.log == st.log
    requires st'.ops == st.ops + [Truncate]
    ensures Appends(st'.ops) == Appends(st.ops)
    ensures DiskOk(c, st', |st'.ops|)
  {
    var p := st.ops;
    assert st'.ops[..|p|] == p && st.ops[..|p|] == p && st'.ops[..|p| + 1] == st'.ops;
    assert Appends(p)[..|Appends(p)|] == Appends(p);
    forall k ensures Covers(st'.log, SnapshotAt(st'.ops), Appends(st'.ops)[..Dropped(st'.ops)], k) {
      assert Covers(st.log, SnapshotAt(p), Appends(p), k);
    }
  }

  lemma TruncateKeepsInv(c: Codec<Entry>, st: State)
    requires Inv(c, st) && Can(c, st, TruncateJournal)
    ensures Inv(c, Do(c, st, TruncateJournal))
  {
    var st' := Do(c, st, TruncateJournal);
    assert DiskOk(c, st, |st.ops|);
    TruncateKeepsDiskOk(c, st, st');
    PushOp(c, st, st', Truncate);
    SameKeys(st, st');
    hide KeysOk, DisksOk, DiskOk;
  }

  lemma AbandonKeepsInv(c: Codec<Entry>, st: State)
    requires Inv(c, st) && Can(c, st, AbandonCompact)
    ensures Inv(c, Do(c, st, AbandonCompact))
  {
    var st' := Do(c, st, AbandonCompact);
    SameKeys(st, st');
    LongerLogKeepsDisk(c, st, st');
    hide KeysOk, DisksOk;
  }

  /** A store opened on any disk at all starts out consistent. */
  lemma OpenEstablishesInv(c: Codec<Entry>, d: Disk)
    ensures Inv(c, Open(c, d))
  {
    var st := Open(c, d);
    var r, t := st.ops[0], st.ops[1];
    assert st.ops[..2] == [r, t] && [r, t][..1] == [r] && [r][..0] == [];
    assert Appends([r]) == [];
    assert Appends([r, t]) == Appends([r, t][..1]);
    assert SnapshotAt([r, t]) == SnapshotAt([r]) == 0;
    assert DiskAfter(c, d, []) == d;
    assert DiskAfter(c, d, [r]) == d.(snapshot := st.init);
    assert DiskAfter(c, d, [r, t]) == Disk(st.init, []);
    assert st.log[..0] == [];
    forall k ensures KeyOk(st, k) && Covers(st.log, 0, Appends([r, t])[..Dropped([r, t])], k) {
    }
    assert DiskOk(c, st, 2);
  }

  lemma StepKeepsInv(c: Codec<Entry>, st: State, step: Step)
    requires Inv(c, st) && Can(c, st, step)
    ensures Inv(c, Do(c, st, step))
  {
    hide Inv;
    match step
    case Mutate(e) => MutateKeepsInv(c, st, e);
    case Send(k) => SendKeepsInv(c, st, k);
    case Take => TakeKeepsInv(c, st);
    case Flush(n) => FlushKeepsInv(c, st, n);
    case FlushSync => FlushSyncKeepsInv(c, st);
    case StartCompact => StartCompactKeepsInv(c, st);
    case RenameSnapshot => RenameKeepsInv(c, st);
    case TruncateJournal => TruncateKeepsInv(c, st);
    case AbandonCompact => AbandonKeepsInv(c, st);
    case CrashAndReopen(kept, torn) => OpenEstablishesInv(c, CrashDisk(c, st, kept, torn));
  }
}
