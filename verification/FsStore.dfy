/** FSStore in its own form: an object whose methods edit four maps, a channel, a write buffer
    and two files. Every method is tied to the step system of StoreMachine: Machine() is the
    object seen as a state of that system, and each method performs a run of its steps. */
module FsStore {
  import opened Base
  import opened StoreModel
  import opened JournalCodec
  import opened StoreMachine
  import opened StoreRecovery

  /** snapshot.json: four lists, in whatever order the maps were iterated. */
  datatype SnapshotFile = SnapshotFile(
    jobs: seq<Record>, taskDefs: seq<Record>, webhooks: seq<Hook>, runs: seq<Record>)

  function ById<V>(list: seq<V>, id: V -> string): map<string, V> {
    if list == [] then map[]
    else ById(list[..|list| - 1], id)[id(list[|list| - 1]) := list[|list| - 1]]
  }

  function RecordId(r: Record): string { r.id }
  function HookId(h: Hook): string { h.id }

  function Loaded(f: SnapshotFile): Maps {
    Maps(ById(f.jobs, RecordId), ById(f.taskDefs, RecordId), ById(f.runs, RecordId), ById(f.webhooks, HookId))
  }

  predicate KeyedBy<V>(m: map<string, V>, id: V -> string) {
    forall k :: k in m ==> id(m[k]) == k
  }

  predicate Keyed(m: Maps) {
    && KeyedBy(m.jobs, RecordId) && KeyedBy(m.taskDefs, RecordId)
    && KeyedBy(m.runs, RecordId) && KeyedBy(m.webhooks, HookId)
  }

  lemma ByIdPush<V>(list: seq<V>, v: V, id: V -> string)
    ensures ById(list + [v], id) == ById(list, id)[id(v) := v]
  {
    var more := list + [v];
    assert more[..|more| - 1] == list && more[|more| - 1] == v;
  }

  lemma OneMore<V>(m: map<string, V>, todo: set<string>, k: string)
    requires k in todo && todo <= m.Keys
    ensures m - (todo - {k}) == (m - todo)[k := m[k]]
  {
  }

  /** The loop of compact over one map, in map iteration order. */
  method ListOf<V>(m: map<string, V>, id: V -> string) returns (list: seq<V>)
    requires KeyedBy(m, id)
    ensures ById(list, id) == m
  {
    list := [];
    var todo := m.Keys;
    assert m - todo == map[];
    while todo != {}
      invariant todo <= m.Keys
      invariant ById(list, id) == m - todo
      decreases todo
    {
      var k :| k in todo;
      hide ById;
      ByIdPush(list, m[k], id);
      OneMore(m, todo, k);
      list := list + [m[k]];
      todo := todo - {k};
    }
    assert m - {} == m;
  }

  /** The loop of loadSnapshot over one list. */
  method IndexList<V>(list: seq<V>, id: V -> string) returns (m: map<string, V>)
    ensures m == ById(list, id)
    ensures KeyedBy(m, id)
  {
    m := map[];
    assert list[..0] == [];
    for i := 0 to |list|
      invariant m == ById(list[..i], id)
      invariant KeyedBy(m, id)
    {
      assert list[..i + 1][..i] == list[..i];
      m := m[id(list[i]) := list[i]];
    }
    assert list[..|list|] == list;
  }

  lemma {:induction false} ReplayCons(m: Maps, e: Entry, es: seq<Entry>)
    ensures Replay(m, [e] + es) == Replay(Apply(m, e), es)
  {
    if es == [] {
      assert [e] + es == [] + [e];
      ReplayPush(m, [], e);
    } else {
      var n := |es| - 1;
      ReplayCons(m, e, es[..n]);
      assert [e] + es == ([e] + es[..n]) + [es[n]];
      ReplayPush(m, [e] + es[..n], es[n]);
    }
  }

  /** Where a compaction gives up. */
  datatype CompactFault = NoFault | BeforeRename | AtTruncate

  function StepsOf(fault: CompactFault): seq<Step> {
    match fault
    case NoFault => [StartCompact, RenameSnapshot] + [TruncateJournal]
    case BeforeRename => [StartCompact, AbandonCompact]
    case AtTruncate => [StartCompact, RenameSnapshot] + [AbandonCompact]
  }

  /** A compaction, whole or given up, as one change of state. */
  lemma Compaction(c: Codec<Entry>, st: State, fault: CompactFault)
    requires Inv(c, st) && st.phase == Running
    ensures Runs(c, st, StepsOf(fault)) && Inv(c, After(c, st, StepsOf(fault)))
    ensures var flushed, rename := st.ops + AppendOps(st.buffer), Rename(st.mem, |st.log|);
            After(c, st, StepsOf(fault)) ==
            match fault
            case NoFault => st.(ops := flushed + [rename] + [Truncate], buffer := [])
            case BeforeRename => st.(ops := flushed, buffer := [])
            case AtTruncate => st.(ops := flushed + [rename], buffer := [])
  {
    hide Inv;
    var s1 := Do(c, st, StartCompact);
    assert st.buffer[..|st.buffer|] == st.buffer && st.buffer[|st.buffer|..] == [];
    StepKeepsInv(c, st, StartCompact);
    if fault == BeforeRename {
      TwoSteps(c, st, StartCompact, AbandonCompact);
      StepKeepsInv(c, s1, AbandonCompact);
    } else {
      Compacted(c, st);
      var s2 := After(c, st, [StartCompact, RenameSnapshot]);
      StepKeepsInv(c, s2, AbandonCompact);
      RunsThen(c, st, [StartCompact, RenameSnapshot], AbandonCompact);
    }
  }

  /** The operations a compaction issues after its flush. */
  function CompactOps(fault: CompactFault, mem: Maps, at: nat): seq<DiskOp> {
    match fault
    case NoFault => [Rename(mem, at)] + [Truncate]
    case BeforeRename => []
    case AtTruncate => [Rename(mem, at)]
  }

  lemma {:induction false} DroppedByAppends(ops: seq<DiskOp>, es: seq<Entry>)
    ensures Dropped(ops + AppendOps(es)) == Dropped(ops)
    decreases |es|
  {
    if es == [] {
      AppendNothing(ops, AppendOps(es));
    } else {
      var n := |es| - 1;
      DroppedByAppends(ops, es[..n]);
      assert ops + AppendOps(es) == (ops + AppendOps(es[..n])) + [Append(es[n])];
      OpsPush(ops + AppendOps(es[..n]), Append(es[n]));
    }
  }

  lemma FlushedLines(ops: seq<DiskOp>, es: seq<Entry>)
    ensures |KeptLines(ops + AppendOps(es))| == |KeptLines(ops)| + |es|
  {
    DroppedByAppends(ops, es);
    AppendsConcat(ops, AppendOps(es));
    AppendsOfAppendOps(es);
  }

  /** A whole compaction leaves no line in the journal, a failed one leaves them all. */
  lemma CompactedLines(ops: seq<DiskOp>, es: seq<Entry>, fault: CompactFault, mem: Maps, at: nat)
    ensures var after := ops + AppendOps(es) + CompactOps(fault, mem, at);
            |KeptLines(after)| == if fault == NoFault then 0 else |KeptLines(ops)| + |es|
  {
    FlushedLines(ops, es);
    var flushed := ops + AppendOps(es);
    match fault
    case BeforeRename => { AppendNothing(flushed, CompactOps(fault, mem, at)); }
    case AtTruncate => { OpsPush(flushed, Rename(mem, at)); }
    case NoFault => {
      Assoc(flushed, [Rename(mem, at)], [Truncate]);
      OpsPush(flushed + [Rename(mem, at)], Truncate);
    }
  }

  lemma CompactOpsWriteNothing(st: State, fault: CompactFault, mem: Maps, at: nat)
    requires AllSynced(st)
    ensures AllSynced(st.(ops := st.ops + CompactOps(fault, mem, at)))
  {
    NoLines();
    var none: seq<DiskOp> := [];
    OpsPush(none, Rename(mem, at));
    OpsPush([Rename(mem, at)], Truncate);
    assert none + [Rename(mem, at)] == [Rename(mem, at)];
    CompactionKeepsSynced(st, CompactOps(fault, mem, at));
  }

  lemma OpenIsEmpty(c: Codec<Entry>, d: Disk)
    ensures KeptLines(Open(c, d).ops) == []
  {
    var m := Recover(c, d);
    OpsPush([Rename(m, 0)], Truncate);
    assert [Rename(m, 0)] + [Truncate] == Open(c, d).ops;
  }

  lemma SyncedNow(st: State)
    requires st.buffer == [] && st.durable == |st.ops|
    ensures AllSynced(st)
  {
    assert st.ops[..|st.ops|] == st.ops;
  }

  class FSStore {
    const codec: Codec<Entry>
    const syncEveryEntry: bool   // SyncInterval == 0
    const compactAfter: nat

    var jobs: map<string, Record>
    var taskDefs: map<string, Record>
    var runs: map<string, Record>
    var webhooks: map<string, Hook>

    var journalCh: seq<Entry>
    var buffer: seq<Entry>       // bufio.Writer
    var entryCount: nat

    // The files, as the operations issued on them, and the history the machine keeps.
    ghost var ops: seq<DiskOp>
    ghost var durable: nat
    ghost var found: Disk
    ghost var init: Maps
    ghost var log: seq<Entry>
    ghost var sent: seq<Entry>
    ghost var pending: map<Key, Entry>   // other writers between memory and channel

    function Hot(): Maps
      reads this
    {
      Maps(jobs, taskDefs, runs, webhooks)
    }

    ghost function Machine(): State
      reads this
    {
      State(found, init, log, Hot(), pending, sent, journalCh, buffer, ops, durable, Running)
    }

    ghost predicate Valid()
      reads this
    {
      Keyed(Hot()) && Inv(codec, Machine())
    }

    /** entryCount counts the lines of the journal and of the buffer. */
    ghost predicate Counted()
      reads this
    {
      entryCount == |KeptLines(ops)| + |buffer|
    }

    /** applyJournalEntry. */
    method ApplyJournalEntry(e: Entry)
      requires Keyed(Hot())
      modifies this`jobs, this`taskDefs, this`runs, this`webhooks
      ensures Hot() == Apply(old(Hot()), e) && Keyed(Hot())
    {
      match e
      case PutJob(j) => jobs := jobs[j.id := j];
      case PutTask(t) => taskDefs := taskDefs[t.id := t];
      case DeleteTask(n) => taskDefs := taskDefs - {n};
      case PutRun(r) => runs := runs[r.id := r];
      case EnqueueHook(h) => webhooks := webhooks[h.id := h];
      case AckHook(i) => webhooks := webhooks - {i};
      case NackHook(i, attempts, next) =>
        if i in webhooks {
          webhooks := webhooks[i := webhooks[i].(attempts := attempts, nextAttemptAt := next)];
        }
    }

    /** replayJournal: scan line by line, stop at the first line that does not decode. */
    method ReplayJournal(bytes: seq<byte>)
      requires Keyed(Hot())
      modifies this`jobs, this`taskDefs, this`runs, this`webhooks
      ensures Hot() == Replay(old(Hot()), Parse(codec, bytes)) && Keyed(Hot())
    {
      var rest := bytes;
      while rest != []
        invariant Keyed(Hot())
        invariant Replay(Hot(), Parse(codec, rest)) == Replay(old(Hot()), Parse(codec, bytes))
        decreases |rest|
      {
        var i := IndexOf(rest, NEWLINE);
        var decoded := codec.dec(rest[..i]);
        if decoded == None {
          assert Parse(codec, rest) == [];
          return;
        }
        var next := if i < |rest| then rest[i + 1..] else [];
        assert Parse(codec, rest) == [decoded.value] + Parse(codec, next);
        ReplayCons(Hot(), decoded.value, Parse(codec, next));
        ApplyJournalEntry(decoded.value);
        rest := next;
      }
    }

    /** loadSnapshot. */
    method LoadSnapshot(snapshot: SnapshotFile)
      modifies this`jobs, this`taskDefs, this`runs, this`webhooks
      ensures Hot() == Loaded(snapshot) && Keyed(Hot())
    {
      jobs := IndexList(snapshot.jobs, RecordId);
      taskDefs := IndexList(snapshot.taskDefs, RecordId);
      webhooks := IndexList(snapshot.webhooks, HookId);
      runs := IndexList(snapshot.runs, RecordId);
    }

    /** The literal OpenFSStore starts from. */
    constructor (codec: Codec<Entry>, syncEveryEntry: bool, compactAfter: nat)
      ensures Hot() == EMPTY && journalCh == [] && buffer == []
      ensures this.codec == codec && this.syncEveryEntry == syncEveryEntry && this.compactAfter == compactAfter
    {
      this.codec, this.syncEveryEntry, this.compactAfter := codec, syncEveryEntry, compactAfter;
      jobs, taskDefs, runs, webhooks := map[], map[], map[], map[];
      journalCh, buffer, entryCount := [], [], 0;
    }

    /** The list-building half of compact: loading the file back gives the maps. */
    method Snapshot() returns (file: SnapshotFile)
      requires Keyed(Hot())
      ensures Loaded(file) == Hot()
    {
      var j := ListOf(jobs, RecordId);
      var t := ListOf(taskDefs, RecordId);
      var w := ListOf(webhooks, HookId);
      var r := ListOf(runs, RecordId);
      file := SnapshotFile(j, t, w, r);
    }

    /** loadSnapshot, replayJournal and the snapshot of the compaction that follows. */
    method Rebuild(snapshot: SnapshotFile, journal: seq<byte>) returns (file: SnapshotFile)
      requires Hot() == EMPTY
      modifies this`jobs, this`taskDefs, this`runs, this`webhooks
      ensures Keyed(Hot()) && Hot() == Recover(codec, Disk(Loaded(snapshot), journal)) && Loaded(file) == Hot()
    {
      hide Keyed, ById, Replay, Parse;
      LoadSnapshot(snapshot);
      ReplayJournal(journal);
      file := Snapshot();
    }

    ghost method ForgetHistory(disk: Disk)
      modifies this`found, this`init, this`log, this`sent, this`pending
      ensures found == disk && init == Hot() && log == [] && sent == [] && pending == map[]
    {
      found, init, log, sent, pending := disk, Hot(), [], [], map[];
    }

    /** The two operations of the opening compaction, and the writer starts counting. */
    method StartWriter(ghost disk: Disk, file: SnapshotFile)
      requires Hot() == Recover(codec, disk) == Loaded(file) && journalCh == [] && buffer == []
      modifies this`found, this`init, this`log, this`sent, this`pending, this`ops, this`durable, this`entryCount
      ensures Machine() == Open(codec, disk) && entryCount == 0
    {
      hide Recover, Loaded;
      ForgetHistory(disk);
      ops, durable, entryCount := [Rename(Loaded(file), 0), Truncate], 0, 0;
    }

    /** The rest of OpenFSStore: load the snapshot, replay the journal, compact, start the writer. */
    method Boot(snapshot: SnapshotFile, journal: seq<byte>)
      requires Hot() == EMPTY && journalCh == [] && buffer == []
      modifies this
      ensures Valid() && Machine() == Open(codec, Disk(Loaded(snapshot), journal))
      ensures AllSynced(Machine()) && Counted()
    {
      hide Inv, Keyed, Recover, AllSynced, KeptLines, Loaded, Open;
      var file := Rebuild(snapshot, journal);
      ghost var disk := Disk(Loaded(snapshot), journal);
      StartWriter(disk, file);
      OpenEstablishesInv(codec, disk);
      OpenIsSynced(codec, disk);
      OpenIsEmpty(codec, disk);
      assert ops == Open(codec, disk).ops && buffer == [];
    }

    // ---- mutators: memory under the lock, then the channel ----

    /** Memory changed by e, then e sent: the two steps of every mutator. */
    twostate predicate Journalled(e: Entry)
      reads this
    {
      && Can(codec, old(Machine()), Mutate(e))
      && Machine() == Do(codec, Do(codec, old(Machine()), Mutate(e)), Send(KeyOf(e)))
    }

    method Journal(e: Entry)
      modifies this`journalCh, this`sent
      ensures journalCh == old(journalCh) + [e] && sent == old(sent) + [e]
    {
      journalCh := journalCh + [e];
      sent := sent + [e];
    }

    method SaveJob(job: Record)
      requires Valid() && Key(JobKind, job.id) !in pending
      modifies this
      ensures Valid() && Journalled(PutJob(job))
      ensures Hot() == old(Hot()).(jobs := old(jobs)[job.id := job])
      ensures journalCh == old(journalCh) + [PutJob(job)]
    {
      hide Inv, Do;
      MutatorSteps(codec, Machine(), PutJob(job));
      jobs := jobs[job.id := job];
      log := log + [PutJob(job)];
      Journal(PutJob(job));
    }

    /** A missing job is an error that changes nothing and journals nothing. The callback mutates the
        stored record in place, so one that changed the identifier would leave memory keyed by the
        old identifier and the journal by the new one. */
    method UpdateJob(id: string, mutate: Record -> Record) returns (ok: bool)
      requires Valid() && Key(JobKind, id) !in pending
      modifies this
      ensures ok == (id in old(jobs))
      ensures !ok ==> Valid() && Machine() == old(Machine())
      ensures ok ==> jobs == old(jobs)[id := mutate(old(jobs)[id])]
      ensures ok ==> journalCh == old(journalCh) + [PutJob(mutate(old(jobs)[id]))]
      ensures ok && mutate(old(jobs)[id]).id == id ==> Valid() && Journalled(PutJob(mutate(old(jobs)[id])))
    {
      hide Inv, Do;
      ok := id in jobs;
      if ok {
        var job := mutate(jobs[id]);
        if job.id == id {
          MutatorSteps(codec, Machine(), PutJob(job));
        }
        jobs := jobs[id := job];
        log := log + [PutJob(job)];
        Journal(PutJob(job));
      }
    }

    method SaveTask(task: Record)
      requires Valid() && Key(TaskKind, task.id) !in pending
      modifies this
      ensures Valid() && Journalled(PutTask(task))
      ensures Hot() == old(Hot()).(taskDefs := old(taskDefs)[task.id := task])
      ensures journalCh == old(journalCh) + [PutTask(task)]
    {
      hide Inv, Do;
      MutatorSteps(codec, Machine(), PutTask(task));
      taskDefs := taskDefs[task.id := task];
      log := log + [PutTask(task)];
      Journal(PutTask(task));
    }

    method DeleteTask(name: string) returns (ok: bool)
      requires Valid() && Key(TaskKind, name) !in pending
      modifies this
      ensures Valid() && ok == (name in old(taskDefs))
      ensures ok ==> Journalled(Entry.DeleteTask(name)) && Hot() == old(Hot()).(taskDefs := old(taskDefs) - {name})
      ensures !ok ==> Machine() == old(Machine())
    {
      hide Inv, Do;
      ok := name in taskDefs;
      if ok {
        MutatorSteps(codec, Machine(), Entry.DeleteTask(name));
        taskDefs := taskDefs - {name};
        log := log + [Entry.DeleteTask(name)];
        Journal(Entry.DeleteTask(name));
      }
    }

    method CreateRun(run: Record)
      requires Valid() && Key(RunKind, run.id) !in pending
      modifies this
      ensures Valid() && Journalled(PutRun(run))
      ensures Hot() == old(Hot()).(runs := old(runs)[run.id := run])
      ensures journalCh == old(journalCh) + [PutRun(run)]
    {
      hide Inv, Do;
      MutatorSteps(codec, Machine(), PutRun(run));
      runs := runs[run.id := run];
      log := log + [PutRun(run)];
      Journal(PutRun(run));
    }

    method EnqueueWebhook(hook: Hook)
      requires Valid() && Key(HookKind, hook.id) !in pending
      modifies this
      ensures Valid() && Journalled(EnqueueHook(hook))
      ensures Hot() == old(Hot()).(webhooks := old(webhooks)[hook.id := hook])
      ensures journalCh == old(journalCh) + [EnqueueHook(hook)]
    {
      hide Inv, Do;
      MutatorSteps(codec, Machine(), EnqueueHook(hook));
      webhooks := webhooks[hook.id := hook];
      log := log + [EnqueueHook(hook)];
      Journal(EnqueueHook(hook));
    }

    /** Acknowledging an unknown webhook is not an error and is journalled all the same. */
    method AckWebhook(id: string)
      requires Valid() && Key(HookKind, id) !in pending
      modifies this
      ensures Valid() && Journalled(AckHook(id))
      ensures Hot() == old(Hot()).(webhooks := old(webhooks) - {id})
      ensures journalCh == old(journalCh) + [AckHook(id)]
    {
      hide Inv, Do;
      MutatorSteps(codec, Machine(), AckHook(id));
      webhooks := webhooks - {id};
      log := log + [AckHook(id)];
      Journal(AckHook(id));
    }

    method NackWebhook(id: string, attempts: int, next: int) returns (ok: bool)
      requires Valid() && Key(HookKind, id) !in pending
      modifies this
      ensures Valid() && ok == (id in old(webhooks))
      ensures ok ==> Journalled(NackHook(id, attempts, next))
      ensures ok ==> var stamped := Hook(id, old(webhooks)[id].fields, attempts, next);
                     Hot() == old(Hot()).(webhooks := old(webhooks)[id := stamped])
      ensures !ok ==> Machine() == old(Machine())
    {
      hide Inv, Do;
      ok := id in webhooks;
      if ok {
        MutatorSteps(codec, Machine(), NackHook(id, attempts, next));
        webhooks := webhooks[id := webhooks[id].(attempts := attempts, nextAttemptAt := next)];
        log := log + [NackHook(id, attempts, next)];
        Journal(NackHook(id, attempts, next));
      }
    }

    // ---- the background writer ----

    method FlushAndSync()
      requires Valid()
      modifies this`ops, this`buffer, this`durable
      ensures Valid() && Machine() == Do(codec, old(Machine()), FlushSync)
      ensures buffer == [] && ops == old(ops) + AppendOps(old(buffer)) && durable == |ops|
      ensures old(Counted()) ==> Counted()
    {
      hide Inv, Do;
      FlushSyncStep(codec, Machine());
      FlushedLines(ops, buffer);
      ops := ops + AppendOps(buffer);
      buffer := [];
      durable := |ops|;
      hide KeptLines;
    }

    /** doCompact: flush, snapshot, rename, truncate, reset the counter; or an error before the
        rename or at the truncation, which leaves the journal and the counter alone. */
    method DoCompact(fault: CompactFault) returns (ghost steps: seq<Step>)
      requires Valid()
      modifies this`ops, this`buffer, this`entryCount
      ensures Valid() && steps == StepsOf(fault)
      ensures Runs(codec, old(Machine()), steps) && After(codec, old(Machine()), steps) == Machine()
      ensures entryCount == if fault == NoFault then 0 else old(entryCount)
      ensures buffer == [] && ops == old(ops) + AppendOps(old(buffer)) + CompactOps(fault, Hot(), |log|)
      ensures old(Counted()) ==> Counted()
    {
      hide Inv, Do, Runs, After, KeptLines;
      steps := StepsOf(fault);
      Compaction(codec, Machine(), fault);
      CompactedLines(ops, buffer, fault, Hot(), |log|);
      ops := ops + AppendOps(buffer);
      buffer := [];
      if fault == BeforeRename {
        AppendNothing(ops, CompactOps(fault, Hot(), |log|));
        return;
      }
      var file := Snapshot();
      ops := ops + [Rename(Loaded(file), |log|)];
      if fault == AtTruncate {
        return;
      }
      ops := ops + [Truncate];
      entryCount := 0;
    }

    /** The first half of writeEntry: encode the entry, and sync if every entry is to be. */
    method EncodeEntry() returns (ghost steps: seq<Step>)
      requires Valid() && journalCh != []
      modifies this`journalCh, this`buffer, this`ops, this`durable, this`entryCount
      ensures Valid() && journalCh == old(journalCh)[1..] && entryCount == old(entryCount) + 1
      ensures steps == [Take] + if syncEveryEntry then [FlushSync] else []
      ensures Runs(codec, old(Machine()), steps) && After(codec, old(Machine()), steps) == Machine()
      ensures syncEveryEntry ==>
              buffer == [] && ops == old(ops) + AppendOps(old(buffer) + [old(journalCh)[0]]) && durable == |ops|
      ensures old(Counted()) ==> Counted()
    {
      hide Inv, Do, Runs, After, KeptLines;
      ghost var s0 := Machine();
      TakeStep(codec, s0);
      buffer := buffer + [journalCh[0]];
      journalCh := journalCh[1..];
      entryCount := entryCount + 1;
      steps := [Take];
      if syncEveryEntry {
        RunsThen(codec, s0, steps, FlushSync);
        FlushAndSync();
        steps := steps + [FlushSync];
      }
    }

    /** One received entry: writeEntry with its sync and compaction triggers. */
    method WriteEntry(fault: CompactFault) returns (ghost steps: seq<Step>)
      requires Valid() && journalCh != []
      modifies this`journalCh, this`buffer, this`ops, this`durable, this`entryCount
      ensures Valid() && journalCh == old(journalCh)[1..]
      ensures Runs(codec, old(Machine()), steps) && After(codec, old(Machine()), steps) == Machine()
      ensures var due := old(entryCount) + 1 >= compactAfter;
              && steps == [Take] + (if syncEveryEntry then [FlushSync] else []) + (if due then StepsOf(fault) else [])
              && entryCount == if due && fault == NoFault then 0 else old(entryCount) + 1
      ensures syncEveryEntry ==>
              && buffer == [] && durable == |old(ops)| + |old(buffer)| + 1 <= |ops|
              && ops[..durable] == old(ops) + AppendOps(old(buffer) + [old(journalCh)[0]])
      ensures syncEveryEntry ==> AllSynced(Machine())
      ensures old(Counted()) ==> Counted()
      ensures old(Counted()) && fault == NoFault && compactAfter > 0 ==> |KeptLines(ops)| + |buffer| < compactAfter
    {
      hide Inv, Do, Runs, After, KeptLines, AllSynced, Appends, CompactOps, StepsOf;
      ghost var s0 := Machine();
      steps := EncodeEntry();
      ghost var s1 := Machine();
      if entryCount >= compactAfter {
        ghost var more := DoCompact(fault);
        RunsConcat(codec, s0, steps, more);
        steps := steps + more;
        if syncEveryEntry {
          SyncedNow(s1);
          CompactOpsWriteNothing(s1, fault, Hot(), |log|);
          AppendNothing(s1.ops, AppendOps(s1.buffer));
        }
      } else if syncEveryEntry {
        SyncedNow(s1);
      }
    }

    /** Close: the writer drains what is queued, flushes and syncs, whatever compactions fail on the
        way. Afterwards the store is closed in the sense CleanReopenIsExact asks for, and memory has
        not moved. */
    method Close(faults: nat -> CompactFault)
      requires Valid() && pending == map[]
      modifies this`journalCh, this`buffer, this`ops, this`durable, this`entryCount
      ensures Valid() && Closed(Machine()) && Hot() == old(Hot())
    {
      hide Inv;
      while journalCh != []
        invariant Valid()
        decreases |journalCh|
      {
        ghost var steps := WriteEntry(faults(|journalCh|));
      }
      FlushAndSync();
    }
  }

  /** A whole session: reopening the files a closed store leaves gives its maps back. */
  method Reopen(store: FSStore, journal: seq<byte>, snapshot: SnapshotFile) returns (again: FSStore)
    requires Sound(store.codec) && store.Valid() && Closed(store.Machine())
    requires DiskAfter(store.codec, store.found, store.ops) == Disk(Loaded(snapshot), journal)
    ensures again.Hot() == store.Hot()
  {
    hide Inv;
    again := new FSStore(store.codec, store.syncEveryEntry, store.compactAfter);
    again.Boot(snapshot, journal);
    ghost var st := store.Machine();
    CleanReopenIsExact(store.codec, st, |st.ops|, []);
    assert st.ops[..|st.ops|] == st.ops && journal + [] == journal;
  }
}
