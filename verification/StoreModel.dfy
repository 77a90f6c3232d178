/** The in-memory maps of FSStore, the effect of one journal entry on them, and what replaying
    entries does to one key. Entities are an identifier plus opaque fields. */
module StoreModel {
  import opened Base

  datatype Record = Record(id: string, fields: string)
  datatype Hook = Hook(id: string, fields: string, attempts: int, nextAttemptAt: int)

  datatype Maps = Maps(
    jobs: map<string, Record>,
    taskDefs: map<string, Record>,
    runs: map<string, Record>,
    webhooks: map<string, Hook>)

  const EMPTY := Maps(map[], map[], map[], map[])

  /** opRunCreate and opRunUpdate have the same effect on replay, so they are one constructor. */
  datatype Entry =
    | PutJob(job: Record)
    | PutTask(task: Record)
    | DeleteTask(name: string)
    | PutRun(run: Record)
    | EnqueueHook(hook: Hook)
    | AckHook(ackId: string)
    | NackHook(nackId: string, attempts: int, nextAttemptAt: int)

  datatype Kind = JobKind | TaskKind | RunKind | HookKind
  datatype Key = Key(kind: Kind, id: string)
  datatype Value = Rec(rec: Record) | Hk(hook: Hook)

  function KeyOf(e: Entry): Key {
    match e
    case PutJob(j) => Key(JobKind, j.id)
    case PutTask(t) => Key(TaskKind, t.id)
    case DeleteTask(n) => Key(TaskKind, n)
    case PutRun(r) => Key(RunKind, r.id)
    case EnqueueHook(h) => Key(HookKind, h.id)
    case AckHook(i) => Key(HookKind, i)
    case NackHook(i, _, _) => Key(HookKind, i)
  }

  function Lookup<V>(m: map<string, V>, id: string): Option<V> {
    if id in m then Some(m[id]) else None
  }

  function Get(m: Maps, k: Key): Option<Value> {
    match k.kind
    case JobKind => if k.id in m.jobs then Some(Rec(m.jobs[k.id])) else None
    case TaskKind => if k.id in m.taskDefs then Some(Rec(m.taskDefs[k.id])) else None
    case RunKind => if k.id in m.runs then Some(Rec(m.runs[k.id])) else None
    case HookKind => if k.id in m.webhooks then Some(Hk(m.webhooks[k.id])) else None
  }

  function Stamp(h: Hook, e: Entry): Hook
    requires e.NackHook?
  {
    h.(attempts := e.attempts, nextAttemptAt := e.nextAttemptAt)
  }

  /** applyJournalEntry. The locked section of every mutator has the same effect. */
  function Apply(m: Maps, e: Entry): Maps {
    match e
    case PutJob(j) => m.(jobs := m.jobs[j.id := j])
    case PutTask(t) => m.(taskDefs := m.taskDefs[t.id := t])
    case DeleteTask(n) => m.(taskDefs := m.taskDefs - {n})
    case PutRun(r) => m.(runs := m.runs[r.id := r])
    case EnqueueHook(h) => m.(webhooks := m.webhooks[h.id := h])
    case AckHook(i) => m.(webhooks := m.webhooks - {i})
    case NackHook(i, _, _) =>
      if i in m.webhooks then m.(webhooks := m.webhooks[i := Stamp(m.webhooks[i], e)]) else m
  }

  /** The not-found errors of DeleteTask and NackWebhook: nothing changes, nothing is journalled. */
  predicate Accepts(m: Maps, e: Entry) {
    (e.DeleteTask? ==> e.name in m.taskDefs) && (e.NackHook? ==> e.nackId in m.webhooks)
  }

  function Replay(m: Maps, es: seq<Entry>): Maps {
    if es == [] then m else Apply(Replay(m, es[..|es| - 1]), es[|es| - 1])
  }

  // ---- one key at a time ----

  /** The effect of an entry on the value of its own key. */
  function ApplyAt(v: Option<Value>, e: Entry): Option<Value> {
    match e
    case PutJob(j) => Some(Rec(j))
    case PutTask(t) => Some(Rec(t))
    case DeleteTask(_) => None
    case PutRun(r) => Some(Rec(r))
    case EnqueueHook(h) => Some(Hk(h))
    case AckHook(_) => None
    case NackHook(_, _, _) => if v.Some? && v.value.Hk? then Some(Hk(Stamp(v.value.hook, e))) else v
  }

  predicate AcceptsAt(v: Option<Value>, e: Entry) {
    (e.DeleteTask? ==> v.Some?) && (e.NackHook? ==> v.Some? && v.value.Hk?)
  }

  function FoldAt(v: Option<Value>, es: seq<Entry>): Option<Value> {
    if es == [] then v else ApplyAt(FoldAt(v, es[..|es| - 1]), es[|es| - 1])
  }

  /** The entries of es that concern key k, in order. */
  function Of(es: seq<Entry>, k: Key): (r: seq<Entry>)
    ensures |r| <= |es|
    ensures forall e :: e in r ==> KeyOf(e) == k
  {
    if es == [] then []
    else Of(es[..|es| - 1], k) + (if KeyOf(es[|es| - 1]) == k then [es[|es| - 1]] else [])
  }

  lemma OfPush(es: seq<Entry>, e: Entry, k: Key)
    ensures Of(es + [e], k) == Of(es, k) + (if KeyOf(e) == k then [e] else [])
  {
    DropLast(es, e);
  }

  lemma {:induction false} OfConcat(a: seq<Entry>, b: seq<Entry>, k: Key)
    ensures Of(a + b, k) == Of(a, k) + Of(b, k)
  {
    if b == [] {
      assert a + b == a;
    } else {
      var b', e := b[..|b| - 1], b[|b| - 1];
      var x := if KeyOf(e) == k then [e] else [];
      OfConcat(a, b', k);
      SplitLast(b);
      Assoc(a, b', [e]);
      OfPush(a + b', e, k);
      Assoc(Of(a, k), Of(b', k), x);
    }
  }

  lemma {:induction false} FoldAtConcat(v: Option<Value>, a: seq<Entry>, b: seq<Entry>)
    ensures FoldAt(v, a + b) == FoldAt(FoldAt(v, a), b)
  {
    if b == [] {
      assert a + b == a;
    } else {
      var b', e := b[..|b| - 1], b[|b| - 1];
      FoldAtConcat(v, a, b');
      SplitLast(b);
      Assoc(a, b', [e]);
      DropLast(a + b', e);
    }
  }

  lemma ReplayPush(m: Maps, es: seq<Entry>, e: Entry)
    ensures Replay(m, es + [e]) == Apply(Replay(m, es), e)
  {
    assert (es + [e])[..|es|] == es;
  }

  lemma ApplyLocal(m: Maps, e: Entry, k: Key)
    ensures Get(Apply(m, e), k) == if KeyOf(e) == k then ApplyAt(Get(m, k), e) else Get(m, k)
  {
  }

  /** Replay works key by key. */
  lemma {:induction false} ReplayAt(m: Maps, es: seq<Entry>, k: Key)
    ensures Get(Replay(m, es), k) == FoldAt(Get(m, k), Of(es, k))
  {
    if es != [] {
      var es', e := es[..|es| - 1], es[|es| - 1];
      ReplayAt(m, es', k);
      ApplyLocal(Replay(m, es'), e, k);
      FoldAtConcat(Get(m, k), Of(es', k), if KeyOf(e) == k then [e] else []);
    }
  }

  lemma MapEqual<V>(a: map<string, V>, b: map<string, V>)
    requires forall id :: Lookup(a, id) == Lookup(b, id)
    ensures a == b
  {
    forall id
      ensures id in a <==> id in b
      ensures id in a && id in b ==> a[id] == b[id]
    {
      assert Lookup(a, id) == Lookup(b, id);
    }
  }

  /** Two stores agreeing on every key are equal. */
  lemma MapsEqual(a: Maps, b: Maps)
    requires forall k :: Get(a, k) == Get(b, k)
    ensures a == b
  {
    forall id: string
      ensures Lookup(a.jobs, id) == Lookup(b.jobs, id)
      ensures Lookup(a.taskDefs, id) == Lookup(b.taskDefs, id)
      ensures Lookup(a.runs, id) == Lookup(b.runs, id)
      ensures Lookup(a.webhooks, id) == Lookup(b.webhooks, id)
    {
      assert Get(a, Key(JobKind, id)) == Get(b, Key(JobKind, id));
      assert Get(a, Key(TaskKind, id)) == Get(b, Key(TaskKind, id));
      assert Get(a, Key(RunKind, id)) == Get(b, Key(RunKind, id));
      assert Get(a, Key(HookKind, id)) == Get(b, Key(HookKind, id));
    }
    MapEqual(a.jobs, b.jobs);
    MapEqual(a.taskDefs, b.taskDefs);
    MapEqual(a.runs, b.runs);
    MapEqual(a.webhooks, b.webhooks);
  }

  // ---- stale replay ----

  predicate HasAbsolute(es: seq<Entry>) {
    exists i :: 0 <= i < |es| && !es[i].NackHook?
  }

  /** An entry that sets a key outright erases whatever the replay started from. */
  lemma {:induction false} AbsoluteForgets(es: seq<Entry>, u: Option<Value>, v: Option<Value>)
    requires HasAbsolute(es)
    ensures FoldAt(u, es) == FoldAt(v, es)
  {
    var n := |es| - 1;
    if es[n].NackHook? {
      var i :| 0 <= i < |es| && !es[i].NackHook?;
      assert es[..n][i] == es[i];
      AbsoluteForgets(es[..n], u, v);
    }
  }

  /** A run of nacks leaves the stamp of its last one. */
  lemma {:induction false} NackChain(es: seq<Entry>, h: Hook)
    requires !HasAbsolute(es)
    ensures FoldAt(Some(Hk(h)), es) ==
            Some(Hk(if es == [] then h else assert es[|es| - 1].NackHook?; Stamp(h, es[|es| - 1])))
    ensures FoldAt(None, es) == None
  {
    if es != [] {
      assert forall i :: 0 <= i < |es| - 1 ==> es[..|es| - 1][i] == es[i];
      NackChain(es[..|es| - 1], h);
    }
  }

  /** The entries of one key as memory accepted them, starting from value v. */
  predicate Legal(v: Option<Value>, es: seq<Entry>) {
    es == [] || (Legal(v, es[..|es| - 1]) && AcceptsAt(FoldAt(v, es[..|es| - 1]), es[|es| - 1]))
  }

  lemma {:induction false} LegalAt(v: Option<Value>, es: seq<Entry>, i: nat)
    requires Legal(v, es) && i < |es|
    ensures AcceptsAt(FoldAt(v, es[..i]), es[i])
  {
    if i < |es| - 1 {
      LegalAt(v, es[..|es| - 1], i);
      assert es[..|es| - 1][..i] == es[..i];
    }
  }

  lemma Split(v: Option<Value>, es: seq<Entry>, i: nat, j: nat)
    requires i <= j <= |es|
    ensures FoldAt(v, es[..j]) == FoldAt(FoldAt(v, es[..i]), es[i..j])
  {
    FoldAtConcat(v, es[..i], es[i..j]);
    Slices(es, i, j);
  }

  /** Replaying entries the value already contains changes nothing: this is why a snapshot may
      run ahead of the journal. */
  lemma StaleReplay(v: Option<Value>, es: seq<Entry>, a: nat, s: nat)
    requires Legal(v, es)
    requires a <= s <= |es|
    ensures FoldAt(FoldAt(v, es[..s]), es[a..s]) == FoldAt(v, es[..s])
  {
    var seg := es[a..s];
    Split(v, es, a, s);
    if HasAbsolute(seg) {
      AbsoluteForgets(seg, FoldAt(v, es[..a]), FoldAt(v, es[..s]));
    } else if a < s {
      assert seg[0] == es[a];
      LegalAt(v, es, a);
      var h := FoldAt(v, es[..a]).value.hook;
      NackChain(seg, h);
      NackChain(seg, Stamp(h, seg[|seg| - 1]));
    }
  }

  lemma {:induction false} NacksIgnored(es: seq<Entry>, v: Option<Value>)
    requires !HasAbsolute(es)
    requires v.Some? ==> !v.value.Hk?
    ensures FoldAt(v, es) == v
  {
    if es != [] {
      assert forall i :: 0 <= i < |es| - 1 ==> es[..|es| - 1][i] == es[i];
      NacksIgnored(es[..|es| - 1], v);
    }
  }

  /** Replaying the same entries twice is the same as replaying them once, whatever they are. */
  lemma ReplayTwiceAt(v: Option<Value>, es: seq<Entry>)
    ensures FoldAt(FoldAt(v, es), es) == FoldAt(v, es)
  {
    if HasAbsolute(es) {
      AbsoluteForgets(es, v, FoldAt(v, es));
    } else if v.Some? && v.value.Hk? {
      NackChain(es, v.value.hook);
      if es != [] {
        assert es[|es| - 1].NackHook?;
        NackChain(es, Stamp(v.value.hook, es[|es| - 1]));
      }
    } else {
      NacksIgnored(es, v);
    }
  }

  lemma ReplayTwice(m: Maps, es: seq<Entry>)
    ensures Replay(Replay(m, es), es) == Replay(m, es)
  {
    forall k ensures Get(Replay(Replay(m, es), es), k) == Get(Replay(m, es), k) {
      ReplayAt(m, es, k);
      ReplayAt(Replay(m, es), es, k);
      ReplayTwiceAt(Get(m, k), Of(es, k));
    }
    MapsEqual(Replay(Replay(m, es), es), Replay(m, es));
  }

  // ---- a snapshot ahead of a lost journal suffix ----

  predicate NeverHeld(v: Option<Value>, es: seq<Entry>) {
    FoldAt(v, es) == None && (es == [] || NeverHeld(v, es[..|es| - 1]))
  }

  /** A webhook identifier is enqueued only before it ever had a value. */
  predicate EnqueuedOnce(v: Option<Value>, es: seq<Entry>) {
    es == [] || (EnqueuedOnce(v, es[..|es| - 1]) && (es[|es| - 1].EnqueueHook? ==> NeverHeld(v, es[..|es| - 1])))
  }

  lemma {:induction false} NeverHeldAt(v: Option<Value>, es: seq<Entry>, i: nat)
    requires NeverHeld(v, es) && i <= |es|
    ensures FoldAt(v, es[..i]) == None
  {
    if i < |es| {
      NeverHeldAt(v, es[..|es| - 1], i);
      assert es[..|es| - 1][..i] == es[..i];
    } else {
      assert es[..i] == es;
    }
  }

  lemma {:induction false} EnqueuedOnceAt(v: Option<Value>, es: seq<Entry>, i: nat, j: nat)
    requires EnqueuedOnce(v, es) && j <= i < |es| && es[i].EnqueueHook?
    ensures FoldAt(v, es[..j]) == None
  {
    var es' := es[..|es| - 1];
    assert es'[..j] == es[..j];
    if i < |es| - 1 {
      assert es'[i] == es[i];
      EnqueuedOnceAt(v, es', i, j);
    } else {
      NeverHeldAt(v, es', j);
    }
  }

  predicate OnlyAcksAndNacks(es: seq<Entry>) {
    forall i :: 0 <= i < |es| ==> es[i].AckHook? || es[i].NackHook?
  }

  lemma {:induction false} HookDrift(es: seq<Entry>, h: Hook)
    requires OnlyAcksAndNacks(es)
    ensures var r := FoldAt(Some(Hk(h)), es);
            r == None || (r.value.Hk? && r.value.hook.(attempts := h.attempts, nextAttemptAt := h.nextAttemptAt) == h)
  {
    if es != [] {
      assert forall i :: 0 <= i < |es| - 1 ==> es[..|es| - 1][i] == es[i];
      HookDrift(es[..|es| - 1], h);
    }
  }

  lemma HookEntries(es: seq<Entry>, k: Key, n: nat)
    requires n < |es| && es[n].NackHook?
    requires forall e :: e in es ==> KeyOf(e) == k
    ensures forall i :: 0 <= i < |es| ==> es[i].EnqueueHook? || es[i].AckHook? || es[i].NackHook?
  {
    assert k.kind == HookKind by { assert KeyOf(es[n]) == k; }
    forall i | 0 <= i < |es| ensures es[i].EnqueueHook? || es[i].AckHook? || es[i].NackHook? {
      assert KeyOf(es[i]) == k;
    }
  }

  lemma NoEnqueueAfter(v: Option<Value>, es: seq<Entry>, k: Key, a: nat, b: nat, s: nat)
    requires EnqueuedOnce(v, es)
    requires forall e :: e in es ==> KeyOf(e) == k
    requires a < b <= s <= |es| && es[a].NackHook?
    requires FoldAt(v, es[..a]).Some?
    ensures OnlyAcksAndNacks(es[b..s])
  {
    HookEntries(es, k, a);
    forall i | 0 <= i < |es[b..s]| ensures !es[b..s][i].EnqueueHook? {
      assert es[b..s][i] == es[b + i];
      if es[b + i].EnqueueHook? {
        EnqueuedOnceAt(v, es, b + i, a);
      }
    }
  }

  /** The surviving entries are nacks older than the snapshot: on a hook that is still there they
      rewind its stamp to version b, on one acknowledged since they do nothing. */
  lemma NacksBehind(v: Option<Value>, es: seq<Entry>, k: Key, a: nat, b: nat, s: nat)
    requires Legal(v, es) && EnqueuedOnce(v, es)
    requires forall e :: e in es ==> KeyOf(e) == k
    requires a < b <= s <= |es|
    requires !HasAbsolute(es[a..b])
    ensures FoldAt(FoldAt(v, es[..s]), es[a..b]) == FoldAt(v, es[..b])
            || FoldAt(FoldAt(v, es[..s]), es[a..b]) == FoldAt(v, es[..s])
  {
    var seg := es[a..b];
    assert seg[0] == es[a] && es[a].NackHook?;
    LegalAt(v, es, a);
    var h := FoldAt(v, es[..a]).value.hook;
    NackChain(seg, h);
    Split(v, es, a, b);
    Split(v, es, b, s);
    NoEnqueueAfter(v, es, k, a, b, s);
    assert seg[|seg| - 1].NackHook?;
    HookDrift(es[b..s], Stamp(h, seg[|seg| - 1]));
    if FoldAt(v, es[..s]).Some? {
      NackChain(seg, FoldAt(v, es[..s]).value.hook);
    }
  }

  /** With a line that sets the key outright, or a snapshot no later than the journal, version b
      comes back. */
  lemma NewestSurvives(v: Option<Value>, es: seq<Entry>, a: nat, b: nat, s: nat)
    requires Legal(v, es) && a <= b <= |es| && a <= s <= |es|
    requires s <= b || HasAbsolute(es[a..b])
    ensures FoldAt(FoldAt(v, es[..s]), es[a..b]) == FoldAt(v, es[..b])
  {
    var seg := es[a..b];
    Split(v, es, a, b);
    if HasAbsolute(seg) {
      AbsoluteForgets(seg, FoldAt(v, es[..a]), FoldAt(v, es[..s]));
    } else {
      StaleReplay(v, es, a, s);
      Split(v, es, s, b);
      FoldAtConcat(FoldAt(v, es[..s]), es[a..s], es[s..b]);
      assert es[a..s] + es[s..b] == seg;
    }
  }

  /** es[a..b] survived in the journal, the snapshot holds version s: the key comes back with
      version b or version s, never with a mixture. */
  lemma SnapshotAhead(v: Option<Value>, es: seq<Entry>, k: Key, a: nat, b: nat, s: nat)
    requires Legal(v, es) && EnqueuedOnce(v, es)
    requires forall e :: e in es ==> KeyOf(e) == k
    requires a <= b <= |es| && a <= s <= |es|
    ensures FoldAt(FoldAt(v, es[..s]), es[a..b]) == FoldAt(v, es[..b])
            || (b <= s && FoldAt(FoldAt(v, es[..s]), es[a..b]) == FoldAt(v, es[..s]))
  {
    if s <= b || HasAbsolute(es[a..b]) {
      NewestSurvives(v, es, a, b, s);
    } else if a < b {
      NacksBehind(v, es, k, a, b, s);
    }
  }

  /** The surviving lines only delay a webhook, and the later one in the snapshot is another
      delivery: it differs from theirs both in its stamps and beyond them. */
  predicate Mixes(v: Option<Value>, es: seq<Entry>, a: nat, b: nat, s: nat)
    requires a <= b <= |es| && s <= |es|
  {
    && a < b < s && !HasAbsolute(es[a..b])
    && var older, newer := FoldAt(v, es[..b]), FoldAt(v, es[..s]);
       && older.Some? && older.value.Hk? && newer.Some? && newer.value.Hk?
       && var h, g := older.value.hook, newer.value.hook;
          var mixture := g.(attempts := h.attempts, nextAttemptAt := h.nextAttemptAt);
          mixture != h && mixture != g
  }

  lemma {:induction false} KindKept(v: Option<Value>, es: seq<Entry>, k: Key)
    requires k.kind == HookKind && (v.Some? ==> v.value.Hk?)
    requires forall e :: e in es ==> KeyOf(e) == k
    ensures FoldAt(v, es).Some? ==> FoldAt(v, es).value.Hk?
    decreases |es|
  {
    if es != [] {
      assert KeyOf(es[|es| - 1]) == k;
      KindKept(v, es[..|es| - 1], k);
    }
  }

  /** Whatever the identifiers: the key comes back with version b or, if that is later, version s,
      exactly if the surviving lines do not mix two deliveries of one webhook. */
  lemma NoMixtureIff(v: Option<Value>, es: seq<Entry>, k: Key, a: nat, b: nat, s: nat)
    requires Legal(v, es) && forall e :: e in es ==> KeyOf(e) == k
    requires v.Some? ==> (v.value.Hk? <==> k.kind == HookKind)
    requires a <= b <= |es| && a <= s <= |es|
    ensures var back := FoldAt(FoldAt(v, es[..s]), es[a..b]);
            (back == FoldAt(v, es[..b]) || (b <= s && back == FoldAt(v, es[..s]))) <==> !Mixes(v, es, a, b, s)
  {
    var seg := es[a..b];
    if s <= b || HasAbsolute(seg) {
      NewestSurvives(v, es, a, b, s);
    } else if a < b {
      assert seg[0] == es[a] && seg[|seg| - 1].NackHook?;
      LegalAt(v, es, a);
      Split(v, es, a, b);
      NackChain(seg, FoldAt(v, es[..a]).value.hook);
      assert k.kind == HookKind by { assert KeyOf(es[a]) == k; }
      KindKept(v, es[..s], k);
      if FoldAt(v, es[..s]).Some? {
        NackChain(seg, FoldAt(v, es[..s]).value.hook);
      }
    }
  }
}
