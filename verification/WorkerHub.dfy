/** Registration of connections in the pool. The maps hold the connection objects themselves: a worker
    that connects again is a new object under an old identifier, and the source tells the two apart
    by comparing pointers. */
module WorkerHub {
  import opened Base
  import opened WorkerPool
  import opened Accounting

  function KeyFor(w: WorkerConn): string { PlatformKey(w.os, w.arch) }

  /** The two maps of the pool. */
  datatype Slots = Slots(workers: map<string, WorkerConn>, platform: map<string, seq<WorkerConn>>)

  function Under(s: Slots, key: string): seq<WorkerConn> {
    if key in s.platform then s.platform[key] else []
  }

  predicate Current(s: Slots, w: WorkerConn) {
    w.workerID in s.workers && s.workers[w.workerID] == w
  }

  predicate MemberOk(s: Slots, id: string)
    requires id in s.workers
  {
    s.workers[id].workerID == id && s.workers[id] in Under(s, KeyFor(s.workers[id]))
  }

  predicate SlotOk(s: Slots, key: string) {
    Distinct(Under(s, key)) && forall i :: 0 <= i < |Under(s, key)| ==>
      Current(s, Under(s, key)[i]) && KeyFor(Under(s, key)[i]) == key
  }

  /** The platform index lists exactly the registered connections, each once, under its own key. */
  ghost predicate Exact(s: Slots) {
    (forall id :: id in s.workers ==> MemberOk(s, id)) && forall key :: SlotOk(s, key)
  }

  // ---- register and unregister ----

  function Cut(ws: seq<WorkerConn>, w: WorkerConn): seq<WorkerConn> {
    if ws == [] then [] else if ws[0] == w then ws[1..] else [ws[0]] + Cut(ws[1..], w)
  }

  /** removeConnLocked: whatever is registered under the identifier leaves the map, the connection
      itself leaves its platform list. */
  function Remove(s: Slots, w: WorkerConn): Slots {
    var key := KeyFor(w);
    Slots(s.workers - {w.workerID},
          if key in s.platform then s.platform[key := Cut(s.platform[key], w)] else s.platform)
  }

  function Insert(s: Slots, w: WorkerConn): Slots {
    Slots(s.workers[w.workerID := w], s.platform[KeyFor(w) := Under(s, KeyFor(w)) + [w]])
  }

  /** register: an older connection with the same identifier is removed first. */
  function Register(s: Slots, w: WorkerConn): Slots {
    Insert(if w.workerID in s.workers then Remove(s, s.workers[w.workerID]) else s, w)
  }

  lemma {:induction false} CutIs(ws: seq<WorkerConn>, w: WorkerConn)
    requires Distinct(ws)
    ensures Distinct(Cut(ws, w))
    ensures forall x :: x in Cut(ws, w) <==> x in ws && x != w
    decreases |ws|
  {
    if ws != [] && ws[0] != w {
      assert Distinct(ws[1..]);
      CutIs(ws[1..], w);
      var rest := Cut(ws[1..], w);
      forall i, j | 0 <= i < j < |[ws[0]] + rest| ensures ([ws[0]] + rest)[i] != ([ws[0]] + rest)[j] {
        if i == 0 {
          assert rest[j - 1] in rest;
        }
      }
    }
  }

  lemma {:induction false} CutMissing(ws: seq<WorkerConn>, w: WorkerConn)
    requires w !in ws
    ensures Cut(ws, w) == ws
    decreases |ws|
  {
    if ws != [] {
      CutMissing(ws[1..], w);
    }
  }

  lemma {:induction false} CutAt(ws: seq<WorkerConn>, w: WorkerConn, i: nat)
    requires i < |ws| && ws[i] == w && w !in ws[..i]
    ensures Cut(ws, w) == ws[..i] + ws[i + 1..]
    decreases |ws|
  {
    if i > 0 {
      assert ws[0] in ws[..i];
      assert forall x :: x in ws[1..][..i - 1] ==> x in ws[..i];
      CutAt(ws[1..], w, i - 1);
      assert ws[..i] == [ws[0]] + ws[1..][..i - 1];
      assert ws[1..][i..] == ws[i + 1..];
    }
  }

  /** In an exact index a list holds nothing but current connections of its key. */
  lemma UnderIs(s: Slots, key: string, w: WorkerConn)
    requires Exact(s)
    ensures w in Under(s, key) <==> Current(s, w) && KeyFor(w) == key
  {
    assert SlotOk(s, key);
    if Current(s, w) {
      assert MemberOk(s, w.workerID);
    }
  }

  lemma RemoveKeeps(s: Slots, w: WorkerConn)
    requires Exact(s) && Current(s, w)
    ensures Exact(Remove(s, w))
  {
    var t, k := Remove(s, w), KeyFor(w);
    assert SlotOk(s, k) && MemberOk(s, w.workerID);
    CutIs(Under(s, k), w);
    forall key ensures SlotOk(t, key) {
      assert SlotOk(s, key);
      forall i | 0 <= i < |Under(t, key)| ensures Current(t, Under(t, key)[i]) && KeyFor(Under(t, key)[i]) == key {
        UnderIs(s, key, Under(t, key)[i]);
      }
    }
    forall id | id in t.workers ensures MemberOk(t, id) {
      assert MemberOk(s, id);
    }
  }

  /** Removing a connection that is not the registered one leaves every list as it is. */
  lemma StaleRemoval(s: Slots, w: WorkerConn)
    requires Exact(s) && !Current(s, w)
    ensures Remove(s, w) == s.(workers := s.workers - {w.workerID})
  {
    UnderIs(s, KeyFor(w), w);
    CutMissing(Under(s, KeyFor(w)), w);
    assert KeyFor(w) in s.platform ==> s.platform[KeyFor(w) := s.platform[KeyFor(w)]] == s.platform;
  }

  /** A removed connection keeps the index exact exactly if it is the registered one or nobody took
      its identifier over. */
  lemma RemoveIff(s: Slots, w: WorkerConn)
    requires Exact(s)
    ensures Exact(Remove(s, w)) <==> Current(s, w) || w.workerID !in s.workers
  {
    if Current(s, w) {
      RemoveKeeps(s, w);
    } else {
      var t := Remove(s, w);
      StaleRemoval(s, w);
      if w.workerID in s.workers {
        var heir := s.workers[w.workerID];
        assert MemberOk(s, w.workerID);
        var i :| 0 <= i < |Under(s, KeyFor(heir))| && Under(s, KeyFor(heir))[i] == heir;
        assert Under(t, KeyFor(heir))[i] == heir && !Current(t, heir);
        assert !SlotOk(t, KeyFor(heir));
      } else {
        assert t == s;
      }
    }
  }

  /** What is lost when it is not: the successor can no longer be found by its identifier, or for a
      job without a platform, and is still found for every job of its platform. */
  lemma StaleRemovalHidesHeir(s: Slots, w: WorkerConn)
    requires Exact(s) && !Current(s, w) && w.workerID in s.workers
    ensures var t, heir := Remove(s, w), s.workers[w.workerID];
            heir !in t.workers.Values && heir in Under(t, KeyFor(heir))
  {
    var t, heir := Remove(s, w), s.workers[w.workerID];
    StaleRemoval(s, w);
    assert MemberOk(s, w.workerID);
    forall id | id in t.workers ensures t.workers[id] != heir {
      assert MemberOk(s, id);
    }
  }

  lemma PushDistinct(ws: seq<WorkerConn>, w: WorkerConn)
    requires Distinct(ws) && w !in ws
    ensures Distinct(ws + [w])
  {
  }

  lemma InsertKeeps(s: Slots, w: WorkerConn)
    requires Exact(s) && w.workerID !in s.workers
    ensures Exact(Insert(s, w))
  {
    var t, k := Insert(s, w), KeyFor(w);
    UnderIs(s, k, w);
    assert Under(t, k) == Under(s, k) + [w];
    forall key ensures SlotOk(t, key) {
      assert SlotOk(s, key);
      if key == k {
        PushDistinct(Under(s, k), w);
      }
    }
    forall id | id in t.workers ensures MemberOk(t, id) {
      if id != w.workerID {
        assert MemberOk(s, id);
      }
    }
  }

  /** Registration and replacement keep the index exact and change one identifier only. */
  lemma RegisterKeeps(s: Slots, w: WorkerConn)
    requires Exact(s)
    ensures Exact(Register(s, w))
    ensures Register(s, w).workers == s.workers[w.workerID := w]
  {
    if w.workerID in s.workers {
      var former := s.workers[w.workerID];
      assert MemberOk(s, w.workerID);
      RemoveKeeps(s, former);
      InsertKeeps(Remove(s, former), w);
      hide Exact;
    } else {
      InsertKeeps(s, w);
      hide Exact;
    }
  }

  // ---- what the dispatcher sees ----

  function Ids(ws: seq<WorkerConn>): (ids: seq<string>)
    ensures |ids| == |ws| && forall i :: 0 <= i < |ws| ==> ids[i] == ws[i].workerID
  {
    if ws == [] then [] else [ws[0].workerID] + Ids(ws[1..])
  }

  /** The pool of the dispatch model: connections by their values, lists by identifiers. */
  ghost function PoolOf(s: Slots): Pool
    reads set id | id in s.workers :: s.workers[id]
  {
    Pool(map id | id in s.workers :: s.workers[id].View(), map key | key in s.platform :: Ids(s.platform[key]))
  }

  /** An exact index is the index that the dispatch guarantees ask for. */
  lemma ExactIsIndexed(s: Slots)
    requires Exact(s)
    ensures Indexed(PoolOf(s))
  {
    var p := PoolOf(s);
    forall key ensures ListOk(p, key) {
      assert SlotOk(s, key) && Listed(p, key) == Ids(Under(s, key));
      forall i, j | 0 <= i < j < |Listed(p, key)| ensures Listed(p, key)[i] != Listed(p, key)[j] {
        assert Current(s, Under(s, key)[i]) && Current(s, Under(s, key)[j]);
      }
    }
    forall id | id in p.workers ensures ConnOk(p, id) {
      assert MemberOk(s, id);
      var w := s.workers[id];
      var i :| 0 <= i < |Under(s, KeyFor(w))| && Under(s, KeyFor(w))[i] == w;
      assert Listed(p, KeyFor(w))[i] == id;
    }
  }

  /** The maps edited in place. */
  class Hub {
    var workers: map<string, WorkerConn>
    var platform: map<string, seq<WorkerConn>>

    constructor ()
      ensures View() == Slots(map[], map[]) && Exact(View())
    {
      workers, platform := map[], map[];
    }

    function View(): Slots
      reads this
    {
      Slots(workers, platform)
    }

    /** removeConnLocked: the loop over the platform list compares connections, not identifiers. */
    method RemoveConn(w: WorkerConn)
      modifies this
      ensures View() == Remove(old(View()), w)
      ensures old(Exact(View())) ==> (Exact(View()) <==> old(Current(View(), w)) || w.workerID !in old(workers))
    {
      ghost var before := View();
      workers := workers - {w.workerID};
      var key := KeyFor(w);
      if key in platform {
        var list := platform[key];
        var i := 0;
        while i < |list| && list[i] != w
          invariant 0 <= i <= |list| && w !in list[..i]
        {
          i := i + 1;
        }
        if i < |list| {
          CutAt(list, w, i);
          platform := platform[key := list[..i] + list[i + 1..]];
        } else {
          assert list[..i] == list;
          CutMissing(list, w);
          assert platform == platform[key := list];
        }
      }
      if Exact(before) {
        RemoveIff(before, w);
      }
    }

    /** register: replaces a connection with the same identifier, whose jobs are to be re-queued. */
    method RegisterWorker(w: WorkerConn) returns (requeued: set<string>)
      modifies this
      ensures View() == Register(old(View()), w)
      ensures requeued == if w.workerID in old(workers) then old(workers)[w.workerID].inFlight else {}
      ensures old(Exact(View())) ==> Exact(View()) && workers == old(workers)[w.workerID := w]
    {
      ghost var before := View();
      requeued := {};
      if w.workerID in workers {
        requeued := workers[w.workerID].inFlight;
        RemoveConn(workers[w.workerID]);
      }
      var key := KeyFor(w);
      platform := platform[key := Under(Slots(workers, platform), key) + [w]];
      workers := workers[w.workerID := w];
      if Exact(before) {
        RegisterKeeps(before, w);
      }
    }

    /** unregister: the jobs of the connection go back to the queue. */
    method UnregisterWorker(w: WorkerConn) returns (requeued: set<string>)
      modifies this
      ensures requeued == w.inFlight
      ensures View() == Remove(old(View()), w)
      ensures old(Exact(View())) ==> (Exact(View()) <==> old(Current(View(), w)) || w.workerID !in old(workers))
    {
      requeued := w.inFlight;
      RemoveConn(w);
    }
  }
}
