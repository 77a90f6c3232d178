/** Connected workers as the dispatcher sees them: capacity reservation, the platform index,
    eligibility, and the default selector. */
module WorkerPool {
  import opened Base

  datatype WorkerState = Online | Pressure | Draining | Offline | ShuttingDown

  /** rejected: the jobs for which rejectedJobsCache.Get answers true during the pass. */
  datatype Conn = Conn(
    id: string, os: string, arch: string,
    capacity: int, occupiedCost: int, inFlight: set<string>,
    state: WorkerState, lastIdleAt: int, rejected: set<string>)

  function Available(c: Conn): int { c.capacity - c.occupiedCost }

  /** AssignTask: None stands for either of its two errors. */
  function Assign(c: Conn, job: string, cost: int): Option<Conn> {
    if Available(c) <= 0 || Available(c) - cost < 0 then None
    else Some(c.(inFlight := c.inFlight + {job}, occupiedCost := c.occupiedCost + cost))
  }

  /** A reservation succeeds exactly if the worker has room for it, and is held from then on. */
  lemma AssignExactly(c: Conn, job: string, cost: int)
    ensures Assign(c, job, cost).Some? <==> c.occupiedCost < c.capacity && c.occupiedCost + cost <= c.capacity
    ensures Assign(c, job, cost).Some? ==>
            var d := Assign(c, job, cost).value;
            && d.inFlight == c.inFlight + {job} && d.occupiedCost == c.occupiedCost + cost
            && d.id == c.id && d.os == c.os && d.arch == c.arch && d.capacity == c.capacity
            && d.state == c.state && d.lastIdleAt == c.lastIdleAt && d.rejected == c.rejected
  {
  }

  function PlatformKey(os: string, arch: string): string { os + "/" + arch }

  function KeyOf(c: Conn): string { PlatformKey(c.os, c.arch) }

  datatype Pool = Pool(workers: map<string, Conn>, platform: map<string, seq<string>>)

  function Listed(p: Pool, key: string): seq<string> {
    if key in p.platform then p.platform[key] else []
  }

  predicate ListOk(p: Pool, key: string) {
    Distinct(Listed(p, key)) && forall x :: x in Listed(p, key) ==> x in p.workers && KeyOf(p.workers[x]) == key
  }

  predicate ConnOk(p: Pool, id: string)
    requires id in p.workers
  {
    p.workers[id].id == id && id in Listed(p, KeyOf(p.workers[id]))
  }

  /** The platform index lists exactly the registered workers, each once, under its own key. */
  ghost predicate Indexed(p: Pool) {
    (forall id :: id in p.workers ==> ConnOk(p, id)) && forall key :: ListOk(p, key)
  }

  // ---- eligibility ----

  predicate Takes(c: Conn, cost: int, job: string) {
    && c.state == Online
    && (job != "" ==> job !in c.rejected)
    && (cost == 0 || Available(c) >= cost)
  }

  function Scan(p: Pool, ids: seq<string>, cost: int, job: string): (r: seq<string>)
    ensures forall x :: x in r ==> x in p.workers
  {
    if ids == [] then []
    else
      (if ids[0] in p.workers && Takes(p.workers[ids[0]], cost, job) then [ids[0]] else [])
      + Scan(p, ids[1..], cost, job)
  }

  function ScanKeys(p: Pool, keys: seq<string>, cost: int, job: string): (r: seq<string>)
    ensures forall x :: x in r ==> x in p.workers
  {
    if keys == [] then []
    else Scan(p, Listed(p, keys[0]), cost, job) + ScanKeys(p, keys[1..], cost, job)
  }

  /** eligibleWorkers. order is the order in which Go iterates the workers map, used only when
      there is no platform constraint. */
  function Eligible(p: Pool, keys: seq<string>, cost: int, job: string, order: seq<string>): (r: seq<string>)
    ensures forall x :: x in r ==> x in p.workers
  {
    if cost < 0 then []
    else if keys == [] then Scan(p, order, cost, job)
    else ScanKeys(p, keys, cost, job)
  }

  lemma {:induction false} ScanFinds(p: Pool, ids: seq<string>, cost: int, job: string, w: string)
    ensures w in Scan(p, ids, cost, job) <==> w in ids && w in p.workers && Takes(p.workers[w], cost, job)
  {
    if ids != [] {
      ScanFinds(p, ids[1..], cost, job, w);
    }
  }

  lemma {:induction false} ScanKeysFinds(p: Pool, keys: seq<string>, cost: int, job: string, w: string)
    requires Indexed(p)
    ensures w in ScanKeys(p, keys, cost, job) <==>
            w in p.workers && KeyOf(p.workers[w]) in keys && Takes(p.workers[w], cost, job)
  {
    if keys != [] {
      ScanKeysFinds(p, keys[1..], cost, job, w);
      ScanFinds(p, Listed(p, keys[0]), cost, job, w);
      assert ListOk(p, keys[0]);
      assert w in p.workers ==> ConnOk(p, w);
    }
  }

  ghost predicate Enumerates(order: seq<string>, ids: set<string>) {
    forall x :: x in order <==> x in ids
  }

  /** A worker is returned exactly when it is online, has not refused the job, fits the cost and
      runs one of the platforms. */
  lemma EligibleExactly(p: Pool, keys: seq<string>, cost: int, job: string, order: seq<string>, w: string)
    requires Indexed(p) && Enumerates(order, p.workers.Keys)
    ensures w in Eligible(p, keys, cost, job, order) <==>
            && cost >= 0 && w in p.workers
            && var c := p.workers[w];
               && (keys == [] || c.os + "/" + c.arch in keys)
               && c.state == Online && (job == "" || job !in c.rejected)
               && (cost == 0 || c.occupiedCost + cost <= c.capacity)
  {
    if keys == [] {
      ScanFinds(p, order, cost, job, w);
    } else {
      ScanKeysFinds(p, keys, cost, job, w);
    }
  }

  method AppendEligible(p: Pool, ids: seq<string>, cost: int, job: string, found: seq<string>)
    returns (out: seq<string>)
    ensures out == found + Scan(p, ids, cost, job)
  {
    out := found;
    for i := 0 to |ids|
      invariant out + Scan(p, ids[i..], cost, job) == found + Scan(p, ids, cost, job)
    {
      assert ids[i..][1..] == ids[i + 1..];
      if ids[i] in p.workers && Takes(p.workers[ids[i]], cost, job) {
        Assoc(out, [ids[i]], Scan(p, ids[i + 1..], cost, job));
        out := out + [ids[i]];
      }
    }
  }

  /** The two nested loops of eligibleWorkers. */
  method EligibleWorkers(p: Pool, keys: seq<string>, cost: int, job: string, order: seq<string>)
    returns (out: seq<string>)
    ensures out == Eligible(p, keys, cost, job, order)
  {
    if cost < 0 {
      return [];
    }
    if |keys| == 0 {
      out := AppendEligible(p, order, cost, job, []);
      return;
    }
    out := [];
    for i := 0 to |keys|
      invariant out + ScanKeys(p, keys[i..], cost, job) == ScanKeys(p, keys, cost, job)
    {
      ghost var before := out;
      out := AppendEligible(p, Listed(p, keys[i]), cost, job, out);
      assert keys[i..][1..] == keys[i + 1..];
      Assoc(before, Scan(p, Listed(p, keys[i]), cost, job), ScanKeys(p, keys[i + 1..], cost, job));
    }
  }

  // ---- the online pre-filter ----

  predicate AnyOnline(p: Pool, ids: seq<string>) {
    exists i :: 0 <= i < |ids| && ids[i] in p.workers && p.workers[ids[i]].state == Online
  }

  function OnlineKeys(p: Pool): set<string> {
    set key | key in p.platform && AnyOnline(p, p.platform[key])
  }

  /** onlinePlatformKeys: the outer loop over the platform map, the inner one until a worker is
      found online. */
  method OnlinePlatformKeys(p: Pool) returns (out: set<string>)
    ensures out == OnlineKeys(p)
  {
    out := {};
    var todo := p.platform.Keys;
    while todo != {}
      invariant todo <= p.platform.Keys
      invariant out == set key | key in p.platform && key !in todo && AnyOnline(p, p.platform[key])
      decreases todo
    {
      var key :| key in todo;
      var ids := p.platform[key];
      var i := 0;
      while i < |ids| && !(ids[i] in p.workers && p.workers[ids[i]].state == Online)
        invariant 0 <= i <= |ids|
        invariant forall j :: 0 <= j < i ==> !(ids[j] in p.workers && p.workers[ids[j]].state == Online)
      {
        i := i + 1;
      }
      if i < |ids| {
        assert AnyOnline(p, ids);
        out := out + {key};
      }
      todo := todo - {key};
    }
  }

  lemma {:induction false} OfflineScan(p: Pool, ids: seq<string>, cost: int, job: string)
    requires !AnyOnline(p, ids)
    ensures Scan(p, ids, cost, job) == []
  {
    if ids != [] {
      assert forall i :: 0 <= i < |ids[1..]| ==> ids[1..][i] == ids[i + 1];
      OfflineScan(p, ids[1..], cost, job);
    }
  }

  /** A job none of whose platforms is online has no eligible worker, whatever it costs. */
  lemma {:induction false} OfflineMeansIneligible(p: Pool, keys: seq<string>, cost: int, job: string)
    requires forall k :: k in keys ==> k !in OnlineKeys(p)
    ensures ScanKeys(p, keys, cost, job) == []
  {
    if keys != [] {
      OfflineMeansIneligible(p, keys[1..], cost, job);
      assert keys[0] in keys && keys[0] !in OnlineKeys(p);
      OfflineScan(p, Listed(p, keys[0]), cost, job);
    }
  }

  // ---- the default selector ----

  predicate BetterLoad(a: Conn, b: Conn) {
    Available(a) > Available(b) || (Available(a) == Available(b) && a.lastIdleAt < b.lastIdleAt)
  }

  /** c has less free capacity than best, or as much and has not been idle for longer. */
  predicate NoFreer(c: Conn, best: Conn) {
    || c.capacity - c.occupiedCost < best.capacity - best.occupiedCost
    || (c.capacity - c.occupiedCost == best.capacity - best.occupiedCost && best.lastIdleAt <= c.lastIdleAt)
  }

  /** LeastLoadedSelector.Select: the first worker that no other one beats. */
  method LeastLoaded(workers: seq<Conn>) returns (best: nat)
    requires workers != []
    ensures best < |workers|
    ensures forall i :: 0 <= i < |workers| ==> NoFreer(workers[i], workers[best])
    ensures forall i :: 0 <= i < best ==> !NoFreer(workers[best], workers[i])
  {
    best := 0;
    for i := 1 to |workers|
      invariant best < i
      invariant forall j :: 0 <= j < i ==> !BetterLoad(workers[j], workers[best])
      invariant forall j :: 0 <= j < best ==> BetterLoad(workers[best], workers[j])
    {
      if BetterLoad(workers[i], workers[best]) {
        best := i;
      }
    }
  }
}
