/** One bucket per client key, minted on demand and evicted when idle: evicting is not observable
    as long as an idle bucket has had time to fill up and nobody is holding it. */
module LimiterCollection {
  import opened Base
  import opened TokenBucket

  class HTTPLimiterCollection {
    const rate: real       // what the factory mints
    const capacity: real
    var limiters: map<string, Limiter>

    constructor (rate: real, capacity: real)
      ensures limiters == map[] && this.rate == rate && this.capacity == capacity
    {
      this.rate, this.capacity, limiters := rate, capacity, map[];
    }

    /** Get: the limiter already there, or a new full one. */
    method Get(key: string, now: real) returns (limiter: Limiter)
      modifies this`limiters
      ensures key in limiters && limiters[key] == limiter
      ensures key in old(limiters) ==> limiters == old(limiters)
      ensures key !in old(limiters) ==>
                fresh(limiter) && limiter.View() == Full(rate, capacity, now)
                && limiters == old(limiters)[key := limiter]
    {
      if key in limiters {
        return limiters[key];
      }
      limiter := new Limiter(rate, capacity, now);
      limiters := limiters[key := limiter];
    }

    /** Cleanup: exactly the limiters last used more than idle ago disappear. */
    method Cleanup(idle: real, now: real)
      modifies this`limiters
      ensures limiters == map k | k in old(limiters) && now - old(limiters)[k].lastUpdated <= idle :: old(limiters)[k]
    {
      ghost var before := limiters;
      var todo := limiters.Keys;
      while todo != {}
        invariant todo <= before.Keys
        invariant limiters == map k | k in before && (k in todo || now - before[k].lastUpdated <= idle) :: before[k]
        decreases todo
      {
        var key :| key in todo;
        if now - limiters[key].lastUpdated > idle {
          limiters := limiters - {key};
        }
        todo := todo - {key};
      }
    }
  }

  // ---- when a bucket is as good as a new one ----

  predicate FullBy(b: Bucket, now: real) {
    Level(b, now) == b.capacity
  }

  lemma FullStaysFull(b: Bucket, now: real, later: real)
    requires b.rate >= 0.0 && FullBy(b, now) && now <= later
    ensures FullBy(b, later)
  {
    GainAdds(b.rate, now - b.last, later - now);
    GainNotNegative(b.rate, later - now);
    hide Gain;
    assert now - b.last + (later - now) == later - b.last;
  }

  lemma LevelCapped(b: Bucket, now: real)
    ensures Level(b, now) <= b.capacity
  {
  }

  lemma DivisionDiffers(x: real, y: real, r: real)
    requires r > 0.0 && x != y
    ensures x / r != y / r
  {
    assert (x / r) * r == x && (y / r) * r == y;
  }

  /** Replacing a bucket by a new one goes unnoticed by the next call exactly if it was full. */
  lemma ReplaceIff(b: Bucket, now: real)
    requires Valid(b) && b.rate > 0.0 && now >= b.last
    ensures ReplyOf(Full(b.rate, b.capacity, now), now) == ReplyOf(b, now) <==> FullBy(b, now)
  {
    var f := Full(b.rate, b.capacity, now);
    var level := Level(b, now);
    assert Level(f, now) == b.capacity by {
      assert Gain(b.rate, 0.0) == 0.0;
    }
    hide Gain, Level;
    if level == b.capacity {
      assert Take(b, now) == Take(f, now);
    } else {
      assert Level(b, now) < b.capacity by {
        LevelCapped(b, now);
      }
      if Allowed(b, now) == Allowed(f, now) {
        DivisionDiffers(b.capacity - Take(f, now).tokens, b.capacity - Take(b, now).tokens, b.rate);
      }
    }
  }

  lemma PositiveFactor(d: real, rate: real)
    requires rate > 0.0 && d * rate > 0.0
    ensures d > 0.0
  {
  }

  lemma Between(rate: real, x: real, y: real)
    requires rate > 0.0 && x * rate < y * rate
    ensures x < (x + y) / 2.0 && Gain(rate, (x + y) / 2.0) < y * rate
  {
    assert x < y by {
      assert (y - x) * rate == y * rate - x * rate;
      assert (y - x) * rate > 0.0;
      PositiveFactor(y - x, rate);
    }
    assert Gain(rate, (x + y) / 2.0) == (x * rate + y * rate) / 2.0;
  }

  lemma IdleFills(b: Bucket, now: real, idle: real)
    requires Valid(b) && now - b.last > idle && Gain(b.rate, idle) >= b.capacity
    ensures FullBy(b, now)
  {
    GainAdds(b.rate, idle, now - b.last - idle);
    GainNotNegative(b.rate, now - b.last - idle);
    hide Gain;
    assert idle + (now - b.last - idle) == now - b.last;
  }

  /** An idle time is long enough for every possible bucket exactly if rate times it covers the
      capacity. */
  lemma IdleIff(rate: real, capacity: real, idle: real)
    requires rate > 0.0 && capacity >= 0.0 && idle >= 0.0
    ensures Gain(rate, idle) >= capacity <==>
            forall tokens, time :: 0.0 <= tokens <= capacity && time > idle ==>
              FullBy(Bucket(rate, capacity, tokens, 0.0), time)
  {
    if Gain(rate, idle) >= capacity {
      forall tokens, time | 0.0 <= tokens <= capacity && time > idle
        ensures FullBy(Bucket(rate, capacity, tokens, 0.0), time)
      {
        IdleFills(Bucket(rate, capacity, tokens, 0.0), time, idle);
      }
    } else {
      var time := (idle + capacity / rate) / 2.0;
      assert (capacity / rate) * rate == capacity;
      assert Gain(rate, time) < capacity && time > idle by {
        Between(rate, idle, capacity / rate);
      }
      assert !FullBy(Bucket(rate, capacity, 0.0, 0.0), time);
    }
  }

  // ---- requests and cleanups interleaved ----

  /** A client between Get and Attempt holds a limiter object. */
  datatype Hold = Hold(key: string, obj: nat)

  datatype Coll = Coll(limiters: map<string, nat>, objs: seq<Bucket>, held: map<nat, Hold>)

  datatype Step =
    | Get(client: nat, key: string, now: real)
    | Attempt(client: nat, now: real)
    | Cleanup(now: real)

  /** What all limiters of the collection share, and the idle time passed to Cleanup. */
  datatype Settings = Settings(rate: real, capacity: real, idle: real)

  predicate Sensible(f: Settings) {
    f.rate > 0.0 && f.capacity >= 0.0 && Gain(f.rate, f.idle) >= f.capacity
  }

  predicate Can(c: Coll, step: Step) {
    step.Attempt? ==> step.client in c.held && c.held[step.client].obj < |c.objs|
  }

  predicate Expired(f: Settings, c: Coll, key: string, now: real)
    requires key in c.limiters
  {
    c.limiters[key] < |c.objs| && now - c.objs[c.limiters[key]].last > f.idle
  }

  function Do(f: Settings, c: Coll, step: Step): Coll
    requires Can(c, step)
  {
    match step
    case Get(client, key, now) =>
      if key in c.limiters then c.(held := c.held[client := Hold(key, c.limiters[key])])
      else
        Coll(c.limiters[key := |c.objs|], c.objs + [Full(f.rate, f.capacity, now)],
             c.held[client := Hold(key, |c.objs|)])
    case Attempt(client, now) =>
      var i := c.held[client].obj;
      c.(objs := c.objs[i := Take(c.objs[i], now)], held := c.held - {client})
    case Cleanup(now) =>
      c.(limiters := map k | k in c.limiters && !Expired(f, c, k, now) :: c.limiters[k])
  }

  /** An attempt charges the limiter its client looked up, found or evicted, and no other, and ends
      the client's hold. */
  lemma AttemptIs(f: Settings, c: Coll, client: nat, now: real)
    requires Can(c, Attempt(client, now))
    ensures var d := Do(f, c, Attempt(client, now));
            && d.limiters == c.limiters && d.held.Keys == c.held.Keys - {client} && |d.objs| == |c.objs|
            && (forall x :: x in d.held ==> d.held[x] == c.held[x])
            && forall i :: 0 <= i < |c.objs| ==>
                 d.objs[i] == if i == c.held[client].obj then Take(c.objs[i], now) else c.objs[i]
  {
  }

  function Output(c: Coll, step: Step): seq<Reply>
    requires Can(c, step)
  {
    if step.Attempt? then [ReplyOf(c.objs[c.held[step.client].obj], step.now)] else []
  }

  predicate Runs(f: Settings, c: Coll, steps: seq<Step>)
    decreases |steps|
  {
    steps == [] || (Can(c, steps[0]) && Runs(f, Do(f, c, steps[0]), steps[1..]))
  }

  function Replies(f: Settings, c: Coll, steps: seq<Step>): seq<Reply>
    requires Runs(f, c, steps)
    decreases |steps|
  {
    if steps == [] then [] else Output(c, steps[0]) + Replies(f, Do(f, c, steps[0]), steps[1..])
  }

  function WithoutCleanup(steps: seq<Step>): seq<Step> {
    if steps == [] then []
    else (if steps[0].Cleanup? then [] else [steps[0]]) + WithoutCleanup(steps[1..])
  }

  predicate Ticks(now: real, steps: seq<Step>)
    decreases |steps|
  {
    steps == [] || (now <= steps[0].now && Ticks(steps[0].now, steps[1..]))
  }

  /** A cleanup evicts no limiter that a client holds. */
  predicate EvictsNoHeld(f: Settings, c: Coll, step: Step) {
    step.Cleanup? ==>
      forall x :: x in c.held && c.held[x].key in c.limiters ==> !Expired(f, c, c.held[x].key, step.now)
  }

  predicate SafeRun(f: Settings, c: Coll, steps: seq<Step>)
    requires Runs(f, c, steps)
    decreases |steps|
  {
    steps == [] || (EvictsNoHeld(f, c, steps[0]) && SafeRun(f, Do(f, c, steps[0]), steps[1..]))
  }

  // ---- the simulation ----

  predicate ObjOk(f: Settings, b: Bucket, now: real) {
    Valid(b) && b.rate == f.rate && b.capacity == f.capacity && b.last <= now
  }

  predicate WellFormed(f: Settings, c: Coll, now: real) {
    && (forall k :: k in c.limiters ==> c.limiters[k] < |c.objs|)
    && (forall k, l :: k in c.limiters && l in c.limiters && k != l ==> c.limiters[k] != c.limiters[l])
    && (forall i :: 0 <= i < |c.objs| ==> ObjOk(f, c.objs[i], now))
    && (forall x :: x in c.held ==> c.held[x].key in c.limiters && c.held[x].obj == c.limiters[c.held[x].key])
  }

  /** Calls from now on cannot tell the two buckets apart. */
  predicate Alike(x: Bucket, y: Bucket, now: real) {
    x == y || (FullBy(x, now) && FullBy(y, now))
  }

  predicate HeldMatches(a: Coll, b: Coll) {
    a.held.Keys == b.held.Keys && forall x :: x in a.held ==> a.held[x].key == b.held[x].key
  }

  predicate KeyMatches(a: Coll, b: Coll, key: string, now: real) {
    if key !in b.limiters then key !in a.limiters
    else
      && b.limiters[key] < |b.objs|
      && (key in a.limiters ==>
            a.limiters[key] < |a.objs| && Alike(a.objs[a.limiters[key]], b.objs[b.limiters[key]], now))
      && (key !in a.limiters ==> FullBy(b.objs[b.limiters[key]], now))
  }

  ghost predicate Sim(f: Settings, a: Coll, b: Coll, now: real) {
    && WellFormed(f, a, now) && WellFormed(f, b, now)
    && (forall k :: KeyMatches(a, b, k, now))
    && HeldMatches(a, b)
  }

  lemma AlikeLater(f: Settings, x: Bucket, y: Bucket, now: real, later: real)
    requires ObjOk(f, x, now) && ObjOk(f, y, now) && Alike(x, y, now) && now <= later
    ensures Alike(x, y, later)
  {
    if x != y {
      FullStaysFull(x, now, later);
      FullStaysFull(y, now, later);
    }
  }

  lemma AlikeTake(f: Settings, x: Bucket, y: Bucket, now: real)
    requires ObjOk(f, x, now) && ObjOk(f, y, now) && Alike(x, y, now)
    ensures Take(x, now) == Take(y, now) && ReplyOf(x, now) == ReplyOf(y, now)
    ensures ObjOk(f, Take(x, now), now)
  {
    TakeKeepsValid(x, now);
    hide Level, Valid;
  }

  lemma FullLater(f: Settings, b: Bucket, now: real, later: real)
    requires ObjOk(f, b, now) && FullBy(b, now) && now <= later
    ensures FullBy(b, later)
  {
    FullStaysFull(b, now, later);
  }

  lemma SimLater(f: Settings, a: Coll, b: Coll, now: real, later: real)
    requires Sim(f, a, b, now) && now <= later
    ensures Sim(f, a, b, later)
  {
    hide Valid, FullBy, Alike;
    forall k ensures KeyMatches(a, b, k, later) {
      assert KeyMatches(a, b, k, now);
      if k in a.limiters {
        AlikeLater(f, a.objs[a.limiters[k]], b.objs[b.limiters[k]], now, later);
      } else if k in b.limiters {
        FullLater(f, b.objs[b.limiters[k]], now, later);
      }
    }
  }

  lemma FreshIsFull(f: Settings, now: real)
    requires Sensible(f)
    ensures ObjOk(f, Full(f.rate, f.capacity, now), now) && FullBy(Full(f.rate, f.capacity, now), now)
  {
    assert Gain(f.rate, 0.0) == 0.0;
  }

  lemma GetWellFormed(f: Settings, c: Coll, client: nat, key: string, now: real)
    requires Sensible(f) && WellFormed(f, c, now)
    ensures WellFormed(f, Do(f, c, Get(client, key, now)), now)
  {
    FreshIsFull(f, now);
    hide FullBy, ObjOk, Sensible, Full;
  }

  lemma AttemptWellFormed(f: Settings, c: Coll, client: nat, now: real)
    requires WellFormed(f, c, now) && client in c.held
    ensures Can(c, Attempt(client, now)) && WellFormed(f, Do(f, c, Attempt(client, now)), now)
  {
    AlikeTake(f, c.objs[c.held[client].obj], c.objs[c.held[client].obj], now);
    hide ObjOk, Take;
  }

  lemma OwnObject(f: Settings, c: Coll, client: nat, now: real)
    requires WellFormed(f, c, now) && client in c.held
    ensures var key := c.held[client].key;
            && key in c.limiters && c.held[client].obj == c.limiters[key] < |c.objs|
            && ObjOk(f, c.objs[c.limiters[key]], now)
            && forall k :: k in c.limiters && k != key ==> c.limiters[k] != c.limiters[key]
  {
  }

  lemma GetMatches(f: Settings, a: Coll, b: Coll, client: nat, key: string, now: real, k: string)
    requires Sensible(f) && KeyMatches(a, b, k, now) && KeyMatches(a, b, key, now)
    ensures KeyMatches(Do(f, a, Get(client, key, now)), Do(f, b, Get(client, key, now)), k, now)
  {
    FreshIsFull(f, now);
    hide FullBy, ObjOk, Sensible, Full;
  }

  lemma GetHeld(f: Settings, a: Coll, b: Coll, client: nat, key: string, now: real)
    requires HeldMatches(a, b)
    ensures HeldMatches(Do(f, a, Get(client, key, now)), Do(f, b, Get(client, key, now)))
  {
    var a', b' := Do(f, a, Get(client, key, now)), Do(f, b, Get(client, key, now));
    assert a'.held.Keys == a.held.Keys + {client};
    assert b'.held.Keys == b.held.Keys + {client};
  }

  lemma SimGet(f: Settings, a: Coll, b: Coll, client: nat, key: string, now: real)
    requires Sensible(f) && Sim(f, a, b, now)
    ensures Sim(f, Do(f, a, Get(client, key, now)), Do(f, b, Get(client, key, now)), now)
  {
    GetWellFormed(f, a, client, key, now);
    GetWellFormed(f, b, client, key, now);
    GetHeld(f, a, b, client, key, now);
    hide Sensible, WellFormed, Full, KeyMatches, HeldMatches, Do;
    var a', b' := Do(f, a, Get(client, key, now)), Do(f, b, Get(client, key, now));
    forall k ensures KeyMatches(a', b', k, now) {
      GetMatches(f, a, b, client, key, now, k);
    }
  }

  lemma SimAttempt(f: Settings, a: Coll, b: Coll, client: nat, now: real)
    requires Sim(f, a, b, now) && client in a.held
    ensures Can(a, Attempt(client, now)) && Can(b, Attempt(client, now))
    ensures Sim(f, Do(f, a, Attempt(client, now)), Do(f, b, Attempt(client, now)), now)
    ensures Output(a, Attempt(client, now)) == Output(b, Attempt(client, now))
  {
    OwnObject(f, a, client, now);
    OwnObject(f, b, client, now);
    AttemptWellFormed(f, a, client, now);
    AttemptWellFormed(f, b, client, now);
    var key := a.held[client].key;
    assert KeyMatches(a, b, key, now);
    hide FullBy, ObjOk, Take, ReplyOf, WellFormed;
    AlikeTake(f, a.objs[a.limiters[key]], b.objs[b.limiters[key]], now);
    var a', b' := Do(f, a, Attempt(client, now)), Do(f, b, Attempt(client, now));
    forall k ensures KeyMatches(a', b', k, now) {
      assert KeyMatches(a, b, k, now);
    }
  }

  lemma SimCleanup(f: Settings, a: Coll, b: Coll, now: real)
    requires Sensible(f) && Sim(f, a, b, now) && EvictsNoHeld(f, a, Cleanup(now))
    ensures Sim(f, Do(f, a, Cleanup(now)), b, now)
  {
    var a' := Do(f, a, Cleanup(now));
    forall k ensures KeyMatches(a', b, k, now) {
      assert KeyMatches(a, b, k, now);
      if k in a.limiters && k !in a'.limiters {
        IdleFills(a.objs[a.limiters[k]], now, f.idle);
      }
    }
  }

  lemma SimStep(f: Settings, a: Coll, b: Coll, step: Step)
    requires Sensible(f) && Sim(f, a, b, step.now) && Can(a, step) && EvictsNoHeld(f, a, step)
    ensures step.Cleanup? ==> Sim(f, Do(f, a, step), b, step.now) && Output(a, step) == []
    ensures !step.Cleanup? ==>
              Can(b, step) && Sim(f, Do(f, a, step), Do(f, b, step), step.now) && Output(a, step) == Output(b, step)
  {
    match step
    case Get(client, key, now) => { SimGet(f, a, b, client, key, now); }
    case Attempt(client, now) => { SimAttempt(f, a, b, client, now); }
    case Cleanup(now) => { SimCleanup(f, a, b, now); }
  }

  /** Cleanups inserted anywhere change no reply to any client. */
  lemma {:induction false} CleanupIsUnobservable(f: Settings, a: Coll, b: Coll, now: real, steps: seq<Step>)
    requires Sensible(f) && Sim(f, a, b, now) && Ticks(now, steps) && Runs(f, a, steps) && SafeRun(f, a, steps)
    ensures Runs(f, b, WithoutCleanup(steps))
    ensures Replies(f, a, steps) == Replies(f, b, WithoutCleanup(steps))
    decreases |steps|
  {
    if steps != [] {
      var step, rest := steps[0], steps[1..];
      SimLater(f, a, b, now, step.now);
      SimStep(f, a, b, step);
      hide Sim, Sensible, Do, Can, Output;
      if step.Cleanup? {
        CleanupIsUnobservable(f, Do(f, a, step), b, step.now, rest);
        assert [] + WithoutCleanup(rest) == WithoutCleanup(rest);
      } else {
        CleanupIsUnobservable(f, Do(f, a, step), Do(f, b, step), step.now, rest);
        assert ([step] + WithoutCleanup(rest))[1..] == WithoutCleanup(rest);
      }
    }
  }

  /** From an empty collection. */
  lemma CleanupIsUnobservableFromStart(f: Settings, now: real, steps: seq<Step>)
    requires Sensible(f) && Ticks(now, steps)
    requires Runs(f, Coll(map[], [], map[]), steps) && SafeRun(f, Coll(map[], [], map[]), steps)
    ensures var empty := Coll(map[], [], map[]);
            Runs(f, empty, WithoutCleanup(steps))
            && Replies(f, empty, steps) == Replies(f, empty, WithoutCleanup(steps))
  {
    var empty := Coll(map[], [], map[]);
    assert Sim(f, empty, empty, now);
    CleanupIsUnobservable(f, empty, empty, now, steps);
  }

  /** A new bucket answers as the evicted one would after a call exactly if neither admits any. */
  lemma TokenTooManyIff(f: Settings, b: Bucket, now: real)
    requires Sensible(f) && ObjOk(f, b, now) && now - b.last > f.idle
    ensures ReplyOf(Full(f.rate, f.capacity, now), now) == ReplyOf(Take(b, now), now) <==> f.capacity < 1.0
  {
    IdleFills(b, now, f.idle);
    TakeKeepsValid(b, now);
    var after := Take(b, now);
    assert Level(after, now) == (if f.capacity >= 1.0 then f.capacity - 1.0 else f.capacity) by {
      assert Gain(f.rate, 0.0) == 0.0;
    }
    ReplaceIff(after, now);
  }

  lemma {:induction false} RepliesConcat(f: Settings, c: Coll, step: Step, rest: seq<Step>)
    requires Can(c, step) && Runs(f, Do(f, c, step), rest)
    ensures Runs(f, c, [step] + rest)
    ensures Replies(f, c, [step] + rest) == Output(c, step) + Replies(f, Do(f, c, step), rest)
  {
    hide Can, Do, Output;
    assert ([step] + rest)[1..] == rest;
  }

  /** A Get of another client and its Attempt, in a row. */
  function Visit(y: nat, key: string, now: real): seq<Step> {
    [Get(y, key, now)] + ([Attempt(y, now)] + [])
  }

  lemma VisitReply(f: Settings, c: Coll, y: nat, key: string, now: real)
    requires key in c.limiters ==> c.limiters[key] < |c.objs|
    ensures Runs(f, c, Visit(y, key, now))
    ensures Replies(f, c, Visit(y, key, now)) ==
            [ReplyOf(if key in c.limiters then c.objs[c.limiters[key]] else Full(f.rate, f.capacity, now), now)]
  {
    var c1 := Do(f, c, Get(y, key, now));
    hide ObjOk, ReplyOf, Take, Full;
    RepliesConcat(f, c1, Attempt(y, now), []);
    RepliesConcat(f, c, Get(y, key, now), [Attempt(y, now)] + []);
  }

  /** The replies to a client holding a limiter and to the next visitor of its key. */
  lemma HeldAttempt(f: Settings, c: Coll, x: nat, y: nat, now: real)
    requires x in c.held && c.held[x].obj < |c.objs|
    requires c.held[x].key in c.limiters ==> c.limiters[c.held[x].key] == c.held[x].obj
    ensures var steps := [Attempt(x, now)] + Visit(y, c.held[x].key, now);
            var b := c.objs[c.held[x].obj];
            && Runs(f, c, steps)
            && Replies(f, c, steps) ==
                 [ReplyOf(b, now)]
                 + [ReplyOf(if c.held[x].key in c.limiters then Take(b, now) else Full(f.rate, f.capacity, now), now)]
  {
    hide ReplyOf, Take, Full, Visit, Runs, Replies;
    var c1 := Do(f, c, Attempt(x, now));
    VisitReply(f, c1, y, c.held[x].key, now);
    RepliesConcat(f, c, Attempt(x, now), Visit(y, c.held[x].key, now));
  }

  lemma PlainSteps(x: nat, y: nat, key: string, now: real)
    ensures var plain := [Attempt(x, now)] + Visit(y, key, now);
            WithoutCleanup(plain) == plain && WithoutCleanup([Cleanup(now)] + plain) == plain
  {
    var plain := [Attempt(x, now)] + Visit(y, key, now);
    assert plain == [Attempt(x, now), Get(y, key, now), Attempt(y, now)];
    assert plain[1..] == [Get(y, key, now), Attempt(y, now)];
    assert plain[1..][1..] == [Attempt(y, now)];
    assert WithoutCleanup(plain[1..][1..]) == [Attempt(y, now)];
    assert WithoutCleanup(plain[1..]) == [Get(y, key, now), Attempt(y, now)];
    assert ([Cleanup(now)] + plain)[1..] == plain;
  }

  /** Evicting a limiter between a client's Get and Attempt shows in the reply to the next client of
      the key, who gets a token too many, exactly if the bucket can admit anything at all. */
  lemma EvictingHeldIff(f: Settings, c: Coll, x: nat, y: nat, now: real)
    requires Sensible(f) && WellFormed(f, c, now)
    requires x in c.held && c.held[x].key in c.limiters && Expired(f, c, c.held[x].key, now)
    ensures var key := c.held[x].key;
            var plain := [Attempt(x, now)] + Visit(y, key, now);
            var cleaned := [Cleanup(now)] + plain;
            && Runs(f, c, plain) && Runs(f, c, cleaned)
            && WithoutCleanup(cleaned) == plain
            && (Replies(f, c, cleaned) != Replies(f, c, plain) <==> f.capacity >= 1.0)
  {
    var key := c.held[x].key;
    var i := c.limiters[key];
    OwnObject(f, c, x, now);
    TokenTooManyIff(f, c.objs[i], now);
    hide WellFormed, Sensible, ObjOk, ReplyOf, Take, Full;
    var visit := Visit(y, key, now);
    PlainSteps(x, y, key, now);
    hide Visit;
    HeldAttempt(f, c, x, y, now);
    HeldAttempt(f, Do(f, c, Cleanup(now)), x, y, now);
    hide Runs, Replies, WithoutCleanup;
    var plain := [Attempt(x, now)] + visit;
    RepliesConcat(f, c, Cleanup(now), plain);
    var a, b := Replies(f, c, [Cleanup(now)] + plain), Replies(f, c, plain);
    assert a[0] == b[0] && |a| == |b| == 2;
    assert a[1] == b[1] ==> a == b;
  }
}
