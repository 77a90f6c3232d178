/** The LRU cache with a time to live: a map of list elements and a recency list edited in place,
    proved against a list of entries, which in turn is proved to hold the most recently used keys
    with the values last put. */
module LruCache {
  import opened Base

  datatype Entry<K, V> = Entry(key: K, value: V, expiry: int)

  function Keys<K, V>(l: seq<Entry<K, V>>): (ks: seq<K>)
    ensures |ks| == |l| && forall i :: 0 <= i < |l| ==> ks[i] == l[i].key
  {
    seq(|l|, i requires 0 <= i < |l| => l[i].key)
  }

  /** Everything but position i, with x in front: the effect of a move to the front. */
  function ToFront<T>(s: seq<T>, i: nat, x: T): (r: seq<T>)
    requires i < |s|
    ensures |r| == |s| && r[0] == x
    ensures forall j :: 1 <= j <= i ==> r[j] == s[j - 1]
    ensures forall j :: i < j < |s| ==> r[j] == s[j]
  {
    [x] + s[..i] + s[i + 1..]
  }

  /** The list without its last element once it has reached the capacity. */
  function Evicted<T>(s: seq<T>, capacity: int): seq<T> {
    if |s| >= capacity && s != [] then s[..|s| - 1] else s
  }

  function PutSpec<K(==), V>(l: seq<Entry<K, V>>, capacity: int, key: K, value: V, expiry: int): seq<Entry<K, V>> {
    var i := IndexOf(Keys(l), key);
    if i < |l| then ToFront(l, i, l[i].(value := value))
    else [Entry(key, value, expiry)] + Evicted(l, capacity)
  }

  /** What Get returns, and whether it counts as a use. */
  function Hit<K(==), V>(l: seq<Entry<K, V>>, key: K, now: int): Option<V> {
    var i := IndexOf(Keys(l), key);
    if i < |l| && now <= l[i].expiry then Some(l[i].value) else None
  }

  function GetSpec<K(==), V>(l: seq<Entry<K, V>>, key: K, now: int): seq<Entry<K, V>> {
    var i := IndexOf(Keys(l), key);
    if i < |l| && now <= l[i].expiry then ToFront(l, i, l[i]) else l
  }

  // ---- the cache itself ----

  class Elem<K, V> {
    const key: K
    var value: V
    const expiry: int
    var quarantined: bool

    constructor (key: K, value: V, expiry: int)
      ensures this.key == key && this.value == value && this.expiry == expiry && !quarantined
    {
      this.key, this.value, this.expiry, quarantined := key, value, expiry, false;
    }
  }

  lemma SetThenMove<T>(s: seq<T>, i: nat, x: T)
    requires i < |s|
    ensures ToFront(s[i := x], i, x) == ToFront(s, i, x)
  {
  }

  /** The map and the list hold the same elements, one per key. */
  ghost predicate Linked<K, V>(cache: map<K, Elem<K, V>>, l: seq<Elem<K, V>>) {
    && (forall i :: 0 <= i < |l| ==> l[i].key in cache && cache[l[i].key] == l[i])
    && (forall k :: k in cache ==> cache[k] in l && cache[k].key == k)
    && Distinct(l)
  }

  lemma {:induction false} DistinctCount<T>(s: seq<T>)
    requires Distinct(s)
    ensures |set x | x in s| == |s|
    decreases |s|
  {
    if s != [] {
      var n := |s| - 1;
      DistinctCount(s[..n]);
      assert (set x | x in s) == (set x | x in s[..n]) + {s[n]};
    }
  }

  lemma Sizes<K, V>(cache: map<K, Elem<K, V>>, l: seq<Elem<K, V>>)
    requires Linked(cache, l)
    ensures |cache| == |l|
  {
    var ks := seq(|l|, i requires 0 <= i < |l| => l[i].key);
    assert cache.Keys == set k | k in ks by {
      forall k | k in cache ensures k in ks {
        var i :| 0 <= i < |l| && l[i] == cache[k];
        assert ks[i] == k;
      }
    }
    DistinctCount(ks);
  }

  lemma DistinctIndices<K, V>(cache: map<K, Elem<K, V>>, l: seq<Elem<K, V>>, i: nat)
    requires Linked(cache, l) && i < |l|
    ensures forall k :: 0 <= k < |l| && k != i ==> l[k] != l[i]
  {
  }

  lemma MovedKeeps<T>(s: seq<T>, i: nat)
    requires i < |s|
    ensures var t := ToFront(s, i, s[i]);
            |t| == |s| && (forall x :: x in t <==> x in s) && (Distinct(s) ==> Distinct(t))
  {
    var t := ToFront(s, i, s[i]);
    assert forall j :: 0 <= j < |s| ==> s[j] == if j == i then t[0] else if j < i then t[j + 1] else t[j];
    assert forall j :: 0 <= j < |t| ==> t[j] == if j == 0 then s[i] else if j <= i then s[j - 1] else s[j];
  }

  lemma LinkedMove<K, V>(cache: map<K, Elem<K, V>>, l: seq<Elem<K, V>>, i: nat)
    requires Linked(cache, l) && i < |l|
    ensures Linked(cache, ToFront(l, i, l[i]))
  {
    MovedKeeps(l, i);
    var t := ToFront(l, i, l[i]);
    forall j | 0 <= j < |t| ensures t[j].key in cache && cache[t[j].key] == t[j] {
      assert t[j] in l;
    }
    hide Distinct, ToFront;
  }

  lemma LinkedEvict<K, V>(cache: map<K, Elem<K, V>>, l: seq<Elem<K, V>>)
    requires Linked(cache, l) && l != []
    ensures Linked(cache - {l[|l| - 1].key}, l[..|l| - 1])
  {
    var n := |l| - 1;
    var t, c := l[..n], cache - {l[n].key};
    forall j | 0 <= j < |t| ensures t[j].key in c && c[t[j].key] == t[j] {
      assert t[j] == l[j] && l[j] != l[n];
    }
    forall k | k in c ensures c[k] in t && c[k].key == k {
      var j :| 0 <= j < |l| && l[j] == cache[k];
      assert j != n;
      assert t[j] == c[k];
    }
  }

  lemma LinkedPush<K, V>(cache: map<K, Elem<K, V>>, l: seq<Elem<K, V>>, e: Elem<K, V>)
    requires Linked(cache, l) && e.key !in cache
    ensures Linked(cache[e.key := e], [e] + l)
  {
    var t, c := [e] + l, cache[e.key := e];
    forall j | 0 <= j < |t| ensures t[j].key in c && c[t[j].key] == t[j] {
      assert j > 0 ==> t[j] == l[j - 1];
    }
    forall k | k in c ensures c[k] in t && c[k].key == k {
      assert k != e.key ==> cache[k] in l;
    }
    assert forall j :: 0 <= j < |l| ==> l[j] != e;
  }

  class Cache<K(==), V> {
    const capacity: int
    const ttl: int
    var cache: map<K, Elem<K, V>>
    var lruList: seq<Elem<K, V>>   // front first
    var quarantine: map<K, int>
    var quarantineList: seq<K>

    constructor (capacity: int, ttl: int)
      ensures Valid() && Entries() == [] && this.capacity == capacity && this.ttl == ttl
      ensures quarantine == map[] && quarantineList == []
    {
      this.capacity, this.ttl, cache, lruList := capacity, ttl, map[], [];
      quarantine, quarantineList := map[], [];
    }

    ghost predicate Valid()
      reads this
    {
      Linked(cache, lruList)
    }

    ghost function Entries(): (es: seq<Entry<K, V>>)
      reads this, lruList
      ensures |es| == |lruList|
      ensures forall i :: 0 <= i < |lruList| ==> es[i] == Entry(lruList[i].key, lruList[i].value, lruList[i].expiry)
    {
      seq(|lruList|, i requires 0 <= i < |lruList| reads this, lruList =>
        Entry(lruList[i].key, lruList[i].value, lruList[i].expiry))
    }

    /** Where the element of a key sits. */
    lemma Find(key: K) returns (i: nat)
      requires Valid() && key in cache
      ensures i < |lruList| && lruList[i] == cache[key] && IndexOf(Keys(Entries()), key) == i
    {
      i := IndexOf(Keys(Entries()), key);
      var j :| 0 <= j < |lruList| && lruList[j] == cache[key];
      assert Keys(Entries())[j] == key;
      assert i < |lruList|;
    }

    lemma Missing(key: K)
      requires Valid() && key !in cache
      ensures IndexOf(Keys(Entries()), key) == |lruList|
    {
    }

    method Position(elem: Elem<K, V>, ghost i: nat) returns (j: nat)
      requires Valid() && i < |lruList| && lruList[i] == elem
      ensures j == i
    {
      DistinctIndices(cache, lruList, i);
      hide Linked;
      j := 0;
      while lruList[j] != elem
        invariant 0 <= j <= i
        decreases i - j
      {
        j := j + 1;
      }
    }

    method MoveToFront(elem: Elem<K, V>, ghost i: nat)
      requires Valid() && i < |lruList| && lruList[i] == elem
      modifies this`lruList
      ensures Valid() && lruList == ToFront(old(lruList), i, elem)
      ensures Entries() == ToFront(old(Entries()), i, old(Entries())[i])
    {
      hide Linked, ToFront;
      LinkedMove(cache, lruList, i);
      var j := Position(elem, i);
      ghost var es := Entries();
      lruList := ToFront(lruList, j, elem);
      assert forall k :: 0 <= k < |lruList| ==> Entries()[k] == ToFront(es, i, es[i])[k];
    }

    /** An update in place. */
    method SetValue(elem: Elem<K, V>, value: V, ghost i: nat)
      requires Valid() && i < |lruList| && lruList[i] == elem
      modifies elem`value
      ensures Valid() && Entries() == old(Entries())[i := old(Entries())[i].(value := value)]
    {
      assert forall k :: 0 <= k < |lruList| && k != i ==> lruList[k] != elem by {
        DistinctIndices(cache, lruList, i);
      }
      hide Linked;
      elem.value := value;
    }

    /** evict: the least recently used element leaves both structures. */
    method EvictOne()
      requires Valid()
      modifies this`lruList, this`cache
      ensures Valid() && lruList == if old(lruList) == [] then [] else old(lruList)[..|old(lruList)| - 1]
      ensures Entries() == if old(Entries()) == [] then [] else old(Entries())[..|old(Entries())| - 1]
      ensures forall k :: k in cache ==> k in old(cache)
    {
      if |lruList| > 0 {
        var n := |lruList| - 1;
        var last := lruList[n];
        LinkedEvict(cache, lruList);
        hide Linked;
        lruList, cache := lruList[..n], cache - {last.key};
      }
    }

    method PushFront(key: K, value: V, expiry: int)
      requires Valid() && key !in cache
      modifies this`lruList, this`cache
      ensures Valid() && forall e :: e in lruList ==> e in old(lruList) || fresh(e)
      ensures Entries() == [Entry(key, value, expiry)] + old(Entries())
    {
      var elem := new Elem(key, value, expiry);
      LinkedPush(cache, lruList, elem);
      hide Linked;
      lruList, cache := [elem] + lruList, cache[key := elem];
    }

    /** Put on a key that is there: the value changes, the expiry does not. */
    method Overwrite(key: K, value: V)
      requires Valid() && key in cache
      modifies this`lruList, lruList`value
      ensures Valid() && IndexOf(Keys(old(Entries())), key) < |old(Entries())|
      ensures forall e :: e in lruList ==> e in old(lruList)
      ensures var i := IndexOf(Keys(old(Entries())), key);
              Entries() == ToFront(old(Entries()), i, old(Entries())[i].(value := value))
    {
      var elem := cache[key];
      ghost var before := Entries();
      ghost var i := Find(key);
      hide Linked, IndexOf, ToFront, Keys;
      MovedKeeps(lruList, i);
      SetValue(elem, value, i);
      MoveToFront(elem, i);
      SetThenMove(before, i, before[i].(value := value));
    }

    /** Put on a new key: make room, then push. */
    method Insert(key: K, value: V, expiry: int)
      requires Valid() && key !in cache
      modifies this`lruList, this`cache
      ensures Valid() && Entries() == [Entry(key, value, expiry)] + Evicted(old(Entries()), capacity)
      ensures forall e :: e in lruList ==> e in old(lruList) || fresh(e)
    {
      ghost var before := Entries();
      Sizes(cache, lruList);
      hide Linked;
      if |cache| >= capacity {
        EvictOne();
      }
      assert Entries() == Evicted(before, capacity);
      PushFront(key, value, expiry);
    }

    method Put(key: K, value: V, now: int)
      requires Valid()
      modifies this`lruList, this`cache, lruList`value
      ensures Valid() && Entries() == PutSpec(old(Entries()), capacity, key, value, now + ttl)
      ensures forall e :: e in lruList ==> e in old(lruList) || fresh(e)
    {
      hide Linked, IndexOf, ToFront, Keys, Evicted;
      if key in cache {
        Overwrite(key, value);
      } else {
        Missing(key);
        Insert(key, value, now + ttl);
      }
    }

    /** quarantineItem: the entry is flagged and its key noted, nothing leaves the cache. */
    method QuarantineItem(elem: Elem<K, V>, now: int)
      requires Valid() && elem in lruList
      modifies this`quarantine, this`quarantineList, elem`quarantined
      ensures Valid() && Entries() == old(Entries()) && elem.quarantined
      ensures quarantine == old(quarantine)[elem.key := now] && quarantineList == [elem.key] + old(quarantineList)
    {
      elem.quarantined := true;
      quarantine := quarantine[elem.key := now];
      quarantineList := [elem.key] + quarantineList;
    }

    /** Get of an element that is there. */
    method GetFound(elem: Elem<K, V>, now: int, ghost i: nat) returns (value: Option<V>)
      requires Valid() && i < |lruList| && lruList[i] == elem
      modifies this`lruList, this`quarantine, this`quarantineList, elem`quarantined
      ensures Valid()
      ensures var hit := now <= elem.expiry;
              && Entries() == (if hit then ToFront(old(Entries()), i, old(Entries())[i]) else old(Entries()))
              && value == if hit then Some(old(elem.value)) else None
      ensures var first := now > elem.expiry && !old(elem.quarantined);
              && quarantine == (if first then old(quarantine)[elem.key := now] else old(quarantine))
              && quarantineList == (if first then [elem.key] + old(quarantineList) else old(quarantineList))
    {
      hide Linked, ToFront;
      if now > elem.expiry {
        if !elem.quarantined {
          QuarantineItem(elem, now);
        }
        return None;
      }
      value := Some(elem.value);
      MoveToFront(elem, i);
    }

    /** A live entry moves to the front; an expired one stays where it is and is quarantined the
        first time it is asked for. */
    method Get(key: K, now: int) returns (value: Option<V>)
      requires Valid()
      modifies this`lruList, this`quarantine, this`quarantineList, lruList`quarantined
      ensures Valid() && Entries() == GetSpec(old(Entries()), key, now) && value == Hit(old(Entries()), key, now)
      ensures var first := key in old(cache) && now > old(cache)[key].expiry && !old(cache[key].quarantined);
              && quarantine == (if first then old(quarantine)[key := now] else old(quarantine))
              && quarantineList == (if first then [key] + old(quarantineList) else old(quarantineList))
    {
      if key !in cache {
        Missing(key);
        return None;
      }
      ghost var i := Find(key);
      assert cache[key].key == key;
      hide Linked, IndexOf, ToFront, Keys;
      value := GetFound(cache[key], now, i);
    }
  }

  // ---- the history a cache stands for ----

  datatype Op<K, V> = Put(key: K, value: V, now: int) | Get(key: K, now: int)

  /** All keys ever used, most recent first; the value last put for each; and when its current
      stay in the cache began. Nothing is ever dropped here. */
  datatype History<K, V> = History(recent: seq<K>, latest: map<K, V>, born: map<K, int>)

  /** How many keys a cache of this capacity keeps: a capacity below one acts as one. */
  function Room(capacity: int): int {
    if capacity < 1 then 1 else capacity
  }

  function Kept<K>(recent: seq<K>, capacity: int): seq<K> {
    if |recent| <= Room(capacity) then recent else recent[..Room(capacity)]
  }

  function Use<K(==)>(recent: seq<K>, key: K): seq<K> {
    var i := IndexOf(recent, key);
    if i < |recent| then ToFront(recent, i, key) else [key] + recent
  }

  /** What a Get must answer: the last value put, if the key is among the most recently used ones
      and its stay has not outlived the time to live. */
  function Answer<K(==), V>(h: History<K, V>, capacity: int, ttl: int, key: K, now: int): Option<V> {
    if key in Kept(h.recent, capacity) && key in h.latest && key in h.born && now <= h.born[key] + ttl
    then Some(h.latest[key]) else None
  }

  function Advance<K(==), V>(h: History<K, V>, capacity: int, ttl: int, op: Op<K, V>): History<K, V> {
    match op
    case Put(key, value, now) =>
      History(Use(h.recent, key), h.latest[key := value],
              if key in Kept(h.recent, capacity) then h.born else h.born[key := now])
    case Get(key, now) =>
      if Answer(h, capacity, ttl, key, now).Some? then h.(recent := Use(h.recent, key)) else h
  }

  function CacheStep<K(==), V>(l: seq<Entry<K, V>>, capacity: int, ttl: int, op: Op<K, V>): seq<Entry<K, V>> {
    match op
    case Put(key, value, now) => PutSpec(l, capacity, key, value, now + ttl)
    case Get(key, now) => GetSpec(l, key, now)
  }

  ghost predicate EntryOk<K, V>(e: Entry<K, V>, h: History<K, V>, ttl: int) {
    e.key in h.latest && e.key in h.born && e.value == h.latest[e.key] && e.expiry == h.born[e.key] + ttl
  }

  ghost predicate Refines<K, V>(l: seq<Entry<K, V>>, h: History<K, V>, capacity: int, ttl: int) {
    && Distinct(h.recent) && Keys(l) == Kept(h.recent, capacity)
    && forall i :: 0 <= i < |l| ==> EntryOk(l[i], h, ttl)
  }

  lemma {:induction false} IndexOfAt<T>(s: seq<T>, i: nat, x: T)
    requires i < |s| && s[i] == x && x !in s[..i]
    ensures IndexOf(s, x) == i
    decreases |s|
  {
    if i > 0 {
      assert s[0] in s[..i];
      assert s[1..][..i - 1] == s[1..i];
      assert forall y :: y in s[1..i] ==> y in s[..i];
      IndexOfAt(s[1..], i - 1, x);
    }
  }

  lemma IndexOfAbsent<T>(s: seq<T>, x: T)
    ensures IndexOf(s, x) < |s| <==> x in s
  {
    assert IndexOf(s, x) == |s| ==> s[..|s|] == s;
  }

  /** Within the kept keys, a use moves the same key in the history and in its kept part. */
  lemma UseKept<K>(recent: seq<K>, capacity: int, key: K)
    requires Distinct(recent) && key in Kept(recent, capacity)
    ensures var i := IndexOf(Kept(recent, capacity), key);
            i < |Kept(recent, capacity)| && Kept(Use(recent, key), capacity) == ToFront(Kept(recent, capacity), i, key)
            && Distinct(Use(recent, key))
  {
    var kept := Kept(recent, capacity);
    var i := IndexOf(kept, key);
    IndexOfAbsent(kept, key);
    assert kept[..i] == recent[..i];
    IndexOfAt(recent, i, key);
    MovedKeeps(recent, i);
    hide ToFront, IndexOf, Distinct;
    var m := |kept|;
    assert ToFront(recent, i, key)[..m] == ToFront(kept, i, key);
  }

  /** A use of any other key pushes it in front and drops the oldest kept one if there is no room. */
  lemma UseNew<K>(recent: seq<K>, capacity: int, key: K)
    requires Distinct(recent) && key !in Kept(recent, capacity)
    ensures Kept(Use(recent, key), capacity) == [key] + Evicted(Kept(recent, capacity), capacity)
    ensures Distinct(Use(recent, key))
  {
    var kept := Kept(recent, capacity);
    var j := IndexOf(recent, key);
    IndexOfAbsent(recent, key);
    assert forall i :: 0 <= i < |kept| ==> kept[i] == recent[i] && recent[i] in kept;
    if j < |recent| {
      MovedKeeps(recent, j);
    }
    hide ToFront, IndexOf, Distinct;
    var used, want := Kept(Use(recent, key), capacity), [key] + Evicted(kept, capacity);
    assert |used| == |want|;
    forall i | 0 <= i < |used| ensures used[i] == want[i] {
    }
  }

  lemma KeysToFront<K, V>(l: seq<Entry<K, V>>, i: nat, e: Entry<K, V>)
    requires i < |l| && e.key == l[i].key
    ensures Keys(ToFront(l, i, e)) == ToFront(Keys(l), i, e.key)
  {
  }

  lemma ToFrontAll<K, V>(l: seq<Entry<K, V>>, i: nat, e: Entry<K, V>, h: History<K, V>, ttl: int)
    requires i < |l| && EntryOk(e, h, ttl)
    requires forall j :: 0 <= j < |l| && j != i ==> EntryOk(l[j], h, ttl)
    ensures forall j :: 0 <= j < |l| ==> EntryOk(ToFront(l, i, e)[j], h, ttl)
  {
    var t := ToFront(l, i, e);
    forall j | 0 <= j < |l| ensures EntryOk(t[j], h, ttl) {
      assert t[j] == if j == 0 then e else if j <= i then l[j - 1] else l[j];
    }
  }

  lemma KeysDiffer<K, V>(l: seq<Entry<K, V>>, recent: seq<K>, capacity: int, i: nat)
    requires Distinct(recent) && Keys(l) == Kept(recent, capacity) && i < |l|
    ensures forall j :: 0 <= j < |l| && j != i ==> l[j].key != l[i].key
  {
    assert forall j :: 0 <= j < |l| ==> l[j].key == Keys(l)[j] == recent[j];
  }

  lemma PutOld<K, V>(l: seq<Entry<K, V>>, h: History<K, V>, capacity: int, ttl: int, key: K, value: V, now: int)
    requires Refines(l, h, capacity, ttl) && key in Keys(l)
    ensures Refines(PutSpec(l, capacity, key, value, now + ttl),
                    Advance(h, capacity, ttl, Op.Put(key, value, now)), capacity, ttl)
  {
    var h' := Advance(h, capacity, ttl, Op.Put(key, value, now));
    var i := IndexOf(Keys(l), key);
    IndexOfAbsent(Keys(l), key);
    var e := l[i].(value := value);
    UseKept(h.recent, capacity, key);
    KeysToFront(l, i, e);
    KeysDiffer(l, h.recent, capacity, i);
    hide Kept, Use, IndexOf, ToFront, Distinct;
    ToFrontAll(l, i, e, h', ttl);
  }

  lemma KeysPushed<K, V>(l: seq<Entry<K, V>>, capacity: int, e: Entry<K, V>)
    ensures Keys([e] + Evicted(l, capacity)) == [e.key] + Evicted(Keys(l), capacity)
  {
  }

  lemma PutNew<K, V>(l: seq<Entry<K, V>>, h: History<K, V>, capacity: int, ttl: int, key: K, value: V, now: int)
    requires Refines(l, h, capacity, ttl) && key !in Keys(l)
    ensures Refines(PutSpec(l, capacity, key, value, now + ttl),
                    Advance(h, capacity, ttl, Op.Put(key, value, now)), capacity, ttl)
  {
    IndexOfAbsent(Keys(l), key);
    UseNew(h.recent, capacity, key);
    KeysPushed(l, capacity, Entry(key, value, now + ttl));
    hide Kept, Use, IndexOf, Distinct;
    assert forall j :: 0 <= j < |l| ==> Keys(l)[j] == l[j].key && l[j].key != key;
    hide Keys;
  }

  lemma PutRefines<K, V>(l: seq<Entry<K, V>>, h: History<K, V>, capacity: int, ttl: int, key: K, value: V, now: int)
    requires Refines(l, h, capacity, ttl)
    ensures Refines(PutSpec(l, capacity, key, value, now + ttl),
                    Advance(h, capacity, ttl, Op.Put(key, value, now)), capacity, ttl)
  {
    hide Refines, PutSpec, Advance;
    if key in Keys(l) {
      PutOld(l, h, capacity, ttl, key, value, now);
    } else {
      PutNew(l, h, capacity, ttl, key, value, now);
    }
  }

  lemma AnswerIsHit<K, V>(l: seq<Entry<K, V>>, h: History<K, V>, capacity: int, ttl: int, key: K, now: int)
    requires Refines(l, h, capacity, ttl)
    ensures Hit(l, key, now) == Answer(h, capacity, ttl, key, now)
  {
    var i := IndexOf(Keys(l), key);
    IndexOfAbsent(Keys(l), key);
    if i < |l| {
      assert EntryOk(l[i], h, ttl);
    }
  }

  lemma GetRefines<K, V>(l: seq<Entry<K, V>>, h: History<K, V>, capacity: int, ttl: int, key: K, now: int)
    requires Refines(l, h, capacity, ttl)
    ensures Refines(GetSpec(l, key, now), Advance(h, capacity, ttl, Op.Get(key, now)), capacity, ttl)
  {
    AnswerIsHit(l, h, capacity, ttl, key, now);
    if Hit(l, key, now).Some? {
      var i := IndexOf(Keys(l), key);
      UseKept(h.recent, capacity, key);
      KeysToFront(l, i, l[i]);
      ToFrontAll(l, i, l[i], Advance(h, capacity, ttl, Op.Get(key, now)), ttl);
    }
  }

  function CacheAfter<K(==), V>(l: seq<Entry<K, V>>, capacity: int, ttl: int, ops: seq<Op<K, V>>): seq<Entry<K, V>> {
    if ops == [] then l else CacheStep(CacheAfter(l, capacity, ttl, ops[..|ops| - 1]), capacity, ttl, ops[|ops| - 1])
  }

  function HistoryAfter<K(==), V>(h: History<K, V>, capacity: int, ttl: int, ops: seq<Op<K, V>>): History<K, V> {
    if ops == [] then h else Advance(HistoryAfter(h, capacity, ttl, ops[..|ops| - 1]), capacity, ttl, ops[|ops| - 1])
  }

  lemma NothingRefines<K, V>(capacity: int, ttl: int)
    ensures Refines<K, V>([], History([], map[], map[]), capacity, ttl)
  {
  }

  lemma StepRefines<K, V>(l: seq<Entry<K, V>>, h: History<K, V>, capacity: int, ttl: int, op: Op<K, V>)
    requires Refines(l, h, capacity, ttl)
    ensures Refines(CacheStep(l, capacity, ttl, op), Advance(h, capacity, ttl, op), capacity, ttl)
  {
    hide Refines, PutSpec, GetSpec, Advance;
    match op
    case Put(key, value, now) => { PutRefines(l, h, capacity, ttl, key, value, now); }
    case Get(key, now) => { GetRefines(l, h, capacity, ttl, key, now); }
  }

  lemma {:induction false} RunRefines<K, V>(l: seq<Entry<K, V>>, h: History<K, V>, capacity: int, ttl: int,
                                            ops: seq<Op<K, V>>)
    requires Refines(l, h, capacity, ttl)
    ensures Refines(CacheAfter(l, capacity, ttl, ops), HistoryAfter(h, capacity, ttl, ops), capacity, ttl)
    decreases |ops|
  {
    hide Refines, CacheStep, Advance;
    if ops != [] {
      var init := ops[..|ops| - 1];
      RunRefines(l, h, capacity, ttl, init);
      StepRefines(CacheAfter(l, capacity, ttl, init), HistoryAfter(h, capacity, ttl, init), capacity, ttl,
                  ops[|ops| - 1]);
    }
  }

  /** After every run of puts and gets the cache holds the most recently used keys in recency
      order, and a Get answers what the history says it must. */
  lemma CacheIsRecentHistory<K, V>(capacity: int, ttl: int, ops: seq<Op<K, V>>, key: K, now: int)
    ensures var l := CacheAfter([], capacity, ttl, ops);
            var h := HistoryAfter(History([], map[], map[]), capacity, ttl, ops);
            && Keys(l) == Kept(h.recent, capacity) && Distinct(Keys(l))
            && Hit(l, key, now) == Answer(h, capacity, ttl, key, now)
  {
    NothingRefines<K, V>(capacity, ttl);
    RunRefines<K, V>([], History([], map[], map[]), capacity, ttl, ops);
    AnswerIsHit(CacheAfter([], capacity, ttl, ops), HistoryAfter(History([], map[], map[]), capacity, ttl, ops),
                capacity, ttl, key, now);
    hide CacheAfter, HistoryAfter, Hit, Answer;
  }

  /** A Put followed by a Get of the same key finds the value exactly if the entry's stay, begun by
      this Put or, if the key was there already, by an earlier one, is not over. */
  lemma PutThenGetIff<K, V>(l: seq<Entry<K, V>>, capacity: int, ttl: int, key: K, value: V, at: int, now: int)
    ensures var i := IndexOf(Keys(l), key);
            var r := Hit(PutSpec(l, capacity, key, value, at + ttl), key, now);
            && (r.Some? <==> now <= if i < |l| then l[i].expiry else at + ttl)
            && (r.Some? ==> r.value == value)
  {
    var l' := PutSpec(l, capacity, key, value, at + ttl);
    assert Keys(l')[0] == key;
    IndexOfAt(Keys(l'), 0, key);
  }
}
