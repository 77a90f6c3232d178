/** container/heap over a sequence: sift-up, sift-down, Init, Push, Pop and Fix as functions, with
    what they promise. higher(a, b) means a is popped before b. */
module HeapSpec {
  import opened Base

  ghost predicate StrictWeak<T(!new)>(higher: (T, T) -> bool) {
    && (forall a, b :: higher(a, b) ==> !higher(b, a))
    && (forall a, b, c :: !higher(a, b) && !higher(b, c) ==> !higher(a, c))
  }

  lemma NotHigher<T(!new)>(higher: (T, T) -> bool, a: T, b: T, c: T)
    requires StrictWeak(higher) && !higher(a, b) && !higher(b, c)
    ensures !higher(a, c)
  {
  }

  lemma Asymmetric<T(!new)>(higher: (T, T) -> bool, a: T, b: T)
    requires StrictWeak(higher) && higher(a, b)
    ensures !higher(b, a)
  {
  }

  function Parent(i: nat): nat
    requires i > 0
  {
    (i - 1) / 2
  }

  lemma SwapIsPermutation<T>(s: seq<T>, i: nat, j: nat)
    requires i < |s| && j < |s|
    ensures multiset(s[i := s[j]][j := s[i]]) == multiset(s)
  {
  }

  function Swap<T>(s: seq<T>, i: nat, j: nat): (r: seq<T>)
    requires i < |s| && j < |s|
    ensures |r| == |s|
    ensures multiset(r) == multiset(s)
  {
    SwapIsPermutation(s, i, j);
    s[i := s[j]][j := s[i]]
  }

  /** up(h, j). */
  function Up<T>(higher: (T, T) -> bool, s: seq<T>, j: nat): (r: seq<T>)
    requires j < |s|
    ensures |r| == |s| && multiset(r) == multiset(s)
    decreases j
  {
    if j == 0 || !higher(s[j], s[Parent(j)]) then s
    else Up(higher, Swap(s, Parent(j), j), Parent(j))
  }

  /** The child of i that down compares with: the higher of the two, the left one on a tie. */
  function Child<T>(higher: (T, T) -> bool, s: seq<T>, i: nat, n: nat): (j: nat)
    requires n <= |s| && 2 * i + 1 < n
    ensures i < j < n && Parent(j) == i
  {
    if 2 * i + 2 < n && higher(s[2 * i + 2], s[2 * i + 1]) then 2 * i + 2 else 2 * i + 1
  }

  predicate Sinks<T>(higher: (T, T) -> bool, s: seq<T>, i: nat, n: nat)
    requires i < n <= |s|
  {
    2 * i + 1 < n && higher(s[Child(higher, s, i, n)], s[i])
  }

  /** down(h, i, n). */
  function Down<T>(higher: (T, T) -> bool, s: seq<T>, i: nat, n: nat): (r: seq<T>)
    requires i < n <= |s|
    ensures |r| == |s| && multiset(r) == multiset(s)
    ensures r[n..] == s[n..]
    decreases n - i
  {
    if !Sinks(higher, s, i, n) then s
    else
      var j := Child(higher, s, i, n);
      var r := Down(higher, Swap(s, i, j), j, n);
      assert Swap(s, i, j)[n..] == s[n..];
      r
  }

  lemma UpStep<T>(higher: (T, T) -> bool, s: seq<T>, j: nat)
    requires j < |s|
    ensures Up(higher, s, j) ==
            if j > 0 && higher(s[j], s[Parent(j)]) then Up(higher, Swap(s, Parent(j), j), Parent(j)) else s
  {
  }

  lemma DownStep<T>(higher: (T, T) -> bool, s: seq<T>, i: nat, n: nat)
    requires i < n <= |s|
    ensures Down(higher, s, i, n) ==
            if Sinks(higher, s, i, n) then Down(higher, Swap(s, i, Child(higher, s, i, n)), Child(higher, s, i, n), n)
            else s
  {
  }

  /** Init after its loop has come down to position k. */
  function InitFrom<T>(higher: (T, T) -> bool, s: seq<T>, k: nat): (r: seq<T>)
    requires k <= |s|
    ensures |r| == |s| && multiset(r) == multiset(s)
    decreases k
  {
    if k == 0 then s else InitFrom(higher, Down(higher, s, k - 1, |s|), k - 1)
  }

  function Init<T>(higher: (T, T) -> bool, s: seq<T>): seq<T> {
    InitFrom(higher, s, |s| / 2)
  }

  function Push<T>(higher: (T, T) -> bool, s: seq<T>, x: T): (r: seq<T>) {
    Up(higher, s + [x], |s|)
  }

  /** What Pop leaves behind; it returns s[0]. */
  function PopRest<T>(higher: (T, T) -> bool, s: seq<T>): (r: seq<T>)
    requires s != []
    ensures |r| == |s| - 1
  {
    var n := |s| - 1;
    if n == 0 then [] else Down(higher, Swap(s, 0, n), 0, n)[..n]
  }

  /** Fix(h, i): sift down, and up only if that moved nothing. */
  function Fix<T>(higher: (T, T) -> bool, s: seq<T>, i: nat): (r: seq<T>)
    requires i < |s|
    ensures |r| == |s| && multiset(r) == multiset(s)
  {
    if Sinks(higher, s, i, |s|) then Down(higher, s, i, |s|) else Up(higher, s, i)
  }

  lemma InitStep<T>(higher: (T, T) -> bool, s: seq<T>, k: nat)
    requires k <= |s|
    ensures InitFrom(higher, s, k) == if k == 0 then s else InitFrom(higher, Down(higher, s, k - 1, |s|), k - 1)
  {
  }

  lemma PopRestIs<T>(higher: (T, T) -> bool, s: seq<T>)
    requires s != []
    ensures var n := |s| - 1;
            PopRest(higher, s) == if n == 0 then [] else Down(higher, Swap(s, 0, n), 0, n)[..n]
  {
  }

  lemma FixIs<T>(higher: (T, T) -> bool, s: seq<T>, i: nat)
    requires i < |s|
    ensures Fix(higher, s, i) == if Sinks(higher, s, i, |s|) then Down(higher, s, i, |s|) else Up(higher, s, i)
  {
  }

  // ---- the heap order ----

  predicate EdgeOk<T>(higher: (T, T) -> bool, s: seq<T>, c: nat)
    requires 0 < c < |s|
  {
    !higher(s[c], s[Parent(c)])
  }

  /** Every edge between positions lo..n is in order. */
  predicate HeapFrom<T>(higher: (T, T) -> bool, s: seq<T>, lo: nat, n: nat)
    requires n <= |s|
  {
    forall c :: 0 < c < n && Parent(c) >= lo ==> EdgeOk(higher, s, c)
  }

  predicate IsHeap<T>(higher: (T, T) -> bool, s: seq<T>) {
    HeapFrom(higher, s, 0, |s|)
  }

  /** Only the edges below i may be wrong; what is below i fits under i's parent. */
  predicate HoleBelow<T>(higher: (T, T) -> bool, s: seq<T>, lo: nat, i: nat, n: nat)
    requires lo <= i < n <= |s|
  {
    && (forall c :: 0 < c < n && Parent(c) >= lo && Parent(c) != i ==> EdgeOk(higher, s, c))
    && (i > 0 && Parent(i) >= lo ==>
          forall c :: 0 < c < n && Parent(c) == i ==> !higher(s[c], s[Parent(i)]))
  }

  /** Only the edge above j may be wrong; what is below j fits under j's parent. */
  predicate HoleAbove<T>(higher: (T, T) -> bool, s: seq<T>, j: nat)
    requires j < |s|
  {
    && (forall c :: 0 < c < |s| && c != j ==> EdgeOk(higher, s, c))
    && (j > 0 ==> forall c :: 0 < c < |s| && Parent(c) == j ==> !higher(s[c], s[Parent(j)]))
  }

  /** No child of i is higher than the one down picks. */
  lemma HigherChild<T(!new)>(higher: (T, T) -> bool, s: seq<T>, i: nat, n: nat)
    requires StrictWeak(higher) && n <= |s| && 2 * i + 1 < n
    ensures forall c :: 0 < c < n && Parent(c) == i ==> !higher(s[c], s[Child(higher, s, i, n)])
  {
    var j := Child(higher, s, i, n);
    forall c | 0 < c < n && Parent(c) == i ensures !higher(s[c], s[j]) {
      assert c == 2 * i + 1 || c == 2 * i + 2;
      if higher(s[c], s[j]) {
        Asymmetric(higher, s[c], s[j]);
      }
    }
  }

  lemma SinkOnce<T(!new)>(higher: (T, T) -> bool, s: seq<T>, lo: nat, i: nat, n: nat)
    requires StrictWeak(higher) && lo <= i < n <= |s|
    requires HoleBelow(higher, s, lo, i, n) && Sinks(higher, s, i, n)
    ensures HoleBelow(higher, Swap(s, i, Child(higher, s, i, n)), lo, Child(higher, s, i, n), n)
  {
    var j := Child(higher, s, i, n);
    var t := Swap(s, i, j);
    Asymmetric(higher, s[j], s[i]);
    HigherChild(higher, s, i, n);
    hide StrictWeak;
    forall c | 0 < c < n && Parent(c) >= lo && Parent(c) != j ensures EdgeOk(higher, t, c) {
      if Parent(c) == i {
        assert c == 2 * i + 1 || c == 2 * i + 2;
      } else if c == i {
        assert t[c] == s[j] && t[Parent(c)] == s[Parent(c)];
      } else {
        assert EdgeOk(higher, s, c);
      }
    }
    forall c | 0 < c < n && Parent(c) == j ensures !higher(t[c], t[Parent(j)]) {
      assert EdgeOk(higher, s, c);
    }
  }

  lemma NoSinkNoEdge<T(!new)>(higher: (T, T) -> bool, s: seq<T>, i: nat, n: nat)
    requires StrictWeak(higher) && i < n <= |s| && !Sinks(higher, s, i, n)
    ensures forall c :: 0 < c < n && Parent(c) == i ==> EdgeOk(higher, s, c)
  {
    if 2 * i + 1 < n {
      HigherChild(higher, s, i, n);
      var j := Child(higher, s, i, n);
      forall c | 0 < c < n && Parent(c) == i ensures EdgeOk(higher, s, c) {
        NotHigher(higher, s[c], s[j], s[i]);
      }
    }
  }

  /** Sifting down repairs the edges below i. */
  lemma {:induction false} DownRepairs<T(!new)>(higher: (T, T) -> bool, s: seq<T>, lo: nat, i: nat, n: nat)
    requires StrictWeak(higher) && lo <= i < n <= |s|
    requires HoleBelow(higher, s, lo, i, n)
    ensures HeapFrom(higher, Down(higher, s, i, n), lo, n)
    decreases n - i
  {
    hide StrictWeak;
    if Sinks(higher, s, i, n) {
      SinkOnce(higher, s, lo, i, n);
      var j := Child(higher, s, i, n);
      DownRepairs(higher, Swap(s, i, j), lo, j, n);
    } else {
      NoSinkNoEdge(higher, s, i, n);
    }
  }

  lemma RiseOnce<T(!new)>(higher: (T, T) -> bool, s: seq<T>, j: nat)
    requires StrictWeak(higher) && 0 < j < |s|
    requires HoleAbove(higher, s, j) && higher(s[j], s[Parent(j)])
    ensures HoleAbove(higher, Swap(s, Parent(j), j), Parent(j))
  {
    var p := Parent(j);
    var t := Swap(s, p, j);
    Asymmetric(higher, s[j], s[p]);
    forall c | 0 < c < |s| && c != p ensures EdgeOk(higher, t, c) {
      if c != j && Parent(c) != j {
        assert EdgeOk(higher, s, c);
        if Parent(c) == p {
          NotHigher(higher, s[c], s[p], s[j]);
        }
      }
    }
    if p > 0 {
      assert EdgeOk(higher, s, p);
      forall c | 0 < c < |s| && Parent(c) == p ensures !higher(t[c], t[Parent(p)]) {
        if c != j {
          assert EdgeOk(higher, s, c);
          NotHigher(higher, s[c], s[p], s[Parent(p)]);
        }
      }
    }
  }

  /** Sifting up repairs the edge above j. */
  lemma {:induction false} UpRepairs<T(!new)>(higher: (T, T) -> bool, s: seq<T>, j: nat)
    requires StrictWeak(higher) && j < |s|
    requires HoleAbove(higher, s, j)
    ensures IsHeap(higher, Up(higher, s, j))
    decreases j
  {
    hide StrictWeak;
    if j > 0 && higher(s[j], s[Parent(j)]) {
      RiseOnce(higher, s, j);
      UpRepairs(higher, Swap(s, Parent(j), j), Parent(j));
    }
  }

  /** Nothing in a heap is higher than its root. */
  lemma {:induction false} RootIsHighest<T(!new)>(higher: (T, T) -> bool, s: seq<T>, i: nat)
    requires StrictWeak(higher) && IsHeap(higher, s) && i < |s|
    ensures !higher(s[i], s[0])
    decreases i
  {
    if i > 0 {
      assert EdgeOk(higher, s, i);
      RootIsHighest(higher, s, Parent(i));
      NotHigher(higher, s[i], s[Parent(i)], s[0]);
    }
  }

  // ---- the public operations ----

  lemma PushKeepsHeap<T(!new)>(higher: (T, T) -> bool, s: seq<T>, x: T)
    requires StrictWeak(higher) && IsHeap(higher, s)
    ensures IsHeap(higher, Push(higher, s, x))
    ensures multiset(Push(higher, s, x)) == multiset(s) + multiset{x}
  {
    var t := s + [x];
    forall c | 0 < c < |t| && c != |s| ensures EdgeOk(higher, t, c) {
      assert EdgeOk(higher, s, c);
    }
    UpRepairs(higher, t, |s|);
  }

  lemma TakeDrop<T>(s: seq<T>, n: nat)
    requires n <= |s|
    ensures multiset(s) == multiset(s[..n]) + multiset(s[n..])
  {
    assert s == s[..n] + s[n..];
  }

  lemma RootRemoved<T(!new)>(higher: (T, T) -> bool, s: seq<T>)
    requires StrictWeak(higher) && IsHeap(higher, s) && |s| > 1
    ensures HoleBelow(higher, Swap(s, 0, |s| - 1), 0, 0, |s| - 1)
  {
    var n := |s| - 1;
    var t := Swap(s, 0, n);
    forall c | 0 < c < n && Parent(c) != 0 ensures EdgeOk(higher, t, c) {
      assert EdgeOk(higher, s, c);
    }
  }

  lemma HeapPrefix<T>(higher: (T, T) -> bool, d: seq<T>, n: nat)
    requires n <= |d| && HeapFrom(higher, d, 0, n)
    ensures IsHeap(higher, d[..n])
  {
    forall c | 0 < c < n ensures EdgeOk(higher, d[..n], c) {
      assert EdgeOk(higher, d, c);
    }
  }

  lemma PopSifts<T(!new)>(higher: (T, T) -> bool, s: seq<T>)
    requires StrictWeak(higher) && IsHeap(higher, s) && |s| > 1
    ensures IsHeap(higher, PopRest(higher, s))
    ensures multiset(s) == multiset{s[0]} + multiset(PopRest(higher, s))
  {
    var n := |s| - 1;
    var t := Swap(s, 0, n);
    assert t[n..] == [s[0]];
    RootRemoved(higher, s);
    hide StrictWeak, HoleBelow, Down, Swap, IsHeap, HeapFrom;
    DownRepairs(higher, t, 0, 0, n);
    var d := Down(higher, t, 0, n);
    HeapPrefix(higher, d, n);
    TakeDrop(d, n);
    assert d[n..] == [s[0]];
  }

  /** Pop takes a maximal element and leaves a heap of the others. */
  lemma PopTakesHighest<T(!new)>(higher: (T, T) -> bool, s: seq<T>)
    requires StrictWeak(higher) && IsHeap(higher, s) && s != []
    ensures IsHeap(higher, PopRest(higher, s))
    ensures multiset(s) == multiset{s[0]} + multiset(PopRest(higher, s))
    ensures forall i :: 0 <= i < |s| ==> !higher(s[i], s[0])
  {
    forall i | 0 <= i < |s| ensures !higher(s[i], s[0]) {
      RootIsHighest(higher, s, i);
    }
    if |s| == 1 {
      assert s == [s[0]];
    } else {
      PopSifts(higher, s);
    }
  }

  /** A value changed in place at position i, the rest a heap. */
  predicate HeapExcept<T>(higher: (T, T) -> bool, s: seq<T>, i: nat)
    requires i < |s|
  {
    && (forall c :: 0 < c < |s| && c != i && Parent(c) != i ==> EdgeOk(higher, s, c))
    && (i > 0 ==> forall c :: 0 < c < |s| && Parent(c) == i ==> !higher(s[c], s[Parent(i)]))
  }

  lemma ReplacedIsHeapExcept<T(!new)>(higher: (T, T) -> bool, s: seq<T>, i: nat, x: T)
    requires StrictWeak(higher) && IsHeap(higher, s) && i < |s|
    ensures HeapExcept(higher, s[i := x], i)
  {
    var t := s[i := x];
    forall c | 0 < c < |t| && c != i && Parent(c) != i ensures EdgeOk(higher, t, c) {
      assert EdgeOk(higher, s, c);
    }
    if i > 0 {
      assert EdgeOk(higher, s, i);
      forall c | 0 < c < |t| && Parent(c) == i ensures !higher(t[c], t[Parent(i)]) {
        assert EdgeOk(higher, s, c);
        NotHigher(higher, s[c], s[i], s[Parent(i)]);
      }
    }
  }

  lemma FixSinks<T(!new)>(higher: (T, T) -> bool, s: seq<T>, i: nat)
    requires StrictWeak(higher) && i < |s| && HeapExcept(higher, s, i) && Sinks(higher, s, i, |s|)
    ensures var j := Child(higher, s, i, |s|); HoleBelow(higher, Swap(s, i, j), 0, j, |s|)
  {
    var j := Child(higher, s, i, |s|);
    var t := Swap(s, i, j);
    Asymmetric(higher, s[j], s[i]);
    HigherChild(higher, s, i, |s|);
    hide StrictWeak;
    forall c | 0 < c < |s| && Parent(c) != j ensures EdgeOk(higher, t, c) {
      if Parent(c) != i && c != i {
        assert EdgeOk(higher, s, c);
      }
    }
    forall c | 0 < c < |s| && Parent(c) == j ensures !higher(t[c], t[Parent(j)]) {
      assert EdgeOk(higher, s, c);
    }
  }

  lemma FixRepairs<T(!new)>(higher: (T, T) -> bool, s: seq<T>, i: nat)
    requires StrictWeak(higher) && i < |s| && HeapExcept(higher, s, i)
    ensures IsHeap(higher, Fix(higher, s, i))
  {
    if Sinks(higher, s, i, |s|) {
      FixSinks(higher, s, i);
      var j := Child(higher, s, i, |s|);
      DownRepairs(higher, Swap(s, i, j), 0, j, |s|);
    } else {
      NoSinkNoEdge(higher, s, i, |s|);
      UpRepairs(higher, s, i);
    }
  }

  lemma {:induction false} InitFromBuilds<T(!new)>(higher: (T, T) -> bool, s: seq<T>, k: nat)
    requires StrictWeak(higher) && k <= |s| && HeapFrom(higher, s, k, |s|)
    ensures IsHeap(higher, InitFrom(higher, s, k))
    decreases k
  {
    if k > 0 {
      assert HoleBelow(higher, s, k - 1, k - 1, |s|);
      DownRepairs(higher, s, k - 1, k - 1, |s|);
      InitFromBuilds(higher, Down(higher, s, k - 1, |s|), k - 1);
    }
  }

  /** Init makes a heap of any sequence whatever. */
  lemma InitBuilds<T(!new)>(higher: (T, T) -> bool, s: seq<T>)
    requires StrictWeak(higher)
    ensures IsHeap(higher, Init(higher, s)) && multiset(Init(higher, s)) == multiset(s)
  {
    InitFromBuilds(higher, s, |s| / 2);
  }

  // ---- popping everything ----

  function PopAll<T>(higher: (T, T) -> bool, s: seq<T>): (r: seq<T>)
    ensures |r| == |s|
    decreases |s|
  {
    if s == [] then [] else [s[0]] + PopAll(higher, PopRest(higher, s))
  }

  predicate InOrder<T>(higher: (T, T) -> bool, s: seq<T>) {
    forall i, j :: 0 <= i < j < |s| ==> !higher(s[j], s[i])
  }

  lemma ConsInOrder<T>(higher: (T, T) -> bool, x: T, r: seq<T>)
    requires InOrder(higher, r) && forall j :: 0 <= j < |r| ==> !higher(r[j], x)
    ensures InOrder(higher, [x] + r)
    ensures multiset([x] + r) == multiset{x} + multiset(r)
  {
    var s := [x] + r;
    forall i, j | 0 <= i < j < |s| ensures !higher(s[j], s[i]) {
      assert s[j] == r[j - 1];
      if i > 0 {
        assert s[i] == r[i - 1];
      }
    }
  }

  /** Popping a heap empty yields its contents in priority order. */
  lemma {:induction false} PopAllSorts<T(!new)>(higher: (T, T) -> bool, s: seq<T>)
    requires StrictWeak(higher) && IsHeap(higher, s)
    ensures InOrder(higher, PopAll(higher, s))
    ensures multiset(PopAll(higher, s)) == multiset(s)
    decreases |s|
  {
    if s != [] {
      var rest := PopRest(higher, s);
      PopTakesHighest(higher, s);
      PopAllSorts(higher, rest);
      hide StrictWeak, IsHeap, PopRest;
      var r := PopAll(higher, rest);
      forall j | 0 <= j < |r| ensures !higher(r[j], s[0]) {
        assert r[j] in multiset(r);
        assert r[j] in multiset(s);
        var i :| 0 <= i < |s| && s[i] == r[j];
      }
      ConsInOrder(higher, s[0], r);
    }
  }

  // ---- any sequence of operations ----

  datatype Op<T> = PushOp(x: T) | PopOp | UpdateOp(i: nat, x: T) | ReheapifyOp(values: seq<T>)

  /** UpdateOp names a live item by its position; ReheapifyOp carries the values as they were
      mutated in place under the heap. */
  predicate CanDo<T>(s: seq<T>, op: Op<T>) {
    (op.UpdateOp? ==> op.i < |s|) && (op.ReheapifyOp? ==> |op.values| == |s|)
  }

  function Perform<T>(higher: (T, T) -> bool, s: seq<T>, op: Op<T>): seq<T>
    requires CanDo(s, op)
  {
    match op
    case PushOp(x) => Push(higher, s, x)
    case PopOp => if s == [] then [] else PopRest(higher, s)
    case UpdateOp(i, x) => Fix(higher, s[i := x], i)
    case ReheapifyOp(values) => Init(higher, values)
  }

  /** What an operation takes out: the popped value, or the one an update replaces. */
  function Taken<T>(s: seq<T>, op: Op<T>): Option<T>
    requires CanDo(s, op)
  {
    match op
    case PushOp(_) => None
    case PopOp => if s == [] then None else Some(s[0])
    case UpdateOp(i, _) => Some(s[i])
    case ReheapifyOp(_) => None
  }

  /** The operation on the multiset a queue is meant to be. */
  ghost function BagAfter<T>(bag: multiset<T>, op: Op<T>, taken: Option<T>): multiset<T> {
    match op
    case PushOp(x) => bag + multiset{x}
    case PopOp => if taken.Some? then bag - multiset{taken.value} else bag
    case UpdateOp(_, x) => (if taken.Some? then bag - multiset{taken.value} else bag) + multiset{x}
    case ReheapifyOp(values) => multiset(values)
  }

  /** A pop takes a value that no other in the bag is higher than, and nothing only from an empty
      one; an update takes a value that is there. */
  ghost predicate Serves<T(!new)>(higher: (T, T) -> bool, bag: multiset<T>, op: Op<T>, taken: Option<T>) {
    match op
    case PushOp(_) => taken.None?
    case PopOp =>
      if taken.None? then bag == multiset{}
      else taken.value in bag && forall x :: x in bag ==> !higher(x, taken.value)
    case UpdateOp(_, _) => taken.Some? && taken.value in bag
    case ReheapifyOp(_) => taken.None?
  }

  lemma OperationKeepsHeap<T(!new)>(higher: (T, T) -> bool, s: seq<T>, op: Op<T>)
    requires StrictWeak(higher) && IsHeap(higher, s) && CanDo(s, op)
    ensures IsHeap(higher, Perform(higher, s, op))
    ensures multiset(Perform(higher, s, op)) == BagAfter(multiset(s), op, Taken(s, op))
    ensures Serves(higher, multiset(s), op, Taken(s, op))
  {
    match op
    case PushOp(x) => PushKeepsHeap(higher, s, x);
    case PopOp =>
      if s != [] {
        PopTakesHighest(higher, s);
      }
    case UpdateOp(i, x) =>
      ReplacedIsHeapExcept(higher, s, i, x);
      FixRepairs(higher, s[i := x], i);
    case ReheapifyOp(values) => InitBuilds(higher, values);
  }

  predicate CanRun<T>(higher: (T, T) -> bool, s: seq<T>, ops: seq<Op<T>>)
    decreases |ops|
  {
    ops == [] || (CanDo(s, ops[0]) && CanRun(higher, Perform(higher, s, ops[0]), ops[1..]))
  }

  /** The heap after the operations, and what each of them took. */
  function PerformAll<T>(higher: (T, T) -> bool, s: seq<T>, ops: seq<Op<T>>): (seq<T>, seq<Option<T>>)
    requires CanRun(higher, s, ops)
    decreases |ops|
  {
    if ops == [] then (s, [])
    else
      var (t, rest) := PerformAll(higher, Perform(higher, s, ops[0]), ops[1..]);
      (t, [Taken(s, ops[0])] + rest)
  }

  ghost function BagAfterAll<T>(bag: multiset<T>, ops: seq<Op<T>>, taken: seq<Option<T>>): multiset<T>
    requires |taken| == |ops|
    decreases |ops|
  {
    if ops == [] then bag else BagAfterAll(BagAfter(bag, ops[0], taken[0]), ops[1..], taken[1..])
  }

  ghost predicate ServesAll<T(!new)>(higher: (T, T) -> bool, bag: multiset<T>, ops: seq<Op<T>>, taken: seq<Option<T>>)
    requires |taken| == |ops|
    decreases |ops|
  {
    ops == []
    || (Serves(higher, bag, ops[0], taken[0])
        && ServesAll(higher, BagAfter(bag, ops[0], taken[0]), ops[1..], taken[1..]))
  }

  /** Any sequence of operations behaves as on a multiset from which every pop takes a maximal
      value, and leaves a heap of exactly that multiset. */
  lemma {:induction false} EverySequence<T(!new)>(higher: (T, T) -> bool, s: seq<T>, ops: seq<Op<T>>)
    requires StrictWeak(higher) && IsHeap(higher, s) && CanRun(higher, s, ops)
    ensures var (t, taken) := PerformAll(higher, s, ops);
            && |taken| == |ops| && ServesAll(higher, multiset(s), ops, taken)
            && IsHeap(higher, t) && multiset(t) == BagAfterAll(multiset(s), ops, taken)
    decreases |ops|
  {
    hide StrictWeak, IsHeap, Perform, Taken, CanDo, BagAfter, Serves;
    if ops != [] {
      OperationKeepsHeap(higher, s, ops[0]);
      EverySequence(higher, Perform(higher, s, ops[0]), ops[1..]);
      var (t, rest) := PerformAll(higher, Perform(higher, s, ops[0]), ops[1..]);
      assert ([Taken(s, ops[0])] + rest)[1..] == rest;
    }
  }
}
