/** PriorityQueue in its own form: a slice of item objects swapped in place, each item carrying
    the index it sits at. Every operation is tied to the function of HeapSpec it performs. */
module PriorityHeap {
  import opened Base
  import opened HeapSpec

  class Item<T> {
    var value: T
    var index: int

    constructor (value: T, index: int)
      ensures this.value == value && this.index == index
    {
      this.value, this.index := value, index;
    }
  }

  lemma SwapAbove<T>(s: seq<T>, i: nat, j: nat, n: nat)
    requires i < n <= |s| && j < n
    ensures Swap(s, i, j)[n..] == s[n..]
  {
  }

  lemma FixedIsHeap<T(!new)>(higher: (T, T) -> bool, s: seq<T>, i: nat, x: T)
    requires StrictWeak(higher) && IsHeap(higher, s) && i < |s|
    ensures IsHeap(higher, Fix(higher, s[i := x], i))
  {
    ReplacedIsHeapExcept(higher, s, i, x);
    FixRepairs(higher, s[i := x], i);
  }

  class PriorityQueue<T(!new)> {
    var items: seq<Item<T>>
    ghost var Repr: set<Item<T>>   // every item ever pushed
    const isHigherPriority: (T, T) -> bool

    constructor (isHigherPriority: (T, T) -> bool)
      ensures items == [] && Repr == {} && this.isHigherPriority == isHigherPriority
      ensures StrictWeak(isHigherPriority) ==> Valid()
    {
      items, Repr := [], {};
      this.isHigherPriority := isHigherPriority;
    }

    /** Each item knows its position; in particular no item occurs twice. */
    ghost predicate Indexed()
      reads this, Repr
    {
      forall i :: 0 <= i < |items| ==> items[i] in Repr && items[i].index == i
    }

    function Values(): (vs: seq<T>)
      reads this, items
      ensures |vs| == |items|
      ensures forall i :: 0 <= i < |items| ==> vs[i] == items[i].value
    {
      seq(|items|, i requires 0 <= i < |items| reads this, items => items[i].value)
    }

    ghost predicate Valid()
      reads this, items, Repr
    {
      Indexed() && StrictWeak(isHigherPriority) && IsHeap(isHigherPriority, Values())
    }

    method SwapItems(i: nat, j: nat)
      requires Indexed() && i < |items| && j < |items|
      modifies this`items, Repr`index
      ensures Indexed() && items == Swap(old(items), i, j)
      ensures Values() == Swap(old(Values()), i, j)
    {
      items := items[i := items[j]][j := items[i]];
      items[i].index := i;
      items[j].index := j;
    }

    method SiftUp(start: nat)
      requires Indexed() && start < |items|
      modifies this`items, Repr`index
      ensures Indexed()
      ensures Values() == Up(isHigherPriority, old(Values()), start)
    {
      hide Up, Swap;
      var j: nat := start;
      while j > 0 && isHigherPriority(items[j].value, items[(j - 1) / 2].value)
        invariant Indexed() && j < |items|
        invariant Up(isHigherPriority, Values(), j) == Up(isHigherPriority, old(Values()), start)
        decreases j
      {
        UpStep(isHigherPriority, Values(), j);
        SwapItems((j - 1) / 2, j);
        j := (j - 1) / 2;
      }
      UpStep(isHigherPriority, Values(), j);
    }

    /** One round of down: swap i with its higher child if that child is out of order. */
    method SinkOnce(i: nat, n: nat) returns (j: nat)
      requires Indexed() && i < n <= |items|
      modifies this`items, Repr`index
      ensures Indexed() && |items| == |old(items)| && items[n..] == old(items)[n..]
      ensures Sinks(isHigherPriority, old(Values()), i, n) ==>
                j == Child(isHigherPriority, old(Values()), i, n) && Values() == Swap(old(Values()), i, j)
      ensures !Sinks(isHigherPriority, old(Values()), i, n) ==> j == i && Values() == old(Values())
    {
      hide Swap;
      j := i;
      if 2 * i + 1 < n {
        var child := 2 * i + 1;
        if child + 1 < n && isHigherPriority(items[child + 1].value, items[child].value) {
          child := child + 1;
        }
        assert child == Child(isHigherPriority, Values(), i, n);
        if isHigherPriority(items[child].value, items[i].value) {
          ghost var before := items;
          SwapItems(i, child);
          SwapAbove(before, i, child, n);
          j := child;
        }
      }
    }

    method SiftDown(start: nat, n: nat) returns (moved: bool)
      requires Indexed() && start < n <= |items|
      modifies this`items, Repr`index
      ensures Indexed() && |items| == |old(items)| && items[n..] == old(items)[n..]
      ensures Values() == Down(isHigherPriority, old(Values()), start, n)
      ensures moved == Sinks(isHigherPriority, old(Values()), start, n)
    {
      hide Down, Swap, Child, Sinks;
      DownStep(isHigherPriority, Values(), start, n);
      var i := start;
      var j := SinkOnce(start, n);
      moved := j > start;
      while j > i
        invariant Indexed() && i <= j < n <= |items|
        invariant items[n..] == old(items)[n..]
        invariant Down(isHigherPriority, old(Values()), start, n) ==
                  if j > i then Down(isHigherPriority, Values(), j, n) else Values()
        decreases n - j, j > i
      {
        DownStep(isHigherPriority, Values(), j, n);
        i := j;
        j := SinkOnce(i, n);
      }
    }

    /** heap.Push. */
    method HeapPush(item: Item<T>)
      requires Indexed() && item !in Repr
      modifies this`items, this`Repr, Repr`index, item`index
      ensures Indexed() && Repr == old(Repr) + {item}
      ensures Values() == Push(isHigherPriority, old(Values()), item.value)
    {
      hide Up;
      ghost var before := Values();
      item.index := |items|;
      items, Repr := items + [item], Repr + {item};
      assert Values() == before + [item.value];
      SiftUp(|items| - 1);
    }

    /** The slice-shrinking half of Pop: the last item goes, marked with index -1. */
    method DropLastItem() returns (item: Item<T>)
      requires Indexed() && items != []
      modifies this`items, Repr`index
      ensures Indexed() && item == old(items)[|old(items)| - 1] && item.index == -1 && item !in items
      ensures Values() == old(Values())[..|old(Values())| - 1]
    {
      var n := |items| - 1;
      item := items[n];
      items := items[..n];
      item.index := -1;
    }

    /** heap.Pop: the root leaves and is marked. */
    method HeapPop() returns (item: Item<T>)
      requires Indexed() && items != []
      modifies this`items, Repr`index
      ensures Indexed() && item == old(items)[0] && item.value == old(Values())[0]
      ensures item.index == -1 && item !in items
      ensures Values() == PopRest(isHigherPriority, old(Values()))
    {
      hide Down, Child, Sinks, PopRest;
      var n := |items| - 1;
      PopRestIs(isHigherPriority, Values());
      SwapItems(0, n);
      ghost var root := items[n..];
      assert root[0] == old(items)[0];
      if n > 0 {
        var _ := SiftDown(0, n);
      }
      assert items[n] == items[n..][0] == root[0];
      item := DropLastItem();
    }

    /** heap.Fix. */
    method HeapFix(i: nat)
      requires Indexed() && i < |items|
      modifies this`items, Repr`index
      ensures Indexed() && Values() == Fix(isHigherPriority, old(Values()), i)
    {
      hide Down, Up, Child, Sinks, Fix;
      DownStep(isHigherPriority, Values(), i, |items|);
      FixIs(isHigherPriority, Values(), i);
      var moved := SiftDown(i, |items|);
      if !moved {
        SiftUp(i);
      }
    }

    /** heap.Init. */
    method HeapInit()
      requires Indexed()
      modifies this`items, Repr`index
      ensures Indexed() && Values() == Init(isHigherPriority, old(Values()))
    {
      hide Down, Child, Sinks, InitFrom;
      var k: nat := |items| / 2;
      while k > 0
        invariant Indexed() && k <= |items|
        invariant InitFrom(isHigherPriority, Values(), k) == Init(isHigherPriority, old(Values()))
      {
        InitStep(isHigherPriority, Values(), k);
        k := k - 1;
        var _ := SiftDown(k, |items|);
      }
      InitStep(isHigherPriority, Values(), 0);
    }

    lemma LiveIffIndexed(item: Item<T>)
      requires Indexed()
      ensures item in items <==> 0 <= item.index < |items| && items[item.index] == item
    {
    }

    method SetValue(item: Item<T>, value: T)
      requires Indexed() && 0 <= item.index < |items| && items[item.index] == item
      modifies item`value
      ensures Indexed() && Values() == old(Values())[item.index := value]
    {
      item.value := value;
    }

    // ---- the public operations ----

    /** The new value joins the contents, and the order is kept. */
    method PushItem(value: T) returns (item: Item<T>)
      requires Valid()
      modifies this`items, this`Repr, Repr`index
      ensures Valid() && fresh(item) && item.value == value && Repr == old(Repr) + {item}
      ensures Values() == Push(isHigherPriority, old(Values()), value)
      ensures multiset(Values()) == old(multiset(Values())) + multiset{value}
    {
      PushKeepsHeap(isHigherPriority, Values(), value);
      hide IsHeap, StrictWeak, Push;
      item := new Item(value, -1);
      HeapPush(item);
    }

    /** Nothing from an empty queue, otherwise a value none is higher than; its item is marked. */
    method PopItem() returns (v: Option<T>)
      requires Valid()
      modifies this`items, Repr`index
      ensures Valid()
      ensures v == if old(Values()) == [] then None else Some(old(Values())[0])
      ensures Values() == if old(Values()) == [] then [] else PopRest(isHigherPriority, old(Values()))
      ensures v.Some? ==> forall i :: 0 <= i < |old(Values())| ==> !isHigherPriority(old(Values())[i], v.value)
      ensures old(items) != [] ==> old(items)[0].index == -1 && old(items)[0] !in items
    {
      if |items| == 0 {
        return None;
      }
      PopTakesHighest(isHigherPriority, Values());
      hide IsHeap, StrictWeak, PopRest;
      var item := HeapPop();
      v := Some(item.value);
    }

    /** Re-sorts a live item, and leaves everything alone for an item that was popped. */
    method Update(item: Item<T>, value: T)
      requires Valid()
      modifies this`items, Repr`index, item`value
      ensures Valid()
      ensures item !in old(items) ==> items == old(items) && item.value == old(item.value) && Values() == old(Values())
      ensures item in old(items) ==>
                0 <= old(item.index) < |old(Values())|
                && Values() == Fix(isHigherPriority, old(Values())[old(item.index) := value], old(item.index))
    {
      hide IsHeap, StrictWeak, Fix;
      LiveIffIndexed(item);
      if item.index < 0 || item.index >= |items| || items[item.index] != item {
        return;
      }
      var i := item.index;
      FixedIsHeap(isHigherPriority, Values(), i, value);
      SetValue(item, value);
      HeapFix(i);
    }

    /** Restores the order over whatever the values have become. */
    method Reheapify()
      requires Indexed() && StrictWeak(isHigherPriority)
      modifies this`items, Repr`index
      ensures Valid()
      ensures Values() == Init(isHigherPriority, old(Values())) && multiset(Values()) == old(multiset(Values()))
    {
      InitBuilds(isHigherPriority, Values());
      hide IsHeap, StrictWeak, Init;
      HeapInit();
    }
  }
}
