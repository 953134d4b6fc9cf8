/** The consumer's in-memory queue: Go's container/heap over the repository's comparator. */
module PriorityHeap {
  import opened Types

  /** A fetched message: its offset and the decoded request. */
  datatype Item = Item(offset: nat, req: JobRequest)

  /** What the comparator compares. */
  function Pri(it: Item): int {
    PriorityOf(it.req)
  }

  // ---- heap order on sequences ----

  function Parent(k: nat): nat
    requires k > 0
  {
    (k - 1) / 2
  }

  predicate Ordered(h: seq<Item>, k: nat)
    requires k < |h|
  {
    k > 0 ==> Pri(h[Parent(k)]) >= Pri(h[k])
  }

  /** No item is more urgent than its parent. */
  ghost predicate IsHeap(h: seq<Item>) {
    forall k: nat {:trigger Ordered(h, k)} :: k < |h| ==> Ordered(h, k)
  }

  /** Where two nodes apart are compared: the children of `i` against the parent of `i`. */
  predicate Bridged(h: seq<Item>, i: nat, k: nat)
    requires i < |h| && k < |h|
  {
    k > 0 && i > 0 && Parent(k) == i ==> Pri(h[Parent(i)]) >= Pri(h[k])
  }

  /** A heap but for `j` being perhaps more urgent than its parent. */
  ghost predicate HeapUp(h: seq<Item>, j: nat) {
    j < |h|
    && (forall k: nat {:trigger Ordered(h, k)} :: k < |h| && k != j ==> Ordered(h, k))
    && (forall k: nat {:trigger Bridged(h, j, k)} :: k < |h| ==> Bridged(h, j, k))
  }

  /** The first `n` items are a heap but for `i` being perhaps less urgent than its children. */
  ghost predicate HeapDown(h: seq<Item>, i: nat, n: nat) {
    i <= n <= |h|
    && (forall k: nat {:trigger Ordered(h, k)} :: k < n && (k > 0 ==> Parent(k) != i) ==> Ordered(h, k))
    && (i < n ==> forall k: nat {:trigger Bridged(h, i, k)} :: k < n ==> Bridged(h, i, k))
  }

  function Swapped(h: seq<Item>, i: nat, j: nat): seq<Item>
    requires i < |h| && j < |h|
  {
    h[i := h[j]][j := h[i]]
  }

  lemma SwappedItems(h: seq<Item>, i: nat, j: nat)
    requires i < |h| && j < |h|
    ensures multiset(Swapped(h, i, j)) == multiset(h)
  {
  }

  /** One turn of `up`: the pair out of order is swapped, and the defect moves to the parent. */
  lemma SiftUp(h: seq<Item>, j: nat)
    requires HeapUp(h, j) && j > 0 && !Ordered(h, j)
    ensures HeapUp(Swapped(h, Parent(j), j), Parent(j))
  {
    var i := Parent(j);
    var h' := Swapped(h, i, j);
    assert Ordered(h, i);
    forall k: nat | k < |h'| && k != i
      ensures Ordered(h', k)
    {
      assert k != j ==> Ordered(h, k);
      assert Bridged(h, j, k);
    }
    forall k: nat | k < |h'|
      ensures Bridged(h', i, k)
    {
      assert k != j ==> Ordered(h, k);
    }
  }

  lemma UpDone(h: seq<Item>, j: nat)
    requires HeapUp(h, j) && Ordered(h, j)
    ensures IsHeap(h)
  {
  }

  /** One turn of `down`: the more urgent child goes up, and the defect moves to its place. */
  lemma SiftDown(h: seq<Item>, i: nat, j: nat, n: nat)
    requires HeapDown(h, i, n) && i < j < n && Parent(j) == i && !Ordered(h, j)
    requires forall k: nat | 0 < k < n && Parent(k) == i :: Pri(h[j]) >= Pri(h[k])
    ensures HeapDown(Swapped(h, i, j), j, n)
  {
    var h' := Swapped(h, i, j);
    forall k: nat | k < n && (k > 0 ==> Parent(k) != j)
      ensures Ordered(h', k)
    {
      assert k > 0 && Parent(k) != i ==> Ordered(h, k);
      assert Bridged(h, i, j);
    }
    forall k: nat | k < n
      ensures Bridged(h', j, k)
    {
      assert k > 0 && Parent(k) != i ==> Ordered(h, k);
    }
  }

  lemma AppendedHeap(h: seq<Item>, it: Item)
    requires IsHeap(h)
    ensures HeapUp(h + [it], |h|)
  {
    forall k: nat | k < |h|
      ensures Ordered(h + [it], k)
    {
      assert Ordered(h, k);
    }
  }

  /** The front of a heap is at least as urgent as everything in it. */
  lemma {:induction false} FrontIsMost(h: seq<Item>, k: nat)
    requires IsHeap(h) && k < |h|
    ensures PriorityOf(h[0].req) >= PriorityOf(h[k].req)
    decreases k
  {
    if k > 0 {
      assert Ordered(h, k);
      FrontIsMost(h, Parent(k));
    }
  }

  /** `Pop` first exchanges the front with the last item. */
  lemma FrontToBack(h: seq<Item>, n: nat)
    requires IsHeap(h) && |h| == n + 1
    ensures HeapDown(Swapped(h, 0, n), 0, n)
  {
    forall k: nat | k < n && (k > 0 ==> Parent(k) != 0)
      ensures Ordered(Swapped(h, 0, n), k)
    {
      assert Ordered(h, k);
    }
  }

  // ---- order of dispatch ----

  ghost predicate Descending(out: seq<Item>) {
    forall i, k :: 0 <= i < k < |out| ==> PriorityOf(out[i].req) >= PriorityOf(out[k].req)
  }

  ghost predicate NoneAbove(out: seq<Item>, items: multiset<Item>) {
    forall i, it :: 0 <= i < |out| && it in items ==> PriorityOf(out[i].req) >= PriorityOf(it.req)
  }

  lemma OneMoreOut(out: seq<Item>, before: multiset<Item>, after: multiset<Item>, it: Item)
    requires Descending(out) && NoneAbove(out, before) && before == after + multiset{it}
    requires NoneAbove([it], after)
    ensures Descending(out + [it]) && NoneAbove(out + [it], after)
  {
    assert it in before && [it][0] == it;
  }

  lemma WithoutLast(h: seq<Item>, n: nat)
    requires HeapDown(h, n, n) && |h| == n + 1
    ensures IsHeap(h[..n]) && multiset(h) == multiset(h[..n]) + multiset{h[n]}
  {
    assert h == h[..n] + [h[n]];
    forall k: nat | k < n
      ensures Ordered(h[..n], k)
    {
      assert Ordered(h, k);
    }
  }

  /** The front of a heap, once out, has nothing above it in what is left. */
  lemma FrontOut(h: seq<Item>, left: multiset<Item>)
    requires IsHeap(h) && h != [] && left <= multiset(h)
    ensures NoneAbove([h[0]], left)
  {
    forall it | it in left
      ensures PriorityOf(h[0].req) >= PriorityOf(it.req)
    {
      assert it in multiset(h);
      var k :| 0 <= k < |h| && h[k] == it;
      FrontIsMost(h, k);
    }
  }

  /** What `Pop` can say. A closed queue reports false; an empty one makes its caller wait. */
  datatype Popped = Got(item: Item) | Closed | Waits

  class PriorityQueue {
    var data: array<Item>
    var len: nat
    var drain: bool

    ghost predicate Valid()
      reads this, data
    {
      len <= data.Length && IsHeap(data[..len])
    }

    ghost function Items(): multiset<Item>
      reads this, data
      requires len <= data.Length
    {
      multiset(data[..len])
    }

    constructor ()
      ensures Valid() && fresh(data) && Items() == multiset{} && !drain
    {
      data := new Item[0];
      len := 0;
      drain := false;
    }

    method Swap(i: nat, j: nat)
      requires i < len <= data.Length && j < len
      modifies data
      ensures data[..len] == Swapped(old(data[..len]), i, j)
    {
      data[i], data[j] := data[j], data[i];
    }

    /** `append`: a full backing array is replaced by a larger one. */
    method Append(it: Item)
      requires len <= data.Length
      modifies this`data, this`len, data
      ensures len == old(len) + 1 && len <= data.Length && data[..len] == old(data[..len]) + [it]
      ensures data == old(data) || fresh(data)
    {
      if len == data.Length {
        var grown := new Item[2 * len + 1](_ => it);
        forall k | 0 <= k < len {
          grown[k] := data[k];
        }
        data := grown;
      }
      data[len] := it;
      len := len + 1;
    }

    method Up(j0: nat)
      requires len <= data.Length && HeapUp(data[..len], j0)
      modifies data
      ensures IsHeap(data[..len]) && Items() == old(Items())
    {
      var j: nat := j0;
      while true
        invariant j < len && HeapUp(data[..len], j)
        invariant Items() == old(Items())
        decreases j
      {
        var i: nat := if j == 0 then 0 else (j - 1) / 2;
        if i == j || Pri(data[j]) <= Pri(data[i]) {
          UpDone(data[..len], j);
          return;
        }
        SiftUp(data[..len], j);
        SwappedItems(data[..len], i, j);
        Swap(i, j);
        j := i;
      }
    }

    /** Sinks item `i0` within the first `n`; what lies beyond stays. */
    method Down(i0: nat, n: nat)
      requires n <= len <= data.Length && HeapDown(data[..len], i0, n)
      modifies data
      ensures HeapDown(data[..len], n, n) && Items() == old(Items())
      ensures data[n..len] == old(data[n..len])
    {
      var i: nat := i0;
      while true
        invariant HeapDown(data[..len], i, n)
        invariant Items() == old(Items())
        invariant data[n..len] == old(data[n..len])
        decreases n - i
      {
        var j1 := 2 * i + 1;
        if j1 >= n { return; }
        var j := j1;
        var j2 := j1 + 1;
        if j2 < n && Pri(data[j2]) > Pri(data[j1]) { j := j2; }
        if Pri(data[j]) <= Pri(data[i]) { return; }
        SiftDown(data[..len], i, j, n);
        SwappedItems(data[..len], i, j);
        Swap(i, j);
        i := j;
      }
    }

    method Push(it: Item)
      requires Valid()
      modifies this`data, this`len, data
      ensures Valid() && (data == old(data) || fresh(data)) && drain == old(drain)
      ensures Items() == old(Items()) + multiset{it}
    {
      AppendedHeap(data[..len], it);
      Append(it);
      Up(len - 1);
    }

    method SetDrain()
      modifies this`drain
      ensures drain
    {
      drain := true;
    }

    /** `heap.Pop`: the front goes to the back, the new front sinks, the back is cut off. */
    method HeapPop() returns (it: Item)
      requires Valid() && len > 0
      modifies this`len, data
      ensures Valid() && old(Items()) == Items() + multiset{it} && it == old(data[0])
    {
      var n := len - 1;
      FrontToBack(data[..len], n);
      SwappedItems(data[..len], 0, n);
      Swap(0, n);
      Down(0, n);
      ghost var h := data[..len];
      WithoutLast(h, n);
      assert h[n] == data[n..len][0];
      it := data[n];
      len := n;
      assert data[..len] == h[..n];
    }

    /** The most urgent item if there is one; without one, closed when draining or cancelled. */
    method Pop(cancelled: bool) returns (r: Popped)
      requires Valid()
      modifies this`len, data
      ensures Valid()
      ensures old(Items()) == multiset{} ==> Items() == multiset{} && r == if drain || cancelled then Closed else Waits
      ensures old(Items()) != multiset{} ==>
                r.Got? && old(Items()) == Items() + multiset{r.item} && NoneAbove([r.item], Items())
    {
      if len == 0 {
        return if drain || cancelled then Closed else Waits;
      }
      ghost var h := data[..len];
      var it := HeapPop();
      FrontOut(h, Items());
      r := Got(it);
    }

    /** The dispatch loop once fetching has stopped: what was queued comes out, most urgent first. */
    method DispatchAll() returns (out: seq<Item>)
      requires Valid() && drain
      modifies this`len, data
      ensures Valid() && Items() == multiset{}
      ensures multiset(out) == old(Items()) && Descending(out)
    {
      out := [];
      while true
        invariant Valid() && multiset(out) + Items() == old(Items())
        invariant Descending(out) && NoneAbove(out, Items())
        decreases |Items()|
      {
        ghost var before := Items();
        var r := Pop(false);
        if !r.Got? { return; }
        OneMoreOut(out, before, Items(), r.item);
        out := out + [r.item];
      }
    }
  }
}
