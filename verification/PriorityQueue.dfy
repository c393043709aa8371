/** The Go pool's priority queue over container/heap (priority.go). */
module PriorityQueue {

  /** A queued task; `index` is its place in the heap, -1 once it left. */
  class Task {
    const priority: int
    var index: int

    constructor (priority: int)
      ensures this.priority == priority
    {
      this.priority := priority;
      index := 0;
    }
  }

  // ---------------------------------------------------------------- sifting, on sequences

  function Parent(k: nat): nat requires k > 0 { (k - 1) / 2 }

  function Swapped(s: seq<Task>, i: nat, j: nat): (r: seq<Task>)
    requires i < |s| && j < |s|
    ensures |r| == |s|
  {
    s[i := s[j]][j := s[i]]
  }

  /** container/heap up */
  function UpFrom(s: seq<Task>, j: nat): (r: seq<Task>)
    requires j < |s|
    ensures |r| == |s|
    decreases j
  {
    if j == 0 || s[j].priority <= s[Parent(j)].priority then s
    else UpFrom(Swapped(s, Parent(j), j), Parent(j))
  }

  /** The child that down compares with: the larger one, the left one on a tie. */
  function LargerChild(s: seq<Task>, i: nat, n: nat): (j: nat)
    requires 2 * i + 1 < n <= |s|
    ensures 0 < j < n && Parent(j) == i
  {
    if 2 * i + 2 < n && s[2 * i + 2].priority > s[2 * i + 1].priority then 2 * i + 2 else 2 * i + 1
  }

  /** container/heap down, within the first `n` elements */
  function DownFrom(s: seq<Task>, i: nat, n: nat): (r: seq<Task>)
    requires n <= |s|
    ensures |r| == |s|
    decreases n - i
  {
    if 2 * i + 1 >= n then s
    else
      var j := LargerChild(s, i, n);
      if s[j].priority <= s[i].priority then s else DownFrom(Swapped(s, i, j), j, n)
  }

  // ---------------------------------------------------------------- heap order

  ghost predicate Ordered(s: seq<Task>, k: nat)
    requires 0 < k < |s|
  {
    s[Parent(k)].priority >= s[k].priority
  }

  /** The first `n` elements form a heap: every parent is at least its child. */
  ghost predicate Heap(s: seq<Task>, n: nat)
    requires n <= |s|
  {
    forall k :: 0 < k < n ==> Ordered(s, k)
  }

  /** A heap except that `j` may be too large for its parent. */
  ghost predicate HeapButUp(s: seq<Task>, j: nat)
    requires j < |s|
  {
    && (forall k :: 0 < k < |s| && k != j ==> Ordered(s, k))
    && (forall k :: 0 < k < |s| && j > 0 && Parent(k) == j ==> s[Parent(j)].priority >= s[k].priority)
  }

  /** A heap except that `i` may be too small for its children. */
  ghost predicate HeapButDown(s: seq<Task>, i: nat, n: nat)
    requires n <= |s|
  {
    && (forall k :: 0 < k < n && Parent(k) != i ==> Ordered(s, k))
    && (forall k :: 0 < k < n && 0 < i < n && Parent(k) == i ==> s[Parent(i)].priority >= s[k].priority)
  }

  lemma SwapUp(s: seq<Task>, j: nat)
    requires 0 < j < |s| && HeapButUp(s, j) && s[j].priority > s[Parent(j)].priority
    ensures HeapButUp(Swapped(s, Parent(j), j), Parent(j))
  {
    var i := Parent(j);
    var r := Swapped(s, i, j);
    forall k | 0 < k < |r| && k != i ensures Ordered(r, k) {
      if k != j { assert Ordered(s, k); }
    }
    forall k | 0 < k < |r| && i > 0 && Parent(k) == i ensures r[Parent(i)].priority >= r[k].priority {
      assert Ordered(s, i);
      if k != j { assert Ordered(s, k); }
    }
  }

  lemma {:induction false} UpHeap(s: seq<Task>, j: nat)
    requires j < |s| && HeapButUp(s, j)
    ensures Heap(UpFrom(s, j), |s|)
    decreases j
  {
    if j == 0 {
    } else if s[j].priority <= s[Parent(j)].priority {
      assert Ordered(s, j);
    } else {
      SwapUp(s, j);
      UpHeap(Swapped(s, Parent(j), j), Parent(j));
    }
  }

  lemma SwapDown(s: seq<Task>, i: nat, n: nat)
    requires n <= |s| && HeapButDown(s, i, n) && 2 * i + 1 < n
    requires s[LargerChild(s, i, n)].priority > s[i].priority
    ensures
      var j := LargerChild(s, i, n);
      HeapButDown(Swapped(s, i, j), j, n)
  {
    var j := LargerChild(s, i, n);
    var r := Swapped(s, i, j);
    forall k | 0 < k < n && Parent(k) != j ensures Ordered(r, k) {
      if Parent(k) == i {
        assert k == 2 * i + 1 || k == 2 * i + 2;
      } else {
        assert Ordered(s, k);
        if k == i { assert s[Parent(i)].priority >= s[j].priority; }
      }
    }
    forall k | 0 < k < n && Parent(k) == j ensures r[Parent(j)].priority >= r[k].priority {
      assert Ordered(s, k);
    }
  }

  lemma {:induction false} DownHeap(s: seq<Task>, i: nat, n: nat)
    requires n <= |s| && HeapButDown(s, i, n)
    ensures Heap(DownFrom(s, i, n), n)
    decreases n - i
  {
    if 2 * i + 1 >= n {
    } else {
      var j := LargerChild(s, i, n);
      if s[j].priority <= s[i].priority {
        forall k | 0 < k < n ensures Ordered(s, k) {
          if Parent(k) == i { assert k == 2 * i + 1 || k == 2 * i + 2; }
        }
      } else {
        SwapDown(s, i, n);
        DownHeap(Swapped(s, i, j), j, n);
      }
    }
  }

  /** The root is a task of maximal priority. */
  lemma {:induction false} RootIsMaximal(s: seq<Task>, n: nat, k: nat)
    requires n <= |s| && Heap(s, n) && k < n
    ensures s[0].priority >= s[k].priority
    decreases k
  {
    if k > 0 {
      assert Ordered(s, k);
      RootIsMaximal(s, n, Parent(k));
    }
  }

  // ---------------------------------------------------------------- permutations

  lemma SwappedSame(s: seq<Task>, i: nat, j: nat)
    requires i < |s| && j < |s|
    ensures multiset(Swapped(s, i, j)) == multiset(s)
  {
  }

  lemma {:induction false} UpSame(s: seq<Task>, j: nat)
    requires j < |s|
    ensures multiset(UpFrom(s, j)) == multiset(s)
    decreases j
  {
    if j > 0 && s[j].priority > s[Parent(j)].priority {
      SwappedSame(s, Parent(j), j);
      UpSame(Swapped(s, Parent(j), j), Parent(j));
    }
  }

  /** down permutes the first `n` elements and leaves the others alone. */
  lemma {:induction false} DownSame(s: seq<Task>, i: nat, n: nat)
    requires n <= |s|
    ensures multiset(DownFrom(s, i, n)) == multiset(s)
    ensures DownFrom(s, i, n)[n..] == s[n..]
    decreases n - i
  {
    if 2 * i + 1 < n {
      var j := LargerChild(s, i, n);
      if s[j].priority > s[i].priority {
        SwappedSame(s, i, j);
        DownSame(Swapped(s, i, j), j, n);
      }
    }
  }

  // ---------------------------------------------------------------- the queue

  ghost predicate Distinct(s: seq<Task>) {
    forall i, j :: 0 <= i < j < |s| ==> s[i] != s[j]
  }

  /** A task that occurs twice cannot know its place. */
  lemma DistinctOnce(s: seq<Task>, t: Task)
    requires Distinct(s)
    ensures multiset(s)[t] <= 1
  {
    if t in s {
      var i :| 0 <= i < |s| && s[i] == t;
      assert s == s[..i] + [t] + s[i + 1..];
      assert t !in s[..i] && t !in s[i + 1..];
    }
  }

  class Queue {
    var items: seq<Task>

    /** Every task knows its place. */
    ghost predicate Indexed()
      reads this, items
    {
      Distinct(items) && forall i :: 0 <= i < |items| ==> items[i].index == i
    }

    ghost predicate HeapOrdered() reads this { Heap(items, |items|) }

    constructor ()
      ensures HeapOrdered() && Indexed() && items == []
    {
      items := [];
    }

    method Swap(i: nat, j: nat)
      requires i < |items| && j < |items|
      modifies this, items[i], items[j]
      ensures items == Swapped(old(items), i, j)
      ensures old(Indexed()) ==> Indexed()
    {
      items := items[i := items[j]][j := items[i]];
      items[i].index := i;
      items[j].index := j;
    }

    method Up(j0: nat)
      requires j0 < |items|
      modifies this, items
      ensures items == UpFrom(old(items), j0)
      ensures old(Indexed()) ==> Indexed()
    {
      var j := j0;
      while j > 0 && items[j].priority > items[Parent(j)].priority
        invariant 0 <= j < |items| && (old(Indexed()) ==> Indexed())
        invariant UpFrom(items, j) == UpFrom(old(items), j0)
        invariant forall t :: t in items ==> t in old(items)
      {
        assert items[Parent(j)] in old(items) && items[j] in old(items);
        Swap(Parent(j), j);
        j := Parent(j);
      }
    }

    method Down(i0: nat, n: nat)
      requires n <= |items|
      modifies this, items
      ensures items == DownFrom(old(items), i0, n)
      ensures old(Indexed()) ==> Indexed()
    {
      var i := i0;
      while 2 * i + 1 < n
        invariant n <= |items| && (old(Indexed()) ==> Indexed())
        invariant DownFrom(items, i, n) == DownFrom(old(items), i0, n)
        invariant forall t :: t in items ==> t in old(items)
        decreases n - i
      {
        var j := LargerChild(items, i, n);
        if items[j].priority <= items[i].priority { break; }
        assert items[i] in old(items) && items[j] in old(items);
        Swap(i, j);
        i := j;
      }
    }

    /** Push of heap.Interface. */
    method Push(t: Task)
      modifies this`items, t`index
      ensures items == old(items) + [t] && t.index == |old(items)|
      ensures old(Indexed()) && t !in old(items) ==> Indexed()
    {
      t.index := |items|;
      items := items + [t];
    }

    /** Pop of heap.Interface: the last element. */
    method Pop() returns (t: Task)
      requires |items| > 0
      modifies this, items[|items| - 1]
      ensures items == old(items)[..|old(items)| - 1]
      ensures t == old(items)[|old(items)| - 1] && t.index == -1
      ensures old(Indexed()) ==> Indexed()
    {
      t := items[|items| - 1];
      t.index := -1;
      items := items[..|items| - 1];
    }

    /** Heap order and contents hold for any task; the indices stay right exactly if it was not queued already. */
    method Enqueue(t: Task)
      requires HeapOrdered()
      modifies this, items, t
      ensures HeapOrdered() && multiset(items) == multiset(old(items)) + multiset{t}
      ensures old(Indexed()) ==> (Indexed() <==> t !in old(items))
    {
      Push(t);
      ghost var s := items;
      Up(|items| - 1);
      Raised(old(items), t, s, items);
    }

    /** The highest-priority task, or null. */
    method Dequeue() returns (t: Task?)
      requires HeapOrdered()
      modifies this, items
      ensures HeapOrdered()
      ensures old(items) == [] <==> t == null
      ensures t == null ==> items == []
      ensures t != null ==>
        && t in old(items) && t.index == -1
        && multiset(old(items)) == multiset(items) + multiset{t}
        && forall u :: u in old(items) ==> u.priority <= t.priority
      ensures old(Indexed()) ==> Indexed() && t !in items
    {
      if |items| == 0 { return null; }
      var n := |items| - 1;
      ghost var s0 := items;
      Swap(0, n);
      ghost var s1 := items;
      Down(0, n);
      ghost var s2 := items;
      PoppedHeap(s0, s1, s2);
      t := Pop();
      assert s2 == items + [t];
      if Distinct(s0) { DistinctOnce(s0, t); }
    }
  }

  /** A task appended to a heap and sifted up: a heap of the same tasks and it, with no task twice only if it is new. */
  lemma Raised(s: seq<Task>, t: Task, s1: seq<Task>, s2: seq<Task>)
    requires Heap(s, |s|) && s1 == s + [t] && s2 == UpFrom(s1, |s|)
    ensures Heap(s2, |s2|) && multiset(s2) == multiset(s) + multiset{t}
    ensures t in s ==> !Distinct(s2)
  {
    PushedHeap(s, t);
    UpHeap(s1, |s|);
    UpSame(s1, |s|);
    if t in s && Distinct(s2) { DistinctOnce(s2, t); }
  }

  lemma PushedHeap(s: seq<Task>, t: Task)
    requires Heap(s, |s|)
    ensures HeapButUp(s + [t], |s|)
  {
    forall k | 0 < k < |s| ensures Ordered(s + [t], k) { assert Ordered(s, k); }
  }

  /** Swapping the root to the end and sifting down leaves a heap before a maximal task. */
  lemma PoppedHeap(s: seq<Task>, s1: seq<Task>, s2: seq<Task>)
    requires |s| > 0 && Heap(s, |s|)
    requires s1 == Swapped(s, 0, |s| - 1) && s2 == DownFrom(s1, 0, |s| - 1)
    ensures Heap(s2[..|s| - 1], |s| - 1)
    ensures multiset(s2) == multiset(s) && s2[|s| - 1] == s[0]
    ensures forall u :: u in s ==> u.priority <= s[0].priority
  {
    var n := |s| - 1;
    forall k | 0 < k < n && Parent(k) != 0 ensures Ordered(s1, k) { assert Ordered(s, k); }
    DownHeap(s1, 0, n);
    DownSame(s1, 0, n);
    SwappedSame(s, 0, n);
    assert s2[n] == s2[n..][0] == s1[n..][0];
    forall k | 0 < k < n ensures Ordered(s2[..n], k) { assert Ordered(s2, k); }
    forall u | u in s ensures u.priority <= s[0].priority {
      var k :| 0 <= k < |s| && s[k] == u;
      RootIsMaximal(s, |s|, k);
    }
  }

  ghost predicate NonIncreasing(ts: seq<Task>) {
    forall i, j :: 0 <= i < j < |ts| ==> ts[i].priority >= ts[j].priority
  }

  /** Dequeuing until nothing is left hands out every task once, highest priority first. */
  method Drain(q: Queue) returns (out: seq<Task>)
    requires q.HeapOrdered()
    modifies q, q.items
    ensures q.items == [] && multiset(out) == multiset(old(q.items)) && NonIncreasing(out)
  {
    out := [];
    while |q.items| > 0
      invariant q.HeapOrdered() && NonIncreasing(out)
      invariant forall t :: t in q.items ==> t in old(q.items)
      invariant forall t, u :: t in out && u in q.items ==> t.priority >= u.priority
      invariant multiset(out) + multiset(q.items) == multiset(old(q.items))
      decreases |q.items|
    {
      ghost var before := q.items;
      assert forall i :: 0 <= i < |before| ==> before[i] in old(q.items);
      var t := q.Dequeue();
      assert |multiset(before)| == |multiset(q.items)| + 1;
      assert forall u :: u in q.items ==> u in multiset(before);
      out := out + [t];
    }
  }
}
