/** The array heap of src/models/priority_queue.ts. Priorities are JavaScript numbers,
    modelled as reals; the node list is a growable array, modelled as a sequence field. */
module PriorityQueue {
  import opened Wrappers
  import opened SeqSums

  datatype Node<+T> = Node(value: T, priority: real)

  /** `((i + 1) >>> 1) - 1` for a child index. */
  function Parent(i: nat): nat
    requires i > 0
  {
    (i + 1) / 2 - 1
  }

  /** `(i << 1) + 1` */
  function Left(i: nat): nat { 2 * i + 1 }

  /** `(i + 1) << 1` */
  function Right(i: nat): nat { 2 * (i + 1) }

  predicate Greater<T>(a: Node<T>, b: Node<T>) { a.priority > b.priority }

  /** No node outranks its parent, except possibly the edge above `hole`. */
  ghost predicate OrderedExceptAbove<T>(h: seq<Node<T>>, hole: nat) {
    forall i :: 0 < i < |h| && i != hole ==> !Greater(h[i], h[Parent(i)])
  }

  /** No node outranks its parent, except possibly the edges below `hole`. */
  ghost predicate OrderedExceptBelow<T>(h: seq<Node<T>>, hole: nat) {
    forall i :: 0 < i < |h| && Parent(i) != hole ==> !Greater(h[i], h[Parent(i)])
  }

  ghost predicate HeapOrdered<T>(h: seq<Node<T>>) {
    forall i :: 0 < i < |h| ==> !Greater(h[i], h[Parent(i)])
  }

  /** Grandchildren of `hole` do not outrank the parent of `hole`. */
  ghost predicate BridgedOver<T>(h: seq<Node<T>>, hole: nat) {
    hole > 0 ==> forall i :: 0 < i < |h| && Parent(i) == hole < |h| ==> !Greater(h[i], h[Parent(hole)])
  }

  ghost predicate Greatest<T>(n: Node<T>, nodes: multiset<Node<T>>) {
    n in nodes && forall m :: m in nodes ==> !Greater(m, n)
  }

  /** The heap order makes the root a node of greatest priority. */
  lemma {:induction false} RootOutranks<T>(h: seq<Node<T>>, i: nat)
    requires HeapOrdered(h) && i < |h|
    ensures !Greater(h[i], h[0])
  {
    if i > 0 {
      RootOutranks(h, Parent(i));
    }
  }

  lemma RootIsGreatest<T>(h: seq<Node<T>>)
    requires HeapOrdered(h) && h != []
    ensures Greatest(h[0], multiset(h))
  {
    forall m | m in multiset(h) ensures !Greater(m, h[0]) {
      var i :| 0 <= i < |h| && h[i] == m;
      RootOutranks(h, i);
    }
  }

  lemma SwapKeepsNodes<T>(h: seq<Node<T>>, i: nat, j: nat)
    requires i < |h| && j < |h|
    ensures multiset(h[i := h[j]][j := h[i]]) == multiset(h)
  {
  }

  /** Swapping a node with its greater child moves the unordered spot one level down. */
  lemma SinkStep<T>(h: seq<Node<T>>, node: nat, child: nat)
    requires node < child < |h| && Parent(child) == node
    requires OrderedExceptBelow(h, node) && BridgedOver(h, node)
    requires Greater(h[child], h[node])
    requires forall i :: 0 < i < |h| && Parent(i) == node ==> !Greater(h[i], h[child])
    ensures OrderedExceptBelow(h[node := h[child]][child := h[node]], child)
    ensures BridgedOver(h[node := h[child]][child := h[node]], child)
  {
    var s := h[node := h[child]][child := h[node]];
    forall i | 0 < i < |s| && Parent(i) != child ensures !Greater(s[i], s[Parent(i)]) {
      if i != node && Parent(i) != node {
        assert s[Parent(i)] == h[Parent(i)];
      }
    }
    forall i | 0 < i < |s| && Parent(i) == child ensures !Greater(s[i], s[Parent(child)]) {
      assert !Greater(h[i], h[Parent(i)]);
    }
  }

  lemma ChildrenOf(i: nat, node: nat)
    requires i > 0 && Parent(i) == node
    ensures i == Left(node) || i == Right(node)
  {
  }

  class PriorityQueue<T> {
    var heap: seq<Node<T>>

    constructor ()
      ensures heap == []
    {
      heap := [];
    }

    ghost predicate Valid()
      reads this
    {
      HeapOrdered(heap)
    }

    method Size() returns (n: nat)
      ensures n == |heap|
    {
      n := |heap|;
    }

    method IsEmpty() returns (b: bool)
      ensures b <==> heap == []
    {
      var n := Size();
      b := n == 0;
    }

    /** The value at the root: by `Valid`, one of greatest priority. */
    method Peek() returns (r: Option<T>)
      requires Valid()
      ensures heap == [] ==> r == None
      ensures heap != [] ==> exists n :: Greatest(n, multiset(heap)) && r == Some(n.value)
    {
      if |heap| == 0 {
        return None;
      }
      RootIsGreatest(heap);
      r := Some(heap[0].value);
    }

    /** Adds exactly the given node and keeps the heap order. */
    method Push(node: Node<T>)
      requires Valid()
      modifies this
      ensures Valid()
      ensures multiset(heap) == multiset(old(heap)) + multiset{node}
      ensures |heap| == |old(heap)| + 1
    {
      heap := heap + [node];
      SiftUp();
    }

    /** `add(...nodes)`: pushes them one by one and returns the new size. */
    method Add(nodes: seq<Node<T>>) returns (size: nat)
      requires Valid()
      modifies this
      ensures Valid()
      ensures multiset(heap) == multiset(old(heap)) + multiset(nodes)
      ensures size == |heap| == |old(heap)| + |nodes|
    {
      for k := 0 to |nodes|
        invariant Valid()
        invariant multiset(heap) == multiset(old(heap)) + multiset(nodes[..k])
        invariant |heap| == |old(heap)| + k
      {
        Push(nodes[k]);
        assert nodes[..k+1] == nodes[..k] + [nodes[k]];
      }
      assert nodes[..|nodes|] == nodes;
      size := Size();
    }

    /** Removes exactly the old root, a node of greatest priority, and returns its value. */
    method Pop() returns (r: Option<T>)
      requires Valid()
      modifies this
      ensures Valid()
      ensures old(heap) == [] ==> r == None && heap == []
      ensures old(heap) != [] ==>
        && r == Some(old(heap)[0].value)
        && Greatest(old(heap)[0], multiset(old(heap)))
        && multiset(heap) == multiset(old(heap)) - multiset{old(heap)[0]}
        && |heap| == |old(heap)| - 1
    {
      var empty := IsEmpty();
      if empty {
        return None;
      }
      RootIsGreatest(heap);
      r := Some(heap[0].value);
      ghost var root := heap[0];
      var bottom := |heap| - 1;
      if bottom > 0 {
        Swap(0, bottom);
      }
      ghost var swapped := heap;
      heap := heap[..bottom];
      assert swapped == heap + [root];
      assert forall i :: 0 < i < |heap| && Parent(i) != 0 ==>
        heap[i] == old(heap)[i] && heap[Parent(i)] == old(heap)[Parent(i)];
      SiftDown();
    }

    method Swap(i: nat, j: nat)
      requires i < |heap| && j < |heap|
      modifies this
      ensures heap == old(heap)[i := old(heap)[j]][j := old(heap)[i]]
      ensures multiset(heap) == multiset(old(heap))
    {
      SwapKeepsNodes(heap, i, j);
      heap := heap[i := heap[j]][j := heap[i]];
    }

    /** The last node rises until its parent is not outranked. */
    method SiftUp()
      requires heap != []
      requires OrderedExceptAbove(heap, |heap| - 1)
      modifies this
      ensures Valid()
      ensures multiset(heap) == multiset(old(heap)) && |heap| == |old(heap)|
    {
      var node: nat := |heap| - 1;
      while node > 0 && Greater(heap[node], heap[Parent(node)])
        invariant node < |heap| == |old(heap)|
        invariant multiset(heap) == multiset(old(heap))
        invariant OrderedExceptAbove(heap, node)
        invariant BridgedOver(heap, node)
      {
        Swap(node, Parent(node));
        node := Parent(node);
      }
    }

    /** The root sinks below every child that outranks it, always towards the greater one. */
    method SiftDown()
      requires OrderedExceptBelow(heap, 0)
      modifies this
      ensures Valid()
      ensures multiset(heap) == multiset(old(heap)) && |heap| == |old(heap)|
    {
      var node: nat := 0;
      while (Left(node) < |heap| && Greater(heap[Left(node)], heap[node]))
         || (Right(node) < |heap| && Greater(heap[Right(node)], heap[node]))
        invariant |heap| == |old(heap)| && node <= |heap|
        invariant node < |heap| || heap == []
        invariant multiset(heap) == multiset(old(heap))
        invariant OrderedExceptBelow(heap, node)
        invariant BridgedOver(heap, node)
        decreases |heap| - node
      {
        var maxChild :=
          if Right(node) < |heap| && Greater(heap[Right(node)], heap[Left(node)])
          then Right(node) else Left(node);
        forall i | 0 < i < |heap| && Parent(i) == node ensures !Greater(heap[i], heap[maxChild]) {
          ChildrenOf(i, node);
        }
        SinkStep(heap, node, maxChild);
        Swap(node, maxChild);
        node := maxChild;
      }
      forall i | 0 < i < |heap| && Parent(i) == node ensures !Greater(heap[i], heap[node]) {
        ChildrenOf(i, node);
      }
    }
  }

  /** What any sequence of pops can produce: each popped node is greatest among those left. */
  ghost predicate Drains<T(!new)>(nodes: multiset<Node<T>>, popped: seq<Node<T>>)
    decreases |popped|
  {
    if popped == [] then nodes == multiset{}
    else Greatest(popped[0], nodes) && Drains(nodes - multiset{popped[0]}, popped[1..])
  }

  /** Draining a queue yields a permutation of its nodes in non-increasing priority. */
  lemma {:induction false} DrainSorts<T(!new)>(nodes: multiset<Node<T>>, popped: seq<Node<T>>)
    requires Drains(nodes, popped)
    ensures multiset(popped) == nodes && Falling(popped)
    decreases |popped|
  {
    if popped != [] {
      var others := popped[1..];
      DrainSorts(nodes - multiset{popped[0]}, others);
      FirstRemoved(nodes, popped[0], others);
      MostFirst(popped[0], others);
      assert popped == [popped[0]] + others;
    }
  }

  lemma FirstRemoved<T(!new)>(nodes: multiset<Node<T>>, first: Node<T>, others: seq<Node<T>>)
    requires Greatest(first, nodes) && multiset(others) == nodes - multiset{first}
    ensures multiset([first] + others) == nodes && forall n :: n in others ==> first.priority >= n.priority
  {
    assert multiset([first] + others) == multiset{first} + multiset(others);
    forall n | n in others ensures first.priority >= n.priority {
      assert n in multiset(others) && n in nodes;
    }
  }

  lemma MostFirst<T(!new)>(first: Node<T>, others: seq<Node<T>>)
    requires Falling(others) && forall n :: n in others ==> first.priority >= n.priority
    ensures Falling([first] + others)
  {
    var all := [first] + others;
    forall i, j | 0 <= i < j < |all| ensures all[i].priority >= all[j].priority {
      assert all[j] == others[j-1] && all[j] in others;
    }
  }

  ghost predicate Falling<T(!new)>(nodes: seq<Node<T>>) {
    forall i, j :: 0 <= i < j < |nodes| ==> nodes[i].priority >= nodes[j].priority
  }

  /** Conversely, a non-increasing sequence is a drain of its own nodes, so `Drains` says no
      more and no less than "sorted permutation". */
  lemma {:induction false} SortedIsADrain<T(!new)>(popped: seq<Node<T>>)
    requires Falling(popped)
    ensures Drains(multiset(popped), popped)
    decreases |popped|
  {
    if popped != [] {
      assert popped == [popped[0]] + popped[1..];
      assert multiset(popped) - multiset{popped[0]} == multiset(popped[1..]);
      FirstIsGreatest(popped);
      SortedIsADrain(popped[1..]);
    }
  }

  lemma FirstIsGreatest<T(!new)>(nodes: seq<Node<T>>)
    requires nodes != [] && Falling(nodes)
    ensures Greatest(nodes[0], multiset(nodes))
  {
    forall m | m in multiset(nodes) ensures !Greater(m, nodes[0]) {
      var i :| 0 <= i < |nodes| && nodes[i] == m;
    }
  }

  /** Two drains of the same nodes agree in the priority at every place: only ties are left to the heap. */
  lemma DrainsAgree<T(!new)>(nodes: multiset<Node<T>>, a: seq<Node<T>>, b: seq<Node<T>>)
    requires Drains(nodes, a) && Drains(nodes, b)
    ensures Map(a, PriorityOf()) == Map(b, PriorityOf())
  {
    DrainSorts(nodes, a);
    DrainSorts(nodes, b);
    MapPermutation(a, b, PriorityOf());
    SortedIsUnique(Map(a, PriorityOf()), Map(b, PriorityOf()));
  }

  function ValueOf<T>(): Node<T> -> T { (n: Node<T>) => n.value }

  function PriorityOf<T>(): Node<T> -> real { (n: Node<T>) => n.priority }

  ghost predicate NonIncreasing(xs: seq<real>) { forall i, j :: 0 <= i < j < |xs| ==> xs[i] >= xs[j] }

  lemma {:induction false} SortedIsUnique(xs: seq<real>, ys: seq<real>)
    requires multiset(xs) == multiset(ys) && NonIncreasing(xs) && NonIncreasing(ys)
    ensures xs == ys
  {
    assert |multiset(xs)| == |multiset(ys)|;
    if xs != [] {
      HeadIsMost(xs, ys);
      HeadIsMost(ys, xs);
      TailCounts(xs);
      TailCounts(ys);
      SortedIsUnique(xs[1..], ys[1..]);
      assert xs == [xs[0]] + xs[1..] && ys == [ys[0]] + ys[1..];
    }
  }

  lemma HeadIsMost(xs: seq<real>, ys: seq<real>)
    requires multiset(xs) == multiset(ys) && xs != [] && ys != [] && NonIncreasing(xs)
    ensures ys[0] <= xs[0]
  {
    assert ys[0] in multiset(xs);
    var k :| 0 <= k < |xs| && xs[k] == ys[0];
  }

  lemma TailCounts(xs: seq<real>)
    requires xs != []
    ensures multiset(xs[1..]) == multiset(xs) - multiset{xs[0]}
    ensures NonIncreasing(xs) ==> NonIncreasing(xs[1..])
  {
    assert xs == [xs[0]] + xs[1..];
  }

  /** Halfway through a drain: what was popped is in order and nothing left outranks it. */
  ghost predicate Draining<T(!new)>(nodes: multiset<Node<T>>, popped: seq<Node<T>>, left: multiset<Node<T>>) {
    && nodes == multiset(popped) + left
    && Falling(popped)
    && (forall i, n :: 0 <= i < |popped| && n in left ==> popped[i].priority >= n.priority)
  }

  lemma DrainingStep<T(!new)>(nodes: multiset<Node<T>>, popped: seq<Node<T>>, left: multiset<Node<T>>, root: Node<T>)
    requires Draining(nodes, popped, left) && Greatest(root, left)
    ensures Draining(nodes, popped + [root], left - multiset{root})
  {
    assert left == left - multiset{root} + multiset{root};
    assert multiset(popped + [root]) == multiset(popped) + multiset{root};
    FallingPush(popped, root);
  }

  lemma FallingPush<T(!new)>(popped: seq<Node<T>>, n: Node<T>)
    requires Falling(popped) && forall i :: 0 <= i < |popped| ==> popped[i].priority >= n.priority
    ensures Falling(popped + [n])
  {
  }

  /** Popping until the queue is empty yields the values of all its nodes, in non-increasing priority. */
  method Drain<T(!new)>(queue: PriorityQueue<T>) returns (values: seq<T>, ghost popped: seq<Node<T>>)
    requires queue.Valid()
    modifies queue
    ensures queue.Valid() && queue.heap == []
    ensures multiset(popped) == old(multiset(queue.heap))
    ensures Falling(popped)
    ensures values == Map(popped, ValueOf())
    ensures Drains(old(multiset(queue.heap)), popped)
  {
    values, popped := [], [];
    ghost var nodes := multiset(queue.heap);
    while |queue.heap| > 0
      invariant queue.Valid() && Draining(nodes, popped, multiset(queue.heap))
      invariant values == Map(popped, ValueOf())
      decreases |queue.heap|
    {
      ghost var root, left := queue.heap[0], multiset(queue.heap);
      var value := queue.Pop();
      DrainingStep(nodes, popped, left, root);
      MapPush(popped, root, ValueOf());
      values := values + [value.value];
      popped := popped + [root];
    }
    Drained(nodes, popped);
  }

  lemma Drained<T(!new)>(nodes: multiset<Node<T>>, popped: seq<Node<T>>)
    requires Draining(nodes, popped, multiset{})
    ensures multiset(popped) == nodes && Falling(popped) && Drains(nodes, popped)
  {
    assert multiset(popped) == nodes;
    SortedIsADrain(popped);
  }
}
