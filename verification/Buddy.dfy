/** The allocator of buddy.c: heap nodes updated in place, taken from and given back to the C heap. */
module Buddy {
  import opened BuddyTree
  import opened BuddyCanonical
  import R = BuddyReach
  import F = BuddyFirstFit

  type byte = x: int | 0 <= x < 256

  /** How many nodes a tree has. */
  function Nodes(t: Tree): nat {
    if t.Split? then 1 + Nodes(t.left) + Nodes(t.right) else 1
  }

  datatype State = FREE | SPLIT | ALLOC

  class Node {
    var idx: int
    var state: State
    var size: int
    var left: Node?
    var right: Node?
    ghost var tree: Tree       // the tree below this node
    ghost var Repr: set<Node>  // includes every node of that tree
    ghost var alive: bool      // allocated and not yet given back to the C heap

    /** The fields of this node and its children fit together. The links of a node that is not SPLIT are never read
        and may hold anything. */
    ghost predicate Fits()
      requires state == SPLIT ==> left != null && right != null
      reads this, if state == SPLIT then {left, right} else {}
    {
      && this in Repr && alive && size >= 0
      && (state == FREE ==> tree == Free)
      && (state == ALLOC ==> tree == Used)
      && (state == SPLIT ==>
            && tree == Split(left.tree, right.tree)
            && left in Repr && right in Repr && left.Repr <= Repr && right.Repr <= Repr
            && this !in left.Repr && this !in right.Repr && left.Repr !! right.Repr
            && left.idx == idx && right.idx == idx + size / 2
            && left.size == size / 2 && right.size == size / 2)
    }

    ghost predicate Valid()
      reads this, Repr
      decreases Repr
      ensures Valid() ==> this in Repr && alive && size >= 0
    {
      && this in Repr
      && (state == SPLIT ==> left != null && right != null && left in Repr && right in Repr)
      && Fits()
      && (state == SPLIT ==> left.Valid() && right.Valid())
    }
  }

  /** The C heap as far as nodes go: how often it was asked for a node, and how often one was given back. */
  class Heap {
    ghost var mallocs: nat
    ghost var frees: nat

    constructor ()
      ensures mallocs == 0 && frees == 0
    {
      mallocs, frees := 0, 0;
    }

    /** `bmalloc(sizeof(node_t))`, which is taken to succeed; the fields hold anything. */
    method BMalloc() returns (n: Node)
      modifies this
      ensures fresh(n) && n.alive
      ensures mallocs == old(mallocs) + 1 && frees == old(frees)
    {
      n := new Node;
      n.alive, mallocs := true, mallocs + 1;
    }

    /** `bfree`: the node must be allocated, so nothing is given back twice. */
    method BFree(n: Node)
      requires n.alive
      modifies this, n`alive
      ensures !n.alive
      ensures mallocs == old(mallocs) && frees == old(frees) + 1
    {
      n.alive, frees := false, frees + 1;
    }
  }

  /** Lines 66 to 78: a FREE node becomes SPLIT, with two new FREE children of half its size. */
  method Halve(heap: Heap, n: Node)
    requires n.Valid() && n.state == FREE
    modifies heap, n
    ensures n.Valid() && n.state == SPLIT && n.tree == Split(Free, Free)
    ensures n.idx == old(n.idx) && n.size == old(n.size)
    ensures fresh(n.Repr - old(n.Repr)) && old(n.Repr) <= n.Repr
    ensures fresh(n.left.Repr) && fresh(n.right.Repr)
    ensures heap.mallocs == old(heap.mallocs) + 2 && heap.frees == old(heap.frees)
  {
    n.state := SPLIT;
    n.left := heap.BMalloc();
    n.right := heap.BMalloc();
    n.left.state := FREE;
    n.right.state := FREE;
    n.left.size := n.size / 2;
    n.right.size := n.size / 2;
    n.left.idx := n.idx;
    n.right.idx := n.idx + n.size / 2;
    n.left.left := null;
    n.right.right := null;
    n.left.tree, n.left.Repr := Free, {n.left};
    n.right.tree, n.right.Repr := Free, {n.right};
    n.tree, n.Repr := Split(Free, Free), n.Repr + {n.left, n.right};
  }

  /** The call of `_buddy_alloc` on the left child. */
  method AllocLeft(heap: Heap, n: Node, size: int) returns (rt: int)
    requires n.Valid() && n.state == SPLIT
    requires size >= 1 || !HasFree(n.left.tree)
    modifies heap, n.Repr
    ensures n.Valid() && n.state == SPLIT && n.idx == old(n.idx) && n.size == old(n.size)
    ensures var out := Alloc(old(n.tree).left, n.left.idx, n.size / 2, size);
            rt == out.rt && n.tree == Split(out.tree, old(n.tree).right)
    ensures fresh(n.Repr - old(n.Repr)) && old(n.Repr) <= n.Repr
    ensures heap.mallocs - Nodes(n.tree) == old(heap.mallocs - Nodes(n.tree)) && heap.frees == old(heap.frees)
    decreases n.left.tree, n.size / 2, 1
  {
    rt := AllocNode(heap, n.left, size);
    n.tree, n.Repr := Split(n.left.tree, n.right.tree), n.Repr + n.left.Repr;
  }

  /** The call of `_buddy_alloc` on the right child. */
  method AllocRight(heap: Heap, n: Node, size: int) returns (rt: int)
    requires n.Valid() && n.state == SPLIT
    requires size >= 1 || !HasFree(n.right.tree)
    modifies heap, n.Repr
    ensures n.Valid() && n.state == SPLIT && n.idx == old(n.idx) && n.size == old(n.size)
    ensures var out := Alloc(old(n.tree).right, n.right.idx, n.size / 2, size);
            rt == out.rt && n.tree == Split(old(n.tree).left, out.tree)
    ensures fresh(n.Repr - old(n.Repr)) && old(n.Repr) <= n.Repr
    ensures heap.mallocs - Nodes(n.tree) == old(heap.mallocs - Nodes(n.tree)) && heap.frees == old(heap.frees)
    decreases n.right.tree, n.size / 2, 1
  {
    rt := AllocNode(heap, n.right, size);
    n.tree, n.Repr := Split(n.left.tree, n.right.tree), n.Repr + n.right.Repr;
  }

  /** Lines 63 to 81: a FREE node that is large enough for two is halved, and the request goes to its left half. */
  method AllocHalf(heap: Heap, n: Node, size: int) returns (rt: int)
    requires n.Valid() && n.state == FREE && 1 <= size <= n.size / 2
    modifies heap, n.Repr
    ensures n.Valid() && n.idx == old(n.idx) && n.size == old(n.size)
    ensures Outcome(n.tree, rt) == Alloc(Free, n.idx, n.size, size)
    ensures fresh(n.Repr - old(n.Repr)) && old(n.Repr) <= n.Repr
    ensures heap.mallocs - Nodes(n.tree) == old(heap.mallocs - Nodes(n.tree)) && heap.frees == old(heap.frees)
    decreases Free, n.size / 2, 2
  {
    Halve(heap, n);
    rt := AllocLeft(heap, n, size);
  }

  /** `_buddy_alloc` */
  method AllocNode(heap: Heap, n: Node, size: int) returns (rt: int)
    requires n.Valid()
    requires size >= 1 || !HasFree(n.tree)
    modifies heap, n.Repr
    ensures n.Valid() && n.idx == old(n.idx) && n.size == old(n.size)
    ensures Outcome(n.tree, rt) == Alloc(old(n.tree), n.idx, n.size, size)
    ensures fresh(n.Repr - old(n.Repr)) && old(n.Repr) <= n.Repr
    ensures heap.mallocs - Nodes(n.tree) == old(heap.mallocs - Nodes(n.tree)) && heap.frees == old(heap.frees)
    decreases n.tree, n.size, 0
  {
    if n.state == SPLIT {
      rt := AllocLeft(heap, n, size);
      if rt >= 0 {
        return;
      }
      rt := AllocRight(heap, n, size);
      return;
    }
    if n.state != FREE {
      return -1;
    }
    if n.size < size {
      return -1;
    }
    if n.size / 2 >= size {
      rt := AllocHalf(heap, n, size);
      return;
    }
    n.state, n.tree := ALLOC, Used;
    return n.idx;
  }

  /** Lines 110 to 116 of `_buddy_free`: two FREE children are given back and their parent becomes FREE. */
  method MergeIfFree(heap: Heap, n: Node)
    requires n.Valid() && n.state == SPLIT
    modifies heap, n, n.left`alive, n.right`alive
    ensures n.Valid() && n.idx == old(n.idx) && n.size == old(n.size) && n.Repr == old(n.Repr)
    ensures n.tree == if old(n.tree) == Split(Free, Free) then Free else old(n.tree)
    ensures heap.frees + Nodes(n.tree) == old(heap.frees + Nodes(n.tree)) && heap.mallocs == old(heap.mallocs)
  {
    if n.left.state == FREE && n.right.state == FREE {
      heap.BFree(n.left);
      heap.BFree(n.right);
      n.left := null;
      n.right := null;
      n.state, n.tree := FREE, Free;
    }
  }

  /** The two calls of `_buddy_free` on the children. */
  method FreeBelow(heap: Heap, n: Node, idx: int) returns (rtLeft: int, rtRight: int)
    requires n.Valid() && n.state == SPLIT
    modifies heap, n.Repr
    ensures n.Valid() && n.state == SPLIT && n.idx == old(n.idx) && n.size == old(n.size) && n.Repr == old(n.Repr)
    ensures var l, r := old(n.tree).left, old(n.tree).right;
            var a, b := Release(l, n.idx, n.size / 2, idx), Release(r, n.idx + n.size / 2, n.size / 2, idx);
            rtLeft == a.rt && rtRight == b.rt && n.tree == Split(a.tree, b.tree)
    ensures heap.frees + Nodes(n.tree) == old(heap.frees + Nodes(n.tree)) && heap.mallocs == old(heap.mallocs)
    decreases n.tree, 0
  {
    rtLeft := FreeNode(heap, n.left, idx);
    rtRight := FreeNode(heap, n.right, idx);
    n.tree := Split(n.left.tree, n.right.tree);
  }

  /** `_buddy_free` on a SPLIT node. */
  method FreeSplit(heap: Heap, n: Node, idx: int) returns (rt: int)
    requires n.Valid() && n.state == SPLIT
    modifies heap, n.Repr
    ensures n.Valid() && n.idx == old(n.idx) && n.size == old(n.size) && n.Repr == old(n.Repr)
    ensures Outcome(n.tree, rt) == Release(old(n.tree), n.idx, n.size, idx)
    ensures heap.frees + Nodes(n.tree) == old(heap.frees + Nodes(n.tree)) && heap.mallocs == old(heap.mallocs)
    decreases n.tree, 1
  {
    var rtLeft, rtRight := FreeBelow(heap, n, idx);
    MergeIfFree(heap, n);
    if rtLeft == 0 || rtRight == 0 {
      return 0;
    }
    return -1;
  }

  /** `_buddy_free` */
  method FreeNode(heap: Heap, n: Node, idx: int) returns (rt: int)
    requires n.Valid()
    modifies heap, n.Repr
    ensures n.Valid() && n.idx == old(n.idx) && n.size == old(n.size)
    ensures Outcome(n.tree, rt) == Release(old(n.tree), n.idx, n.size, idx)
    ensures n.Repr == old(n.Repr)
    ensures heap.frees + Nodes(n.tree) == old(heap.frees + Nodes(n.tree)) && heap.mallocs == old(heap.mallocs)
    decreases n.tree, 2
  {
    if n.state == SPLIT {
      rt := FreeSplit(heap, n, idx);
      return;
    }
    if n.idx == idx && n.state == ALLOC {
      n.state, n.tree := FREE, Free;
      return 0;
    }
    return -1;
  }

  /** `_buddy_size` */
  method SizeNode(n: Node, idx: int) returns (rt: int)
    requires n.Valid()
    ensures rt == SizeQuery(n.tree, n.idx, n.size, idx)
    decreases n.tree
  {
    if n.state == SPLIT {
      rt := SizeNode(n.right, idx);
      if rt < 0 {
        rt := SizeNode(n.left, idx);
      }
      return;
    }
    if idx >= n.idx && idx < n.idx + n.size && n.state == ALLOC {
      return n.idx + n.size - idx;
    }
    return -1;
  }

  /** `_buddy_kill`: gives back as many nodes as the tree has, none of them twice. */
  method KillNode(heap: Heap, n: Node)
    requires n.Valid()
    modifies heap, n.Repr`alive
    ensures heap.frees == old(heap.frees) + Nodes(n.tree) && heap.mallocs == old(heap.mallocs)
    decreases n.tree
  {
    if n.state == SPLIT {
      KillNode(heap, n.left);
      KillNode(heap, n.right);
    }
    heap.BFree(n);
  }

  /** The globals of buddy.c once `buddy_init` has set them up. */
  class BuddyAllocator {
    const heap: Heap
    const head: Node
    const pool: array<byte>

    /** The tree is one that some run of allocations and frees can reach; the pool is as long as the root says; every
        node the C heap handed out and did not get back is in the tree. */
    ghost predicate Valid()
      reads heap, head, head.Repr
    {
      && head.Valid() && head.idx == 0 && head.size == pool.Length
      && Canonical(head.tree, head.size)
      && heap.mallocs == heap.frees + Nodes(head.tree)
    }

    ghost function Live(): map<int, int>
      requires Valid()
      reads heap, head, head.Repr
    {
      Blocks(head.tree, 0, head.size)
    }

    constructor (heap: Heap, head: Node, pool: array<byte>)
      ensures this.heap == heap && this.head == head && this.pool == pool
    {
      this.heap, this.head, this.pool := heap, head, pool;
    }

    /** `buddy_alloc`: one more live block, inside the pool, disjoint from the others (BlocksSeparate), at least as
        large as asked and less than twice that; or -1 and no change. */
    method BuddyAlloc(size: int) returns (rt: int)
      requires Valid()
      requires size >= 1 || !HasFree(head.tree)
      modifies heap, head.Repr
      ensures Valid() && fresh(head.Repr - old(head.Repr)) && head.size == old(head.size)
      ensures Outcome(head.tree, rt) == Alloc(old(head.tree), 0, head.size, size)
      ensures rt < 0 ==> rt == -1 && head.tree == old(head.tree)
      ensures rt >= 0 ==> Adds(old(Live()), Live(), rt, size)
    {
      AllocEffect(head.tree, 0, head.size, size);
      rt := AllocNode(heap, head, size);
    }

    /** `buddy_free`: 0 and one block less, or -1 and no change. */
    method BuddyFree(idx: int) returns (rt: int)
      requires Valid()
      modifies heap, head.Repr
      ensures Valid() && head.Repr == old(head.Repr) && head.size == old(head.size)
      ensures Outcome(head.tree, rt) == Release(old(head.tree), 0, head.size, idx)
      ensures rt == if idx in old(Live()) then 0 else -1
      ensures Live() == old(Live()) - {idx}
      ensures rt == -1 ==> head.tree == old(head.tree)
    {
      ReleaseEffect(head.tree, 0, head.size, idx);
      FailedFreeChangesNothing(head.tree, 0, head.size, idx);
      rt := FreeNode(heap, head, idx);
    }

    /** A run of allocations and frees does and returns what the tree as a value does. */
    method BuddyRun(ops: seq<R.Op>) returns (rts: seq<int>)
      requires Valid() && R.Valid(ops)
      modifies heap, head.Repr
      ensures Valid() && fresh(head.Repr - old(head.Repr)) && head.size == old(head.size)
      ensures head.tree == R.Exec(old(head.tree), 0, head.size, ops)
      ensures rts == F.Returns(old(head.tree), 0, head.size, ops)
    {
      ghost var tree := head.tree;
      rts := [];
      for i := 0 to |ops|
        invariant Valid() && fresh(head.Repr - old(head.Repr)) && head.size == old(head.size)
        invariant R.Exec(head.tree, 0, head.size, ops[i..]) == R.Exec(tree, 0, head.size, ops)
        invariant rts + F.Returns(head.tree, 0, head.size, ops[i..]) == F.Returns(tree, 0, head.size, ops)
      {
        assert ops[i..][0] == ops[i] && ops[i..][1..] == ops[i + 1..];
        ghost var before := head.tree;
        var rt := BuddyOp(ops[i]);
        assert F.Returns(before, 0, head.size, ops[i..]) == [rt] + F.Returns(head.tree, 0, head.size, ops[i + 1..]);
        rts := rts + [rt];
      }
    }

    /** So it does what an allocator does that knows the block map alone. */
    method BuddyRunOnMap(ops: seq<R.Op>) returns (rts: seq<int>)
      requires Valid() && R.Valid(ops)
      modifies heap, head.Repr
      ensures Valid() && fresh(head.Repr - old(head.Repr)) && head.size == old(head.size)
      ensures F.MapRun(old(Live()), head.size, ops, rts, Live())
    {
      F.TreeRefinesMap(head.tree, head.size, ops);
      rts := BuddyRun(ops);
    }

    method BuddyOp(op: R.Op) returns (rt: int)
      requires Valid() && (op.AllocOp? ==> op.req >= 1)
      modifies heap, head.Repr
      ensures Valid() && fresh(head.Repr - old(head.Repr)) && head.size == old(head.size)
      ensures Outcome(head.tree, rt) == R.Step(old(head.tree), 0, head.size, op)
    {
      match op
      case AllocOp(req) => rt := BuddyAlloc(req);
      case FreeOp(idx) => rt := BuddyFree(idx);
    }

    /** `buddy_size` */
    method BuddySize(idx: int) returns (rt: int)
      requires Valid()
      ensures rt == SizeQuery(head.tree, 0, head.size, idx)
    {
      rt := SizeNode(head, idx);
    }

    /** `buddy_kill`: the C heap has every node back. The pool itself is not given back. */
    method BuddyKill()
      requires Valid()
      modifies heap, head.Repr`alive
      ensures heap.mallocs == heap.frees
    {
      KillNode(heap, head);
    }
  }

  /** `buddy_init`. Either allocation may fail; a negative size is a request that no heap can meet. */
  method BuddyInit(size: int, poolFails: bool, headFails: bool) returns (rt: int, buddy: BuddyAllocator?)
    requires size < 0 ==> poolFails
    ensures rt == (if poolFails || headFails then -1 else 0)
    ensures buddy == null <==> rt == -1
    ensures buddy != null ==>
              && fresh(buddy) && fresh(buddy.heap) && fresh(buddy.head.Repr) && fresh(buddy.pool)
              && buddy.Valid() && buddy.head.tree == Free && buddy.pool.Length == size && buddy.Live() == map[]
  {
    if poolFails {
      return -1, null;
    }
    var pool := new byte[size];
    if headFails {
      return -1, null;
    }
    var heap := new Heap();
    var head := heap.BMalloc();
    head.left := null;
    head.right := null;
    head.state := FREE;
    head.size := size;
    head.idx := 0;
    head.tree, head.Repr := Free, {head};
    buddy := new BuddyAllocator(heap, head, pool);
    return 0, buddy;
  }

  /** What the C heap is owed: two nodes for every SPLIT one, and the root. */
  lemma {:induction false} NodesOfSplits(t: Tree)
    ensures Nodes(t) == 2 * Splits(t) + 1
  {
    if t.Split? {
      NodesOfSplits(t.left);
      NodesOfSplits(t.right);
    }
  }

  function Splits(t: Tree): nat {
    if t.Split? then 1 + Splits(t.left) + Splits(t.right) else 0
  }
}
