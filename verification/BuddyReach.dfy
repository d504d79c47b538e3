/** Runs of the allocator: canonical trees are exactly the reachable ones; what every run conserves; which free
    leaf an allocation takes; when the recursion of an allocation ends and how deep it goes. */
module BuddyReach {
  import opened BuddyTree
  import opened BuddyCanonical
  import opened Powers

  datatype Op = AllocOp(req: int) | FreeOp(idx: int)

  predicate Valid(ops: seq<Op>) {
    forall k :: 0 <= k < |ops| && ops[k].AllocOp? ==> ops[k].req >= 1
  }

  function Step(t: Tree, base: int, size: nat, op: Op): Outcome
    requires op.AllocOp? ==> op.req >= 1
  {
    match op
    case AllocOp(req) => Alloc(t, base, size, req)
    case FreeOp(idx) => Release(t, base, size, idx)
  }

  function Exec(t: Tree, base: int, size: nat, ops: seq<Op>): Tree
    requires Valid(ops)
    decreases |ops|
  {
    if ops == [] then t else Exec(Step(t, base, size, ops[0]).tree, base, size, ops[1..])
  }

  ghost predicate Reachable(t: Tree, pool: nat) {
    exists ops :: Valid(ops) && Exec(Free, 0, pool, ops) == t
  }

  lemma {:induction false} ExecKeepsCanonical(t: Tree, base: nat, size: nat, ops: seq<Op>)
    requires Valid(ops)
    requires Canonical(t, size)
    ensures Canonical(Exec(t, base, size, ops), size)
    decreases |ops|
  {
    if ops != [] {
      match ops[0] {
        case AllocOp(req) => AllocEffect(t, base, size, req);
        case FreeOp(idx) => ReleaseEffect(t, base, size, idx);
      }
      ExecKeepsCanonical(Step(t, base, size, ops[0]).tree, base, size, ops[1..]);
    }
  }

  /** Every allocation in the run succeeds, and every free names an index of this node's range. */
  predicate Smooth(t: Tree, base: int, size: nat, ops: seq<Op>)
    requires Valid(ops)
    decreases |ops|
  {
    if ops == [] then true
    else
      && (ops[0].AllocOp? ==> Alloc(t, base, size, ops[0].req).rt >= 0)
      && (ops[0].FreeOp? ==> base <= ops[0].idx < base + size)
      && Smooth(Step(t, base, size, ops[0]).tree, base, size, ops[1..])
  }

  lemma {:induction false} Chain(t: Tree, base: int, size: nat, a: seq<Op>, b: seq<Op>)
    requires Valid(a) && Valid(b)
    requires Smooth(t, base, size, a)
    requires Smooth(Exec(t, base, size, a), base, size, b)
    ensures Valid(a + b) && Smooth(t, base, size, a + b)
    ensures Exec(t, base, size, a + b) == Exec(Exec(t, base, size, a), base, size, b)
    decreases |a|
  {
    if a == [] {
      assert a + b == b;
    } else {
      assert (a + b)[1..] == a[1..] + b;
      Chain(Step(t, base, size, a[0]).tree, base, size, a[1..], b);
    }
  }

  /** A smooth run of the left child is a smooth run of the parent, as long as the right child is not FREE. */
  lemma {:induction false} LiftLeft(l: Tree, r: Tree, base: nat, size: nat, ops: seq<Op>)
    requires Valid(ops)
    requires size >= 2 && !r.Free? && Canonical(r, size / 2)
    requires Smooth(l, base, size / 2, ops)
    ensures Smooth(Split(l, r), base, size, ops)
    ensures Exec(Split(l, r), base, size, ops) == Split(Exec(l, base, size / 2, ops), r)
    decreases |ops|
  {
    if ops != [] {
      if ops[0].FreeOp? {
        BlocksInside(r, base + size / 2, size / 2);
        FailedFreeChangesNothing(r, base + size / 2, size / 2, ops[0].idx);
      }
      LiftLeft(Step(l, base, size / 2, ops[0]).tree, r, base, size, ops[1..]);
    }
  }

  /** A smooth run of the right child is a smooth run of the parent while the left child is one live block. */
  lemma {:induction false} LiftRight(r: Tree, base: nat, size: nat, ops: seq<Op>)
    requires Valid(ops)
    requires size >= 2
    requires Smooth(r, base + size / 2, size / 2, ops)
    ensures Smooth(Split(Used, r), base, size, ops)
    ensures Exec(Split(Used, r), base, size, ops) == Split(Used, Exec(r, base + size / 2, size / 2, ops))
    decreases |ops|
  {
    if ops != [] {
      var r' := Step(r, base + size / 2, size / 2, ops[0]).tree;
      match ops[0] {
        case AllocOp(req) => assert Alloc(Used, base, size / 2, req).rt < 0;
        case FreeOp(idx) => assert Release(Used, base, size / 2, idx).tree == Used;
      }
      LiftRight(r', base, size, ops[1..]);
    }
  }

  /** A run that builds the canonical tree `t` from a FREE node. */
  function Recipe(t: Tree, base: int, size: nat): seq<Op> {
    match t
    case Free => []
    case Used => [AllocOp(size)]
    case Split(l, r) =>
      var h := size / 2;
      if r.Free? then
        [AllocOp(h), AllocOp(h), FreeOp(base)] + (Recipe(l, base, h) + [FreeOp(base + h)])
      else
        [AllocOp(h), AllocOp(h), FreeOp(base + h)] + (Recipe(r, base + h, h) + ([FreeOp(base)] + Recipe(l, base, h)))
  }

  /** `ops` is a smooth run from `t` to `u`. */
  predicate Leads(t: Tree, base: int, size: nat, ops: seq<Op>, u: Tree) {
    Valid(ops) && Smooth(t, base, size, ops) && Exec(t, base, size, ops) == u
  }

  lemma {:induction false} RecipeWorks(t: Tree, base: nat, size: nat)
    requires Canonical(t, size)
    ensures Leads(Free, base, size, Recipe(t, base, size), t)
  {
    match t
    case Free =>
    case Used =>
      assert Exec(Used, base, size, []) == Used;
    case Split(l, r) =>
      RecipeWorks(l, base, size / 2);
      RecipeWorks(r, base + size / 2, size / 2);
      if r.Free? {
        FillLeftOnly(l, base, size, Recipe(l, base, size / 2));
      } else {
        FillBoth(l, r, base, size, Recipe(l, base, size / 2), Recipe(r, base + size / 2, size / 2));
      }
  }

  lemma FillLeftOnly(l: Tree, base: nat, size: nat, ops: seq<Op>)
    requires size >= 2 && !l.Free? && Canonical(l, size / 2)
    requires Leads(Free, base, size / 2, ops, l)
    ensures var h := size / 2;
            Leads(Free, base, size, [AllocOp(h), AllocOp(h), FreeOp(base)] + (ops + [FreeOp(base + h)]), Split(l, Free))
  {
    var h := size / 2;
    OpenBothHalves(base, size, base);
    EmptyRight(l, base, size, ops);
    Chain(Free, base, size, [AllocOp(h), AllocOp(h), FreeOp(base)], ops + [FreeOp(base + h)]);
  }

  lemma EmptyRight(l: Tree, base: nat, size: nat, ops: seq<Op>)
    requires size >= 2 && !l.Free? && Canonical(l, size / 2)
    requires Leads(Free, base, size / 2, ops, l)
    ensures Leads(Split(Free, Used), base, size, ops + [FreeOp(base + size / 2)], Split(l, Free))
  {
    var h := size / 2;
    LiftLeft(Free, Used, base, size, ops);
    OneFree(Split(l, Used), base, size, base + h);
    BlocksInside(l, base, h);
    FailedFreeChangesNothing(l, base, h, base + h);
    Chain(Split(Free, Used), base, size, ops, [FreeOp(base + h)]);
  }

  lemma FillBoth(l: Tree, r: Tree, base: nat, size: nat, lops: seq<Op>, rops: seq<Op>)
    requires size >= 2 && !r.Free? && Canonical(r, size / 2)
    requires Leads(Free, base, size / 2, lops, l)
    requires Leads(Free, base + size / 2, size / 2, rops, r)
    ensures var h := size / 2;
            Leads(Free, base, size, [AllocOp(h), AllocOp(h), FreeOp(base + h)] + (rops + ([FreeOp(base)] + lops)),
                  Split(l, r))
  {
    var h := size / 2;
    OpenBothHalves(base, size, base + h);
    LiftRight(Free, base, size, rops);
    FillLeft(l, r, base, size, lops);
    Chain(Split(Used, Free), base, size, rops, [FreeOp(base)] + lops);
    Chain(Free, base, size, [AllocOp(h), AllocOp(h), FreeOp(base + h)], rops + ([FreeOp(base)] + lops));
  }

  lemma FillLeft(l: Tree, r: Tree, base: nat, size: nat, lops: seq<Op>)
    requires size >= 2 && !r.Free? && Canonical(r, size / 2)
    requires Leads(Free, base, size / 2, lops, l)
    ensures Leads(Split(Used, r), base, size, [FreeOp(base)] + lops, Split(l, r))
  {
    var h := size / 2;
    OneFree(Split(Used, r), base, size, base);
    BlocksInside(r, base + h, h);
    FailedFreeChangesNothing(r, base + h, h, base);
    LiftLeft(Free, r, base, size, lops);
    Chain(Split(Used, r), base, size, [FreeOp(base)], lops);
  }

  /** Two requests of half a node's size fill both halves; freeing one of them leaves the other. */
  lemma OpenBothHalves(base: nat, size: nat, idx: int)
    requires size >= 2
    requires idx == base || idx == base + size / 2
    ensures var h := size / 2;
            var ops := [AllocOp(h), AllocOp(h), FreeOp(idx)];
            && Valid(ops)
            && Smooth(Free, base, size, ops)
            && Exec(Free, base, size, ops) == if idx == base then Split(Free, Used) else Split(Used, Free)
  {
    var h := size / 2;
    assert Alloc(Free, base, h, h) == Outcome(Used, base);
    assert Alloc(Free, base, size, h) == Outcome(Split(Used, Free), base);
    assert Alloc(Free, base + h, h, h) == Outcome(Used, base + h);
    assert Alloc(Split(Used, Free), base, size, h) == Outcome(Split(Used, Used), base + h);
    OneFree(Split(Used, Used), base, size, idx);
    assert [AllocOp(h), AllocOp(h), FreeOp(idx)][1..] == [AllocOp(h), FreeOp(idx)];
    assert [AllocOp(h), FreeOp(idx)][1..] == [FreeOp(idx)];
  }

  lemma OneFree(t: Tree, base: nat, size: nat, idx: int)
    requires base <= idx < base + size
    ensures Exec(t, base, size, [FreeOp(idx)]) == Release(t, base, size, idx).tree
    ensures Smooth(t, base, size, [FreeOp(idx)])
  {
    var u := Release(t, base, size, idx).tree;
    assert [FreeOp(idx)][1..] == [];
    assert Exec(u, base, size, []) == u;
  }

  /** The trees that some run of allocations (of at least one byte) and frees produces from `buddy_init` are
      exactly the canonical ones. */
  lemma ReachableIffCanonical(t: Tree, pool: nat)
    ensures Reachable(t, pool) <==> Canonical(t, pool)
  {
    if Canonical(t, pool) {
      RecipeWorks(t, 0, pool);
      assert Exec(Free, 0, pool, Recipe(t, 0, pool)) == t;
    }
    forall ops | Valid(ops) && Exec(Free, 0, pool, ops) == t
      ensures Canonical(t, pool)
    {
      ExecKeepsCanonical(Free, 0, pool, ops);
    }
  }

  /** Two histories that leave the same live blocks leave the same tree. */
  lemma HistoryIsForgotten(pool: nat, a: seq<Op>, b: seq<Op>)
    requires Valid(a) && Valid(b)
    ensures Blocks(Exec(Free, 0, pool, a), 0, pool) == Blocks(Exec(Free, 0, pool, b), 0, pool) <==>
            Exec(Free, 0, pool, a) == Exec(Free, 0, pool, b)
  {
    ExecKeepsCanonical(Free, 0, pool, a);
    ExecKeepsCanonical(Free, 0, pool, b);
    if Blocks(Exec(Free, 0, pool, a), 0, pool) == Blocks(Exec(Free, 0, pool, b), 0, pool) {
      SameBlocksSameTree(Exec(Free, 0, pool, a), Exec(Free, 0, pool, b), 0, pool);
    }
  }

  /** `rt` is the leftmost entry of `free` that is large enough, or negative if there is none. */
  ghost predicate Leftmost(free: map<int, int>, rt: int, req: int) {
    if rt >= 0 then rt in free && free[rt] >= req && forall i :: i in free && free[i] >= req ==> rt <= i
    else forall i :: i in free ==> free[i] < req
  }

  lemma LeftmostJoin(l: map<int, int>, r: map<int, int>, a: int, b: int, lo: nat, m: int, hi: int, req: int)
    requires Inside(l, lo, m) && Inside(r, m, hi)
    requires Leftmost(l, a, req) && Leftmost(r, b, req)
    ensures Leftmost(l + r, if a >= 0 then a else b, req)
  {
  }

  /** An allocation takes the leftmost FREE leaf that is large enough, and fails only if there is none. */
  lemma {:induction false} LeftmostFit(t: Tree, base: nat, size: nat, req: int)
    requires Canonical(t, size)
    requires req >= 1
    ensures Leftmost(FreeLeaves(t, base, size), Alloc(t, base, size, req).rt, req)
    decreases t, size
  {
    match t
    case Split(l, r) =>
      var h := size / 2;
      LeftmostFit(l, base, h, req);
      LeftmostFit(r, base + h, h, req);
      FreeLeavesInside(l, base, h);
      FreeLeavesInside(r, base + h, h);
      LeftmostJoin(FreeLeaves(l, base, h), FreeLeaves(r, base + h, h), Alloc(l, base, h, req).rt,
                   Alloc(r, base + h, h, req).rt, base, base + h, base + 2 * h, req);
    case Used =>
    case Free =>
      if size / 2 >= req {
        assert FreeLeaves(Free, base, size / 2)[base] == size / 2;
        LeftmostFit(Free, base, size / 2, req);
      }
  }

  function Sum(leaves: Tree, size: nat): nat {
    if leaves.Split? then Sum(leaves.left, size / 2) + Sum(leaves.right, size / 2) else size
  }

  /** The SPLIT nodes of odd size; each loses one byte of the pool. */
  function OddSplits(t: Tree, size: nat): nat {
    if t.Split? then size % 2 + OddSplits(t.left, size / 2) + OddSplits(t.right, size / 2) else 0
  }

  /** No byte of the pool is lost except one under each SPLIT node of odd size. */
  lemma {:induction false} SpaceIsConserved(t: Tree, size: nat)
    ensures Sum(t, size) + OddSplits(t, size) == size
  {
    if t.Split? {
      SpaceIsConserved(t.left, size / 2);
      SpaceIsConserved(t.right, size / 2);
    }
  }

  datatype Option<T> = None | Some(value: T)

  /** `_buddy_alloc` with at most `depth` nested calls; None when that is not enough. Any request is accepted. */
  function AllocWithin(t: Tree, base: int, size: nat, req: int, depth: nat): Option<Outcome>
    decreases depth
  {
    if depth == 0 then None
    else match t
      case Split(l, r) =>
        (match AllocWithin(l, base, size / 2, req, depth - 1)
         case None => None
         case Some(a) =>
           if a.rt >= 0 then Some(Outcome(Split(a.tree, r), a.rt))
           else match AllocWithin(r, base + size / 2, size / 2, req, depth - 1)
             case None => None
             case Some(b) => Some(Outcome(Split(a.tree, b.tree), b.rt)))
      case Used => Some(Outcome(Used, -1))
      case Free =>
        if size < req then Some(Outcome(Free, -1))
        else if size / 2 >= req then
          match AllocWithin(Free, base, size / 2, req, depth - 1)
          case None => None
          case Some(a) => Some(Outcome(Split(a.tree, Free), a.rt))
        else Some(Outcome(Used, base))
  }

  /** For a request of at least one byte, or when nothing is FREE, log2 of the pool size plus one nested calls are
      enough and the answer is `Alloc`. */
  lemma {:induction false} AllocDepth(t: Tree, base: int, size: nat, req: int, depth: nat)
    requires Canonical(t, size)
    requires req >= 1 || !HasFree(t)
    requires depth >= 1 && size < Pow2(depth)
    ensures AllocWithin(t, base, size, req, depth) == Some(Alloc(t, base, size, req))
    decreases depth
  {
    match t
    case Split(l, r) =>
      AllocDepth(l, base, size / 2, req, depth - 1);
      AllocDepth(r, base + size / 2, size / 2, req, depth - 1);
    case Used =>
    case Free =>
      if size >= req && size / 2 >= req {
        AllocDepth(Free, base, size / 2, req, depth - 1);
      }
  }

  /** With a FREE leaf, a request below one byte never ends. */
  lemma {:induction false} AllocDiverges(t: Tree, base: nat, size: nat, req: int, depth: nat)
    requires Canonical(t, size)
    requires req <= 0 && HasFree(t)
    ensures AllocWithin(t, base, size, req, depth) == None
    decreases depth
  {
    if depth > 0 {
      match t
      case Split(l, r) =>
        if HasFree(l) {
          AllocDiverges(l, base, size / 2, req, depth - 1);
        } else {
          NoFreeNoFit(l, base, size / 2, req, depth - 1);
          AllocDiverges(r, base + size / 2, size / 2, req, depth - 1);
        }
      case Free => AllocDiverges(Free, base, size / 2, req, depth - 1);
      case Used =>
    }
  }

  lemma {:induction false} NoFreeNoFit(t: Tree, base: int, size: nat, req: int, depth: nat)
    requires !HasFree(t)
    ensures var r := AllocWithin(t, base, size, req, depth);
            r.Some? ==> r.value == Outcome(t, -1)
    decreases depth
  {
    if depth > 0 && t.Split? {
      NoFreeNoFit(t.left, base, size / 2, req, depth - 1);
      NoFreeNoFit(t.right, base + size / 2, size / 2, req, depth - 1);
    }
  }

  lemma {:induction false} LogBound(size: nat) returns (depth: nat)
    ensures depth >= 1 && size < Pow2(depth)
  {
    depth := 1;
    while size >= Pow2(depth)
      invariant depth >= 1 && Pow2(depth) > depth
      decreases size - depth
    {
      depth := depth + 1;
    }
  }

  /** `buddy_alloc` returns exactly when the request is at least one byte or no leaf is FREE. */
  lemma AllocEndsIff(t: Tree, base: nat, size: nat, req: int)
    requires Canonical(t, size)
    ensures (exists depth :: AllocWithin(t, base, size, req, depth).Some?) <==> req >= 1 || !HasFree(t)
  {
    if req >= 1 || !HasFree(t) {
      var depth := LogBound(size);
      AllocDepth(t, base, size, req, depth);
    } else {
      forall depth
        ensures AllocWithin(t, base, size, req, depth).None?
      {
        AllocDiverges(t, base, size, req, depth);
      }
    }
  }
}
