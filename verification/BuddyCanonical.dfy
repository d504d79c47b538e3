/** Canonical trees are determined by their live blocks. Undo, commutation and the effect of failing frees follow. */
module BuddyCanonical {
  import opened BuddyTree

  lemma {:induction false} NoBlocksIsFree(t: Tree, base: int, size: nat)
    requires Canonical(t, size)
    requires Blocks(t, base, size) == map[]
    ensures t.Free?
  {
    assert t.Used? ==> base in Blocks(t, base, size);
    if t.Split? {
      var bl, br := Blocks(t.left, base, size / 2), Blocks(t.right, base + size / 2, size / 2);
      assert bl.Keys + br.Keys == (bl + br).Keys == {};
      assert bl == map[] && br == map[];
      NoBlocksIsFree(t.left, base, size / 2);
      NoBlocksIsFree(t.right, base + size / 2, size / 2);
    }
  }

  /** The part of `b` that starts in [lo, hi). */
  function Within(b: map<int, int>, lo: int, hi: int): map<int, int> {
    map i | i in b && lo <= i < hi :: b[i]
  }

  lemma UnionWithin(l: map<int, int>, r: map<int, int>, lo: int, m: int, hi: int)
    requires Inside(l, lo, m) && Inside(r, m, hi)
    ensures Within(l + r, lo, m) == l && Within(l + r, m, hi) == r
    ensures lo < m && lo in l + r ==> (l + r)[lo] <= m - lo
  {
    assert forall i :: i in l ==> i in l + r && (l + r)[i] == l[i];
  }

  lemma SplitBlocks(t: Tree, base: int, size: nat)
    requires Canonical(t, size) && t.Split?
    ensures var b, h := Blocks(t, base, size), size / 2;
            && Blocks(t.left, base, h) == Within(b, base, base + h)
            && Blocks(t.right, base + h, h) == Within(b, base + h, base + 2 * h)
            && (base in b ==> b[base] <= h)
  {
    var h := size / 2;
    BlocksInside(t.left, base, h);
    BlocksInside(t.right, base + h, h);
    UnionWithin(Blocks(t.left, base, h), Blocks(t.right, base + h, h), base, base + h, base + 2 * h);
  }

  /** Two canonical trees over the same range with the same live blocks are the same tree. */
  lemma {:induction false} SameBlocksSameTree(t: Tree, u: Tree, base: int, size: nat)
    requires Canonical(t, size) && Canonical(u, size)
    requires Blocks(t, base, size) == Blocks(u, base, size)
    ensures t == u
  {
    if t.Free? {
      NoBlocksIsFree(u, base, size);
    } else if u.Free? {
      NoBlocksIsFree(t, base, size);
    } else {
      assert t.Used? || u.Used? ==> base in Blocks(t, base, size) && Blocks(t, base, size)[base] == size;
      if t.Split? {
        SplitBlocks(t, base, size);
      }
      if u.Split? {
        SplitBlocks(u, base, size);
      }
      if t.Split? && u.Split? {
        SameBlocksSameTree(t.left, u.left, base, size / 2);
        SameBlocksSameTree(t.right, u.right, base + size / 2, size / 2);
      }
    }
  }

  /** Freeing what was just allocated succeeds and restores the tree node for node. */
  lemma AllocThenFree(t: Tree, base: nat, size: nat, req: int)
    requires Canonical(t, size)
    requires req >= 1
    requires Alloc(t, base, size, req).rt >= 0
    ensures var out := Alloc(t, base, size, req);
            Release(out.tree, base, size, out.rt) == Outcome(t, 0)
  {
    var out := Alloc(t, base, size, req);
    AllocEffect(t, base, size, req);
    ReleaseEffect(out.tree, base, size, out.rt);
    AddThenRemove(Blocks(t, base, size), Blocks(out.tree, base, size), out.rt, req);
    SameBlocksSameTree(Release(out.tree, base, size, out.rt).tree, t, base, size);
  }

  lemma AddThenRemove(before: map<int, int>, after: map<int, int>, i: int, req: int)
    requires Adds(before, after, i, req)
    ensures after - {i} == before
  {
  }

  /** A free that returns -1 leaves the tree as it was; so a second free of the same block does nothing. */
  lemma {:induction false} FailedFreeChangesNothing(t: Tree, base: int, size: nat, idx: int)
    requires Canonical(t, size)
    ensures idx !in Blocks(t, base, size) <==> Release(t, base, size, idx) == Outcome(t, -1)
  {
    ReleaseEffect(t, base, size, idx);
    if idx !in Blocks(t, base, size) {
      SameBlocksSameTree(Release(t, base, size, idx).tree, t, base, size);
    }
  }

  /** Frees of two indices commute: same tree, same return codes. */
  lemma FreesCommute(t: Tree, base: int, size: nat, i: int, j: int)
    requires Canonical(t, size)
    requires i != j
    ensures var a, b := Release(t, base, size, i), Release(t, base, size, j);
            && Release(a.tree, base, size, j) == Outcome(Release(b.tree, base, size, i).tree, b.rt)
            && Release(b.tree, base, size, i).rt == a.rt
  {
    var a, b := Release(t, base, size, i), Release(t, base, size, j);
    ReleaseEffect(t, base, size, i);
    ReleaseEffect(t, base, size, j);
    ReleaseEffect(a.tree, base, size, j);
    ReleaseEffect(b.tree, base, size, i);
    var blocks := Blocks(t, base, size);
    assert (blocks - {i}) - {j} == (blocks - {j}) - {i};
    SameBlocksSameTree(Release(a.tree, base, size, j).tree, Release(b.tree, base, size, i).tree, base, size);
  }

  function ReleaseAll(t: Tree, base: int, size: nat, idxs: seq<int>): Tree
    decreases idxs
  {
    if idxs == [] then t else ReleaseAll(Release(t, base, size, idxs[0]).tree, base, size, idxs[1..])
  }

  /** After freeing a list of indices the single FREE root is left exactly if the list names every live block. */
  lemma {:induction false} FreeingEverythingGivesTheRoot(t: Tree, base: int, size: nat, idxs: seq<int>)
    requires Canonical(t, size)
    ensures ReleaseAll(t, base, size, idxs) == Free <==> forall i :: i in Blocks(t, base, size) ==> i in idxs
    decreases idxs
  {
    if idxs == [] {
      if forall i :: i in Blocks(t, base, size) ==> i in idxs {
        assert Blocks(t, base, size) == map[];
        NoBlocksIsFree(t, base, size);
      }
    } else {
      ReleaseEffect(t, base, size, idxs[0]);
      FreeingEverythingGivesTheRoot(Release(t, base, size, idxs[0]).tree, base, size, idxs[1..]);
      assert forall i :: i in idxs <==> i == idxs[0] || i in idxs[1..];
    }
  }

  /** Inside a live block the size query counts down byte by byte to 1, and it never reaches beyond the block. */
  lemma {:induction false} SizeQueryInsideBlock(t: Tree, base: int, size: nat, i: int, d: nat)
    requires Canonical(t, size)
    requires i in Blocks(t, base, size)
    requires d < Blocks(t, base, size)[i]
    ensures SizeQuery(t, base, size, i + d) == Blocks(t, base, size)[i] - d
  {
    if t.Split? {
      var h := size / 2;
      BlocksInside(t.left, base, h);
      BlocksInside(t.right, base + h, h);
      if i in Blocks(t.right, base + h, h) {
        SizeQueryInsideBlock(t.right, base + h, h, i, d);
      } else {
        SizeQueryInsideBlock(t.left, base, h, i, d);
        assert i + d < base + h;
        var j := SizeQueryEffect(t.right, base + h, h, i + d);
      }
    }
  }

  /** The same query searching the left side first. */
  function SizeQueryLeftFirst(t: Tree, base: int, size: nat, idx: int): int {
    match t
    case Split(l, r) =>
      var a := SizeQueryLeftFirst(l, base, size / 2, idx);
      if a < 0 then SizeQueryLeftFirst(r, base + size / 2, size / 2, idx) else a
    case Used => if base <= idx < base + size then base + size - idx else -1
    case Free => -1
  }

  /** The search order of the size query does not matter. */
  lemma {:induction false} SearchOrderIsIrrelevant(t: Tree, base: int, size: nat, idx: int)
    requires Canonical(t, size)
    ensures SizeQueryLeftFirst(t, base, size, idx) == SizeQuery(t, base, size, idx)
  {
    if t.Split? {
      SearchOrderIsIrrelevant(t.left, base, size / 2, idx);
      SearchOrderIsIrrelevant(t.right, base + size / 2, size / 2, idx);
      var i := SizeQueryEffect(t.left, base, size / 2, idx);
      var j := SizeQueryEffect(t.right, base + size / 2, size / 2, idx);
    }
  }
}
