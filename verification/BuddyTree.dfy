/** The tree of the buddy allocator as a value, and the four tree walks of buddy.c as functions on it.

    A node's index and size follow from its place in the tree, so the datatype holds the states only and
    every function takes the index `base` and the `size` of the node it starts from. */
module BuddyTree {

  datatype Tree = Free | Used | Split(left: Tree, right: Tree)

  /** The tree after a call, and the value the call returns. */
  datatype Outcome = Outcome(tree: Tree, rt: int)

  predicate HasFree(t: Tree) {
    match t
    case Free => true
    case Used => false
    case Split(l, r) => HasFree(l) || HasFree(r)
  }

  /** `_buddy_alloc`. Without a FREE leaf any request ends; otherwise it must be positive. */
  function Alloc(t: Tree, base: int, size: nat, req: int): Outcome
    requires req >= 1 || !HasFree(t)
    decreases t, size
  {
    match t
    case Split(l, r) =>
      var a := Alloc(l, base, size / 2, req);
      if a.rt >= 0 then Outcome(Split(a.tree, r), a.rt)
      else
        var b := Alloc(r, base + size / 2, size / 2, req);
        Outcome(Split(a.tree, b.tree), b.rt)
    case Used => Outcome(Used, -1)
    case Free =>
      if size < req then Outcome(Free, -1)
      else if size / 2 >= req then
        var a := Alloc(Free, base, size / 2, req);
        Outcome(Split(a.tree, Free), a.rt)
      else Outcome(Used, base)
  }

  /** `_buddy_free`: both sides are always visited, and two FREE children are merged on the way back. */
  function Release(t: Tree, base: int, size: nat, idx: int): Outcome {
    match t
    case Split(l, r) =>
      var a := Release(l, base, size / 2, idx);
      var b := Release(r, base + size / 2, size / 2, idx);
      Outcome(if a.tree.Free? && b.tree.Free? then Free else Split(a.tree, b.tree),
              if a.rt == 0 || b.rt == 0 then 0 else -1)
    case Used => if base == idx then Outcome(Free, 0) else Outcome(Used, -1)
    case Free => Outcome(Free, -1)
  }

  /** `_buddy_size`: right side first. */
  function SizeQuery(t: Tree, base: int, size: nat, idx: int): int {
    match t
    case Split(l, r) =>
      var b := SizeQuery(r, base + size / 2, size / 2, idx);
      if b < 0 then SizeQuery(l, base, size / 2, idx) else b
    case Used => if base <= idx < base + size then base + size - idx else -1
    case Free => -1
  }

  /** What every reachable tree satisfies, and (see BuddyReach) nothing else does: a SPLIT node has at
      least two bytes and never two FREE children, and no live block is empty. */
  predicate Canonical(t: Tree, size: nat) {
    match t
    case Free => true
    case Used => size >= 1
    case Split(l, r) =>
      && size >= 2
      && !(l.Free? && r.Free?)
      && Canonical(l, size / 2)
      && Canonical(r, size / 2)
  }

  /** The live blocks: start index to size. */
  function Blocks(t: Tree, base: int, size: nat): map<int, int> {
    match t
    case Free => map[]
    case Used => map[base := size]
    case Split(l, r) => Blocks(l, base, size / 2) + Blocks(r, base + size / 2, size / 2)
  }

  /** The FREE leaves: start index to size. */
  function FreeLeaves(t: Tree, base: int, size: nat): map<int, int> {
    match t
    case Free => map[base := size]
    case Used => map[]
    case Split(l, r) => FreeLeaves(l, base, size / 2) + FreeLeaves(r, base + size / 2, size / 2)
  }

  /** Some block of `b` contains byte `x`. */
  ghost predicate Covered(b: map<int, int>, x: int) {
    exists i :: i in b && i <= x < i + b[i]
  }

  /** Non-empty blocks inside [lo, hi), no two overlapping. */
  ghost predicate Separate(b: map<int, int>, lo: int, hi: int) {
    && (forall i :: i in b ==> lo <= i && 1 <= b[i] && i + b[i] <= hi)
    && (forall i, j :: i in b && j in b && i < j ==> i + b[i] <= j)
  }

  ghost predicate Inside(b: map<int, int>, lo: int, hi: int) {
    forall i :: i in b ==> lo <= i < i + b[i] <= hi
  }

  lemma {:induction false} BlocksInside(t: Tree, base: int, size: nat)
    requires Canonical(t, size)
    ensures Inside(Blocks(t, base, size), base, base + size)
  {
    if t.Split? {
      BlocksInside(t.left, base, size / 2);
      BlocksInside(t.right, base + size / 2, size / 2);
    }
  }

  lemma {:induction false} BlocksSeparate(t: Tree, base: int, size: nat)
    requires Canonical(t, size)
    ensures Separate(Blocks(t, base, size), base, base + size)
  {
    if t.Split? {
      var h := size / 2;
      BlocksSeparate(t.left, base, h);
      BlocksSeparate(t.right, base + h, h);
      SeparateJoin(Blocks(t.left, base, h), Blocks(t.right, base + h, h), base, base + h, base + 2 * h);
    }
  }

  lemma SeparateJoin(l: map<int, int>, r: map<int, int>, lo: int, m: int, hi: int)
    requires lo <= m <= hi
    requires Separate(l, lo, m) && Separate(r, m, hi)
    ensures Separate(l + r, lo, hi)
  {
  }

  lemma {:induction false} FreeLeavesInside(t: Tree, base: int, size: nat)
    requires Canonical(t, size) && size >= 1
    ensures Inside(FreeLeaves(t, base, size), base, base + size)
    decreases t
  {
    if t.Split? {
      FreeLeavesInside(t.left, base, size / 2);
      FreeLeavesInside(t.right, base + size / 2, size / 2);
    }
  }

  lemma {:induction false} AllocShape(t: Tree, base: nat, size: nat, req: int)
    requires Canonical(t, size)
    requires req >= 1 || !HasFree(t)
    ensures var out := Alloc(t, base, size, req);
            && Canonical(out.tree, size)
            && (out.rt < 0 ==> out == Outcome(t, -1))
            && (out.rt >= 0 ==> !out.tree.Free? && base <= out.rt < base + size)
    decreases t, size
  {
    match t
    case Split(l, r) =>
      AllocShape(l, base, size / 2, req);
      AllocShape(r, base + size / 2, size / 2, req);
    case Used =>
    case Free =>
      if size / 2 >= req {
        AllocShape(Free, base, size / 2, req);
      }
  }

  /** `after` is `before` with one more block, at `i`, that holds the request and wastes less than half. */
  predicate Adds(before: map<int, int>, after: map<int, int>, i: int, req: int) {
    && i !in before
    && i in after
    && req <= after[i] <= 2 * req - 1
    && after == before[i := after[i]]
  }

  lemma AddsLeft(before: map<int, int>, after: map<int, int>, other: map<int, int>, i: int, req: int)
    requires Adds(before, after, i, req)
    requires i !in other
    ensures Adds(before + other, after + other, i, req)
  {
    assert after + other == (before + other)[i := after[i]];
  }

  lemma AddsRight(before: map<int, int>, after: map<int, int>, other: map<int, int>, i: int, req: int)
    requires Adds(before, after, i, req)
    requires i !in other
    ensures Adds(other + before, other + after, i, req)
  {
    assert other + after == (other + before)[i := after[i]];
  }

  lemma {:induction false} AllocAdds(t: Tree, base: nat, size: nat, req: int)
    requires Canonical(t, size)
    requires req >= 1 || !HasFree(t)
    requires Alloc(t, base, size, req).rt >= 0
    ensures var out := Alloc(t, base, size, req);
            Adds(Blocks(t, base, size), Blocks(out.tree, base, size), out.rt, req)
    decreases t, size
  {
    match t
    case Split(l, r) =>
      var h := size / 2;
      AllocShape(l, base, h, req);
      AllocShape(r, base + h, h, req);
      var a := Alloc(l, base, h, req);
      if a.rt >= 0 {
        AllocAdds(l, base, h, req);
        BlocksInside(r, base + h, h);
        AddsLeft(Blocks(l, base, h), Blocks(a.tree, base, h), Blocks(r, base + h, h), a.rt, req);
      } else {
        AllocAdds(r, base + h, h, req);
        BlocksInside(l, base, h);
        var b := Alloc(r, base + h, h, req);
        AddsRight(Blocks(r, base + h, h), Blocks(b.tree, base + h, h), Blocks(l, base, h), b.rt, req);
      }
    case Used =>
    case Free =>
      if size / 2 >= req {
        AllocAdds(Free, base, size / 2, req);
        var a := Alloc(Free, base, size / 2, req);
        AddsLeft(map[], Blocks(a.tree, base, size / 2), map[], a.rt, req);
      }
  }

  /** A successful allocation adds one block, inside the node's range and disjoint from the rest, of a size
      between the request and twice the request less one; the tree stays canonical. A failed one returns -1
      and changes nothing. */
  lemma AllocEffect(t: Tree, base: nat, size: nat, req: int)
    requires Canonical(t, size)
    requires req >= 1 || !HasFree(t)
    ensures var out := Alloc(t, base, size, req);
            && Canonical(out.tree, size)
            && (out.rt < 0 ==> out == Outcome(t, -1))
            && (out.rt >= 0 ==>
                  && Adds(Blocks(t, base, size), Blocks(out.tree, base, size), out.rt, req)
                  && Separate(Blocks(out.tree, base, size), base, base + size))
  {
    AllocShape(t, base, size, req);
    BlocksSeparate(Alloc(t, base, size, req).tree, base, size);
    if Alloc(t, base, size, req).rt >= 0 {
      AllocAdds(t, base, size, req);
    }
  }

  /** A release succeeds exactly when a live block starts at `idx`, removes that block alone, and keeps the
      tree canonical. */
  lemma {:induction false} ReleaseEffect(t: Tree, base: int, size: nat, idx: int)
    requires Canonical(t, size)
    ensures var out, before := Release(t, base, size, idx), Blocks(t, base, size);
            && Canonical(out.tree, size)
            && out.rt == (if idx in before then 0 else -1)
            && Blocks(out.tree, base, size) == before - {idx}
  {
    match t
    case Split(l, r) =>
      var h := size / 2;
      ReleaseEffect(l, base, h, idx);
      ReleaseEffect(r, base + h, h, idx);
      RemoveFromUnion(Blocks(l, base, h), Blocks(r, base + h, h), idx);
    case _ =>
  }

  lemma RemoveFromUnion(a: map<int, int>, b: map<int, int>, i: int)
    ensures (a - {i}) + (b - {i}) == (a + b) - {i}
  {
  }

  /** `idx` lies in the block that starts at `i`, `n` bytes before its end. */
  predicate EndsAfter(b: map<int, int>, i: int, idx: int, n: int) {
    i in b && i <= idx && n >= 1 && idx + n == i + b[i]
  }

  /** The size query answers exactly the distance to the end of the live block around `idx` (the one starting at
      `i`), or -1 if there is none. */
  lemma {:induction false} SizeQueryEffect(t: Tree, base: int, size: nat, idx: int) returns (i: int)
    requires Canonical(t, size)
    ensures var b, n := Blocks(t, base, size), SizeQuery(t, base, size, idx);
            && (n < 0 ==> n == -1 && !Covered(b, idx))
            && (n >= 0 ==> EndsAfter(b, i, idx, n) && base <= idx && idx + n <= base + size)
  {
    i := base;
    if t.Split? {
      var h := size / 2;
      i := SizeQueryEffect(t.right, base + h, h, idx);
      var j := SizeQueryEffect(t.left, base, h, idx);
      if SizeQuery(t.right, base + h, h, idx) < 0 {
        i := j;
      }
      BlocksInside(t.left, base, h);
      BlocksInside(t.right, base + h, h);
    }
  }
}
