/** The tree is invisible: in a pool of any size the allocator is the first-fit allocator over the positions that
    repeated halving reaches. In a pool of 2^k bytes these are the aligned runs of 2^e bytes. */
module BuddyFirstFit {
  import opened BuddyTree
  import opened BuddyCanonical
  import opened BuddyReach
  import opened Powers

  /** No byte of [a, a + n) belongs to a live block. */
  ghost predicate FreeRun(b: map<int, int>, a: int, n: int) {
    forall x :: a <= x < a + n ==> !Covered(b, x)
  }

  /** Halving the `size` bytes from `base` on, rounding down, reaches the `n` bytes from `a` on. */
  predicate Slot(base: int, size: nat, a: int, n: int)
    decreases size
  {
    || (a == base && n == size)
    || (size >= 2 && (Slot(base, size / 2, a, n) || Slot(base + size / 2, size / 2, a, n)))
  }

  /** The last size that halving reaches before it becomes too small for the request. */
  function Fit(size: nat, req: int): nat
    requires req >= 1
  {
    if size / 2 >= req then Fit(size / 2, req) else size
  }

  lemma {:induction false} SlotInside(base: int, size: nat, a: int, n: int)
    requires Slot(base, size, a, n)
    ensures base <= a && a + n <= base + size && 0 <= n && (size >= 1 ==> n >= 1)
    decreases size
  {
    if size >= 2 && !(a == base && n == size) {
      var h := size / 2;
      var b := if Slot(base, h, a, n) then base else base + h;
      SlotInside(b, h, a, n);
    }
  }

  /** A position that is large enough begins with one of the least sufficient size. */
  lemma {:induction false} SufficientSlot(base: int, size: nat, a: int, n: int, req: int)
    requires Slot(base, size, a, n) && n >= req >= 1
    ensures Slot(base, size, a, Fit(size, req)) && req <= Fit(size, req) <= n
    decreases size
  {
    if a == base && n == size {
      if size / 2 >= req {
        SufficientSlot(base, size / 2, base, size / 2, req);
      }
    } else {
      var b := if Slot(base, size / 2, a, n) then base else base + size / 2;
      SlotInside(b, size / 2, a, n);
      SufficientSlot(b, size / 2, a, n, req);
    }
  }

  /** Of the sizes that halving reaches, only the least sufficient one wastes less than half. */
  lemma {:induction false} OnlyFitIsTight(base: int, size: nat, a: int, n: int, req: int)
    requires Slot(base, size, a, n) && 1 <= req <= n <= 2 * req - 1
    ensures n == Fit(size, req)
    decreases size
  {
    if size >= 2 && !(a == base && n == size) {
      var b := if Slot(base, size / 2, a, n) then base else base + size / 2;
      SlotInside(b, size / 2, a, n);
      OnlyFitIsTight(b, size / 2, a, n, req);
    }
  }

  /** With `l` below `m` and `r` from `m` on, each byte is decided by its own side. */
  lemma UnionCovers(l: map<int, int>, r: map<int, int>, lo: int, m: int, hi: int, x: int)
    requires Inside(l, lo, m) && Inside(r, m, hi)
    ensures Covered(l + r, x) <==> if x < m then Covered(l, x) else Covered(r, x)
  {
    var c := l + r;
    if Covered(c, x) {
      var i :| i in c && i <= x < i + c[i];
    }
    if Covered(l, x) {
      var i :| i in l && i <= x < i + l[i];
      assert i in c;
    }
    if Covered(r, x) {
      var i :| i in r && i <= x < i + r[i];
      assert i in c;
    }
  }

  lemma UnionFreeRun(l: map<int, int>, r: map<int, int>, lo: int, m: int, hi: int, a: int, n: int)
    requires Inside(l, lo, m) && Inside(r, m, hi)
    requires a + n <= m || m <= a
    ensures FreeRun(l + r, a, n) <==> if a + n <= m then FreeRun(l, a, n) else FreeRun(r, a, n)
  {
    forall x
      ensures Covered(l + r, x) <==> if x < m then Covered(l, x) else Covered(r, x)
    {
      UnionCovers(l, r, lo, m, hi, x);
    }
  }

  lemma {:induction false} UsedIsCovered(t: Tree, base: int, size: nat) returns (x: int)
    requires Canonical(t, size)
    requires !t.Free?
    ensures x in Blocks(t, base, size) && base <= x < base + size && Covered(Blocks(t, base, size), x)
  {
    BlocksSeparate(t, base, size);
    x := base;
    if t.Split? && !t.left.Free? {
      x := UsedIsCovered(t.left, base, size / 2);
    } else if t.Split? {
      x := UsedIsCovered(t.right, base + size / 2, size / 2);
    }
    assert x in Blocks(t, base, size);
  }

  /** Every FREE leaf is a position without a live byte. */
  lemma {:induction false} FreeLeafIsSlot(t: Tree, base: int, size: nat, i: int)
    requires Canonical(t, size) && i in FreeLeaves(t, base, size)
    ensures Slot(base, size, i, FreeLeaves(t, base, size)[i])
    ensures FreeRun(Blocks(t, base, size), i, FreeLeaves(t, base, size)[i])
  {
    if t.Split? {
      var h, n := size / 2, FreeLeaves(t, base, size)[i];
      BlocksInside(t.left, base, h);
      BlocksInside(t.right, base + h, h);
      if i in FreeLeaves(t.right, base + h, h) {
        FreeLeafIsSlot(t.right, base + h, h, i);
        SlotInside(base + h, h, i, n);
      } else {
        FreeLeafIsSlot(t.left, base, h, i);
        SlotInside(base, h, i, n);
      }
      UnionFreeRun(Blocks(t.left, base, h), Blocks(t.right, base + h, h), base, base + h, base + 2 * h, i, n);
    }
  }

  /** Every position without a live byte lies in one FREE leaf. This is what coalescing is for. */
  lemma {:induction false} FreeSlotIsInLeaf(t: Tree, base: int, size: nat, a: int, n: int) returns (i: int)
    requires Canonical(t, size) && size >= 1 && Slot(base, size, a, n)
    requires FreeRun(Blocks(t, base, size), a, n)
    ensures i in FreeLeaves(t, base, size)
    ensures i <= a && a + n <= i + FreeLeaves(t, base, size)[i]
  {
    i := base;
    SlotInside(base, size, a, n);
    if !t.Split? || (a == base && n == size) {
      if !t.Free? {
        assert t.Used? ==> base in Blocks(t, base, size) && Covered(Blocks(t, base, size), a);
        var x := UsedIsCovered(t, base, size);
      }
    } else {
      var h := size / 2;
      var b := if Slot(base, h, a, n) then base else base + h;
      SlotInside(b, h, a, n);
      BlocksInside(t.left, base, h);
      BlocksInside(t.right, base + h, h);
      UnionFreeRun(Blocks(t.left, base, h), Blocks(t.right, base + h, h), base, base + h, base + 2 * h, a, n);
      FreeLeavesInside(t.left, base, h);
      FreeLeavesInside(t.right, base + h, h);
      i := FreeSlotIsInLeaf(if b == base then t.left else t.right, b, h, a, n);
    }
  }

  lemma {:induction false} BlockIsSlot(t: Tree, base: int, size: nat, i: int)
    requires Canonical(t, size) && i in Blocks(t, base, size)
    ensures Slot(base, size, i, Blocks(t, base, size)[i])
  {
    if t.Split? {
      var h := size / 2;
      if i in Blocks(t.right, base + h, h) {
        BlockIsSlot(t.right, base + h, h, i);
      } else {
        BlockIsSlot(t.left, base, h, i);
      }
    }
  }

  // ----- the allocator that knows the live blocks and nothing else

  /** A position of the least sufficient size, without a live byte. */
  ghost predicate Fits(b: map<int, int>, pool: nat, req: int, a: int)
    requires req >= 1
  {
    Fit(pool, req) >= req && Slot(0, pool, a, Fit(pool, req)) && FreeRun(b, a, Fit(pool, req))
  }

  /** One call of it. */
  ghost predicate MapStep(b: map<int, int>, pool: nat, op: Op, rt: int, b': map<int, int>)
    requires op.AllocOp? ==> op.req >= 1
  {
    match op
    case AllocOp(req) =>
      || (rt == -1 && b' == b && forall a :: !Fits(b, pool, req, a))
      || (Fits(b, pool, req, rt) && b' == b[rt := Fit(pool, req)] && forall a :: Fits(b, pool, req, a) ==> rt <= a)
    case FreeOp(idx) =>
      rt == (if idx in b then 0 else -1) && b' == b - {idx}
  }

  /** A position of sufficient size without a live byte is not missed, and nothing beyond it is taken. */
  lemma NoFitBefore(t: Tree, pool: nat, req: int, a: int, n: int)
    requires Canonical(t, pool)
    requires n >= req >= 1 && Slot(0, pool, a, n) && FreeRun(Blocks(t, 0, pool), a, n)
    ensures 0 <= Alloc(t, 0, pool, req).rt <= a
  {
    SlotInside(0, pool, a, n);
    var i := FreeSlotIsInLeaf(t, 0, pool, a, n);
    LeftmostFit(t, 0, pool, req);
  }

  lemma FoundFits(t: Tree, pool: nat, req: int)
    requires Canonical(t, pool) && req >= 1
    requires Alloc(t, 0, pool, req).rt >= 0
    ensures Fits(Blocks(t, 0, pool), pool, req, Alloc(t, 0, pool, req).rt)
  {
    var rt := Alloc(t, 0, pool, req).rt;
    LeftmostFit(t, 0, pool, req);
    FreeLeafIsSlot(t, 0, pool, rt);
    SufficientSlot(0, pool, rt, FreeLeaves(t, 0, pool)[rt], req);
  }

  /** `buddy_alloc` takes the first position of the least sufficient size, or there is none. */
  lemma AllocIsFirstFit(t: Tree, pool: nat, req: int)
    requires Canonical(t, pool) && req >= 1
    ensures var out := Alloc(t, 0, pool, req);
            MapStep(Blocks(t, 0, pool), pool, AllocOp(req), out.rt, Blocks(out.tree, 0, pool))
  {
    var out, b := Alloc(t, 0, pool, req), Blocks(t, 0, pool);
    AllocEffect(t, 0, pool, req);
    forall a | Fits(b, pool, req, a)
      ensures out.rt >= 0 && out.rt <= a
    {
      NoFitBefore(t, pool, req, a, Fit(pool, req));
    }
    if out.rt >= 0 {
      FoundFits(t, pool, req);
      BlockIsSlot(out.tree, 0, pool, out.rt);
      OnlyFitIsTight(0, pool, out.rt, Blocks(out.tree, 0, pool)[out.rt], req);
    }
  }

  /** Some position of sufficient size is without a live byte. */
  ghost predicate HasRoom(b: map<int, int>, pool: nat, req: int) {
    exists a, n :: Slot(0, pool, a, n) && n >= req && FreeRun(b, a, n)
  }

  /** `buddy_alloc` fails exactly when there is none. */
  lemma AllocFailsIff(t: Tree, pool: nat, req: int)
    requires Canonical(t, pool) && req >= 1
    ensures Alloc(t, 0, pool, req).rt == -1 <==> !HasRoom(Blocks(t, 0, pool), pool, req)
  {
    var rt, b := Alloc(t, 0, pool, req).rt, Blocks(t, 0, pool);
    AllocShape(t, 0, pool, req);
    if rt >= 0 {
      FoundFits(t, pool, req);
      var n := Fit(pool, req);
      assert Slot(0, pool, rt, n) && n >= req && FreeRun(b, rt, n);
    } else if HasRoom(b, pool, req) {
      var a, n :| Slot(0, pool, a, n) && n >= req && FreeRun(b, a, n);
      NoFitBefore(t, pool, req, a, n);
    }
  }

  function Returns(t: Tree, base: int, size: nat, ops: seq<Op>): seq<int>
    requires Valid(ops)
    decreases |ops|
  {
    if ops == [] then []
    else var out := Step(t, base, size, ops[0]);
      [out.rt] + Returns(out.tree, base, size, ops[1..])
  }

  /** `rts` are the values that the map allocator returns on `ops`, ending in `b'`. */
  ghost predicate MapRun(b: map<int, int>, pool: nat, ops: seq<Op>, rts: seq<int>, b': map<int, int>)
    requires Valid(ops)
    decreases |ops|
  {
    if ops == [] then rts == [] && b' == b
    else rts != [] && exists c :: MapStep(b, pool, ops[0], rts[0], c) && MapRun(c, pool, ops[1..], rts[1..], b')
  }

  /** Over every run on a pool of any size, the tree allocator and the map allocator return the same values and
      agree on the live blocks. */
  lemma {:induction false} TreeRefinesMap(t: Tree, pool: nat, ops: seq<Op>)
    requires Canonical(t, pool) && Valid(ops)
    ensures MapRun(Blocks(t, 0, pool), pool, ops, Returns(t, 0, pool, ops), Blocks(Exec(t, 0, pool, ops), 0, pool))
    decreases |ops|
  {
    if ops != [] {
      var out := Step(t, 0, pool, ops[0]);
      match ops[0] {
        case AllocOp(req) =>
          AllocIsFirstFit(t, pool, req);
          AllocEffect(t, 0, pool, req);
        case FreeOp(idx) => ReleaseEffect(t, 0, pool, idx);
      }
      TreeRefinesMap(out.tree, pool, ops[1..]);
      assert Returns(t, 0, pool, ops)[1..] == Returns(out.tree, 0, pool, ops[1..]);
      assert MapStep(Blocks(t, 0, pool), pool, ops[0], out.rt, Blocks(out.tree, 0, pool));
    }
  }

  /** The map allocator has one answer, so the refinement pins down every return value. */
  lemma {:induction false} MapRunIsDeterministic(b: map<int, int>, pool: nat, ops: seq<Op>,
                                                 rts: seq<int>, c: map<int, int>, rts': seq<int>, c': map<int, int>)
    requires Valid(ops)
    requires MapRun(b, pool, ops, rts, c) && MapRun(b, pool, ops, rts', c')
    ensures rts == rts' && c == c'
    decreases |ops|
  {
    if ops != [] {
      var d :| MapStep(b, pool, ops[0], rts[0], d) && MapRun(d, pool, ops[1..], rts[1..], c);
      var d' :| MapStep(b, pool, ops[0], rts'[0], d') && MapRun(d', pool, ops[1..], rts'[1..], c');
      MapStepIsDeterministic(b, pool, ops[0], rts[0], d, rts'[0], d');
      MapRunIsDeterministic(d, pool, ops[1..], rts[1..], c, rts'[1..], c');
      assert rts == [rts[0]] + rts[1..] && rts' == [rts'[0]] + rts'[1..];
    }
  }

  lemma MapStepIsDeterministic(b: map<int, int>, pool: nat, op: Op,
                               rt: int, c: map<int, int>, rt': int, c': map<int, int>)
    requires op.AllocOp? ==> op.req >= 1
    requires MapStep(b, pool, op, rt, c) && MapStep(b, pool, op, rt', c')
    ensures rt == rt' && c == c'
  {
  }

  // ----- pools of 2^k bytes

  /** The 2^e bytes from `a` on lie inside the node and are aligned to their length. */
  predicate Aligned(base: int, k: nat, a: int, e: nat) {
    e <= k && a % Pow2(e) == 0 && base <= a && a + Pow2(e) <= base + Pow2(k)
  }

  lemma {:induction false} SlotIsAligned(base: int, k: nat, a: int, n: int) returns (e: nat)
    requires base % Pow2(k) == 0 && Slot(base, Pow2(k), a, n)
    ensures n == Pow2(e) && Aligned(base, k, a, e)
    decreases k
  {
    e := k;
    if !(a == base && n == Pow2(k)) {
      var h := Pow2(k - 1);
      HalvesAligned(base, h);
      if Slot(base, h, a, n) {
        e := SlotIsAligned(base, k - 1, a, n);
      } else {
        e := SlotIsAligned(base + h, k - 1, a, n);
      }
    }
  }

  /** What is aligned to less than the whole node lies in one of its halves. */
  lemma AlignedInHalf(base: int, k: nat, a: int, e: nat)
    requires base % Pow2(k) == 0 && Aligned(base, k, a, e) && e < k
    ensures var h := Pow2(k - 1);
            && base % h == 0 && (base + h) % h == 0
            && Aligned(if a < base + h then base else base + h, k - 1, a, e)
  {
    var h, n := Pow2(k - 1), Pow2(e);
    HalvesAligned(base, h);
    AlignedToSmaller(base + h, e, k - 1);
    if a < base + h {
      MultiplesApart(a, base + h, n);
    }
  }

  lemma {:induction false} AlignedIsSlot(base: int, k: nat, a: int, e: nat)
    requires base % Pow2(k) == 0 && Aligned(base, k, a, e)
    ensures Slot(base, Pow2(k), a, Pow2(e))
    decreases k
  {
    if e < k {
      AlignedInHalf(base, k, a, e);
      AlignedIsSlot(if a < base + Pow2(k - 1) then base else base + Pow2(k - 1), k - 1, a, e);
    } else {
      assert a == base;
    }
  }

  lemma {:induction false} FitIsPowerOfTwo(k: nat, req: int)
    requires 1 <= req <= Pow2(k)
    ensures Fit(Pow2(k), req) == Pow2(LogUp(req)) && LogUp(req) <= k
  {
    LogUpIsLeast(req, k);
    if k > 0 {
      LogUpIsLeast(req, k - 1);
      if Pow2(k - 1) >= req {
        FitIsPowerOfTwo(k - 1, req);
      }
    }
  }

  /** The `n` bytes from `a` on are in the pool, aligned to their length, and none of them is live. */
  ghost predicate AlignedRun(b: map<int, int>, pool: int, n: nat, a: int)
    requires n >= 1
  {
    a % n == 0 && 0 <= a && a + n <= pool && FreeRun(b, a, n)
  }

  /** In a pool of 2^k bytes the allocator looks for the first aligned free run of the least sufficient power of
      two. */
  lemma FitsIsAligned(b: map<int, int>, k: nat, req: int, a: int)
    requires req >= 1
    ensures var n := Pow2(LogUp(req));
            && (Fits(b, Pow2(k), req, a) <==> AlignedRun(b, Pow2(k), n, a))
            && (req <= Pow2(k) ==> Fit(Pow2(k), req) == n)
  {
    LogUpIsLeast(req, k);
    if req <= Pow2(k) {
      FitIsPowerOfTwo(k, req);
      if Slot(0, Pow2(k), a, Pow2(LogUp(req))) {
        var e := SlotIsAligned(0, k, a, Pow2(LogUp(req)));
      }
      if Aligned(0, k, a, LogUp(req)) {
        AlignedIsSlot(0, k, a, LogUp(req));
      }
    }
  }

  /** There `buddy_alloc` fails exactly when no aligned run of the request rounded up is free. */
  lemma AlignedAllocFailsIff(t: Tree, k: nat, req: int)
    requires Canonical(t, Pow2(k)) && req >= 1
    ensures Alloc(t, 0, Pow2(k), req).rt == -1 <==> !HasAlignedRun(Blocks(t, 0, Pow2(k)), Pow2(k), Pow2(LogUp(req)))
  {
    var b, n, rt := Blocks(t, 0, Pow2(k)), Pow2(LogUp(req)), Alloc(t, 0, Pow2(k), req).rt;
    AllocIsFirstFit(t, Pow2(k), req);
    FitsIsAligned(b, k, req, rt);
    if HasAlignedRun(b, Pow2(k), n) {
      var a :| AlignedRun(b, Pow2(k), n, a);
      FitsIsAligned(b, k, req, a);
    }
  }

  ghost predicate HasAlignedRun(b: map<int, int>, pool: int, n: nat)
    requires n >= 1
  {
    exists a :: AlignedRun(b, pool, n, a)
  }

  /** Every FREE leaf is a run of free bytes, a power of two long and aligned to its length. */
  lemma FreeLeafIsRun(t: Tree, base: int, k: nat, i: int) returns (m: nat)
    requires Canonical(t, Pow2(k)) && base % Pow2(k) == 0
    requires i in FreeLeaves(t, base, Pow2(k))
    ensures FreeLeaves(t, base, Pow2(k))[i] == Pow2(m) && Aligned(base, k, i, m)
    ensures FreeRun(Blocks(t, base, Pow2(k)), i, Pow2(m))
  {
    FreeLeafIsSlot(t, base, Pow2(k), i);
    m := SlotIsAligned(base, k, i, FreeLeaves(t, base, Pow2(k))[i]);
  }

  /** Every aligned run of free bytes lies in one FREE leaf. */
  lemma RunIsInLeaf(t: Tree, base: int, k: nat, e: nat, a: int) returns (i: int)
    requires Canonical(t, Pow2(k)) && base % Pow2(k) == 0
    requires Aligned(base, k, a, e) && FreeRun(Blocks(t, base, Pow2(k)), a, Pow2(e))
    ensures i in FreeLeaves(t, base, Pow2(k))
    ensures i <= a && a + Pow2(e) <= i + FreeLeaves(t, base, Pow2(k))[i]
  {
    AlignedIsSlot(base, k, a, e);
    i := FreeSlotIsInLeaf(t, base, Pow2(k), a, Pow2(e));
  }

  lemma BlockIsPowerOfTwo(t: Tree, base: int, k: nat, i: int) returns (m: nat)
    requires Canonical(t, Pow2(k)) && base % Pow2(k) == 0
    requires i in Blocks(t, base, Pow2(k))
    ensures Blocks(t, base, Pow2(k))[i] == Pow2(m) && Aligned(base, k, i, m)
  {
    BlockIsSlot(t, base, Pow2(k), i);
    m := SlotIsAligned(base, k, i, Blocks(t, base, Pow2(k))[i]);
  }

  /** Byte `x` of [lo, hi) lies in exactly one of the two maps, and no other byte in either. */
  ghost predicate TiledAt(b: map<int, int>, free: map<int, int>, lo: int, hi: int, x: int) {
    && (Covered(b, x) || Covered(free, x) <==> lo <= x < hi)
    && !(Covered(b, x) && Covered(free, x))
  }

  lemma TilesJoin(bl: map<int, int>, br: map<int, int>, fl: map<int, int>, fr: map<int, int>,
                  lo: int, m: int, hi: int, x: int)
    requires Inside(bl, lo, m) && Inside(br, m, hi) && Inside(fl, lo, m) && Inside(fr, m, hi)
    requires lo <= m <= hi
    requires TiledAt(bl, fl, lo, m, x) && TiledAt(br, fr, m, hi, x)
    ensures TiledAt(bl + br, fl + fr, lo, hi, x)
  {
    UnionCovers(bl, br, lo, m, hi, x);
    UnionCovers(fl, fr, lo, m, hi, x);
  }

  lemma OneTile(base: int, n: int, x: int)
    ensures TiledAt(map[base := n], map[], base, base + n, x)
    ensures TiledAt(map[], map[base := n], base, base + n, x)
  {
    var b := map[base := n];
    assert base in b && b[base] == n;
  }

  /** Live blocks and FREE leaves tile the pool: each byte of it lies in exactly one of them. */
  lemma {:induction false} LeavesTile(t: Tree, base: int, k: nat, x: int)
    requires Canonical(t, Pow2(k))
    ensures TiledAt(Blocks(t, base, Pow2(k)), FreeLeaves(t, base, Pow2(k)), base, base + Pow2(k), x)
  {
    match t
    case Free => OneTile(base, Pow2(k), x);
    case Used => OneTile(base, Pow2(k), x);
    case Split(l, r) =>
      var h := Pow2(k - 1);
      LeavesTile(l, base, k - 1, x);
      LeavesTile(r, base + h, k - 1, x);
      BlocksInside(l, base, h);
      BlocksInside(r, base + h, h);
      FreeLeavesInside(l, base, h);
      FreeLeavesInside(r, base + h, h);
      TilesJoin(Blocks(l, base, h), Blocks(r, base + h, h), FreeLeaves(l, base, h), FreeLeaves(r, base + h, h),
                base, base + h, base + 2 * h, x);
  }
}
