/** The ioctl interface of vmm.c as steps on a value: the allocator's tree, the bytes of the pool, and the two
    settings. */
module VmmModel {
  import opened BuddyTree
  import opened BuddyCanonical
  import opened Buddy

  datatype Vmm = Vmm(tree: Tree, bytes: seq<byte>, currentIdx: int, readSize: int)

  datatype Command =
    | ALLOC(size: int)
    | FREE(idx: int)
    | SET_IDX(idx: int)
    | SET_READ_SIZE(size: int)
    | WRITE(user: seq<byte>)
    | READ
    | UNKNOWN

  /** The new state, the value returned, and the bytes handed to the user. */
  datatype Reply = Reply(next: Vmm, rt: int, out: seq<byte>)

  ghost predicate Valid(v: Vmm) {
    Canonical(v.tree, |v.bytes|)
  }

  function Live(v: Vmm): map<int, int> {
    Blocks(v.tree, 0, |v.bytes|)
  }

  /** What `buddy_size(current_idx)` answers. */
  function Room(v: Vmm): int {
    SizeQuery(v.tree, 0, |v.bytes|, v.currentIdx)
  }

  /** The user's bytes up to the terminator. */
  function CString(user: seq<byte>): seq<byte> {
    if user == [] || user[0] == 0 then [] else [user[0]] + CString(user[1..])
  }

  /** `bytes` with `s` stored from `at` on. */
  function Overwrite(bytes: seq<byte>, at: int, s: seq<byte>): seq<byte>
    requires s != [] ==> 0 <= at && at + |s| <= |bytes|
  {
    if s == [] then bytes else bytes[..at] + s + bytes[at + |s|..]
  }

  /** How many bytes of the string `s` the write loop stores: its test lets one byte more than the room pass. */
  function Stored(v: Vmm, s: seq<byte>): nat
    requires Room(v) >= -1
  {
    if |s| <= Room(v) + 1 then |s| else Room(v) + 1
  }

  /** What C requires of a call: allocation has to end, and a write has to be terminated and to store no byte outside
      the pool. */
  predicate Defined(v: Vmm, c: Command) {
    match c
    case ALLOC(size) => size >= 1 || !HasFree(v.tree)
    case WRITE(user) =>
      && 0 in user
      && Room(v) >= -1
      && var n := Stored(v, CString(user));
         n > 0 ==> 0 <= v.currentIdx && v.currentIdx + n <= |v.bytes|
    case READ => v.readSize > 0 && v.readSize <= Room(v) ==> 0 <= v.currentIdx && v.currentIdx + v.readSize <= |v.bytes|
    case _ => true
  }

  function Step(v: Vmm, c: Command): Reply
    requires Defined(v, c)
  {
    match c
    case ALLOC(size) =>
      var o := Alloc(v.tree, 0, |v.bytes|, size);
      Reply(v.(tree := o.tree), o.rt, [])
    case FREE(idx) =>
      var o := Release(v.tree, 0, |v.bytes|, idx);
      Reply(v.(tree := o.tree), o.rt, [])
    case SET_IDX(idx) => Reply(v.(currentIdx := idx), 0, [])
    case SET_READ_SIZE(size) => Reply(v.(readSize := size), 0, [])
    case WRITE(user) =>
      var s := CString(user);
      Reply(v.(bytes := Overwrite(v.bytes, v.currentIdx, s[..Stored(v, s)])),
            if |s| <= Room(v) + 1 then |s| else -1, [])
    case READ =>
      if v.readSize > Room(v) then Reply(v, -1, [])
      else if v.readSize <= 0 then Reply(v, 0, [])
      else Reply(v, v.readSize, v.bytes[v.currentIdx..v.currentIdx + v.readSize])
    case UNKNOWN => Reply(v, 0, [])
  }

  lemma RoomIsInPool(v: Vmm)
    requires Valid(v)
    ensures Room(v) >= -1
    ensures Room(v) >= 0 ==> Room(v) >= 1 && 0 <= v.currentIdx && v.currentIdx + Room(v) <= |v.bytes|
  {
    var i := SizeQueryEffect(v.tree, 0, |v.bytes|, v.currentIdx);
  }

  /** Reads never leave the pool. */
  lemma ReadIsDefined(v: Vmm)
    requires Valid(v)
    ensures Defined(v, READ)
  {
    RoomIsInPool(v);
  }

  lemma StepKeepsValid(v: Vmm, c: Command)
    requires Valid(v) && Defined(v, c)
    ensures var w := Step(v, c).next;
            Valid(w) && |w.bytes| == |v.bytes|
  {
    match c
    case ALLOC(size) => AllocEffect(v.tree, 0, |v.bytes|, size);
    case FREE(idx) => ReleaseEffect(v.tree, 0, |v.bytes|, idx);
    case _ =>
  }

  /** The string of a write fits in what is left of the block it starts in. Without a block there nothing is stored,
      so any string is harmless. */
  predicate FitsRoom(v: Vmm, c: Command) {
    c.WRITE? ==> 0 in c.user && (Room(v) < 0 || |CString(c.user)| <= Room(v))
  }

  lemma FittingIsDefined(v: Vmm, c: Command)
    requires Valid(v) && FitsRoom(v, c)
    requires c.ALLOC? ==> c.size >= 1
    ensures Defined(v, c)
  {
    RoomIsInPool(v);
  }

  /** The write touches the byte at `a`. */
  predicate Touches(v: Vmm, user: seq<byte>, a: int)
    requires Room(v) >= -1
  {
    v.currentIdx <= a < v.currentIdx + Stored(v, CString(user))
  }

  /** A write stays inside the block around the current index exactly when its string fits. The bound the loop
      checks is one too large: a longer string spills its next byte onto the byte after the block, and a string of
      exactly one byte too many is even reported as written. */
  lemma WriteStaysInsideIff(v: Vmm, user: seq<byte>)
    requires Valid(v) && 0 in user && Room(v) >= -1
    ensures FitsRoom(v, WRITE(user)) <==>
            (forall a :: Touches(v, user, a) ==> v.currentIdx <= a < v.currentIdx + Room(v))
    ensures !FitsRoom(v, WRITE(user)) ==> Touches(v, user, v.currentIdx + Room(v))
    ensures Defined(v, WRITE(user)) ==>
              (Step(v, WRITE(user)).rt == -1 <==> |CString(user)| > Room(v) + 1)
  {
    RoomIsInPool(v);
    assert Stored(v, CString(user)) == 0 || Stored(v, CString(user)) <= Room(v) <==> FitsRoom(v, WRITE(user));
    if !FitsRoom(v, WRITE(user)) {
      assert Touches(v, user, v.currentIdx + Room(v));
    }
  }

  /** Two neighbouring blocks of one byte; writing two bytes to the first changes the second and reports success. */
  lemma OverlongWriteReachesNeighbour()
    ensures var v := Vmm(Split(Used, Used), [7, 8], 0, 0);
            && Valid(v) && Live(v) == map[0 := 1, 1 := 1] && Defined(v, WRITE([1, 2, 0]))
            && Step(v, WRITE([1, 2, 0])).next.bytes == [1, 2]
            && Step(v, WRITE([1, 2, 0])).rt == 2
  {
    var v := Vmm(Split(Used, Used), [7, 8], 0, 0);
    assert [1, 2, 0][1..] == [2, 0] && [2, 0][1..] == [0];
    assert CString([0]) == [];
    assert CString([2, 0]) == [2];
    assert CString([1, 2, 0]) == [1, 2];
    assert SizeQuery(Used, 1, 1, 0) == -1 && SizeQuery(Used, 0, 1, 0) == 1;
    assert Room(v) == 1;
    assert [1, 2][..2] == [1, 2];
    assert Overwrite([7, 8], 0, [1, 2]) == [1, 2];
    assert Blocks(Used, 0, 1) + Blocks(Used, 1, 1) == map[0 := 1, 1 := 1];
  }

  /** `at` is in the live block that starts at `i`. */
  predicate InBlock(v: Vmm, i: int, at: int) {
    i in Live(v) && i <= at < i + Live(v)[i]
  }

  /** The room counts to the end of the block that contains the current index. */
  lemma RoomInBlock(v: Vmm, i: int)
    requires Valid(v)
    ensures InBlock(v, i, v.currentIdx) ==> Room(v) == i + Live(v)[i] - v.currentIdx
  {
    if InBlock(v, i, v.currentIdx) {
      SizeQueryInsideBlock(v.tree, 0, |v.bytes|, i, v.currentIdx - i);
    }
  }

  /** A run of calls whose effect C defines. */
  predicate AllDefined(v: Vmm, cs: seq<Command>)
    decreases |cs|
  {
    cs == [] || (Defined(v, cs[0]) && AllDefined(Step(v, cs[0]).next, cs[1..]))
  }

  function Run(v: Vmm, cs: seq<Command>): Vmm
    requires AllDefined(v, cs)
    decreases |cs|
  {
    if cs == [] then v else Run(Step(v, cs[0]).next, cs[1..])
  }

  /** A run in which every write fits and every request is for at least one byte. */
  predicate Fitting(v: Vmm, cs: seq<Command>)
    decreases |cs|
  {
    cs == [] ||
    (FitsRoom(v, cs[0]) && (cs[0].ALLOC? ==> cs[0].size >= 1)
     && (Defined(v, cs[0]) ==> Fitting(Step(v, cs[0]).next, cs[1..])))
  }

  /** Such a run has a defined effect throughout. */
  lemma {:induction false} FittingRunIsDefined(v: Vmm, cs: seq<Command>)
    requires Valid(v) && Fitting(v, cs)
    ensures AllDefined(v, cs)
    decreases |cs|
  {
    if cs != [] {
      FittingIsDefined(v, cs[0]);
      StepKeepsValid(v, cs[0]);
      FittingRunIsDefined(Step(v, cs[0]).next, cs[1..]);
    }
  }

  lemma {:induction false} RunKeepsValid(v: Vmm, cs: seq<Command>)
    requires Valid(v) && AllDefined(v, cs)
    ensures Valid(Run(v, cs)) && |Run(v, cs).bytes| == |v.bytes|
    decreases |cs|
  {
    if cs != [] {
      StepKeepsValid(v, cs[0]);
      RunKeepsValid(Step(v, cs[0]).next, cs[1..]);
    }
  }

  /** The last byte that a write of the run stored at address `a`, or `before` if none did. */
  function LastWritten(v: Vmm, cs: seq<Command>, a: int, before: byte): byte
    requires AllDefined(v, cs)
    decreases |cs|
  {
    if cs == [] then before
    else
      var s := if cs[0].WRITE? then CString(cs[0].user)[..Stored(v, CString(cs[0].user))] else [];
      var now := if v.currentIdx <= a < v.currentIdx + |s| then s[a - v.currentIdx] else before;
      LastWritten(Step(v, cs[0]).next, cs[1..], a, now)
  }

  /** Over every run each byte of the pool is the last one stored at its address. */
  lemma {:induction false} LastByteWins(v: Vmm, cs: seq<Command>, a: int)
    requires Valid(v) && AllDefined(v, cs)
    requires 0 <= a < |v.bytes|
    ensures |Run(v, cs).bytes| == |v.bytes| && Valid(Run(v, cs))
    ensures Run(v, cs).bytes[a] == LastWritten(v, cs, a, v.bytes[a])
    decreases |cs|
  {
    if cs != [] {
      StepKeepsValid(v, cs[0]);
      RoomIsInPool(v);
      LastByteWins(Step(v, cs[0]).next, cs[1..], a);
    }
  }

  /** A write through one block reaches the bytes of another exactly when its string is longer than the room and the
      byte after the block is live. */
  lemma WriteSparesOthersIff(v: Vmm, user: seq<byte>, i: int)
    requires Valid(v) && Room(v) >= -1 && InBlock(v, i, v.currentIdx)
    ensures (forall j, a :: j != i && InBlock(v, j, a) ==> !Touches(v, user, a)) <==>
            |CString(user)| <= Room(v) || !Covered(Live(v), v.currentIdx + Room(v))
  {
    var s, end := CString(user), v.currentIdx + Room(v);
    RoomInBlock(v, i);
    BlocksSeparate(v.tree, 0, |v.bytes|);
    if |s| > Room(v) && Covered(Live(v), end) {
      var j :| j in Live(v) && j <= end < j + Live(v)[j];
      assert j != i && InBlock(v, j, end) && Touches(v, user, end);
    }
    forall j, a | (|s| <= Room(v) || !Covered(Live(v), end)) && j != i && InBlock(v, j, a)
      ensures !Touches(v, user, a)
    {
      assert j < i || i < j;
      assert a != v.currentIdx + Room(v) || |s| <= Room(v);
    }
  }

  /** Command `c` leaves block `i` alone: it neither frees it nor stores into it, through an index inside it or past the
      end of the block before it. */
  predicate Spares(v: Vmm, c: Command, i: int) {
    && (c.FREE? ==> c.idx != i)
    && (c.WRITE? && CString(c.user) != [] && Room(v) >= 0 ==>
          && !InBlock(v, i, v.currentIdx)
          && (|CString(c.user)| <= Room(v) || !InBlock(v, i, v.currentIdx + Room(v))))
  }

  /** Exactly such writes touch no byte of the block. */
  lemma WriteMissesBlockIff(v: Vmm, user: seq<byte>, i: int)
    requires Valid(v) && Room(v) >= -1
    ensures Spares(v, WRITE(user), i) <==> forall a :: InBlock(v, i, a) ==> !Touches(v, user, a)
  {
    RoomIsInPool(v);
    RoomInBlock(v, i);
    var j := SizeQueryEffect(v.tree, 0, |v.bytes|, v.currentIdx);
    BlocksSeparate(v.tree, 0, |v.bytes|);
    if Room(v) >= 0 && CString(user) != [] {
      assert EndsAfter(Live(v), j, v.currentIdx, Room(v));
      assert i == j || i < j || j < i;
      assert Touches(v, user, v.currentIdx);
      assert |CString(user)| > Room(v) ==> Touches(v, user, v.currentIdx + Room(v));
    }
  }

  /** Allocations, frees and writes elsewhere keep a live block: same place, same size, same bytes. */
  lemma StepSparesBlock(v: Vmm, c: Command, i: int)
    requires Valid(v)
    requires i in Live(v)
    requires Defined(v, c) && Spares(v, c, i)
    ensures var w := Step(v, c).next;
            && Valid(w) && |w.bytes| == |v.bytes|
            && i in Live(w) && Live(w)[i] == Live(v)[i]
            && forall a :: InBlock(v, i, a) ==> 0 <= a < |v.bytes| && w.bytes[a] == v.bytes[a]
  {
    StepKeepsValid(v, c);
    BlocksInside(v.tree, 0, |v.bytes|);
    match c
    case ALLOC(size) => AllocEffect(v.tree, 0, |v.bytes|, size);
    case FREE(idx) => ReleaseEffect(v.tree, 0, |v.bytes|, idx);
    case WRITE(user) =>
      RoomIsInPool(v);
      WriteMissesBlockIff(v, user, i);
      assert forall a :: InBlock(v, i, a) ==> !Touches(v, user, a);
    case _ =>
  }

  /** Every command of the run spares block `i`. */
  predicate RunSpares(v: Vmm, cs: seq<Command>, i: int)
    requires AllDefined(v, cs)
    decreases |cs|
  {
    cs == [] || (Spares(v, cs[0], i) && RunSpares(Step(v, cs[0]).next, cs[1..], i))
  }

  /** Isolation: no run that spares a live block changes it, whatever its writes do elsewhere. */
  lemma {:induction false} RunSparesBlock(v: Vmm, cs: seq<Command>, i: int)
    requires Valid(v)
    requires i in Live(v)
    requires AllDefined(v, cs) && RunSpares(v, cs, i)
    ensures var w := Run(v, cs);
            && Valid(w) && |w.bytes| == |v.bytes|
            && i in Live(w) && Live(w)[i] == Live(v)[i]
            && forall a :: InBlock(v, i, a) ==> 0 <= a < |v.bytes| && w.bytes[a] == v.bytes[a]
    decreases |cs|
  {
    if cs == [] {
      BlocksInside(v.tree, 0, |v.bytes|);
    } else {
      StepSparesBlock(v, cs[0], i);
      RunSparesBlock(Step(v, cs[0]).next, cs[1..], i);
    }
  }

  /** Read `n` bytes from `idx`, as three calls. */
  function ReadAt(v: Vmm, idx: int, n: int): Reply
    requires var w := v.(currentIdx := idx, readSize := n); Defined(w, READ)
  {
    Step(Step(Step(v, SET_IDX(idx)).next, SET_READ_SIZE(n)).next, READ)
  }

  /** What was written into a block is read back, from any index inside what was written, after any run that spares the
      block. */
  lemma ReadBackAfterRun(v: Vmm, user: seq<byte>, cs: seq<Command>, i: int, j: int, n: nat)
    requires Valid(v)
    requires InBlock(v, i, v.currentIdx) && Defined(v, WRITE(user))
    requires AllDefined(Step(v, WRITE(user)).next, cs) && RunSpares(Step(v, WRITE(user)).next, cs, i)
    requires v.currentIdx <= j && j + n <= v.currentIdx + |CString(user)| && j + n <= i + Live(v)[i]
    requires n > 0
    ensures |CString(user)| <= Room(v) ==> Step(v, WRITE(user)).rt == |CString(user)|
    ensures var w := Run(Step(v, WRITE(user)).next, cs);
            && Defined(w.(currentIdx := j, readSize := n), READ)
            && ReadAt(w, j, n).rt == n
            && ReadAt(w, j, n).out == CString(user)[j - v.currentIdx..j - v.currentIdx + n]
  {
    var u := Step(v, WRITE(user)).next;
    RoomInBlock(v, i);
    StepKeepsValid(v, WRITE(user));
    RunSparesBlock(u, cs, i);
    var w := Run(u, cs);
    ReadInBlock(w, i, j, n);
    forall a | j <= a < j + n
      ensures w.bytes[a] == CString(user)[a - v.currentIdx]
    {
      WrittenStays(v, user, cs, i, a);
    }
    SameSlice(w.bytes, CString(user), v.currentIdx, j, n);
  }

  lemma SameSlice(bytes: seq<byte>, s: seq<byte>, at: int, j: int, n: nat)
    requires 0 <= j && j + n <= |bytes| && at <= j && j + n <= at + |s|
    requires forall a :: j <= a < j + n ==> bytes[a] == s[a - at]
    ensures bytes[j..j + n] == s[j - at..j - at + n]
  {
  }

  /** A byte that a write stored in a block is there after any run that spares the block. */
  lemma WrittenStays(v: Vmm, user: seq<byte>, cs: seq<Command>, i: int, a: int)
    requires Valid(v) && InBlock(v, i, v.currentIdx) && InBlock(v, i, a) && Defined(v, WRITE(user))
    requires AllDefined(Step(v, WRITE(user)).next, cs) && RunSpares(Step(v, WRITE(user)).next, cs, i)
    requires v.currentIdx <= a < v.currentIdx + |CString(user)|
    ensures var w := Run(Step(v, WRITE(user)).next, cs);
            0 <= a < |w.bytes| && w.bytes[a] == CString(user)[a - v.currentIdx]
  {
    var u := Step(v, WRITE(user)).next;
    RoomInBlock(v, i);
    StepKeepsValid(v, WRITE(user));
    assert InBlock(u, i, a);
    RunSparesBlock(u, cs, i);
    WrittenThere(v, user, a);
  }

  /** A read of bytes that lie in a live block hands them out. */
  lemma ReadInBlock(w: Vmm, i: int, j: int, n: nat)
    requires Valid(w) && i in Live(w) && i <= j && j + n <= i + Live(w)[i] && n > 0
    ensures Defined(w.(currentIdx := j, readSize := n), READ)
    ensures 0 <= j && j + n <= |w.bytes|
    ensures ReadAt(w, j, n).rt == n && ReadAt(w, j, n).out == w.bytes[j..j + n]
  {
    var r := w.(currentIdx := j, readSize := n);
    RoomInBlock(r, i);
    RoomIsInPool(r);
    ReadIsDefined(r);
    assert ReadAt(w, j, n) == Step(r, READ);
  }

  /** A write stores its string from the current index on, up to the end of the block at least. */
  lemma WrittenThere(v: Vmm, user: seq<byte>, a: int)
    requires Valid(v) && Defined(v, WRITE(user)) && Room(v) >= 0
    requires v.currentIdx <= a < v.currentIdx + |CString(user)| && a < v.currentIdx + Room(v)
    ensures 0 <= a < |v.bytes| && Step(v, WRITE(user)).next.bytes[a] == CString(user)[a - v.currentIdx]
  {
    RoomIsInPool(v);
    assert a - v.currentIdx < Stored(v, CString(user));
  }

  /** A read in a live block fails exactly when it asks for more bytes than are left of the block. Otherwise it hands
      out as many bytes of the block as were asked for, from the current index on; none for a negative size. */
  lemma ReadFailsIff(v: Vmm, i: int)
    requires Valid(v) && InBlock(v, i, v.currentIdx)
    ensures Defined(v, READ) && Step(v, READ).next == v
    ensures Step(v, READ).rt == -1 <==> v.readSize > i + Live(v)[i] - v.currentIdx
    ensures Step(v, READ).rt != -1 ==>
              Step(v, READ).rt == |Step(v, READ).out| == if v.readSize < 0 then 0 else v.readSize
    ensures HandsOut(v, i, Step(v, READ).out)
  {
    ReadIsDefined(v);
    RoomIsInPool(v);
    RoomInBlock(v, i);
  }

  /** `out` is what block `i` holds from the current index on. */
  predicate HandsOut(v: Vmm, i: int, out: seq<byte>) {
    forall a :: v.currentIdx <= a < v.currentIdx + |out| ==> InBlock(v, i, a) && out[a - v.currentIdx] == ByteAt(v, a)
  }

  /** Where there is no live block a read fails exactly when it asks for a size of 0 or more, and hands out nothing. */
  lemma ReadOutsideFailsIff(v: Vmm)
    requires Valid(v) && !Covered(Live(v), v.currentIdx)
    ensures Defined(v, READ) && Step(v, READ).next == v
    ensures Step(v, READ).rt == -1 <==> v.readSize >= 0
    ensures Step(v, READ).out == []
  {
    ReadIsDefined(v);
    var j := SizeQueryEffect(v.tree, 0, |v.bytes|, v.currentIdx);
  }

  /** The byte of the pool at `a`. */
  function ByteAt(v: Vmm, a: int): byte {
    if 0 <= a < |v.bytes| then v.bytes[a] else 0
  }

  /** Whatever a read hands out after a run was stored last at its address, or was there before. */
  lemma ReadsLastWritten(v: Vmm, cs: seq<Command>, k: nat)
    requires Valid(v) && AllDefined(v, cs)
    ensures Valid(Run(v, cs)) && Defined(Run(v, cs), READ)
    ensures var w := Run(v, cs);
            k < |Step(w, READ).out| ==>
              && 0 <= w.currentIdx && w.currentIdx + k < |v.bytes|
              && Step(w, READ).out[k] == LastWritten(v, cs, w.currentIdx + k, v.bytes[w.currentIdx + k])
  {
    var w := Run(v, cs);
    RunKeepsValid(v, cs);
    ReadIsDefined(w);
    RoomIsInPool(w);
    if k < |Step(w, READ).out| {
      LastByteWins(v, cs, w.currentIdx + k);
    }
  }

  /** What the calls of a run return and hand out. */
  datatype Answer = Answer(rt: int, out: seq<byte>)

  function Answers(v: Vmm, cs: seq<Command>): seq<Answer>
    requires AllDefined(v, cs)
    decreases |cs|
  {
    if cs == [] then []
    else var r := Step(v, cs[0]);
      [Answer(r.rt, r.out)] + Answers(r.next, cs[1..])
  }
}
