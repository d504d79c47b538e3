/** What each ioctl promises, in terms of the live blocks and the bytes of the pool alone, and that every call of every
    run keeps that promise. */
module VmmAnswers {
  import opened BuddyTree
  import opened BuddyCanonical
  import opened BuddyFirstFit
  import Buddy
  import opened VmmModel
  import R = BuddyReach

  // ----- one call

  /** Everything but the live blocks is as it was. */
  predicate OnlyBlocks(v: Vmm, w: Vmm) {
    w.bytes == v.bytes && w.currentIdx == v.currentIdx && w.readSize == v.readSize
  }

  /** An allocation answers with the first free position of the least sufficient size, which becomes a live block, or
      with -1 if there is none. */
  lemma AllocAnswers(v: Vmm, size: int)
    requires Valid(v) && size >= 1
    ensures var r := Step(v, ALLOC(size));
            && MapStep(Live(v), |v.bytes|, R.AllocOp(size), r.rt, Live(r.next))
            && OnlyBlocks(v, r.next) && r.out == []
  {
    AllocIsFirstFit(v.tree, |v.bytes|, size);
  }

  /** One of less than a byte, where it returns at all, fails and changes nothing. */
  lemma AllocNothing(v: Vmm, size: int)
    requires Valid(v) && size < 1 && Defined(v, ALLOC(size))
    ensures Step(v, ALLOC(size)) == Reply(v, -1, [])
  {
    AllocEffect(v.tree, 0, |v.bytes|, size);
  }

  /** A free answers 0 if a live block starts at the index, which is then gone, and -1 otherwise. */
  lemma FreeAnswers(v: Vmm, idx: int)
    requires Valid(v)
    ensures var r := Step(v, FREE(idx));
            && r.rt == (if idx in Live(v) then 0 else -1) && Live(r.next) == Live(v) - {idx}
            && OnlyBlocks(v, r.next) && r.out == []
  {
    ReleaseEffect(v.tree, 0, |v.bytes|, idx);
  }

  /** The first `most` bytes of `s`, at the most, are stored from the current index on; `rt` is the length of `s` if
      that is all of it, and -1 if not. */
  predicate Wrote(v: Vmm, s: seq<Buddy.byte>, most: int, rt: int, bytes: seq<Buddy.byte>) {
    && rt == (if |s| <= most then |s| else -1)
    && |bytes| == |v.bytes|
    && forall a :: 0 <= a < |bytes| ==>
         bytes[a] == if v.currentIdx <= a < v.currentIdx + |s| && a < v.currentIdx + most then s[a - v.currentIdx]
                     else v.bytes[a]
  }

  /** A write in a live block stores as much of its string as the rest of the block holds, and one byte more. */
  lemma WriteAnswers(v: Vmm, user: seq<Buddy.byte>, i: int)
    requires Valid(v) && Defined(v, WRITE(user)) && InBlock(v, i, v.currentIdx)
    ensures var r := Step(v, WRITE(user));
            && Wrote(v, CString(user), i + Live(v)[i] - v.currentIdx + 1, r.rt, r.next.bytes)
            && r.next == v.(bytes := r.next.bytes) && r.out == []
  {
    RoomInBlock(v, i);
  }

  /** Where there is no live block it stores nothing, and only the empty string is not an error. */
  lemma WriteOutsideAnswers(v: Vmm, user: seq<Buddy.byte>)
    requires Valid(v) && Defined(v, WRITE(user)) && !Covered(Live(v), v.currentIdx)
    ensures Step(v, WRITE(user)) == Reply(v, if CString(user) == [] then 0 else -1, [])
  {
    RoomOutside(v);
  }

  lemma RoomOutside(v: Vmm)
    requires Valid(v) && !Covered(Live(v), v.currentIdx)
    ensures Room(v) == -1
  {
    var j := SizeQueryEffect(v.tree, 0, |v.bytes|, v.currentIdx);
  }

  /** Setting the index or the read size answers 0 and sets that and nothing else, so their order does not matter. */
  lemma SettingsAnswer(v: Vmm, idx: int, size: int)
    ensures Step(v, SET_IDX(idx)) == Reply(v.(currentIdx := idx), 0, [])
    ensures Step(v, SET_READ_SIZE(size)) == Reply(v.(readSize := size), 0, [])
    ensures Step(Step(v, SET_READ_SIZE(size)).next, SET_IDX(idx)).next ==
            Step(Step(v, SET_IDX(idx)).next, SET_READ_SIZE(size)).next
  {
  }

  // ----- every call

  /** What a call may answer, and what the device may be after it, by its live blocks, bytes and settings. */
  ghost predicate Specified(v: Vmm, c: Command, x: Answer, w: Vmm) {
    match c
    case ALLOC(size) =>
      && OnlyBlocks(v, w) && x.out == []
      && if size >= 1 then MapStep(Live(v), |v.bytes|, R.AllocOp(size), x.rt, Live(w))
         else x.rt == -1 && Live(w) == Live(v)
    case FREE(idx) =>
      && OnlyBlocks(v, w) && x.out == []
      && x.rt == (if idx in Live(v) then 0 else -1) && Live(w) == Live(v) - {idx}
    case SET_IDX(idx) => x == Answer(0, []) && w == v.(currentIdx := idx)
    case SET_READ_SIZE(size) => x == Answer(0, []) && w == v.(readSize := size)
    case WRITE(user) =>
      && x.out == [] && w == v.(bytes := w.bytes)
      && WriteSpecified(v, CString(user), x.rt, w.bytes)
    case READ => w == v && ReadSpecified(v, x)
    case UNKNOWN => x == Answer(0, []) && w == v
  }

  ghost predicate WriteSpecified(v: Vmm, s: seq<Buddy.byte>, rt: int, bytes: seq<Buddy.byte>) {
    if Covered(Live(v), v.currentIdx) then
      forall i :: InBlock(v, i, v.currentIdx) ==> Wrote(v, s, i + Live(v)[i] - v.currentIdx + 1, rt, bytes)
    else rt == (if s == [] then 0 else -1) && bytes == v.bytes
  }

  ghost predicate ReadSpecified(v: Vmm, x: Answer) {
    if Covered(Live(v), v.currentIdx) then
      forall i :: InBlock(v, i, v.currentIdx) ==> Handed(v, i, i + Live(v)[i] - v.currentIdx, x)
    else x == Answer(if v.readSize >= 0 then -1 else 0, [])
  }

  /** As many bytes of block `i` as were asked for, or an error if fewer than that are left of it. */
  predicate Handed(v: Vmm, i: int, left: int, x: Answer) {
    if v.readSize > left then x == Answer(-1, [])
    else x.rt == |x.out| == (if v.readSize < 0 then 0 else v.readSize) && HandsOut(v, i, x.out)
  }

  lemma WriteIsSpecified(v: Vmm, user: seq<Buddy.byte>)
    requires Valid(v) && Defined(v, WRITE(user))
    ensures var r := Step(v, WRITE(user)); Specified(v, WRITE(user), Answer(r.rt, r.out), r.next)
  {
    if Covered(Live(v), v.currentIdx) {
      forall i | InBlock(v, i, v.currentIdx)
        ensures var r := Step(v, WRITE(user));
                && Wrote(v, CString(user), i + Live(v)[i] - v.currentIdx + 1, r.rt, r.next.bytes)
                && r.next == v.(bytes := r.next.bytes) && r.out == []
      {
        WriteAnswers(v, user, i);
      }
      var i := SomeBlock(v);
    } else {
      WriteOutsideAnswers(v, user);
    }
  }

  lemma SomeBlock(v: Vmm) returns (i: int)
    requires Covered(Live(v), v.currentIdx)
    ensures InBlock(v, i, v.currentIdx)
  {
    i :| i in Live(v) && i <= v.currentIdx < i + Live(v)[i];
  }

  lemma ReadIsSpecified(v: Vmm)
    requires Valid(v)
    ensures Defined(v, READ)
    ensures var r := Step(v, READ); Specified(v, READ, Answer(r.rt, r.out), r.next)
  {
    ReadIsDefined(v);
    if Covered(Live(v), v.currentIdx) {
      forall i | InBlock(v, i, v.currentIdx)
        ensures var r := Step(v, READ);
                Handed(v, i, i + Live(v)[i] - v.currentIdx, Answer(r.rt, r.out)) && r.next == v
      {
        ReadFailsIff(v, i);
        ReadFailsWithNothing(v);
      }
      var i := SomeBlock(v);
    } else {
      ReadOutsideFailsIff(v);
      RoomOutside(v);
    }
  }

  lemma ReadFailsWithNothing(v: Vmm)
    requires Defined(v, READ)
    ensures Step(v, READ).rt == -1 ==> Step(v, READ).out == []
  {
  }

  /** Every call keeps its promise. */
  lemma StepIsSpecified(v: Vmm, c: Command)
    requires Valid(v) && Defined(v, c)
    ensures var r := Step(v, c); Specified(v, c, Answer(r.rt, r.out), r.next)
  {
    match c
    case ALLOC(size) =>
      if size >= 1 {
        AllocAnswers(v, size);
      } else {
        AllocNothing(v, size);
      }
    case FREE(idx) => FreeAnswers(v, idx);
    case WRITE(user) => WriteIsSpecified(v, user);
    case READ => ReadIsSpecified(v);
    case SET_IDX(idx) => SettingsAnswer(v, idx, 0);
    case SET_READ_SIZE(size) => SettingsAnswer(v, 0, size);
    case UNKNOWN =>
  }

  /** And the promise leaves nothing open: there is one answer, and one device after it. */
  lemma OnePromise(v: Vmm, c: Command, x: Answer, w: Vmm, y: Answer, u: Vmm)
    requires Valid(v) && Valid(w) && Valid(u)
    requires Specified(v, c, x, w) && Specified(v, c, y, u)
    ensures x == y && w == u
  {
    if c.READ? {
      OneRead(v, x, y);
    } else if c.WRITE? {
      OneWrite(v, CString(c.user), x.rt, w.bytes, y.rt, u.bytes);
    } else {
      if c.ALLOC? && c.size >= 1 {
        MapStepIsDeterministic(Live(v), |v.bytes|, R.AllocOp(c.size), x.rt, Live(w), y.rt, Live(u));
      }
      SameBlocksSameTree(w.tree, u.tree, 0, |v.bytes|);
    }
  }

  lemma OneWrite(v: Vmm, s: seq<Buddy.byte>, rt: int, bytes: seq<Buddy.byte>, rt': int, bytes': seq<Buddy.byte>)
    requires WriteSpecified(v, s, rt, bytes) && WriteSpecified(v, s, rt', bytes')
    ensures rt == rt' && bytes == bytes'
  {
    if Covered(Live(v), v.currentIdx) {
      var i := SomeBlock(v);
      var most := i + Live(v)[i] - v.currentIdx + 1;
      assert Wrote(v, s, most, rt, bytes) && Wrote(v, s, most, rt', bytes');
    }
  }

  lemma OneRead(v: Vmm, x: Answer, y: Answer)
    requires ReadSpecified(v, x) && ReadSpecified(v, y)
    ensures x == y
  {
    if Covered(Live(v), v.currentIdx) {
      var i := SomeBlock(v);
      var left := i + Live(v)[i] - v.currentIdx;
      assert Handed(v, i, left, x) && Handed(v, i, left, y);
      if v.readSize <= left {
        forall k | 0 <= k < |x.out|
          ensures x.out[k] == y.out[k]
        {
          var a := v.currentIdx + k;
          assert InBlock(v, i, a);
          assert x.out[a - v.currentIdx] == y.out[a - v.currentIdx];
        }
      }
    }
  }

  // ----- every run

  /** A run up to call `k`, and call `k`. */
  lemma {:induction false} RunUpTo(v: Vmm, cs: seq<Command>, k: nat)
    requires AllDefined(v, cs) && k <= |cs|
    ensures AllDefined(v, cs[..k])
    ensures k < |cs| ==> Defined(Run(v, cs[..k]), cs[k])
    ensures k < |cs| ==> AllDefined(v, cs[..k + 1]) && Run(v, cs[..k + 1]) == Step(Run(v, cs[..k]), cs[k]).next
    ensures cs[..|cs|] == cs
    decreases |cs|
  {
    assert cs[..0] == [] && cs[..|cs|] == cs;
    if cs != [] {
      var next := Step(v, cs[0]).next;
      if k == 0 {
        assert cs[..1][1..] == [];
        assert Run(next, []) == next;
      } else {
        assert cs[..k][1..] == cs[1..][..k - 1];
        if k < |cs| {
          assert cs[..k + 1][1..] == cs[1..][..k];
        }
        RunUpTo(next, cs[1..], k - 1);
      }
    }
  }

  /** A run has one answer to each call: what that call answers where the run has got to. */
  lemma {:induction false} AnswersAre(v: Vmm, cs: seq<Command>, k: nat)
    requires AllDefined(v, cs)
    ensures |Answers(v, cs)| == |cs|
    ensures k < |cs| ==>
              && AllDefined(v, cs[..k]) && Defined(Run(v, cs[..k]), cs[k])
              && var r := Step(Run(v, cs[..k]), cs[k]);
                 Answers(v, cs)[k] == Answer(r.rt, r.out)
    decreases |cs|
  {
    if cs != [] {
      var next := Step(v, cs[0]).next;
      AnswersAre(next, cs[1..], if k == 0 then 0 else k - 1);
      if k < |cs| {
        RunUpTo(v, cs, k);
        if k > 0 {
          assert cs[..k][1..] == cs[1..][..k - 1];
        }
      }
    }
  }

  /** Every answer of every run keeps the promise of its call, between the states before and after it; and by
      `OnePromise` that is the only way to keep it. */
  lemma EveryAnswerIsSpecified(v: Vmm, cs: seq<Command>, k: nat)
    requires Valid(v) && AllDefined(v, cs) && k < |cs|
    ensures |Answers(v, cs)| == |cs| && AllDefined(v, cs[..k]) && AllDefined(v, cs[..k + 1])
    ensures Valid(Run(v, cs[..k])) && Valid(Run(v, cs[..k + 1]))
    ensures Specified(Run(v, cs[..k]), cs[k], Answers(v, cs)[k], Run(v, cs[..k + 1]))
  {
    RunUpTo(v, cs, k);
    AnswersAre(v, cs, k);
    RunKeepsValid(v, cs[..k]);
    RunKeepsValid(v, cs[..k + 1]);
    StepIsSpecified(Run(v, cs[..k]), cs[k]);
  }

  /** Each byte that a read of a run hands out is the last one stored at its address before, or was there at first. */
  lemma AnsweredReads(v: Vmm, cs: seq<Command>, k: nat, d: nat)
    requires Valid(v) && AllDefined(v, cs) && k < |cs| && cs[k].READ?
    ensures |Answers(v, cs)| == |cs| && AllDefined(v, cs[..k])
    ensures var before := Run(v, cs[..k]);
            d < |Answers(v, cs)[k].out| ==>
              && 0 <= before.currentIdx && before.currentIdx + d < |v.bytes|
              && Answers(v, cs)[k].out[d] ==
                 LastWritten(v, cs[..k], before.currentIdx + d, v.bytes[before.currentIdx + d])
  {
    RunUpTo(v, cs, k);
    AnswersAre(v, cs, k);
    ReadsLastWritten(v, cs[..k], d);
  }

  /** The current index and the read size are the last ones set, or the first ones if none was: no other call touches
      them. */
  lemma {:induction false} IndexIsLastSet(v: Vmm, cs: seq<Command>, k: nat)
    requires AllDefined(v, cs)
    ensures (forall m :: 0 <= m < |cs| ==> !cs[m].SET_IDX?) ==> Run(v, cs).currentIdx == v.currentIdx
    ensures k < |cs| && cs[k].SET_IDX? && (forall m :: k < m < |cs| ==> !cs[m].SET_IDX?) ==>
              Run(v, cs).currentIdx == cs[k].idx
    decreases |cs|
  {
    if cs != [] {
      var rest := cs[1..];
      assert forall m :: 0 <= m < |rest| ==> rest[m] == cs[m + 1];
      assert forall m :: 0 < m < |cs| ==> cs[m] == rest[m - 1];
      IndexIsLastSet(Step(v, cs[0]).next, rest, if k == 0 then |rest| else k - 1);
    }
  }

  lemma {:induction false} ReadSizeIsLastSet(v: Vmm, cs: seq<Command>, k: nat)
    requires AllDefined(v, cs)
    ensures (forall m :: 0 <= m < |cs| ==> !cs[m].SET_READ_SIZE?) ==> Run(v, cs).readSize == v.readSize
    ensures k < |cs| && cs[k].SET_READ_SIZE? && (forall m :: k < m < |cs| ==> !cs[m].SET_READ_SIZE?) ==>
              Run(v, cs).readSize == cs[k].size
    decreases |cs|
  {
    if cs != [] {
      var rest := cs[1..];
      assert forall m :: 0 <= m < |rest| ==> rest[m] == cs[m + 1];
      assert forall m :: 0 < m < |cs| ==> cs[m] == rest[m - 1];
      ReadSizeIsLastSet(Step(v, cs[0]).next, rest, if k == 0 then |rest| else k - 1);
    }
  }
}
