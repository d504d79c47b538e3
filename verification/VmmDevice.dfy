/** The device of vmm.c: the two settings and the pool, updated in place by `ioctl`. */
module VmmDevice {
  import opened BuddyTree
  import opened Buddy
  import opened VmmModel

  class Device {
    const buddy: BuddyAllocator
    var currentIdx: int
    var readSize: int

    ghost predicate Ready()
      reads this, buddy.heap, buddy.head, buddy.head.Repr
    {
      buddy.Valid()
    }

    ghost function State(): Vmm
      reads this, buddy.head, buddy.pool
    {
      Vmm(buddy.head.tree, buddy.pool[..], currentIdx, readSize)
    }

    constructor (buddy: BuddyAllocator)
      requires buddy.Valid()
      ensures this.buddy == buddy && Ready() && State() == Vmm(buddy.head.tree, buddy.pool[..], 0, 0)
    {
      this.buddy, currentIdx, readSize := buddy, 0, 0;
    }

    /** The write case: bytes go to the pool one by one until the terminator, or until the bound is passed. */
    method Write(user: seq<byte>) returns (rt: int)
      requires Ready() && Defined(State(), WRITE(user))
      modifies buddy.pool
      ensures Ready() && State() == Step(old(State()), WRITE(user)).next
      ensures rt == Step(old(State()), WRITE(user)).rt
    {
      ghost var v, s := State(), CString(user);
      var bytes := 0;
      var size := buddy.BuddySize(currentIdx);
      CStringEnds(user);
      while true
        invariant Ready() && size == Room(v)
        invariant 0 <= bytes <= |s| && bytes <= Stored(v, s)
        invariant Written(v.bytes, buddy.pool[..], currentIdx, s, bytes)
        decreases |s| - bytes
      {
        var ch := user[bytes];
        if ch == 0 {
          break;
        }
        if bytes > size {
          WrittenIsStep(v, user, buddy.pool[..], bytes);
          return -1;
        }
        NextIsInPool(v, user, bytes);
        buddy.pool[currentIdx + bytes] := ch;
        bytes := bytes + 1;
      }
      WrittenIsStep(v, user, buddy.pool[..], bytes);
      return bytes;
    }

    /** The read case: as many bytes as were asked for, or an error if the block has fewer left. */
    method Read() returns (rt: int, out: seq<byte>)
      requires Ready()
      ensures Defined(State(), READ)
      ensures rt == Step(State(), READ).rt && out == Step(State(), READ).out
    {
      ReadIsDefined(State());
      out := [];
      var size := buddy.BuddySize(currentIdx);
      if readSize > size {
        return -1, out;
      }
      var bytes := 0;
      while bytes < readSize
        invariant 0 <= bytes && (bytes > 0 ==> bytes <= readSize)
        invariant bytes > 0 ==> out == buddy.pool[currentIdx..currentIdx + bytes]
        invariant bytes == 0 ==> out == []
      {
        out := out + [buddy.pool[currentIdx + bytes]];
        bytes := bytes + 1;
      }
      return bytes, out;
    }

    /** One call of `ioctl`. */
    method Ioctl(c: Command) returns (rt: int, out: seq<byte>)
      requires Ready() && Defined(State(), c)
      modifies this, buddy.heap, buddy.head.Repr, buddy.pool
      ensures Ready() && fresh(buddy.head.Repr - old(buddy.head.Repr))
      ensures Reply(State(), rt, out) == Step(old(State()), c)
    {
      out := [];
      match c {
        case ALLOC(size) => rt := buddy.BuddyAlloc(size);
        case FREE(idx) => rt := buddy.BuddyFree(idx);
        case SET_IDX(idx) =>
          currentIdx := idx;
          rt := 0;
        case SET_READ_SIZE(size) =>
          readSize := size;
          rt := 0;
        case WRITE(user) => rt := Write(user);
        case READ => rt, out := Read();
        case UNKNOWN => rt := 0;
      }
    }

    /** A run of calls, each with its answer. */
    method IoctlAll(cs: seq<Command>) returns (answers: seq<Answer>)
      requires Ready() && AllDefined(State(), cs)
      modifies this, buddy.heap, buddy.head.Repr, buddy.pool
      ensures Ready() && fresh(buddy.head.Repr - old(buddy.head.Repr))
      ensures State() == Run(old(State()), cs)
      ensures answers == Answers(old(State()), cs)
    {
      answers := [];
      for i := 0 to |cs|
        invariant Ready() && fresh(buddy.head.Repr - old(buddy.head.Repr))
        invariant AllDefined(State(), cs[i..])
        invariant Run(State(), cs[i..]) == Run(old(State()), cs)
        invariant answers + Answers(State(), cs[i..]) == Answers(old(State()), cs)
      {
        assert cs[i..][0] == cs[i] && cs[i..][1..] == cs[i + 1..];
        ghost var before := State();
        var rt, out := Ioctl(cs[i]);
        answers := answers + [Answer(rt, out)];
        assert Answers(before, cs[i..]) == [Answer(rt, out)] + Answers(State(), cs[i + 1..]);
      }
      assert cs[|cs|..] == [];
    }
  }

  /** A byte that the bound lets through is one that is stored. */
  lemma NextIsInPool(v: Vmm, user: seq<byte>, k: nat)
    requires Defined(v, WRITE(user)) && k < |CString(user)| && k <= Room(v)
    ensures k < Stored(v, CString(user)) && 0 <= v.currentIdx && v.currentIdx + k < |v.bytes|
  {
  }

  /** `now` is `before` with the first `k` bytes of `s` stored from `at` on. */
  predicate Written(before: seq<byte>, now: seq<byte>, at: int, s: seq<byte>, k: nat)
    requires k <= |s|
  {
    && |now| == |before|
    && forall a :: 0 <= a < |now| ==> now[a] == if at <= a < at + k then s[a - at] else before[a]
  }

  /** Once all that is to be stored is stored, the write step is done. */
  lemma WrittenIsStep(v: Vmm, user: seq<byte>, now: seq<byte>, k: nat)
    requires Defined(v, WRITE(user)) && k == Stored(v, CString(user))
    requires Written(v.bytes, now, v.currentIdx, CString(user), k)
    ensures v.(bytes := now) == Step(v, WRITE(user)).next
  {
    assert now == Overwrite(v.bytes, v.currentIdx, CString(user)[..k]);
  }

  /** The terminator stands right after the string. */
  lemma {:induction false} CStringEnds(user: seq<byte>)
    requires 0 in user
    ensures |CString(user)| < |user| && user[|CString(user)|] == 0
    ensures forall k :: 0 <= k < |CString(user)| ==> CString(user)[k] == user[k] != 0
  {
    if user[0] != 0 {
      CStringEnds(user[1..]);
    }
  }
}
