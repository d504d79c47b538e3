/** One stream as the code stands, stale reads included: what its slots then hold and count, why `put` still never waits
    for readers, and why the stream by itself never comes to a halt. */
module StreamAsIs {
  import opened StreamModel
  import opened StreamProtocol
  import opened StreamRuns

  /** How often a consumer that has made `c` reads has read the slot of value `j` since that value was put there. It is
      negative for a consumer that was late for the values there before. */
  function Laps(c: int, j: int): int {
    (c - j + BUFFER_SIZE - 1) / BUFFER_SIZE
  }

  /** The same for all consumers together. */
  function Reads(got: seq<seq<int>>, j: int): int {
    if got == [] then 0 else Laps(|got[0]|, j) + Reads(got[1..], j)
  }

  lemma LapsMove(c: int, j: int)
    ensures Laps(c + 1, j) == Laps(c, j) + (if (c - j) % BUFFER_SIZE == 0 then 1 else 0)
    ensures Laps(c, j + 1) == Laps(c, j) - (if (c - j - 1) % BUFFER_SIZE == 0 then 1 else 0)
    ensures Laps(c, j + BUFFER_SIZE) == Laps(c, j) - 1
  {
  }

  lemma {:induction false} ReadsUpdate(got: seq<seq<int>>, i: nat, g: seq<int>, j: int)
    requires i < |got| && |g| == |got[i]| + 1
    ensures Reads(got[i := g], j) == Reads(got, j) + (if (|got[i]| - j) % BUFFER_SIZE == 0 then 1 else 0)
  {
    if i > 0 {
      assert got[i := g][1..] == got[1..][i - 1 := g];
      ReadsUpdate(got[1..], i - 1, g, j);
    } else {
      assert got[i := g][1..] == got[1..];
      LapsMove(|got[0]|, j);
    }
  }

  /** A ring further on, everyone still has one read of the slot to make. */
  lemma {:induction false} ReadsShift(got: seq<seq<int>>, j: int)
    ensures Reads(got, j + BUFFER_SIZE) == Reads(got, j) - |got|
  {
    if got != [] {
      LapsMove(|got[0]|, j);
      ReadsShift(got[1..], j);
    }
  }

  /** Older slots have been read at least as often. */
  lemma {:induction false} ReadsFall(got: seq<seq<int>>, j: int, k: int)
    requires j <= k
    ensures Reads(got, k) <= Reads(got, j)
  {
    if got != [] {
      LapsFall(|got[0]|, j, k);
      ReadsFall(got[1..], j, k);
    }
  }

  lemma LapsFall(c: int, j: int, k: int)
    requires j <= k
    ensures Laps(c, k) <= Laps(c, j)
  {
  }

  /** If everyone is about to read the slot of `j`, the four older ones have one read each more. */
  lemma {:induction false} ReadsAligned(got: seq<seq<int>>, j: int)
    requires forall i :: 0 <= i < |got| ==> (|got[i]| - j) % BUFFER_SIZE == 0
    ensures Reads(got, j - BUFFER_SIZE + 1) == Reads(got, j) + |got|
  {
    if got != [] {
      assert forall i :: 0 <= i < |got[1..]| ==> got[1..][i] == got[i + 1];
      ReadsAligned(got[1..], j);
      LapsAligned(|got[0]|, j);
    }
  }

  lemma LapsAligned(c: int, j: int)
    requires (c - j) % BUFFER_SIZE == 0
    ensures Laps(c, j - BUFFER_SIZE + 1) == Laps(c, j) + 1
  {
  }

  /** The slot of value `j`, one of the last five, holds that value and counts its reads, whoever made them. */
  ghost predicate RawSlot(p: Proto, j: int)
    requires WellFormed(p)
  {
    var r, k := Reads(p.got, j), j % BUFFER_SIZE;
    && 0 <= r <= |p.got|
    && if j < 0 then r == |p.got| && p.s.readCount[k] == 9999
       else j < |p.puts| && p.s.buffer[k] == p.puts[j] && p.s.readCount[k] == r
  }

  /** Some read of the slot of `j` is still to come. */
  function Owed(got: seq<seq<int>>, j: int): nat {
    if Reads(got, j) < |got| then 1 else 0
  }

  /** The slots, after `n` puts, that are not yet free again. */
  function Busy(got: seq<seq<int>>, n: int): nat {
    Owed(got, n - 5) + Owed(got, n - 4) + Owed(got, n - 3) + Owed(got, n - 2) + Owed(got, n - 1)
  }

  ghost predicate RawInv(p: Proto) {
    && WellFormed(p)
    && 1 <= |p.got| <= 9999
    && p.s.putIdx == |p.puts| % BUFFER_SIZE
    && p.s.empty >= 0
    && p.s.empty + p.holding + Busy(p.got, |p.puts|) == BUFFER_SIZE
    && (forall i :: 0 <= i < |p.got| ==> p.s.idx[i] == |p.got[i]| % BUFFER_SIZE)
    && (forall j :: |p.puts| - BUFFER_SIZE <= j < |p.puts| ==> RawSlot(p, j))
  }

  lemma {:induction false} NoReads(got: seq<seq<int>>, j: int)
    requires forall i :: 0 <= i < |got| ==> got[i] == []
    requires -BUFFER_SIZE <= j < 0
    ensures Reads(got, j) == |got|
  {
    if got != [] {
      assert forall i :: 0 <= i < |got[1..]| ==> got[1..][i] == got[i + 1];
      NoReads(got[1..], j);
    }
  }

  lemma StartRawInv(buffer: seq<int>, n: nat)
    requires |buffer| == BUFFER_SIZE && 1 <= n <= 9999
    ensures RawInv(Start(buffer, n)) && |Start(buffer, n).got| == n
  {
    ConnectedIdx(buffer, n);
    var p := Start(buffer, n);
    forall j | -BUFFER_SIZE <= j < 0
      ensures Reads(p.got, j) == n && Owed(p.got, j) == 0
    {
      NoReads(p.got, j);
    }
  }

  /** Slots become free again in the order in which they were written. */
  lemma OldestFirst(p: Proto)
    requires RawInv(p) && Busy(p.got, |p.puts|) < BUFFER_SIZE
    ensures Reads(p.got, |p.puts| - BUFFER_SIZE) == |p.got| && PutGuard(p.s)
  {
    var n := |p.puts|;
    ReadsFall(p.got, n - 5, n - 4);
    ReadsFall(p.got, n - 5, n - 3);
    ReadsFall(p.got, n - 5, n - 2);
    ReadsFall(p.got, n - 5, n - 1);
    assert RawSlot(p, n - 5);
    DifferentSlots(n, n - 4);
    assert (n - 5) % 5 == n % 5;
  }

  lemma RawPutKeepsSlots(p: Proto, v: int, j: int)
    requires RawInv(p) && Enabled(p, Put(v))
    requires |p.puts| + 1 - BUFFER_SIZE <= j <= |p.puts|
    ensures RawSlot(Next(p, Put(v)), j)
  {
    var n := |p.puts|;
    if j == n {
      OldestFirst(p);
      ReadsShift(p.got, n - 5);
    } else {
      assert RawSlot(p, j);
      DifferentSlots(n, j);
    }
  }

  lemma RawPutKeepsInv(p: Proto, v: int)
    requires RawInv(p) && Enabled(p, Put(v))
    ensures RawInv(Next(p, Put(v)))
  {
    var n, q := |p.puts|, Next(p, Put(v));
    OldestFirst(p);
    ReadsShift(p.got, n - 5);
    NextSlot(n);
    forall j | n + 1 - BUFFER_SIZE <= j <= n
      ensures RawSlot(q, j)
    {
      RawPutKeepsSlots(p, v, j);
    }
  }

  /** The value, of the last five, in the slot that comes `c`-th in going round the ring. */
  function InSlot(n: nat, c: nat): int {
    n - BUFFER_SIZE + (c - n) % BUFFER_SIZE
  }

  lemma InWindow(n: nat, c: nat)
    ensures n - BUFFER_SIZE <= InSlot(n, c) < n
  {
  }

  lemma InSlotIs(n: nat, c: nat, j: int)
    requires n - BUFFER_SIZE <= j < n
    ensures n - BUFFER_SIZE <= InSlot(n, c) < n && InSlot(n, c) % BUFFER_SIZE == c % BUFFER_SIZE
    ensures j == InSlot(n, c) <==> (c - j) % BUFFER_SIZE == 0
    ensures j == InSlot(n, c) <==> j % BUFFER_SIZE == c % BUFFER_SIZE
  {
    var m, q := InSlot(n, c), (c - n) / BUFFER_SIZE + 1;
    assert c == m + BUFFER_SIZE * q;
    RoundTheRing(m, q);
    OffTheRing(q, m - j);
    DifferentSlots(m, j);
  }

  lemma RoundTheRing(m: int, q: int)
    ensures (m + BUFFER_SIZE * q) % BUFFER_SIZE == m % BUFFER_SIZE
  {
  }

  lemma OffTheRing(q: int, d: int)
    requires -BUFFER_SIZE < d < BUFFER_SIZE
    ensures (BUFFER_SIZE * q + d) % BUFFER_SIZE == 0 <==> d == 0
  {
  }

  /** What a consumer receives, stale reads included: with its `c`-th read the newest value in the `c`-th slot round the
      ring. */
  lemma RawReadTakes(p: Proto, i: nat)
    requires RawInv(p) && Enabled(p, Read(i))
    ensures var n, j := |p.puts|, InSlot(|p.puts|, |p.got[i]|);
            && 0 <= j && n - BUFFER_SIZE <= j < n && (|p.got[i]| - j) % BUFFER_SIZE == 0
            && Reads(p.got, j) < |p.got| && p.s.readCount[p.s.idx[i]] == Reads(p.got, j)
            && Next(p, Read(i)).got == p.got[i := p.got[i] + [p.puts[j]]]
  {
    var n, c := |p.puts|, |p.got[i]|;
    InSlotIs(n, c, n - 1);
    InSlotIs(n, c, InSlot(n, c));
    assert RawSlot(p, InSlot(n, c));
  }

  lemma RawReadKeepsSlots(p: Proto, i: nat, j: int)
    requires RawInv(p) && Enabled(p, Read(i))
    requires |p.puts| - BUFFER_SIZE <= j < |p.puts|
    ensures RawSlot(Next(p, Read(i)), j)
  {
    RawReadTakes(p, i);
    var n, c := |p.puts|, |p.got[i]|;
    InSlotIs(n, c, j);
    assert RawSlot(p, j);
    ReadsUpdate(p.got, i, Next(p, Read(i)).got[i], j);
  }

  /** How one read changes what is owed: only the slot that is read, and only if it was the last read of it. */
  lemma OwedAfterRead(p: Proto, i: nat, j: int)
    requires RawInv(p) && Enabled(p, Read(i))
    requires |p.puts| - BUFFER_SIZE <= j < |p.puts|
    ensures var m, last := InSlot(|p.puts|, |p.got[i]|), Reads(p.got, j) + 1 == |p.got|;
            Owed(Next(p, Read(i)).got, j) == Owed(p.got, j) - (if j == m && last then 1 else 0)
  {
    RawReadTakes(p, i);
    InSlotIs(|p.puts|, |p.got[i]|, j);
    ReadsUpdate(p.got, i, Next(p, Read(i)).got[i], j);
  }

  /** The last read of the slot leaves a permit, and nothing else does. */
  lemma PermitAfterRead(p: Proto, i: nat)
    requires RawInv(p) && Enabled(p, Read(i))
    ensures var m := InSlot(|p.puts|, |p.got[i]|);
            Next(p, Read(i)).s.empty == p.s.empty + (if Reads(p.got, m) + 1 == |p.got| then 1 else 0)
  {
    RawReadTakes(p, i);
  }

  lemma BusyAfterRead(p: Proto, i: nat)
    requires RawInv(p) && Enabled(p, Read(i))
    ensures var m := InSlot(|p.puts|, |p.got[i]|);
            Busy(Next(p, Read(i)).got, |p.puts|) ==
            Busy(p.got, |p.puts|) - (if Reads(p.got, m) + 1 == |p.got| then 1 else 0)
  {
    var n := |p.puts|;
    InWindow(n, |p.got[i]|);
    OwedAfterRead(p, i, n - 5);
    OwedAfterRead(p, i, n - 4);
    OwedAfterRead(p, i, n - 3);
    OwedAfterRead(p, i, n - 2);
    OwedAfterRead(p, i, n - 1);
  }

  lemma RawReadKeepsSemaphore(p: Proto, i: nat)
    requires RawInv(p) && Enabled(p, Read(i))
    ensures var q := Next(p, Read(i)); q.s.empty + Busy(q.got, |p.puts|) == p.s.empty + Busy(p.got, |p.puts|)
  {
    PermitAfterRead(p, i);
    BusyAfterRead(p, i);
  }

  lemma RawReadKeepsInv(p: Proto, i: nat)
    requires RawInv(p) && Enabled(p, Read(i))
    ensures RawInv(Next(p, Read(i)))
  {
    var q := Next(p, Read(i));
    RawReadTakes(p, i);
    RawReadKeepsSemaphore(p, i);
    NextSlot(|p.got[i]|);
    forall j | |q.puts| - BUFFER_SIZE <= j < |q.puts|
      ensures RawSlot(q, j)
    {
      RawReadKeepsSlots(p, i, j);
    }
  }

  lemma RawStepKeepsInv(p: Proto, step: Step)
    requires RawInv(p) && Enabled(p, step)
    ensures RawInv(Next(p, step))
  {
    match step
    case Put(v) => RawPutKeepsInv(p, v);
    case Read(i) => RawReadKeepsInv(p, i);
    case _ =>
      forall j | |p.puts| - BUFFER_SIZE <= j < |p.puts|
        ensures RawSlot(Next(p, step), j)
      {
        assert RawSlot(p, j);
      }
  }

  lemma {:induction false} RawRunKeepsInv(p: Proto, steps: seq<Step>)
    requires RawInv(p) && Legal(p, steps)
    ensures RawInv(Exec(p, steps))
    decreases |steps|
  {
    if steps != [] {
      RawStepKeepsInv(p, steps[0]);
      RawRunKeepsInv(Next(p, steps[0]), steps[1..]);
    }
  }

  /** Consumer `i` can go on: past the second wait, or past both one after the other. */
  predicate CanGoOn(p: Proto, i: nat)
    requires WellFormed(p) && i < |p.got|
  {
    SecondGuard(p.s, i) && (!p.passed[i] ==> FirstGuard(p.s, i))
  }

  /** If everyone is right behind the putter, the oldest slot has been read once more than the newest by everyone. */
  lemma AllRightBehind(p: Proto)
    requires RawInv(p)
    ensures (forall k :: 0 <= k < |p.got| ==> !FirstGuard(p.s, k)) ==>
              Reads(p.got, |p.puts| - BUFFER_SIZE) == Reads(p.got, |p.puts| - 1) + |p.got|
  {
    var n := |p.puts|;
    if forall k :: 0 <= k < |p.got| ==> !FirstGuard(p.s, k) {
      forall k | 0 <= k < |p.got|
        ensures (|p.got[k]| - (n - 1)) % BUFFER_SIZE == 0
      {
        assert !FirstGuard(p.s, k);
        RightBehind(|p.got[k]|, n);
      }
      ReadsAligned(p.got, n - 1);
    }
  }

  /** With every slot owed a read, every consumer finds one to make, and not all of them are right behind the putter. */
  lemma FullRingIsRead(p: Proto) returns (i: nat)
    requires RawInv(p) && Busy(p.got, |p.puts|) == BUFFER_SIZE
    ensures i < |p.got| && CanGoOn(p, i)
  {
    var n := |p.puts|;
    forall k | 0 <= k < |p.got|
      ensures SecondGuard(p.s, k)
    {
      InSlotIs(n, |p.got[k]|, n - 1);
      assert RawSlot(p, InSlot(n, |p.got[k]|));
    }
    assert RawSlot(p, n - 1);
    AllRightBehind(p);
    i :| 0 <= i < |p.got| && FirstGuard(p.s, i);
  }

  lemma RightBehind(c: nat, n: nat)
    requires (c % BUFFER_SIZE + 1) % BUFFER_SIZE == (n % BUFFER_SIZE) % BUFFER_SIZE
    ensures (c - (n - 1)) % BUFFER_SIZE == 0
  {
  }

  /** The code as it stands, in every interleaving of any number of putters and consumers: a putter with a permit never
      waits for readers, and either a putter or a consumer can always go on. */
  lemma StreamNeverHalts(buffer: seq<int>, n: nat, steps: seq<Step>) returns (i: nat)
    requires |buffer| == BUFFER_SIZE && 1 <= n <= 9999
    requires WellFormed(Start(buffer, n)) && Legal(Start(buffer, n), steps)
    ensures var p := Exec(Start(buffer, n), steps);
            && (p.holding > 0 ==> PutGuard(p.s))
            && (p.s.empty > 0 || p.holding > 0 || (i < |p.got| && CanGoOn(p, i)))
  {
    StartRawInv(buffer, n);
    RawRunKeepsInv(Start(buffer, n), steps);
    var p := Exec(Start(buffer, n), steps);
    i := 0;
    if p.holding > 0 {
      OldestFirst(p);
    } else if p.s.empty == 0 {
      i := FullRingIsRead(p);
    }
  }
}
