/** Any number of putters and consumers on one stream, in every interleaving of their program points.

    A consumer passes the first wait of `get` and later, without looking at it again, the second; a putter takes a
    permit from the semaphore and later stores. `puts` and `got` record what was put and what each consumer
    received. */
module StreamProtocol {
  import opened StreamModel

  datatype Proto = Proto(s: Stream, passed: seq<bool>, holding: nat, puts: seq<int>, got: seq<seq<int>>)

  datatype Step =
    | Wait           // a putter gets past sem_wait
    | Put(v: int)    // a putter with a permit stores v
    | Pass(i: nat)   // consumer i gets past the first wait of get
    | Read(i: nat)   // consumer i gets past the second wait and reads

  predicate WellFormed(p: Proto) {
    Shaped(p.s) && |p.passed| == |p.got| == |p.s.idx|
  }

  predicate Enabled(p: Proto, step: Step)
    requires WellFormed(p)
  {
    match step
    case Wait => p.s.empty > 0
    case Put(v) => p.holding > 0 && PutGuard(p.s)
    case Pass(i) => i < |p.got| && !p.passed[i] && FirstGuard(p.s, i)
    case Read(i) => i < |p.got| && p.passed[i] && SecondGuard(p.s, i)
  }

  function Next(p: Proto, step: Step): Proto
    requires WellFormed(p) && Enabled(p, step)
    ensures WellFormed(Next(p, step)) && |Next(p, step).got| == |p.got|
  {
    match step
    case Wait => p.(s := p.s.(empty := p.s.empty - 1), holding := p.holding + 1)
    case Put(v) => p.(s := StreamModel.Store(p.s, v), holding := p.holding - 1, puts := p.puts + [v])
    case Pass(i) => p.(passed := p.passed[i := true])
    case Read(i) => p.(s := Take(p.s, i), passed := p.passed[i := false],
                       got := p.got[i := p.got[i] + [p.s.buffer[p.s.idx[i]]]])
  }

  /** How many consumers have received more than `j` values. */
  function CountPast(got: seq<seq<int>>, j: int): nat {
    if got == [] then 0 else (if |got[0]| > j then 1 else 0) + CountPast(got[1..], j)
  }

  /** How many values the slowest consumer has received. */
  function Slowest(got: seq<seq<int>>): nat {
    if got == [] then 0
    else if |got| == 1 || |got[0]| < Slowest(got[1..]) then |got[0]|
    else Slowest(got[1..])
  }

  lemma {:induction false} CountUpdate(got: seq<seq<int>>, i: nat, g: seq<int>, j: int)
    requires i < |got|
    ensures CountPast(got[i := g], j) ==
            CountPast(got, j) - (if |got[i]| > j then 1 else 0) + (if |g| > j then 1 else 0)
  {
    if i > 0 {
      assert got[i := g][1..] == got[1..][i - 1 := g];
      CountUpdate(got[1..], i - 1, g, j);
    } else {
      assert got[i := g][1..] == got[1..];
    }
  }

  lemma {:induction false} CountBounds(got: seq<seq<int>>, j: int)
    ensures CountPast(got, j) <= |got|
    ensures CountPast(got, j) == |got| <==> forall i :: 0 <= i < |got| ==> |got[i]| > j
    ensures (forall i :: 0 <= i < |got| ==> |got[i]| <= j) ==> CountPast(got, j) == 0
  {
    if got != [] {
      CountBounds(got[1..], j);
      assert forall i :: 0 < i < |got| ==> got[i] == got[1..][i - 1];
    }
  }

  lemma {:induction false} SlowestIsLeast(got: seq<seq<int>>) returns (i: nat)
    ensures got != [] ==> i < |got| && |got[i]| == Slowest(got)
    ensures forall k :: 0 <= k < |got| ==> Slowest(got) <= |got[k]|
  {
    i := 0;
    if |got| > 1 {
      var m := SlowestIsLeast(got[1..]);
      if |got[0]| >= Slowest(got[1..]) {
        i := m + 1;
      }
      assert forall k :: 0 < k < |got| ==> got[k] == got[1..][k - 1];
    }
  }

  /** The slot of value `j`, one of the last five, holds it and counts the consumers that are past it. Slots that were
      never written count 9999. */
  ghost predicate SlotOk(p: Proto, j: int)
    requires WellFormed(p)
  {
    if j < 0 then p.s.readCount[j % BUFFER_SIZE] == 9999
    else
      && j < |p.puts|
      && p.s.buffer[j % BUFFER_SIZE] == p.puts[j]
      && p.s.readCount[j % BUFFER_SIZE] == CountPast(p.got, j)
  }

  /** Consumer `i` has received the first |got[i]| values put, all but at most the last five. */
  ghost predicate ConsumerOk(p: Proto, i: nat)
    requires WellFormed(p) && i < |p.got|
  {
    && |p.puts| - BUFFER_SIZE <= |p.got[i]|
    && p.got[i] <= p.puts
    && p.s.idx[i] == |p.got[i]| % BUFFER_SIZE
  }

  ghost predicate Inv(p: Proto) {
    && WellFormed(p)
    && |p.got| <= 9999
    && p.s.putIdx == |p.puts| % BUFFER_SIZE
    && p.s.empty >= 0
    && p.s.empty + p.holding + (|p.puts| - Slowest(p.got)) == BUFFER_SIZE
    && (forall i :: 0 <= i < |p.got| ==> ConsumerOk(p, i))
    && (forall j :: |p.puts| - BUFFER_SIZE <= j < |p.puts| ==> SlotOk(p, j))
  }

  /** `n` consumers connected before the first put. */
  function Start(buffer: seq<int>, n: nat): Proto
    requires |buffer| == BUFFER_SIZE
  {
    Proto(Connected(Init(buffer), n), seq(n, _ => false), 0, [], seq(n, _ => []))
  }

  function Connected(s: Stream, n: nat): Stream {
    if n == 0 then s else Connect(Connected(s, n - 1))
  }

  lemma {:induction false} ConnectedIdx(buffer: seq<int>, n: nat)
    requires |buffer| == BUFFER_SIZE
    ensures Connected(Init(buffer), n) == Init(buffer).(idx := seq(n, _ => 0))
  {
    if n > 0 {
      ConnectedIdx(buffer, n - 1);
    }
  }

  lemma StartInv(buffer: seq<int>, n: nat)
    requires |buffer| == BUFFER_SIZE && n <= 9999
    ensures Inv(Start(buffer, n)) && |Start(buffer, n).got| == n
  {
    ConnectedIdx(buffer, n);
    var i := SlowestIsLeast(Start(buffer, n).got);
  }

  /** A read with nothing new for its consumer: it finds the value of five puts ago, again. */
  predicate Stale(p: Proto, step: Step) {
    step.Read? && step.i < |p.got| && |p.got[step.i]| == |p.puts|
  }

  /** What the concrete guards of `get` mean, by how far consumer `i` is behind. */
  lemma GuardsMean(p: Proto, i: nat)
    requires Inv(p) && i < |p.got|
    ensures FirstGuard(p.s, i) <==> |p.puts| - |p.got[i]| != 1
    ensures SecondGuard(p.s, i) <==>
            |p.got[i]| < |p.puts| || (|p.puts| >= BUFFER_SIZE && Slowest(p.got) == |p.puts| - BUFFER_SIZE)
  {
    assert ConsumerOk(p, i);
    OneBehind(|p.got[i]|, |p.puts|);
    if |p.got[i]| < |p.puts| {
      SlotWithNews(p, i);
    } else {
      SlotWithoutNews(p);
    }
  }

  lemma NextSlot(c: nat)
    ensures (c % BUFFER_SIZE + 1) % BUFFER_SIZE == (c + 1) % BUFFER_SIZE
  {
  }

  lemma DifferentSlots(c: int, j: int)
    requires -BUFFER_SIZE < c - j < BUFFER_SIZE
    ensures c % BUFFER_SIZE == j % BUFFER_SIZE <==> c == j
  {
  }

  lemma OneBehind(c: nat, n: nat)
    requires c <= n <= c + BUFFER_SIZE
    ensures (c % BUFFER_SIZE + 1) % BUFFER_SIZE == (n % BUFFER_SIZE) % BUFFER_SIZE <==> n - c == 1
  {
  }

  lemma SlotWithNews(p: Proto, i: nat)
    requires Inv(p) && i < |p.got| && |p.got[i]| < |p.puts|
    ensures SecondGuard(p.s, i)
  {
    assert ConsumerOk(p, i);
    assert SlotOk(p, |p.got[i]|);
    CountBounds(p.got, |p.got[i]|);
  }

  /** The slot that is written next has been read by everyone unless the slowest consumer is a whole ring behind. */
  lemma SlotWithoutNews(p: Proto)
    requires Inv(p) && |p.got| > 0
    ensures PutGuard(p.s) <==> !(|p.puts| >= BUFFER_SIZE && Slowest(p.got) == |p.puts| - BUFFER_SIZE)
  {
    var n := |p.puts|;
    assert (n - 5) % 5 == n % 5;
    assert SlotOk(p, n - 5);
    CountBounds(p.got, n - 5);
    var m := SlowestIsLeast(p.got);
    assert ConsumerOk(p, m);
  }

  /** What goes wrong in a stale read: the consumer gets the value of five puts ago a second time. It takes another
      consumer that has not read that value yet. */
  lemma StaleReadRepeats(p: Proto, i: nat)
    requires Inv(p) && Enabled(p, Read(i)) && Stale(p, Read(i))
    ensures |p.got| >= 2 && |p.puts| >= BUFFER_SIZE && Slowest(p.got) == |p.puts| - BUFFER_SIZE
    ensures Next(p, Read(i)).got[i] == p.puts + [p.puts[|p.puts| - BUFFER_SIZE]]
  {
    GuardsMean(p, i);
    assert ConsumerOk(p, i);
    var n := |p.puts|;
    assert (n - 5) % 5 == n % 5;
    assert SlotOk(p, n - 5);
    var m := SlowestIsLeast(p.got);
  }

  /** The permit that a putter holds is worth a free slot: its wait under the lock is over at once. */
  lemma PutNeverWaits(p: Proto)
    requires Inv(p) && p.holding > 0
    ensures PutGuard(p.s)
  {
    var n := |p.puts|;
    var m := SlowestIsLeast(p.got);
    assert (n - 5) % 5 == n % 5;
    assert SlotOk(p, n - 5);
    CountBounds(p.got, n - 5);
  }

  lemma PutKeepsSlots(p: Proto, v: int, j: int)
    requires Inv(p) && Enabled(p, Put(v))
    requires |p.puts| + 1 - BUFFER_SIZE <= j <= |p.puts|
    ensures SlotOk(Next(p, Put(v)), j)
  {
    var n := |p.puts|;
    if j == n {
      NobodyAhead(p);
      CountBounds(p.got, n);
    } else {
      assert SlotOk(p, j);
      DifferentSlots(n, j);
    }
  }

  lemma NobodyAhead(p: Proto)
    requires Inv(p)
    ensures forall i :: 0 <= i < |p.got| ==> |p.got[i]| <= |p.puts|
    ensures p.got != [] ==> Slowest(p.got) <= |p.puts|
  {
    forall i | 0 <= i < |p.got|
      ensures |p.got[i]| <= |p.puts|
    {
      assert ConsumerOk(p, i);
    }
    var m := SlowestIsLeast(p.got);
  }

  lemma PutKeepsInv(p: Proto, v: int)
    requires Inv(p) && Enabled(p, Put(v))
    ensures Inv(Next(p, Put(v)))
  {
    var q := Next(p, Put(v));
    var m := SlowestIsLeast(p.got);
    forall i | 0 <= i < |q.got|
      ensures ConsumerOk(q, i)
    {
      assert ConsumerOk(p, i);
    }
    forall j | |q.puts| - BUFFER_SIZE <= j < |q.puts|
      ensures SlotOk(q, j)
    {
      PutKeepsSlots(p, v, j);
    }
  }

  /** The last reader of a slot, and nobody else, gives the putter a permit. */
  lemma SlowestAfterRead(got: seq<seq<int>>, i: nat, g: seq<int>)
    requires i < |got| && |g| == |got[i]| + 1
    ensures Slowest(got[i := g]) ==
            if CountPast(got[i := g], |got[i]|) == |got| then Slowest(got) + 1 else Slowest(got)
    ensures CountPast(got[i := g], |got[i]|) == |got| ==> Slowest(got) == |got[i]|
  {
    var c, after := |got[i]|, got[i := g];
    var m := SlowestIsLeast(got);
    var m' := SlowestIsLeast(after);
    CountBounds(after, c);
    assert after[i] == g;
    assert forall k :: 0 <= k < |got| && k != i ==> after[k] == got[k];
    if CountPast(after, c) == |got| {
      assert |after[m]| > c && |after[m']| > c;
    } else {
      var k :| 0 <= k < |after| && |after[k]| <= c;
      assert k != i && |got[k]| <= c;
      assert m != i ==> |after[m]| == Slowest(got);
    }
  }

  /** What a read does to the record, when it is not stale. */
  lemma ReadTakesNext(p: Proto, i: nat)
    requires Inv(p) && Enabled(p, Read(i)) && !Stale(p, Read(i))
    ensures |p.got[i]| < |p.puts|
    ensures Next(p, Read(i)).got == p.got[i := p.got[i] + [p.puts[|p.got[i]|]]]
  {
    assert ConsumerOk(p, i);
    assert SlotOk(p, |p.got[i]|);
  }

  lemma ReadKeepsSlots(p: Proto, i: nat, j: int)
    requires Inv(p) && Enabled(p, Read(i)) && !Stale(p, Read(i))
    requires |p.puts| - BUFFER_SIZE <= j < |p.puts|
    ensures SlotOk(Next(p, Read(i)), j)
  {
    ReadTakesNext(p, i);
    var c := |p.got[i]|;
    assert ConsumerOk(p, i);
    assert SlotOk(p, j);
    CountUpdate(p.got, i, p.got[i] + [p.puts[c]], j);
    DifferentSlots(c, j);
  }

  lemma ReadKeepsConsumers(p: Proto, i: nat, k: nat)
    requires Inv(p) && Enabled(p, Read(i)) && !Stale(p, Read(i)) && k < |p.got|
    ensures ConsumerOk(Next(p, Read(i)), k)
  {
    ReadTakesNext(p, i);
    NextSlot(|p.got[i]|);
    assert ConsumerOk(p, i) && ConsumerOk(p, k);
  }

  /** The last reader of its slot leaves one more permit, so the semaphore still adds up. */
  lemma ReadKeepsSemaphore(p: Proto, i: nat)
    requires Inv(p) && Enabled(p, Read(i)) && !Stale(p, Read(i))
    ensures var q := Next(p, Read(i)); q.s.empty - Slowest(q.got) == p.s.empty - Slowest(p.got)
  {
    var c := |p.got[i]|;
    ReadTakesNext(p, i);
    assert ConsumerOk(p, i);
    assert SlotOk(p, c);
    var g := p.got[i] + [p.puts[c]];
    SlowestAfterRead(p.got, i, g);
    CountUpdate(p.got, i, g, c);
  }

  lemma ReadKeepsInv(p: Proto, i: nat)
    requires Inv(p) && Enabled(p, Read(i)) && !Stale(p, Read(i))
    ensures Inv(Next(p, Read(i)))
  {
    var q := Next(p, Read(i));
    ReadTakesNext(p, i);
    ReadKeepsSemaphore(p, i);
    forall k | 0 <= k < |q.got|
      ensures ConsumerOk(q, k)
    {
      ReadKeepsConsumers(p, i, k);
    }
    forall j | |q.puts| - BUFFER_SIZE <= j < |q.puts|
      ensures SlotOk(q, j)
    {
      ReadKeepsSlots(p, i, j);
    }
  }

  lemma StepKeepsInv(p: Proto, step: Step)
    requires Inv(p) && Enabled(p, step) && !Stale(p, step)
    ensures Inv(Next(p, step))
  {
    match step
    case Put(v) => PutKeepsInv(p, v);
    case Read(i) => ReadKeepsInv(p, i);
    case _ =>
      var q := Next(p, step);
      forall i | 0 <= i < |q.got|
        ensures ConsumerOk(q, i)
      {
        assert ConsumerOk(p, i);
      }
      forall j | |q.puts| - BUFFER_SIZE <= j < |q.puts|
        ensures SlotOk(q, j)
      {
        assert SlotOk(p, j);
      }
  }

  /** While the semaphore is exhausted and no putter holds a permit, the slowest consumer can read. So either a
      putter or the slowest consumer can always move. */
  lemma SomeoneCanMove(p: Proto) returns (i: nat)
    requires Inv(p) && |p.got| >= 1
    ensures
      || p.s.empty > 0
      || (p.holding > 0 && PutGuard(p.s))
      || (i < |p.got| && |p.got[i]| == Slowest(p.got) && FirstGuard(p.s, i) && SecondGuard(p.s, i)
          && !Stale(p, Read(i)))
  {
    i := SlowestIsLeast(p.got);
    if p.holding > 0 {
      PutNeverWaits(p);
    } else {
      GuardsMean(p, i);
    }
  }
}
