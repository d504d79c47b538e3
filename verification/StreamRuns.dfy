/** Whole runs of one stream: exactly when every consumer receives what was put, in order, once. */
module StreamRuns {
  import opened StreamModel
  import opened StreamProtocol

  predicate Legal(p: Proto, steps: seq<Step>)
    requires WellFormed(p)
    decreases |steps|
  {
    steps == [] || (Enabled(p, steps[0]) && Legal(Next(p, steps[0]), steps[1..]))
  }

  function Exec(p: Proto, steps: seq<Step>): Proto
    requires WellFormed(p) && Legal(p, steps)
    ensures WellFormed(Exec(p, steps))
    decreases |steps|
  {
    if steps == [] then p else Exec(Next(p, steps[0]), steps[1..])
  }

  /** No consumer ever reads when it has nothing new to read. */
  predicate NoStaleRead(p: Proto, steps: seq<Step>)
    requires WellFormed(p) && Legal(p, steps)
    decreases |steps|
  {
    steps == [] || (!Stale(p, steps[0]) && NoStaleRead(Next(p, steps[0]), steps[1..]))
  }

  /** Every consumer has received a prefix of what was put. */
  ghost predicate InOrderOnce(p: Proto) {
    forall i :: 0 <= i < |p.got| ==> p.got[i] <= p.puts
  }

  ghost predicate AlwaysInOrderOnce(p: Proto, steps: seq<Step>)
    requires WellFormed(p) && Legal(p, steps)
    decreases |steps|
  {
    InOrderOnce(p) && (steps != [] ==> AlwaysInOrderOnce(Next(p, steps[0]), steps[1..]))
  }

  lemma InvInOrder(p: Proto)
    requires Inv(p)
    ensures InOrderOnce(p)
  {
    forall i | 0 <= i < |p.got|
      ensures p.got[i] <= p.puts
    {
      assert ConsumerOk(p, i);
    }
  }

  /** Exactly the runs without a stale read deliver to every consumer, at every moment, the values put, in order,
      once. */
  lemma {:induction false} ExactlyOnceIffNoStaleRead(p: Proto, steps: seq<Step>)
    requires Inv(p) && Legal(p, steps)
    ensures AlwaysInOrderOnce(p, steps) <==> NoStaleRead(p, steps)
    ensures NoStaleRead(p, steps) ==> Inv(Exec(p, steps))
    decreases |steps|
  {
    InvInOrder(p);
    if steps != [] {
      if Stale(p, steps[0]) {
        var q := Next(p, steps[0]);
        assert |q.got[steps[0].i]| == |q.puts| + 1;
        assert !InOrderOnce(q);
      } else {
        StepKeepsInv(p, steps[0]);
        ExactlyOnceIffNoStaleRead(Next(p, steps[0]), steps[1..]);
      }
    }
  }

  /** With at most one consumer no interleaving has a stale read, although the first wait is not looked at again. */
  lemma {:induction false} OneConsumerNeverStale(p: Proto, steps: seq<Step>)
    requires Inv(p) && Legal(p, steps)
    requires |p.got| <= 1
    ensures NoStaleRead(p, steps)
    decreases |steps|
  {
    if steps != [] {
      if steps[0].Read? {
        GuardsMean(p, steps[0].i);
        var i := SlowestIsLeast(p.got);
      }
      StepKeepsInv(p, steps[0]);
      OneConsumerNeverStale(Next(p, steps[0]), steps[1..]);
    }
  }

  /** Both waits of `get` are over at the moment of every read. */
  predicate JointlyGuarded(p: Proto, steps: seq<Step>)
    requires WellFormed(p) && Legal(p, steps)
    decreases |steps|
  {
    steps == [] || ((steps[0].Read? ==> FirstGuard(p.s, steps[0].i)) && JointlyGuarded(Next(p, steps[0]), steps[1..]))
  }

  /** Every consumer is at least one value behind, once there is a value. */
  ghost predicate Behind(p: Proto) {
    forall i :: 0 <= i < |p.got| ==> |p.got[i]| < |p.puts| || |p.puts| == 0
  }

  lemma JointStep(p: Proto, step: Step)
    requires Inv(p) && Behind(p) && Enabled(p, step)
    requires step.Read? ==> FirstGuard(p.s, step.i)
    ensures !Stale(p, step)
    ensures Inv(Next(p, step)) && Behind(Next(p, step))
  {
    InvInOrder(p);
    if step.Read? {
      GuardsMean(p, step.i);
    }
    StepKeepsInv(p, step);
  }

  /** If the first wait were looked at again, no run with any number of consumers would have a stale read. */
  lemma {:induction false} JointGuardNeverStale(p: Proto, steps: seq<Step>)
    requires Inv(p) && Behind(p) && Legal(p, steps) && JointlyGuarded(p, steps)
    ensures NoStaleRead(p, steps)
    ensures Inv(Exec(p, steps)) && Behind(Exec(p, steps))
    decreases |steps|
  {
    if steps != [] {
      JointStep(p, steps[0]);
      JointGuardNeverStale(Next(p, steps[0]), steps[1..]);
    }
  }

  /** What every run from the start keeps, as long as no read is stale: each consumer has the first values put,
      all but at most the last five; the semaphore, the permits under way and the values that the slowest consumer
      still owes add up to the size of the ring; the count of a slot that was written is the number of consumers
      past its value; a putter with a permit never waits for readers, and the value it overwrites has reached
      everyone. */
  lemma EveryRunKeeps(buffer: seq<int>, n: nat, steps: seq<Step>)
    requires |buffer| == BUFFER_SIZE && n <= 9999
    requires WellFormed(Start(buffer, n)) && Legal(Start(buffer, n), steps) && NoStaleRead(Start(buffer, n), steps)
    ensures var p := Exec(Start(buffer, n), steps);
            && InOrderOnce(p)
            && (forall i :: 0 <= i < |p.got| ==> |p.puts| - BUFFER_SIZE <= |p.got[i]|)
            && p.s.empty + p.holding + (|p.puts| - Slowest(p.got)) == BUFFER_SIZE
            && (forall j :: |p.puts| - BUFFER_SIZE <= j < |p.puts| && j >= 0 ==>
                  p.s.readCount[j % BUFFER_SIZE] == CountPast(p.got, j))
            && (p.holding > 0 ==> PutGuard(p.s) && forall i :: 0 <= i < |p.got| ==> |p.got[i]| > |p.puts| - BUFFER_SIZE)
  {
    StartInv(buffer, n);
    ExactlyOnceIffNoStaleRead(Start(buffer, n), steps);
    var p := Exec(Start(buffer, n), steps);
    InvInOrder(p);
    var m := SlowestIsLeast(p.got);
    if p.holding > 0 {
      PutNeverWaits(p);
    }
    forall i | 0 <= i < |p.got|
      ensures |p.puts| - BUFFER_SIZE <= |p.got[i]|
    {
      assert ConsumerOk(p, i);
    }
    forall j | |p.puts| - BUFFER_SIZE <= j < |p.puts| && j >= 0
      ensures p.s.readCount[j % BUFFER_SIZE] == CountPast(p.got, j)
    {
      assert SlotOk(p, j);
    }
  }

  lemma {:induction false} Chain(p: Proto, a: seq<Step>, b: seq<Step>)
    requires WellFormed(p) && Legal(p, a) && Legal(Exec(p, a), b)
    ensures Legal(p, a + b) && Exec(p, a + b) == Exec(Exec(p, a), b)
    ensures NoStaleRead(p, a + b) ==> NoStaleRead(Exec(p, a), b)
    decreases |a|
  {
    if a == [] {
      assert a + b == b;
    } else {
      assert (a + b)[1..] == a[1..] + b;
      Chain(Next(p, a[0]), a[1..], b);
    }
  }

  /** Consumer 0 is up to date, nobody else has read anything, and no putter is under way. */
  predicate Racing(p: Proto, k: nat) {
    && |p.got| >= 2 && |p.puts| == k && p.holding == 0
    && |p.got[0]| == k && |p.passed| == |p.got| && !p.passed[0]
    && forall i :: 0 < i < |p.got| ==> p.got[i] == []
  }

  /** One more value put and read by consumer 0, which waits for it in the second loop. */
  lemma Round(p: Proto, k: nat, v: int)
    requires Inv(p) && Racing(p, k) && k < BUFFER_SIZE
    ensures var steps := [Wait] + ([Pass(0)] + ([Put(v)] + ([Read(0)] + [])));
            && Legal(p, steps) && NoStaleRead(p, steps)
            && Inv(Exec(p, steps)) && Racing(Exec(p, steps), k + 1)
  {
    var m := SlowestIsLeast(p.got);
    assert Slowest(p.got) == 0 by {
      assert p.got[1] == [];
    }
    GuardsMean(p, 0);
    var p1 := Next(p, Wait);
    StepKeepsInv(p, Wait);
    var p2 := Next(p1, Pass(0));
    StepKeepsInv(p1, Pass(0));
    PutNeverWaits(p2);
    var p3 := Next(p2, Put(v));
    StepKeepsInv(p2, Put(v));
    GuardsMean(p3, 0);
    var p4 := Next(p3, Read(0));
    StepKeepsInv(p3, Read(0));
    First(p3, Read(0), []);
    First(p2, Put(v), [Read(0)] + []);
    First(p1, Pass(0), [Put(v)] + ([Read(0)] + []));
    First(p, Wait, [Pass(0)] + ([Put(v)] + ([Read(0)] + [])));
  }

  lemma First(p: Proto, step: Step, rest: seq<Step>)
    requires WellFormed(p) && Enabled(p, step) && Legal(Next(p, step), rest)
    ensures Legal(p, [step] + rest) && Exec(p, [step] + rest) == Exec(Next(p, step), rest)
    ensures NoStaleRead(p, [step] + rest) <==> !Stale(p, step) && NoStaleRead(Next(p, step), rest)
  {
    assert ([step] + rest)[1..] == rest;
  }

  /** After five rounds consumer 0 reads the first value a second time. */
  lemma {:induction false} RaceGoesStale(p: Proto, k: nat) returns (steps: seq<Step>)
    requires Inv(p) && Racing(p, k) && k <= BUFFER_SIZE
    ensures Legal(p, steps) && !NoStaleRead(p, steps)
    decreases BUFFER_SIZE - k
  {
    if k < BUFFER_SIZE {
      var round := [Wait] + ([Pass(0)] + ([Put(0)] + ([Read(0)] + [])));
      Round(p, k, 0);
      var rest := RaceGoesStale(Exec(p, round), k + 1);
      steps := round + rest;
      Chain(p, round, rest);
    } else {
      var m := SlowestIsLeast(p.got);
      assert p.got[1] == [];
      GuardsMean(p, 0);
      StepKeepsInv(p, Pass(0));
      GuardsMean(Next(p, Pass(0)), 0);
      First(Next(p, Pass(0)), Read(0), []);
      First(p, Pass(0), [Read(0)] + []);
      steps := [Pass(0)] + ([Read(0)] + []);
    }
  }

  ghost predicate CanGoStale(p: Proto) {
    exists steps :: WellFormed(p) && Legal(p, steps) && !NoStaleRead(p, steps)
  }

  /** The code as it stands can deliver a value twice exactly when a stream has two consumers or more. */
  lemma StaleReadsIffTwoConsumers(buffer: seq<int>, n: nat)
    requires |buffer| == BUFFER_SIZE && n <= 9999
    ensures CanGoStale(Start(buffer, n)) <==> n >= 2
  {
    var p := Start(buffer, n);
    StartInv(buffer, n);
    if n >= 2 {
      var steps := RaceGoesStale(p, 0);
    } else {
      forall steps | Legal(p, steps)
        ensures NoStaleRead(p, steps)
      {
        OneConsumerNeverStale(p, steps);
      }
    }
  }

  /** The count that marks a slot as never written carries no further than 9999 consumers: with more, a consumer
      gets past both waits before anything was put. */
  lemma SentinelBound(buffer: seq<int>, n: nat)
    requires |buffer| == BUFFER_SIZE && n >= 1
    ensures WellFormed(Start(buffer, n))
    ensures FirstGuard(Start(buffer, n).s, 0) && SecondGuard(Start(buffer, n).s, 0) <==> n > 9999
  {
    ConnectedIdx(buffer, n);
  }
}
