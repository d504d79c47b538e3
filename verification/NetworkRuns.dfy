/** Whole schedules of main.c's network. As long as no read is stale the consumer's values do not depend on the
    schedule, the network does not stop before the consumer has its ten values, and it would stop even if the consumer
    went on. NetworkRace shows what happens otherwise. */
module NetworkRuns {
  import opened StreamModel
  import opened StreamProtocol
  import opened StreamRuns
  import opened Merging
  import opened Network

  predicate Legal(net: Net, schedule: seq<Process>, mode: Mode)
    requires Shapes(net.ch)
    decreases |schedule|
  {
    schedule == [] ||
    (CanAdvance(net, schedule[0], mode) && Legal(Advance(net, schedule[0], mode), schedule[1..], mode))
  }

  function Exec(net: Net, schedule: seq<Process>, mode: Mode): Net
    requires Shapes(net.ch) && Legal(net, schedule, mode)
    ensures Shapes(Exec(net, schedule, mode).ch)
    decreases |schedule|
  {
    if schedule == [] then net else Exec(Advance(net, schedule[0], mode), schedule[1..], mode)
  }

  /** How many values can ever reach the merged stream: 54 when the first wait is looked at again, 66 when it is
      not. */
  function MergeBound(g: Guard): nat {
    if g.Joint? then 54 else 66
  }

  /** The merger holds both values only while it has room to put one of them. */
  ghost predicate Bounded(net: Net, g: Guard)
    requires Shapes(net.ch)
  {
    |net.ch[MRG].puts| <= MergeBound(g) && (|net.ch[MRG].puts| == MergeBound(g) ==> net.at.merge.RefillA?)
  }

  /** What the merger has read from one side exceeds what it has read from the other by 9 at most (11 without the
      joint guard): five values in the successor's stream, five on the slow side, one in the hands of its process,
      less what the joint guard leaves unread. */
  lemma Imbalance(net: Net, g: Guard)
    requires NetInv(net, g)
    ensures var x, y, d := |net.ch[T5].got[0]|, |net.ch[T7].got[0]|, if g.Joint? then 9 else 11;
            x <= y + d && y <= x + d
  {
    ChannelBounds(net.ch[SUC], 0, 2, g, 0);
    ChannelBounds(net.ch[SUC], 1, 2, g, 0);
    ChannelBounds(net.ch[T5], 0, 1, g, 0);
    ChannelBounds(net.ch[T7], 0, 1, g, 0);
  }

  /** How one action changes what has been put into the merged stream and where the merger stands. */
  lemma MergerMoves(net: Net, who: Process, mode: Mode)
    requires Shapes(net.ch) && CanAdvance(net, who, mode)
    ensures var next := Advance(net, who, mode);
            || (next.ch[MRG].puts == net.ch[MRG].puts
                && (net.at.merge.RefillA? ==> next.at.merge.RefillA? || next.at.merge.Choose?))
            || (who.Merger? && |next.ch[MRG].puts| == |net.ch[MRG].puts| + 1 && net.at.merge.Choose?
                && (next.at.merge.RefillA? || next.at.merge.RefillB?))
    ensures !who.Merger? ==> Advance(net, who, mode).at.merge == net.at.merge
  {
  }

  lemma AdvanceKeepsBounded(net: Net, who: Process, mode: Mode)
    requires NetInv(net, mode.guard) && Bounded(net, mode.guard) && !mode.guard.AsIs? && CanAdvance(net, who, mode)
    ensures NetInv(Advance(net, who, mode), mode.guard)
    ensures Bounded(Advance(net, who, mode), mode.guard)
  {
    AdvanceKeepsNetInv(net, who, mode);
    MergerMoves(net, who, mode);
    var next := Advance(net, who, mode);
    if who.Merger? {
      NoRoomPastBound(next, mode.guard);
    }
  }

  /** At the bound the merger can be neither ready to put nor waiting for the slow side. */
  lemma NoRoomPastBound(net: Net, g: Guard)
    requires NetInv(net, g)
    ensures |net.ch[MRG].puts| == MergeBound(g) ==> !net.at.merge.Choose? && !net.at.merge.RefillB?
  {
    Imbalance(net, g);
    FivesClosed(|net.ch[MRG].puts|);
  }

  /** Safety of every schedule: the invariants hold, the consumer has a prefix of the sorted merge, and at most 54
      (66) values are ever put into the merged stream. */
  lemma {:induction false} EveryScheduleIsSafe(net: Net, schedule: seq<Process>, mode: Mode)
    requires NetInv(net, mode.guard) && Bounded(net, mode.guard)
    requires !mode.guard.AsIs? && Legal(net, schedule, mode)
    ensures NetInv(Exec(net, schedule, mode), mode.guard) && Bounded(Exec(net, schedule, mode), mode.guard)
    decreases |schedule|
  {
    if schedule != [] {
      AdvanceKeepsBounded(net, schedule[0], mode);
      EveryScheduleIsSafe(Advance(net, schedule[0], mode), schedule[1..], mode);
    }
  }

  /** Schedule independence: what the consumer has received is determined by how many values it has received. */
  lemma ConsumerSeesTheMerge(net: Net, g: Guard)
    requires NetInv(net, g)
    ensures net.ch[MRG].got[0] == Merged(net.at.done)
    ensures net.ch[MRG].puts == Merged(|net.ch[MRG].puts|)
  {
    ChannelBounds(net.ch[MRG], 0, 1, g, 0);
    MergedPrefix(net.at.done, |net.ch[MRG].puts|);
    assert net.ch[MRG].got[0] <= net.ch[MRG].puts;
  }

  predicate Stuck(net: Net, mode: Mode)
    requires Shapes(net.ch)
  {
    forall who: Process :: !CanAdvance(net, who, mode)
  }

  /** A stuck network has its merger waiting for a value of the side that is read faster, behind 9 values of the
      other. */
  lemma StuckMerger(net: Net, mode: Mode)
    requires NetInv(net, mode.guard) && Stuck(net, mode)
    requires |net.ch[MRG].puts| - |net.ch[MRG].got[0]| <= 1
    ensures var x, y := |net.ch[T5].got[0]|, |net.ch[T7].got[0]|;
            || ((net.at.merge.GetA? || net.at.merge.RefillA?) && x >= y + 9)
            || ((net.at.merge.GetB? || net.at.merge.RefillB?) && y >= x + 9)
  {
    var g := mode.guard;
    assert !CanAdvance(net, Successor, mode) && !CanAdvance(net, Times5, mode);
    assert !CanAdvance(net, Times7, mode) && !CanAdvance(net, Merger, mode);
    ChannelBounds(net.ch[SUC], 0, 2, g, net.at.i);
    ChannelBounds(net.ch[SUC], 1, 2, g, net.at.i);
    ChannelBounds(net.ch[T5], 0, 1, g, if net.at.times5.Putting? then net.at.times5.out else 0);
    ChannelBounds(net.ch[T7], 0, 1, g, if net.at.times7.Putting? then net.at.times7.out else 0);
    ChannelBounds(net.ch[MRG], 0, 1, g, if net.at.merge.Choose? then MergeAction(net.at.merge).v else 0);
  }

  /** The network stops only when the consumer is done or, with a consumer that wants more than 53 values, when it
      has 53. Under the joint guard that is where it always stops. */
  lemma StuckOnlyAtTheEnd(net: Net, mode: Mode)
    requires NetInv(net, mode.guard) && Bounded(net, mode.guard)
    requires Stuck(net, mode) && net.at.done < mode.limit
    ensures net.at.done >= 53
    ensures mode.guard.Joint? ==> net.at.done == 53 && |net.ch[MRG].puts| == 54
  {
    assert !CanAdvance(net, Consumer, mode);
    ChannelBounds(net.ch[MRG], 0, 1, mode.guard, 0);
    StuckMerger(net, mode);
    FivesClosed(|net.ch[MRG].puts|);
  }

  /** How many actions a network has behind it. */
  function Actions(ch: seq<Proto>): nat
    requires Shapes(ch)
  {
    Halves(ch[SUC]) + Halves(ch[T5]) + Halves(ch[T7]) + Halves(ch[MRG])
  }

  function Halves(p: Proto): nat
    requires WellFormed(p) && 1 <= |p.got| <= 2
  {
    2 * |p.puts| + p.holding + Gets(p, 0) + if |p.got| == 2 then Gets(p, 1) else 0
  }

  function Gets(p: Proto, c: nat): nat
    requires c < |p.got| == |p.passed|
  {
    2 * |p.got[c]| + if p.passed[c] then 1 else 0
  }

  lemma OneHalf(p: Proto, a: Action)
    requires WellFormed(p) && 1 <= |p.got| <= 2
    requires match a case Fetch(k, c) => c < |p.got| && Enabled(p, GetStep(p, c)) case Send(k, v) => CanPut(p, v)
    ensures |Do(p, a).p.got| == |p.got| && Halves(Do(p, a).p) == Halves(p) + 1
  {
  }

  lemma AdvanceIsOneAction(net: Net, who: Process, mode: Mode)
    requires Shapes(net.ch) && CanAdvance(net, who, mode)
    ensures Actions(Advance(net, who, mode).ch) == Actions(net.ch) + 1
  {
    var a := NextAction(net.at, who);
    OneHalf(net.ch[a.k], a);
  }

  const LONGEST := 811

  lemma CountsBounded(net: Net, g: Guard)
    requires NetInv(net, g) && Bounded(net, g)
    ensures |net.ch[MRG].puts| <= 66 && |net.ch[MRG].got[0]| <= 66 && net.ch[MRG].holding <= 1
    ensures |net.ch[T5].got[0]| <= 40 && |net.ch[T5].puts| <= 45 && net.ch[T5].holding <= 1
    ensures |net.ch[T7].got[0]| <= 29 && |net.ch[T7].puts| <= 34 && net.ch[T7].holding <= 1
    ensures |net.ch[SUC].got[0]| <= 46 && |net.ch[SUC].got[1]| <= 35
    ensures |net.ch[SUC].puts| <= 40 && net.ch[SUC].holding <= 1
  {
    ChannelBounds(net.ch[SUC], 0, 2, g, 0);
    ChannelBounds(net.ch[SUC], 1, 2, g, 0);
    ChannelBounds(net.ch[T5], 0, 1, g, 0);
    ChannelBounds(net.ch[T7], 0, 1, g, 0);
    ChannelBounds(net.ch[MRG], 0, 1, g, 0);
    FivesClosed(|net.ch[MRG].puts|);
  }

  predicate Small(values: seq<int>) {
    forall j :: 0 <= j < |values| ==> 0 < values[j] < 300
  }

  /** No value in a stream or in the hands of a process comes near the limits of the C program's integers. */
  lemma TokensBounded(net: Net, g: Guard)
    requires NetInv(net, g) && Bounded(net, g)
    ensures forall k :: 0 <= k < STREAMS ==> Small(net.ch[k].puts)
    ensures Small([net.at.i])
    ensures net.at.times5.Putting? ==> Small([net.at.times5.out])
    ensures net.at.times7.Putting? ==> Small([net.at.times7.out])
  {
    CountsBounded(net, g);
    ConsumerSeesTheMerge(net, g);
    MergedBelow(|net.ch[MRG].puts|);
    CarriedBelow(net.ch[SUC], 1);
    CarriedBelow(net.ch[T5], 5);
    CarriedBelow(net.ch[T7], 7);
  }

  lemma CarriedBelow(p: Proto, factor: nat)
    requires Carries(p, factor) && 0 < factor && factor * |p.puts| < 300
    ensures Small(p.puts)
  {
    forall j | 0 <= j < |p.puts|
      ensures 0 < p.puts[j] < 300
    {
      assert factor * (j + 1) <= factor * |p.puts|;
    }
  }

  lemma MergedBelow(k: nat)
    requires k <= 66
    ensures Small(Merged(k))
  {
    FivesClosed(k);
    MergedIsSorted(k);
    if k > 0 {
      MergedPrefix(1, k);
      assert Merged(1) == [5];
    }
  }

  lemma ActionsBounded(net: Net, g: Guard)
    requires NetInv(net, g) && Bounded(net, g)
    ensures Actions(net.ch) <= LONGEST
  {
    CountsBounded(net, g);
    assert Halves(net.ch[SUC]) <= 245 && Halves(net.ch[T5]) <= 172;
    assert Halves(net.ch[T7]) <= 128 && Halves(net.ch[MRG]) <= 266;
  }

  /** No schedule goes on for ever, not even with a consumer that does. */
  lemma {:induction false} EveryScheduleEnds(net: Net, schedule: seq<Process>, mode: Mode)
    requires NetInv(net, mode.guard) && Bounded(net, mode.guard)
    requires !mode.guard.AsIs? && Legal(net, schedule, mode)
    ensures Actions(Exec(net, schedule, mode).ch) == Actions(net.ch) + |schedule|
    ensures Actions(net.ch) + |schedule| <= LONGEST
    decreases |schedule|
  {
    if schedule == [] {
      ActionsBounded(net, mode.guard);
    } else {
      AdvanceIsOneAction(net, schedule[0], mode);
      AdvanceKeepsBounded(net, schedule[0], mode);
      EveryScheduleEnds(Advance(net, schedule[0], mode), schedule[1..], mode);
    }
  }

  lemma {:induction false} NeverPastLimit(net: Net, schedule: seq<Process>, mode: Mode)
    requires Shapes(net.ch) && net.at.done <= mode.limit && Legal(net, schedule, mode)
    ensures Exec(net, schedule, mode).at.done <= mode.limit
    decreases |schedule|
  {
    if schedule != [] {
      NeverPastLimit(Advance(net, schedule[0], mode), schedule[1..], mode);
    }
  }

  /** Where a run can stop, by what the consumer has then. */
  lemma WhereRunsStop(end: Net, mode: Mode)
    requires NetInv(end, mode.guard) && Bounded(end, mode.guard)
    requires Stuck(end, mode) && end.at.done <= mode.limit
    ensures end.at.done == mode.limit || end.at.done >= 53
    ensures mode.limit <= 53 ==> end.at.done == mode.limit
    ensures mode.guard.Joint? && mode.limit > 53 ==> end.at.done == 53
  {
    if end.at.done < mode.limit {
      StuckOnlyAtTheEnd(end, mode);
    } else if mode.guard.Joint? {
      ChannelBounds(end.ch[MRG], 0, 1, Joint, 0);
    }
  }

  /** Every consumer of every stream has received a prefix of what was put into it: nothing twice, nothing lost. */
  ghost predicate Prefixes(ch: seq<Proto>)
    requires Shapes(ch)
  {
    forall k, c :: 0 <= k < STREAMS && 0 <= c < Consumers(k) ==> ch[k].got[c] <= ch[k].puts
  }

  ghost predicate AlwaysPrefixes(net: Net, schedule: seq<Process>, mode: Mode)
    requires Shapes(net.ch) && Legal(net, schedule, mode)
    decreases |schedule|
  {
    && Prefixes(net.ch)
    && (schedule != [] ==> AlwaysPrefixes(Advance(net, schedule[0], mode), schedule[1..], mode))
  }

  lemma InvSeesPrefixes(net: Net, g: Guard)
    requires NetInv(net, g)
    ensures Prefixes(net.ch)
  {
    forall k, c | 0 <= k < STREAMS && 0 <= c < Consumers(k)
      ensures net.ch[k].got[c] <= net.ch[k].puts
    {
      ChannelBounds(net.ch[k], c, Consumers(k), g, 0);
    }
  }

  /** Without stale reads that is so all along. */
  lemma {:induction false} SafeSeesPrefixes(net: Net, schedule: seq<Process>, mode: Mode)
    requires NetInv(net, mode.guard) && !mode.guard.AsIs? && Legal(net, schedule, mode)
    ensures AlwaysPrefixes(net, schedule, mode)
    decreases |schedule|
  {
    InvSeesPrefixes(net, mode.guard);
    if schedule != [] {
      AdvanceKeepsNetInv(net, schedule[0], mode);
      SafeSeesPrefixes(Advance(net, schedule[0], mode), schedule[1..], mode);
    }
  }

  /** An action that is not allowed when stale reads are excluded gives a consumer more values than were put. */
  lemma StaleIsNoPrefix(net: Net, who: Process, limit: nat)
    requires Shapes(net.ch) && CanAdvance(net, who, Mode(AsIs, limit)) && !CanAdvance(net, who, Mode(Fresh, limit))
    ensures !Prefixes(Advance(net, who, Mode(AsIs, limit)).ch)
  {
    var a := NextAction(net.at, who);
    var next := Advance(net, who, Mode(AsIs, limit));
    assert |next.ch[a.k].got[a.c]| > |next.ch[a.k].puts|;
  }

  /** How far these results reach for the code as it stands: a schedule of it meets the condition `Fresh` exactly
      when, all along, every consumer of every stream has received each value once and in order. */
  lemma {:induction false} FreshIffPrefixes(net: Net, schedule: seq<Process>, limit: nat)
    requires NetInv(net, Fresh) && Legal(net, schedule, Mode(AsIs, limit))
    ensures Legal(net, schedule, Mode(Fresh, limit)) <==> AlwaysPrefixes(net, schedule, Mode(AsIs, limit))
    ensures Legal(net, schedule, Mode(Fresh, limit)) ==>
              Exec(net, schedule, Mode(Fresh, limit)) == Exec(net, schedule, Mode(AsIs, limit))
    decreases |schedule|
  {
    InvSeesPrefixes(net, Fresh);
    if schedule != [] {
      var who, next := schedule[0], Advance(net, schedule[0], Mode(AsIs, limit));
      if CanAdvance(net, who, Mode(Fresh, limit)) {
        assert next == Advance(net, who, Mode(Fresh, limit));
        AdvanceKeepsNetInv(net, who, Mode(Fresh, limit));
        FreshIffPrefixes(next, schedule[1..], limit);
      } else {
        StaleIsNoPrefix(net, who, limit);
        assert !AlwaysPrefixes(next, schedule[1..], Mode(AsIs, limit));
      }
    }
  }

  /** Where a run from the start leads, and what it can end in, if no read is stale. */
  lemma SafeRunDelivers(net: Net, schedule: seq<Process>, mode: Mode)
    requires IsStart(net)
    requires !mode.guard.AsIs? && Shapes(net.ch) && Legal(net, schedule, mode)
    ensures |schedule| <= LONGEST
    ensures Delivered(Exec(net, schedule, mode), mode)
  {
    var end := Exec(net, schedule, mode);
    StartNetInv(net, mode.guard);
    EveryScheduleIsSafe(net, schedule, mode);
    EveryScheduleEnds(net, schedule, mode);
    NeverPastLimit(net, schedule, mode);
    ConsumerSeesTheMerge(end, mode.guard);
    if Stuck(end, mode) {
      WhereRunsStop(end, mode);
    }
  }

  /** The consumer has received exactly the first values of the sorted merge, and if nothing more can happen, all it
      wants, or at least 53; under the joint guard no more than 53. */
  ghost predicate Delivered(end: Net, mode: Mode)
    requires Shapes(end.ch)
  {
    && end.ch[MRG].got[0] == Merged(end.at.done) && end.at.done <= mode.limit
    && |end.ch[MRG].puts| <= MergeBound(mode.guard)
    && (Stuck(end, mode) ==> end.at.done == mode.limit || end.at.done >= 53)
    && (Stuck(end, mode) && mode.limit <= 53 ==> end.at.done == mode.limit)
    && (Stuck(end, mode) && mode.guard.Joint? && mode.limit > 53 ==> end.at.done == 53)
  }

  /** Every way to run main.c's network, under any guard, in which every consumer of every stream receives each value
      once and in order, ends after at most 811 actions and delivers. Under the two guards that exclude stale reads
      every way to run it is such a one. */
  lemma EveryRunDelivers(net: Net, schedule: seq<Process>, mode: Mode)
    requires IsStart(net) && Shapes(net.ch) && Legal(net, schedule, mode)
    ensures !mode.guard.AsIs? ==> AlwaysPrefixes(net, schedule, mode)
    ensures AlwaysPrefixes(net, schedule, mode) ==>
              |schedule| <= LONGEST && Delivered(Exec(net, schedule, mode), mode)
  {
    if !mode.guard.AsIs? {
      StartNetInv(net, mode.guard);
      SafeSeesPrefixes(net, schedule, mode);
      SafeRunDelivers(net, schedule, mode);
    } else {
      StartNetInv(net, Fresh);
      FreshIffPrefixes(net, schedule, mode.limit);
      if AlwaysPrefixes(net, schedule, mode) {
        SafeRunDelivers(net, schedule, Mode(Fresh, mode.limit));
        StuckIsStuck(Exec(net, schedule, mode), mode.limit);
      }
    }
  }

  /** What can do nothing as the code stands can do nothing without stale reads. */
  lemma StuckIsStuck(end: Net, limit: nat)
    requires Shapes(end.ch)
    ensures Stuck(end, Mode(AsIs, limit)) ==> Stuck(end, Mode(Fresh, limit))
  {
    forall who: Process | Stuck(end, Mode(AsIs, limit))
      ensures !CanAdvance(end, who, Mode(Fresh, limit))
    {
      assert !CanAdvance(end, who, Mode(AsIs, limit));
    }
  }

  /** Progress: in such a run, as long as main.c's consumer waits for one of its ten values, some process can act. */
  lemma SomeProcessCanAct(net: Net, schedule: seq<Process>, mode: Mode) returns (who: Process)
    requires IsStart(net) && Shapes(net.ch) && Legal(net, schedule, mode)
    requires AlwaysPrefixes(net, schedule, mode)
    requires mode.limit <= 53 && Exec(net, schedule, mode).at.done < mode.limit
    ensures CanAdvance(Exec(net, schedule, mode), who, mode)
  {
    var end := Exec(net, schedule, mode);
    EveryRunDelivers(net, schedule, mode);
    if Stuck(end, mode) {
      assert false;
    }
    who :| CanAdvance(end, who, mode);
  }

  /** So a run of the code as it stands that stops short, or in which the consumer receives something else, contains a
      stale read. */
  lemma BadRunIsStale(net: Net, schedule: seq<Process>, limit: nat)
    requires IsStart(net) && Shapes(net.ch) && Legal(net, schedule, Mode(AsIs, limit))
    requires var end := Exec(net, schedule, Mode(AsIs, limit));
             || (Stuck(end, Mode(AsIs, limit)) && end.at.done < limit && end.at.done < 53)
             || end.ch[MRG].got[0] != Merged(end.at.done)
    ensures !AlwaysPrefixes(net, schedule, Mode(AsIs, limit)) && !Legal(net, schedule, Mode(Fresh, limit))
  {
    EveryRunDelivers(net, schedule, Mode(AsIs, limit));
    StartNetInv(net, Fresh);
    FreshIffPrefixes(net, schedule, limit);
  }
}
