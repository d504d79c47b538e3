/** Schedules of main.c's network as the code stands, stale reads included: how many values are under way, and why every
    schedule ends. */
module NetworkAsIs {
  import opened StreamModel
  import opened StreamProtocol
  import opened StreamRuns
  import opened StreamAsIs
  import opened Network
  import N = NetworkRuns

  /** A `times` process has put as many values as it has read, less the one it holds. */
  predicate TimesCounts(pc: TimesPc, src: Proto, c: nat, dst: Proto)
    requires c < |src.got|
  {
    && dst.holding <= 1
    && if pc.Getting? then |src.got[c]| == |dst.puts| && dst.holding == 0 else |src.got[c]| == |dst.puts| + 1
  }

  /** How many values the merger holds. */
  function Held(pc: MergePc): nat {
    match pc
    case GetA => 0
    case GetB(_) => 1
    case Choose(_, _) => 2
    case RefillA(_) => 1
    case RefillB(_) => 1
  }

  predicate MergeCounts(pc: MergePc, t5: Proto, t7: Proto, mrg: Proto)
    requires |t5.got| == |t7.got| == 1
  {
    && |t5.got[0]| + |t7.got[0]| == |mrg.puts| + Held(pc)
    && mrg.holding <= 1 && (!pc.Choose? ==> mrg.holding == 0)
  }

  /** The successor's stream is as the code leaves it, the other three have one consumer and so no stale read. */
  ghost predicate RawChannels(ch: seq<Proto>) {
    && Shapes(ch) && RawInv(ch[SUC])
    && ChannelOk(ch[T5], 1, Fresh) && ChannelOk(ch[T7], 1, Fresh) && ChannelOk(ch[MRG], 1, Fresh)
  }

  predicate Counts(net: Net)
    requires Shapes(net.ch)
  {
    && net.ch[SUC].holding <= 1
    && TimesCounts(net.at.times5, net.ch[SUC], 0, net.ch[T5])
    && TimesCounts(net.at.times7, net.ch[SUC], 1, net.ch[T7])
    && MergeCounts(net.at.merge, net.ch[T5], net.ch[T7], net.ch[MRG])
    && net.at.done == |net.ch[MRG].got[0]|
  }

  ghost predicate RawNetInv(net: Net) {
    RawChannels(net.ch) && Counts(net)
  }

  lemma StartRawNetInv(net: Net)
    requires IsStart(net)
    ensures RawNetInv(net)
  {
    StartNetInv(net, Fresh);
    assert StartsAt(net.ch[SUC], 2);
    var buffer :| |buffer| == BUFFER_SIZE && net.ch[SUC] == Start(buffer, 2);
    StartRawInv(buffer, 2);
  }

  /** One half of a call on a stream with one consumer. */
  lemma SingleHalf(p: Proto, a: Action)
    requires ChannelOk(p, 1, Fresh) && (a.Fetch? ==> a.c == 0)
    requires match a case Fetch(k, c) => CanGet(p, c, AsIs) case Send(k, v) => CanPut(p, v)
    ensures ChannelOk(Do(p, a).p, 1, Fresh)
  {
    match a
    case Fetch(k, c) =>
      GuardsMean(p, 0);
      var m := SlowestIsLeast(p.got);
      GetKeepsChannel(p, 0, 1, Fresh);
    case Send(k, v) => PutKeepsChannel(p, v, 1, Fresh);
  }

  /** How one half of a call moves the counts. */
  lemma HalfCounts(p: Proto, a: Action)
    requires WellFormed(p) && (a.Fetch? ==> a.c < |p.got|)
    requires match a case Fetch(k, c) => CanGet(p, c, AsIs) case Send(k, v) => CanPut(p, v)
    ensures var h := Do(p, a);
            && h.over == (if a.Fetch? then p.passed[a.c] else p.holding > 0)
            && |h.p.puts| == |p.puts| + (if a.Send? && h.over then 1 else 0)
            && h.p.holding == p.holding + (if a.Fetch? then 0 else if h.over then -1 else 1)
            && |h.p.got| == |p.got|
            && forall c :: 0 <= c < |p.got| ==>
                 |h.p.got[c]| == |p.got[c]| + (if a.Fetch? && c == a.c && h.over then 1 else 0)
  {
  }

  lemma AdvanceKeepsRawChannels(net: Net, who: Process, limit: nat)
    requires RawNetInv(net) && CanAdvance(net, who, Mode(AsIs, limit))
    ensures RawChannels(Advance(net, who, Mode(AsIs, limit)).ch)
  {
    var a := NextAction(net.at, who);
    if a.k == SUC {
      RawStepKeepsInv(net.ch[SUC], if a.Fetch? then GetStep(net.ch[SUC], a.c) else PutStep(net.ch[SUC], a.v));
    } else {
      SingleHalf(net.ch[a.k], a);
    }
  }

  lemma MergerKeepsCounts(net: Net, limit: nat)
    requires Shapes(net.ch) && Counts(net) && CanAdvance(net, Merger, Mode(AsIs, limit))
    ensures Counts(Advance(net, Merger, Mode(AsIs, limit)))
  {
    var a := MergeAction(net.at.merge);
    HalfCounts(net.ch[a.k], a);
  }

  lemma AdvanceKeepsCounts(net: Net, who: Process, limit: nat)
    requires Shapes(net.ch) && Counts(net) && CanAdvance(net, who, Mode(AsIs, limit))
    ensures Counts(Advance(net, who, Mode(AsIs, limit)))
  {
    if who.Merger? {
      MergerKeepsCounts(net, limit);
    } else {
      var a := NextAction(net.at, who);
      HalfCounts(net.ch[a.k], a);
    }
  }

  lemma AdvanceKeepsRawNetInv(net: Net, who: Process, limit: nat)
    requires RawNetInv(net) && net.at.done <= limit && CanAdvance(net, who, Mode(AsIs, limit))
    ensures RawNetInv(Advance(net, who, Mode(AsIs, limit)))
    ensures Advance(net, who, Mode(AsIs, limit)).at.done <= limit
  {
    AdvanceKeepsRawChannels(net, who, limit);
    AdvanceKeepsCounts(net, who, limit);
  }

  lemma {:induction false} ReadsBound(got: seq<seq<int>>, j: int)
    requires |got| == 2
    ensures 5 * Reads(got, j) <= |got[0]| + |got[1]| - 2 * j + 8
  {
    assert got[1..][1..] == [];
    assert Reads(got[1..], j) == Laps(|got[1]|, j);
  }

  /** The successor cannot run away from its readers: each slot takes two reads before it is free again. */
  lemma SuccessorBound(p: Proto)
    requires RawInv(p) && |p.got| == 2
    ensures 2 * |p.puts| <= |p.got[0]| + |p.got[1]| + 10
  {
    assert RawSlot(p, |p.puts| - 1);
    ReadsBound(p.got, |p.puts| - 1);
  }

  /** How many actions a network can have behind it, by how many values its consumer has counted. */
  lemma RawActionsBounded(net: Net)
    requires RawNetInv(net)
    ensures N.Actions(net.ch) <= 11 * net.at.done + 134
  {
    SuccessorBound(net.ch[SUC]);
    ChannelBounds(net.ch[T5], 0, 1, Fresh, 0);
    ChannelBounds(net.ch[T7], 0, 1, Fresh, 0);
    ChannelBounds(net.ch[MRG], 0, 1, Fresh, 0);
  }

  /** Every schedule of the code as it stands ends, whatever its reads find. */
  lemma {:induction false} RawScheduleEnds(net: Net, schedule: seq<Process>, limit: nat)
    requires RawNetInv(net) && net.at.done <= limit && N.Legal(net, schedule, Mode(AsIs, limit))
    ensures N.Actions(net.ch) + |schedule| <= 11 * limit + 134
    ensures RawNetInv(N.Exec(net, schedule, Mode(AsIs, limit)))
    decreases |schedule|
  {
    if schedule == [] {
      RawActionsBounded(net);
    } else {
      N.AdvanceIsOneAction(net, schedule[0], Mode(AsIs, limit));
      AdvanceKeepsRawNetInv(net, schedule[0], limit);
      RawScheduleEnds(Advance(net, schedule[0], Mode(AsIs, limit)), schedule[1..], limit);
    }
  }

  /** What a stricter guard allows, the code as it stands does too, to the same effect. */
  lemma {:induction false} AsIsAllowsMore(net: Net, schedule: seq<Process>, mode: Mode)
    requires Shapes(net.ch) && N.Legal(net, schedule, mode)
    ensures N.Legal(net, schedule, Mode(AsIs, mode.limit))
    ensures N.Exec(net, schedule, Mode(AsIs, mode.limit)) == N.Exec(net, schedule, mode)
    decreases |schedule|
  {
    if schedule != [] {
      assert Advance(net, schedule[0], mode) == Advance(net, schedule[0], Mode(AsIs, mode.limit));
      AsIsAllowsMore(Advance(net, schedule[0], mode), schedule[1..], mode);
    }
  }

  /** No way to run main.c's network goes on for ever, under any guard: 244 actions for a consumer that wants ten
      values. */
  lemma EveryScheduleOfTheCodeEnds(net: Net, schedule: seq<Process>, mode: Mode)
    requires IsStart(net) && Shapes(net.ch) && N.Legal(net, schedule, mode)
    ensures |schedule| <= 11 * mode.limit + 134
  {
    AsIsAllowsMore(net, schedule, mode);
    StartRawNetInv(net);
    RawScheduleEnds(net, schedule, mode.limit);
  }
}
