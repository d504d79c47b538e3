/** The five processes of main.c over their streams, in every schedule.

    Each process has one next action, so a schedule is a list of processes. A `get` is two actions (the first
    wait; the second wait and the read), a `put` is two (the semaphore; the store). */
module Network {
  import opened StreamModel
  import opened StreamProtocol
  import opened StreamRuns
  import opened Merging

  datatype TimesPc = Getting | Putting(out: int)

  datatype MergePc =
    | GetA
    | GetB(a: int)
    | Choose(a: int, b: int)
    | RefillA(b: int)
    | RefillB(a: int)

  datatype Process = Successor | Times5 | Times7 | Merger | Consumer

  /** Where each process stands in its loop, with the locals that matter there. */
  datatype Locals = Locals(i: int, times5: TimesPc, times7: TimesPc, merge: MergePc, done: nat)

  /** The four streams that are written to, and the processes. */
  datatype Net = Net(ch: seq<Proto>, at: Locals)

  const SUC := 0
  const T5 := 1
  const T7 := 2
  const MRG := 3
  const STREAMS := 4

  /** The order of connection in main.c: times5 is the successor's consumer 0, times7 its consumer 1. */
  function Consumers(k: nat): nat {
    if k == SUC then 2 else 1
  }

  // ----- one end of one stream

  /** Which reads a schedule may contain: any that the code lets through; none that is stale (see StreamRuns); or
      only those for which the first wait of `get` is over as well. */
  datatype Guard = AsIs | Fresh | Joint

  function GetStep(p: Proto, c: nat): Step
    requires c < |p.passed|
  {
    if p.passed[c] then Read(c) else Pass(c)
  }

  function PutStep(p: Proto, v: int): Step {
    if p.holding == 0 then Wait else Put(v)
  }

  predicate CanGet(p: Proto, c: nat, g: Guard)
    requires WellFormed(p) && c < |p.got|
  {
    && Enabled(p, GetStep(p, c))
    && (!g.AsIs? ==> !Stale(p, GetStep(p, c)))
    && (g.Joint? ==> FirstGuard(p.s, c))
  }

  predicate CanPut(p: Proto, v: int)
    requires WellFormed(p)
  {
    Enabled(p, PutStep(p, v))
  }

  ghost predicate ChannelOk(p: Proto, consumers: nat, g: Guard) {
    Inv(p) && |p.got| == consumers && (g.Joint? ==> Behind(p))
  }

  lemma GetKeepsChannel(p: Proto, c: nat, n: nat, g: Guard)
    requires ChannelOk(p, n, g) && c < n && !g.AsIs? && CanGet(p, c, g)
    ensures var q := Next(p, GetStep(p, c));
            && ChannelOk(q, n, g) && q.puts == p.puts && q.holding == p.holding
            && (if p.passed[c] then
                  && |p.got[c]| < |p.puts| && Found(p, c) == p.puts[|p.got[c]|]
                  && q.got == p.got[c := p.got[c] + [Found(p, c)]]
                else q.got == p.got)
  {
    var step := GetStep(p, c);
    if step.Read? {
      ReadTakesNext(p, c);
      assert ConsumerOk(p, c) && SlotOk(p, |p.got[c]|);
    }
    if g.Joint? {
      JointStep(p, step);
    } else {
      StepKeepsInv(p, step);
    }
  }

  lemma PutKeepsChannel(p: Proto, v: int, n: nat, g: Guard)
    requires ChannelOk(p, n, g) && CanPut(p, v)
    ensures var q := Next(p, PutStep(p, v));
            && ChannelOk(q, n, g) && q.got == p.got
            && (if p.holding == 0 then q.puts == p.puts && q.holding == 1
                else q.puts == p.puts + [v] && q.holding == p.holding - 1)
  {
    var step := PutStep(p, v);
    if g.Joint? {
      JointStep(p, step);
    } else {
      StepKeepsInv(p, step);
    }
  }

  /** How far apart the two ends of a stream can be, and what it means for one of them to be stuck. */
  lemma ChannelBounds(p: Proto, c: nat, n: nat, g: Guard, v: int)
    requires ChannelOk(p, n, g) && c < n
    ensures p.got[c] <= p.puts && |p.puts| - 5 <= |p.got[c]|
    ensures g.Joint? && |p.puts| > 0 ==> |p.got[c]| < |p.puts|
    ensures Slowest(p.got) <= |p.got[c]|
    ensures !CanGet(p, c, g) ==> |p.puts| - |p.got[c]| <= 1
    ensures !CanPut(p, v) ==> |p.puts| - Slowest(p.got) == 5
    ensures n == 1 ==> Slowest(p.got) == |p.got[0]|
    ensures n == 2 ==> Slowest(p.got) == |p.got[0]| || Slowest(p.got) == |p.got[1]|
  {
    assert ConsumerOk(p, c);
    GuardsMean(p, c);
    var m := SlowestIsLeast(p.got);
    if p.holding > 0 {
      PutNeverWaits(p);
    }
  }

  // ----- the processes

  /** What a process is about to do: get from a stream as its consumer `c`, or put `v` into a stream. */
  datatype Action = Fetch(k: nat, c: nat) | Send(k: nat, v: int)

  /** Each process's next call of `get` or `put`, by where it stands. */
  function NextAction(at: Locals, who: Process): (a: Action)
    ensures a.k < STREAMS && (a.Fetch? ==> a.c < Consumers(a.k))
  {
    match who
    case Successor => Send(SUC, at.i)
    case Times5 => TimesAction(at.times5, 0, T5)
    case Times7 => TimesAction(at.times7, 1, T7)
    case Merger => MergeAction(at.merge)
    case Consumer => Fetch(MRG, 0)
  }

  function TimesAction(pc: TimesPc, c: nat, out: nat): Action {
    match pc
    case Getting => Fetch(SUC, c)
    case Putting(v) => Send(out, v)
  }

  function MergeAction(pc: MergePc): Action {
    match pc
    case GetA => Fetch(T5, 0)
    case GetB(_) => Fetch(T7, 0)
    case Choose(a, b) => Send(MRG, if a < b then a else b)
    case RefillA(_) => Fetch(T5, 0)
    case RefillB(_) => Fetch(T7, 0)
  }

  /** Where a process stands once its call has returned; `v` is the value it got or put. */
  function Resume(at: Locals, who: Process, v: int): Locals {
    match who
    case Successor => at.(i := at.i + 1)
    case Times5 => at.(times5 := TimesResume(at.times5, v, 5))
    case Times7 => at.(times7 := TimesResume(at.times7, v, 7))
    case Merger => at.(merge := MergeResume(at.merge, v))
    case Consumer => at.(done := at.done + 1)
  }

  function TimesResume(pc: TimesPc, v: int, factor: int): TimesPc {
    if pc.Getting? then Putting(v * factor) else Getting
  }

  function MergeResume(pc: MergePc, v: int): MergePc {
    match pc
    case GetA => GetB(v)
    case GetB(a) => Choose(a, v)
    case Choose(a, b) => if a < b then RefillA(b) else RefillB(a)
    case RefillA(b) => Choose(v, b)
    case RefillB(a) => Choose(a, v)
  }

  // ----- the network

  predicate Shapes(ch: seq<Proto>) {
    |ch| == STREAMS && forall k :: 0 <= k < STREAMS ==> WellFormed(ch[k]) && |ch[k].got| == Consumers(k)
  }

  /** How a run is scheduled, and after how many values the consumer stops; main.c's stops after ten. */
  datatype Mode = Mode(guard: Guard, limit: nat)

  predicate CanDo(ch: seq<Proto>, a: Action, g: Guard)
    requires Shapes(ch) && a.k < STREAMS && (a.Fetch? ==> a.c < Consumers(a.k))
  {
    match a
    case Fetch(k, c) => CanGet(ch[k], c, g)
    case Send(k, v) => CanPut(ch[k], v)
  }

  predicate CanAdvance(net: Net, who: Process, mode: Mode)
    requires Shapes(net.ch)
  {
    CanDo(net.ch, NextAction(net.at, who), mode.guard) && (who.Consumer? ==> net.at.done < mode.limit)
  }

  /** The value that a read finds. */
  function Found(p: Proto, c: nat): int
    requires WellFormed(p) && c < |p.got|
  {
    p.s.buffer[p.s.idx[c]]
  }

  /** One half of a call: what becomes of its stream, whether the call is over, and its value if so. */
  datatype Half = Half(p: Proto, over: bool, v: int)

  function Do(p: Proto, a: Action): Half
    requires WellFormed(p) && (a.Fetch? ==> a.c < |p.got| && Enabled(p, GetStep(p, a.c)))
    requires a.Send? ==> Enabled(p, PutStep(p, a.v))
  {
    match a
    case Fetch(k, c) => Half(Next(p, GetStep(p, c)), p.passed[c], Found(p, c))
    case Send(k, v) => Half(Next(p, PutStep(p, v)), p.holding > 0, v)
  }

  function Advance(net: Net, who: Process, mode: Mode): (next: Net)
    requires Shapes(net.ch) && CanAdvance(net, who, mode)
    ensures Shapes(next.ch)
  {
    var a := NextAction(net.at, who);
    var h := Do(net.ch[a.k], a);
    Net(net.ch[a.k := h.p], if h.over then Resume(net.at, who, h.v) else net.at)
  }

  // ----- the invariant

  /** A stream that carries factor, 2 * factor, 3 * factor, ... from a single putter. */
  ghost predicate Carries(p: Proto, factor: int) {
    p.holding <= 1 && forall k :: 0 <= k < |p.puts| ==> p.puts[k] == factor * (k + 1)
  }

  ghost predicate TimesOk(pc: TimesPc, src: Proto, c: nat, dst: Proto, factor: int)
    requires c < |src.got|
  {
    && Carries(dst, factor)
    && match pc
       case Getting => |src.got[c]| == |dst.puts| && dst.holding == 0
       case Putting(out) => |src.got[c]| == |dst.puts| + 1 && out == factor * |src.got[c]|
  }

  /** The merger has put the merge of what it has read, less the one or two values it holds. */
  ghost predicate MergeOk(t5: Proto, t7: Proto, puts: seq<int>, holding: nat, pc: MergePc)
    requires |t5.got| == 1 && |t7.got| == 1
  {
    var k, x, y := |puts|, |t5.got[0]|, |t7.got[0]|;
    && puts == Merged(k)
    && holding <= 1
    && (!pc.Choose? ==> holding == 0)
    && match pc
       case GetA => k == 0 && x == 0 && y == 0
       case GetB(a) => k == 0 && x == 1 && y == 0 && a == 5
       case Choose(a, b) => x == Fives(k) + 1 && y == Sevens(k) + 1 && a == 5 * x && b == 7 * y
       case RefillA(b) => k > 0 && x == Fives(k) && y == Sevens(k) + 1 && b == 7 * y && Fives(k) == Fives(k - 1) + 1
       case RefillB(a) => x == Fives(k) + 1 && y == Sevens(k) && a == 5 * x
  }

  ghost predicate ChannelsOk(ch: seq<Proto>, g: Guard) {
    Shapes(ch) && forall k :: 0 <= k < STREAMS ==> ChannelOk(ch[k], Consumers(k), g)
  }

  ghost predicate NetInv(net: Net, g: Guard) {
    && ChannelsOk(net.ch, g)
    && Carries(net.ch[SUC], 1) && net.at.i == |net.ch[SUC].puts| + 1
    && TimesOk(net.at.times5, net.ch[SUC], 0, net.ch[T5], 5)
    && TimesOk(net.at.times7, net.ch[SUC], 1, net.ch[T7], 7)
    && MergeOk(net.ch[T5], net.ch[T7], net.ch[MRG].puts, net.ch[MRG].holding, net.at.merge)
    && net.at.done == |net.ch[MRG].got[0]|
  }

  const BEGINNING := Locals(1, Getting, Getting, GetA, 0)

  /** What main.c sets up: the contents of the fresh buffers are arbitrary. */
  ghost predicate IsStart(net: Net) {
    && |net.ch| == STREAMS && net.at == BEGINNING
    && forall k :: 0 <= k < STREAMS ==> StartsAt(net.ch[k], Consumers(k))
  }

  ghost predicate StartsAt(p: Proto, n: nat) {
    exists buffer :: |buffer| == BUFFER_SIZE && p == Start(buffer, n)
  }

  lemma StartNetInv(net: Net, g: Guard)
    requires IsStart(net)
    ensures NetInv(net, g)
  {
    forall k | 0 <= k < STREAMS
      ensures ChannelOk(net.ch[k], Consumers(k), g)
      ensures net.ch[k].holding == 0 && net.ch[k].puts == []
      ensures forall c :: 0 <= c < Consumers(k) ==> net.ch[k].got[c] == []
    {
      assert StartsAt(net.ch[k], Consumers(k));
      var buffer :| |buffer| == BUFFER_SIZE && net.ch[k] == Start(buffer, Consumers(k));
      StartInv(buffer, Consumers(k));
    }
  }

  /** No action breaks any stream. */
  lemma AdvanceKeepsChannels(net: Net, who: Process, mode: Mode)
    requires NetInv(net, mode.guard) && !mode.guard.AsIs? && CanAdvance(net, who, mode)
    ensures ChannelsOk(Advance(net, who, mode).ch, mode.guard)
  {
    match NextAction(net.at, who)
    case Fetch(k, c) => GetKeepsChannel(net.ch[k], c, Consumers(k), mode.guard);
    case Send(k, v) => PutKeepsChannel(net.ch[k], v, Consumers(k), mode.guard);
  }

  lemma SuccessorStep(net: Net, mode: Mode)
    requires NetInv(net, mode.guard) && !mode.guard.AsIs? && CanAdvance(net, Successor, mode)
    ensures NetInv(Advance(net, Successor, mode), mode.guard)
  {
    AdvanceKeepsChannels(net, Successor, mode);
    PutKeepsChannel(net.ch[SUC], net.at.i, 2, mode.guard);
  }

  /** One half of a call by a `times` process, on the two streams that it connects. */
  lemma TimesKeepsOk(pc: TimesPc, src: Proto, c: nat, n: nat, dst: Proto, factor: int, g: Guard)
    requires !g.AsIs? && ChannelOk(src, n, g) && c < n && ChannelOk(dst, 1, g) && Carries(src, 1)
    requires TimesOk(pc, src, c, dst, factor)
    ensures pc.Getting? && CanGet(src, c, g) ==>
              var h := Do(src, Fetch(SUC, c));
              && TimesOk(if h.over then TimesResume(pc, h.v, factor) else pc, h.p, c, dst, factor)
              && h.p.puts == src.puts && h.p.holding == src.holding
    ensures pc.Putting? && CanPut(dst, pc.out) ==>
              var h := Do(dst, Send(T5, pc.out));
              && TimesOk(if h.over then TimesResume(pc, h.v, factor) else pc, src, c, h.p, factor)
              && h.p.got == dst.got
  {
    if pc.Getting? {
      if CanGet(src, c, g) {
        GetKeepsChannel(src, c, n, g);
      }
    } else if CanPut(dst, pc.out) {
      PutKeepsChannel(dst, pc.out, 1, g);
    }
  }

  /** A `get` by one consumer is nothing to another. */
  lemma GetLeavesOthers(p: Proto, c: nat, d: nat, g: Guard)
    requires WellFormed(p) && c < |p.got| && d < |p.got| && c != d && CanGet(p, c, g)
    ensures Next(p, GetStep(p, c)).got[d] == p.got[d]
  {
  }

  lemma TimesStep(net: Net, who: Process, mode: Mode)
    requires NetInv(net, mode.guard) && !mode.guard.AsIs? && (who.Times5? || who.Times7?)
    requires CanAdvance(net, who, mode)
    ensures NetInv(Advance(net, who, mode), mode.guard)
  {
    AdvanceKeepsChannels(net, who, mode);
    var g := mode.guard;
    if who.Times5? {
      TimesKeepsOk(net.at.times5, net.ch[SUC], 0, 2, net.ch[T5], 5, g);
      if net.at.times5.Getting? {
        GetLeavesOthers(net.ch[SUC], 0, 1, g);
      }
    } else {
      TimesKeepsOk(net.at.times7, net.ch[SUC], 1, 2, net.ch[T7], 7, g);
      if net.at.times7.Getting? {
        GetLeavesOthers(net.ch[SUC], 1, 0, g);
      }
    }
  }

  /** One half of the put of the lesser value, on the merged stream. */
  lemma ChooseKeepsOk(t5: Proto, t7: Proto, mrg: Proto, pc: MergePc, g: Guard)
    requires |t5.got| == 1 && |t7.got| == 1 && ChannelOk(mrg, 1, g)
    requires MergeOk(t5, t7, mrg.puts, mrg.holding, pc) && pc.Choose? && CanPut(mrg, MergeAction(pc).v)
    ensures var h := Do(mrg, MergeAction(pc));
            && MergeOk(t5, t7, h.p.puts, h.p.holding, if h.over then MergeResume(pc, h.v) else pc)
            && h.p.got == mrg.got
  {
    PutKeepsChannel(mrg, MergeAction(pc).v, 1, g);
    if mrg.holding > 0 {
      ChosenIsNext(t5, t7, mrg, pc, Next(mrg, PutStep(mrg, MergeAction(pc).v)));
    }
  }

  /** Once the lesser value is put, the merged stream is the merge of one value more. */
  lemma ChosenIsNext(t5: Proto, t7: Proto, mrg: Proto, pc: MergePc, next: Proto)
    requires |t5.got| == 1 && |t7.got| == 1
    requires MergeOk(t5, t7, mrg.puts, mrg.holding, pc) && pc.Choose? && mrg.holding > 0
    requires next.puts == mrg.puts + [MergeAction(pc).v] && next.holding == mrg.holding - 1
    ensures MergeOk(t5, t7, next.puts, next.holding, MergeResume(pc, MergeAction(pc).v))
  {
    NextOfOneList(|mrg.puts| + 1);
  }

  lemma MergerPuts(net: Net, mode: Mode)
    requires NetInv(net, mode.guard) && !mode.guard.AsIs? && CanAdvance(net, Merger, mode)
    requires net.at.merge.Choose?
    ensures NetInv(Advance(net, Merger, mode), mode.guard)
  {
    AdvanceKeepsChannels(net, Merger, mode);
    ChooseKeepsOk(net.ch[T5], net.ch[T7], net.ch[MRG], net.at.merge, mode.guard);
  }

  /** One half of a get by the merger, on the stream that it reads from. */
  lemma RefillKeepsOk(t5: Proto, t7: Proto, mrg: Proto, pc: MergePc, g: Guard)
    requires !g.AsIs? && ChannelOk(t5, 1, g) && ChannelOk(t7, 1, g) && Carries(t5, 5) && Carries(t7, 7)
    requires MergeOk(t5, t7, mrg.puts, mrg.holding, pc) && !pc.Choose?
    ensures MergeAction(pc).k == T5 && CanGet(t5, 0, g) ==>
              var h := Do(t5, MergeAction(pc));
              MergeOk(h.p, t7, mrg.puts, mrg.holding, if h.over then MergeResume(pc, h.v) else pc)
    ensures MergeAction(pc).k == T7 && CanGet(t7, 0, g) ==>
              var h := Do(t7, MergeAction(pc));
              MergeOk(t5, h.p, mrg.puts, mrg.holding, if h.over then MergeResume(pc, h.v) else pc)
  {
    if MergeAction(pc).k == T5 {
      if CanGet(t5, 0, g) {
        GetKeepsChannel(t5, 0, 1, g);
      }
    } else if CanGet(t7, 0, g) {
      GetKeepsChannel(t7, 0, 1, g);
    }
  }

  lemma MergerGets(net: Net, mode: Mode)
    requires NetInv(net, mode.guard) && !mode.guard.AsIs? && CanAdvance(net, Merger, mode)
    requires !net.at.merge.Choose?
    ensures NetInv(Advance(net, Merger, mode), mode.guard)
  {
    AdvanceKeepsChannels(net, Merger, mode);
    RefillKeepsOk(net.ch[T5], net.ch[T7], net.ch[MRG], net.at.merge, mode.guard);
    GetKeepsChannel(net.ch[NextAction(net.at, Merger).k], 0, 1, mode.guard);
  }

  /** One half of a get by the consumer puts nothing, and the second half adds one to what it has received. */
  lemma ConsumerCounts(mrg: Proto, g: Guard)
    requires !g.AsIs? && ChannelOk(mrg, 1, g) && CanGet(mrg, 0, g)
    ensures var h := Do(mrg, Fetch(MRG, 0));
            && h.p.puts == mrg.puts && h.p.holding == mrg.holding
            && |h.p.got[0]| == if h.over then |mrg.got[0]| + 1 else |mrg.got[0]|
  {
    GetKeepsChannel(mrg, 0, 1, g);
  }

  lemma ConsumerStep(net: Net, mode: Mode)
    requires NetInv(net, mode.guard) && !mode.guard.AsIs? && CanAdvance(net, Consumer, mode)
    ensures NetInv(Advance(net, Consumer, mode), mode.guard)
  {
    AdvanceKeepsChannels(net, Consumer, mode);
    ConsumerCounts(net.ch[MRG], mode.guard);
  }

  lemma AdvanceKeepsNetInv(net: Net, who: Process, mode: Mode)
    requires NetInv(net, mode.guard) && !mode.guard.AsIs? && CanAdvance(net, who, mode)
    ensures NetInv(Advance(net, who, mode), mode.guard)
  {
    match who
    case Successor => SuccessorStep(net, mode);
    case Times5 => TimesStep(net, who, mode);
    case Times7 => TimesStep(net, who, mode);
    case Merger =>
      if net.at.merge.Choose? {
        MergerPuts(net, mode);
      } else {
        MergerGets(net, mode);
      }
    case Consumer => ConsumerStep(net, mode);
  }
}
