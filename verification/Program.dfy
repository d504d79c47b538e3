/** The running program: the objects of main.c's five processes and four streams act, in every schedule, as `Network`
    says. */
module Program {
  import opened StreamModel
  import opened StreamProtocol
  import opened Network
  import opened Streams
  import opened Processes
  import opened Merging
  import N = NetworkRuns
  import R = NetworkAsIs

  /** Two streams that share nothing. */
  predicate Apart(a: StreamT, b: StreamT) {
    && a != b && a.buffer != b.buffer && a.readCount != b.readCount
    && a.buffer != b.readCount && a.readCount != b.buffer
  }

  class Running {
    const suc: Channel
    const t5: Channel
    const t7: Channel
    const mrg: Channel
    const successor: SuccessorProcess
    const times5: TimesProcess
    const times7: TimesProcess
    const merger: MergeProcess
    const consumer: ConsumerProcess

    /** The network that the objects stand for. */
    ghost function View(): (net: Net)
      reads suc, t5, t7, mrg, successor, times5, times7, merger, consumer
    {
      Net([suc.record, t5.record, t7.record, mrg.record],
          Locals(successor.i, times5.pc, times7.pc, merger.pc, consumer.i))
    }

    /** No two streams share anything. */
    ghost predicate Separate() {
      && suc != t5 && suc != t7 && suc != mrg && t5 != t7 && t5 != mrg && t7 != mrg
      && Apart(suc.stream, t5.stream) && Apart(suc.stream, t7.stream) && Apart(suc.stream, mrg.stream)
      && Apart(t5.stream, t7.stream) && Apart(t5.stream, mrg.stream) && Apart(t7.stream, mrg.stream)
    }

    /** Who reads from whom. */
    ghost predicate Wired()
      reads suc.stream`consumers, t5.stream`consumers, t7.stream`consumers, mrg.stream`consumers
    {
      && successor.self == suc
      && times5.src == suc && times5.self == t5 && times5.c == 0 && times5.multiplier == 5
      && times7.src == suc && times7.self == t7 && times7.c == 1 && times7.multiplier == 7
      && times5 != times7
      && merger.src1 == t5 && merger.src2 == t7 && merger.self == mrg
      && consumer.src == mrg
      && suc.stream.consumers == [times5.p, times7.p]
      && t5.stream.consumers == [merger.p1] && t7.stream.consumers == [merger.p2]
      && mrg.stream.consumers == [consumer.p]
    }

    /** The locals of every process agree with the channels. */
    ghost predicate InStep()
      reads successor, successor.self, consumer, consumer.src, consumer.src.stream`consumers
      reads times5, times5.src, times5.src.stream`consumers, times5.self
      reads times7, times7.src, times7.src.stream`consumers, times7.self
      reads merger, merger.src1, merger.src1.stream`consumers, merger.src2, merger.src2.stream`consumers, merger.self
    {
      && successor.Consistent() && times5.Consistent() && times7.Consistent()
      && merger.Consistent() && consumer.Consistent()
    }

    /** Everything an action may change. */
    ghost function Footprint(): set<object> {
      {successor, times5, times7, merger, consumer, times5.p, times7.p, merger.p1, merger.p2, consumer.p}
      + Parts(suc) + Parts(t5) + Parts(t7) + Parts(mrg)
    }

    ghost function Parts(ch: Channel): set<object> {
      {ch, ch.stream, ch.stream.buffer, ch.stream.readCount}
    }

    /** The structs hold what the records say, and every process is where its locals say. */
    ghost predicate Ready()
      reads Footprint()
    {
      && Separate() && Wired() && InStep() && Shapes(View().ch)
      && suc.Valid() && t5.Valid() && t7.Valid() && mrg.Valid()
    }

    /** Processes that have not begun, on four streams that nothing has gone through. */
    constructor (suc: Channel, t5: Channel, t7: Channel, mrg: Channel,
                 p5: Producer, p7: Producer, m5: Producer, m7: Producer, pc: Producer)
      requires suc != t5 && suc != t7 && suc != mrg && t5 != t7 && t5 != mrg && t7 != mrg
      requires Apart(suc.stream, t5.stream) && Apart(suc.stream, t7.stream) && Apart(suc.stream, mrg.stream)
      requires Apart(t5.stream, t7.stream) && Apart(t5.stream, mrg.stream) && Apart(t7.stream, mrg.stream)
      requires suc.stream.consumers == [p5, p7] && t5.stream.consumers == [m5] && t7.stream.consumers == [m7]
      requires mrg.stream.consumers == [pc]
      requires suc.record.passed == [false, false]
      requires t5.record.passed == t7.record.passed == mrg.record.passed == [false]
      requires suc.record.holding == t5.record.holding == t7.record.holding == mrg.record.holding == 0
      ensures Separate() && Wired() && InStep()
      ensures this.suc == suc && this.t5 == t5 && this.t7 == t7 && this.mrg == mrg
      ensures times5.p == p5 && times7.p == p7 && merger.p1 == m5 && merger.p2 == m7 && consumer.p == pc
      ensures View() == Net([suc.record, t5.record, t7.record, mrg.record], BEGINNING)
      ensures fresh({successor, times5, times7, merger, consumer})
    {
      this.suc, this.t5, this.t7, this.mrg := suc, t5, t7, mrg;
      successor := new SuccessorProcess(suc);
      times5 := new TimesProcess(suc, p5, 0, t5, 5);
      times7 := new TimesProcess(suc, p7, 1, t7, 7);
      merger := new MergeProcess(t5, m5, t7, m7, mrg);
      consumer := new ConsumerProcess(mrg, pc);
    }

    method ActSuccessor(ghost mode: Mode)
      requires Ready() && CanAdvance(View(), Successor, mode)
      modifies successor, suc, suc.stream`putIdx, suc.stream`empty, suc.stream.buffer, suc.stream.readCount
      ensures Ready() && View() == Advance(old(View()), Successor, mode)
    {
      successor.Act();
      assert View() == Advance(old(View()), Successor, mode) && InStep();
    }

    method ActTimes5Getting(ghost mode: Mode)
      requires times5.pc.Getting?
      requires Ready() && CanAdvance(View(), Times5, mode)
      modifies times5, suc, suc.stream`empty, suc.stream.readCount, times5.p`bufferIdx
      ensures Ready() && View() == Advance(old(View()), Times5, mode)
    {
      times5.ActGetting(NextAction(View().at, Times5));
      assert View() == Advance(old(View()), Times5, mode) && InStep();
    }

    method ActTimes5Putting(ghost mode: Mode)
      requires times5.pc.Putting?
      requires Ready() && CanAdvance(View(), Times5, mode)
      modifies times5, t5, t5.stream`putIdx, t5.stream`empty, t5.stream.buffer, t5.stream.readCount
      ensures Ready() && View() == Advance(old(View()), Times5, mode)
    {
      times5.ActPutting(NextAction(View().at, Times5));
      assert View() == Advance(old(View()), Times5, mode) && InStep();
    }

    method ActTimes7Getting(ghost mode: Mode)
      requires times7.pc.Getting?
      requires Ready() && CanAdvance(View(), Times7, mode)
      modifies times7, suc, suc.stream`empty, suc.stream.readCount, times7.p`bufferIdx
      ensures Ready() && View() == Advance(old(View()), Times7, mode)
    {
      times7.ActGetting(NextAction(View().at, Times7));
      assert View() == Advance(old(View()), Times7, mode) && InStep();
    }

    method ActTimes7Putting(ghost mode: Mode)
      requires times7.pc.Putting?
      requires Ready() && CanAdvance(View(), Times7, mode)
      modifies times7, t7, t7.stream`putIdx, t7.stream`empty, t7.stream.buffer, t7.stream.readCount
      ensures Ready() && View() == Advance(old(View()), Times7, mode)
    {
      times7.ActPutting(NextAction(View().at, Times7));
      assert View() == Advance(old(View()), Times7, mode) && InStep();
    }

    method ActMergerChoose(ghost mode: Mode)
      requires merger.pc.Choose?
      requires Ready() && CanAdvance(View(), Merger, mode)
      modifies merger, mrg, mrg.stream`putIdx, mrg.stream`empty, mrg.stream.buffer, mrg.stream.readCount
      ensures Ready() && View() == Advance(old(View()), Merger, mode)
    {
      assert NextAction(View().at, Merger) == MergeAction(merger.pc);
      merger.ActChoose();
      assert View() == Advance(old(View()), Merger, mode) && InStep();
    }

    method ActMergerFirst(ghost mode: Mode)
      requires merger.OnFirst()
      requires Ready() && CanAdvance(View(), Merger, mode)
      modifies merger, t5, t5.stream`empty, t5.stream.readCount, merger.p1`bufferIdx
      ensures Ready() && View() == Advance(old(View()), Merger, mode)
    {
      assert merger.pc.GetA? || merger.pc.RefillA?;
      assert NextAction(View().at, Merger) == Fetch(T5, 0);
      merger.ActFirst();
      assert View() == Advance(old(View()), Merger, mode);
    }

    method ActMergerSecond(ghost mode: Mode)
      requires !merger.OnFirst() && !merger.pc.Choose?
      requires Ready() && CanAdvance(View(), Merger, mode)
      modifies merger, t7, t7.stream`empty, t7.stream.readCount, merger.p2`bufferIdx
      ensures Ready() && View() == Advance(old(View()), Merger, mode)
    {
      assert merger.pc.GetB? || merger.pc.RefillB?;
      assert NextAction(View().at, Merger) == Fetch(T7, 0);
      merger.ActSecond();
      assert Separate() && Wired();
      assert View() == Advance(old(View()), Merger, mode) && InStep();
    }

    method ActConsumer(ghost mode: Mode)
      requires mode.limit <= 10
      requires Ready() && CanAdvance(View(), Consumer, mode)
      modifies consumer, mrg, mrg.stream`empty, mrg.stream.readCount, consumer.p`bufferIdx
      ensures Ready() && View() == Advance(old(View()), Consumer, mode)
    {
      consumer.Act();
      assert View() == Advance(old(View()), Consumer, mode) && InStep();
    }

    method ActTimes5(ghost mode: Mode)
      requires Ready() && CanAdvance(View(), Times5, mode)
      modifies Footprint()
      ensures Ready() && View() == Advance(old(View()), Times5, mode)
    {
      if times5.pc.Getting? {
        ActTimes5Getting(mode);
      } else {
        ActTimes5Putting(mode);
      }
    }

    method ActTimes7(ghost mode: Mode)
      requires Ready() && CanAdvance(View(), Times7, mode)
      modifies Footprint()
      ensures Ready() && View() == Advance(old(View()), Times7, mode)
    {
      if times7.pc.Getting? {
        ActTimes7Getting(mode);
      } else {
        ActTimes7Putting(mode);
      }
    }

    method ActMerger(ghost mode: Mode)
      requires Ready() && CanAdvance(View(), Merger, mode)
      modifies Footprint()
      ensures Ready() && View() == Advance(old(View()), Merger, mode)
    {
      match merger.pc
      case Choose(_, _) => ActMergerChoose(mode);
      case GetA => ActMergerFirst(mode);
      case RefillA(_) => ActMergerFirst(mode);
      case GetB(_) => ActMergerSecond(mode);
      case RefillB(_) => ActMergerSecond(mode);
    }

    /** The thread of `who` gets past its next wait, and does what comes after it. */
    method Act(who: Process, ghost mode: Mode)
      requires Ready() && CanAdvance(View(), who, mode) && mode.limit <= 10
      modifies Footprint()
      ensures Ready() && View() == Advance(old(View()), who, mode)
    {
      match who
      case Successor => ActSuccessor(mode);
      case Times5 => ActTimes5(mode);
      case Times7 => ActTimes7(mode);
      case Merger => ActMerger(mode);
      case Consumer => ActConsumer(mode);
    }

    /** The threads act in the order of `schedule`. */
    method Run(schedule: seq<Process>, ghost mode: Mode)
      requires Ready() && N.Legal(View(), schedule, mode) && mode.limit <= 10
      modifies Footprint()
      ensures Ready() && View() == N.Exec(old(View()), schedule, mode)
    {
      for i := 0 to |schedule|
        invariant Ready() && N.Legal(View(), schedule[i..], mode)
        invariant N.Exec(View(), schedule[i..], mode) == N.Exec(old(View()), schedule, mode)
      {
        assert schedule[i..][1..] == schedule[i + 1..];
        Act(schedule[i], mode);
      }
    }

    /** main.c's ten values. Whatever the schedule, it is over after at most 244 actions. As long as every consumer of
        every stream receives each value once and in order, which it always does without stale reads, the consumer has
        the first values of the sorted merge, and all ten when no thread can act any more. */
    method RunDelivers(schedule: seq<Process>, ghost mode: Mode)
      requires Ready() && IsStart(View()) && N.Legal(View(), schedule, mode) && mode.limit == 10
      modifies Footprint()
      ensures Ready() && View() == N.Exec(old(View()), schedule, mode) && |schedule| <= 244
      ensures old(N.AlwaysPrefixes(View(), schedule, mode)) ==> mrg.record.got[0] == Merged(consumer.i)
      ensures old(N.AlwaysPrefixes(View(), schedule, mode)) && N.Stuck(View(), mode) ==> consumer.i == 10
      ensures consumer.i <= 10
    {
      N.EveryRunDelivers(View(), schedule, mode);
      R.EveryScheduleOfTheCodeEnds(View(), schedule, mode);
      N.NeverPastLimit(View(), schedule, mode);
      Run(schedule, mode);
      assert View().ch[MRG] == mrg.record && View().at.done == consumer.i;
    }
  }
}
