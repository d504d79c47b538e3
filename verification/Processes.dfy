/** The processes of streams.c, one action at a time on the structs themselves. A process is an object whose fields
    are its locals and its place in its loop; each action does what `Network` says on the values. */
module Processes {
  import opened StreamModel
  import opened StreamProtocol
  import opened Network
  import opened Streams

  /** A stream together with the record of what was put into it and received from it. */
  class Channel {
    const stream: StreamT
    ghost var record: Proto

    ghost predicate Valid()
      reads this, stream, stream.buffer, stream.readCount, stream.consumers
    {
      stream.Valid() && WellFormed(record) && record.s == stream.View()
    }

    constructor (stream: StreamT)
      requires stream.Valid()
      ensures this.stream == stream && Valid()
      ensures var n := |stream.consumers|;
              record == Proto(stream.View(), seq(n, _ => false), 0, [], seq(n, _ => []))
    {
      this.stream := stream;
      var n := |stream.consumers|;
      record := Proto(stream.View(), seq(n, _ => false), 0, [], seq(n, _ => []));
    }

    /** The first wait of `get`, over. */
    method PassFirst(p: Producer, ghost c: nat)
      requires Valid() && c < |stream.consumers| && stream.consumers[c] == p
      requires Enabled(record, Pass(c))
      modifies this
      ensures Valid() && record == Next(old(record), Pass(c))
    {
      var wait := stream.CaughtUp(p, c);
      assert !wait;
      record := Next(record, Pass(c));
    }

    /** The second wait of `get`, over, and the read. */
    method ReadNext(p: Producer, ghost c: nat) returns (v: int)
      requires Valid() && c < |stream.consumers| && stream.consumers[c] == p
      requires Enabled(record, Read(c))
      modifies this, stream`empty, stream.readCount, p`bufferIdx
      ensures Valid() && record == Next(old(record), Read(c))
      ensures v == Found(old(record), c)
    {
      var wait := stream.NothingNew(p, c);
      assert !wait;
      v := stream.TakeValue(p, c);
      record := Next(record, Read(c));
    }

    /** `sem_wait` in `put`, over. */
    method PassSemaphore()
      requires Valid() && Enabled(record, Wait)
      modifies this, stream`empty
      ensures Valid() && record == Next(old(record), Wait)
    {
      stream.TakePermit();
      record := Next(record, Wait);
    }

    /** The wait of `put` under the lock, over, and the store. */
    method StoreNext(v: int)
      requires Valid() && Enabled(record, Put(v))
      modifies this, stream`putIdx, stream.buffer, stream.readCount
      ensures Valid() && record == Next(old(record), Put(v))
    {
      var wait := stream.NotAllRead();
      assert !wait;
      stream.StoreValue(v);
      record := Next(record, Put(v));
    }

    /** The next action of a `get` that is under way if `passed`. */
    method Get(p: Producer, ghost a: Action, passed: bool) returns (got: bool, v: int)
      requires Valid() && a.Fetch? && a.c < |stream.consumers| && stream.consumers[a.c] == p
      requires CanGet(record, a.c, AsIs) && passed == record.passed[a.c]
      modifies this, stream`empty, stream.readCount, p`bufferIdx
      ensures Valid() && record == Do(old(record), a).p
      ensures got == Do(old(record), a).over && (got ==> v == Do(old(record), a).v)
    {
      if passed {
        v := ReadNext(p, a.c);
        return true, v;
      }
      PassFirst(p, a.c);
      return false, 0;
    }

    /** The next action of a `put` of `v` that has its permit if `permit`. */
    method PutNext(v: int, ghost a: Action, permit: bool) returns (done: bool)
      requires Valid() && a.Send? && a.v == v && CanPut(record, v) && permit == (record.holding > 0)
      modifies this, stream`putIdx, stream`empty, stream.buffer, stream.readCount
      ensures Valid() && record == Do(old(record), a).p
      ensures done == Do(old(record), a).over
    {
      if permit {
        StoreNext(v);
      } else {
        PassSemaphore();
      }
      return permit;
    }
  }

  /** `successor` */
  class SuccessorProcess {
    const self: Channel
    var i: int
    var permit: bool

    /** The locals agree with the channel. */
    ghost predicate Consistent()
      reads this, self
    {
      self.record.holding == (if permit then 1 else 0)
    }

    constructor (self: Channel)
      requires self.record.holding == 0
      ensures this.self == self && Consistent() && i == 1
    {
      this.self, i, permit := self, 1, false;
    }

    method Act()
      requires Consistent() && self.Valid() && CanPut(self.record, i)
      modifies this, self, self.stream`putIdx, self.stream`empty, self.stream.buffer, self.stream.readCount
      ensures Consistent() && self.Valid()
      ensures var h := Do(old(self.record), Send(SUC, old(i)));
              self.record == h.p && i == if h.over then old(i) + 1 else old(i)
    {
      var done := self.PutNext(i, Send(SUC, i), permit);
      permit := !done;
      if done {
        i := i + 1;
      }
    }
  }

  /** `times` */
  class TimesProcess {
    const p: Producer
    ghost const c: nat
    const src: Channel
    const self: Channel
    const multiplier: int
    var passed: bool
    var permit: bool
    var pc: TimesPc

    /** The locals agree with the two channels. */
    ghost predicate Consistent()
      reads this, src, src.stream`consumers, self
    {
      && src != self
      && c < |src.stream.consumers| && src.stream.consumers[c] == p
      && c < |src.record.passed| && src.record.passed[c] == passed
      && self.record.holding == (if permit then 1 else 0)
      && (pc.Getting? ==> !permit)
    }

    constructor (src: Channel, p: Producer, ghost c: nat, self: Channel, multiplier: int)
      requires src != self
      requires c < |src.stream.consumers| && src.stream.consumers[c] == p
      requires c < |src.record.passed| && !src.record.passed[c] && self.record.holding == 0
      ensures this.src == src && this.p == p && this.c == c && this.self == self && this.multiplier == multiplier
      ensures Consistent() && pc == Getting
    {
      this.src, this.p, this.c, this.self, this.multiplier := src, p, c, self, multiplier;
      passed, permit, pc := false, false, Getting;
    }

    method ActGetting(ghost a: Action)
      requires Consistent() && src.Valid() && pc.Getting? && a.Fetch? && a.c == c && CanGet(src.record, c, AsIs)
      modifies this, src, src.stream`empty, src.stream.readCount, p`bufferIdx
      ensures Consistent() && src.Valid()
      ensures var h := Do(old(src.record), a);
              src.record == h.p && pc == if h.over then TimesResume(Getting, h.v, multiplier) else Getting
    {
      var got, v := src.Get(p, a, passed);
      passed := !got;
      if got {
        pc := Putting(v * multiplier);
      }
    }

    method ActPutting(ghost a: Action)
      requires Consistent() && self.Valid() && pc.Putting? && a.Send? && a.v == pc.out && CanPut(self.record, pc.out)
      modifies this, self, self.stream`putIdx, self.stream`empty, self.stream.buffer, self.stream.readCount
      ensures Consistent() && self.Valid()
      ensures var h := Do(old(self.record), a);
              self.record == h.p && pc == if h.over then TimesResume(old(pc), h.v, multiplier) else old(pc)
    {
      var done := self.PutNext(pc.out, a, permit);
      permit := !done;
      if done {
        pc := Getting;
      }
    }
  }

  /** `merge` */
  class MergeProcess {
    const p1: Producer
    const p2: Producer
    const src1: Channel
    const src2: Channel
    const self: Channel
    var passed: bool
    var permit: bool
    var pc: MergePc

    /** The first producer is read in these places, the second in the other waiting ones. */
    predicate OnFirst()
      reads this
    {
      pc.GetA? || pc.RefillA?
    }

    /** The locals agree with the three channels. */
    ghost predicate Consistent()
      reads this, src1, src1.stream`consumers, src2, src2.stream`consumers, self
    {
      && src1 != src2 && src1 != self && src2 != self
      && src1.stream.consumers == [p1] && src2.stream.consumers == [p2]
      && src1.record.passed == [passed && OnFirst()]
      && src2.record.passed == [passed && !OnFirst()]
      && self.record.holding == (if permit then 1 else 0)
      && (pc.Choose? ==> !passed) && (!pc.Choose? ==> !permit)
    }

    constructor (src1: Channel, p1: Producer, src2: Channel, p2: Producer, self: Channel)
      requires src1 != src2 && src1 != self && src2 != self
      requires src1.stream.consumers == [p1] && src2.stream.consumers == [p2]
      requires src1.record.passed == src2.record.passed == [false] && self.record.holding == 0
      ensures this.src1 == src1 && this.p1 == p1 && this.src2 == src2 && this.p2 == p2 && this.self == self
      ensures Consistent() && pc == GetA
    {
      this.src1, this.p1, this.src2, this.p2, this.self := src1, p1, src2, p2, self;
      passed, permit, pc := false, false, GetA;
    }

    /** `a = get(p1)` */
    method ActFirst()
      requires Consistent() && src1.Valid() && OnFirst() && CanGet(src1.record, 0, AsIs)
      modifies this, src1, src1.stream`empty, src1.stream.readCount, p1`bufferIdx
      ensures Consistent() && src1.Valid()
      ensures var h := Do(old(src1.record), Fetch(T5, 0));
              src1.record == h.p && pc == if h.over then MergeResume(old(pc), h.v) else old(pc)
    {
      var got, v := src1.Get(p1, Fetch(T5, 0), passed);
      passed := !got;
      if got {
        pc := if pc.GetA? then GetB(v) else Choose(v, pc.b);
      }
    }

    /** `b = get(p2)` */
    method ActSecond()
      requires Consistent() && src2.Valid() && (pc.GetB? || pc.RefillB?) && CanGet(src2.record, 0, AsIs)
      modifies this, src2, src2.stream`empty, src2.stream.readCount, p2`bufferIdx
      ensures Consistent() && src2.Valid()
      ensures var h := Do(old(src2.record), Fetch(T7, 0));
              src2.record == h.p && pc == if h.over then MergeResume(old(pc), h.v) else old(pc)
    {
      var got, v := src2.Get(p2, Fetch(T7, 0), passed);
      passed := !got;
      if got {
        pc := Choose(pc.a, v);
      }
    }

    /** The lesser of the two values is put, the second if they are equal, and will be refilled from its own side. */
    method ActChoose()
      requires Consistent() && self.Valid() && pc.Choose? && CanPut(self.record, MergeAction(pc).v)
      modifies this, self, self.stream`putIdx, self.stream`empty, self.stream.buffer, self.stream.readCount
      ensures Consistent() && self.Valid()
      ensures var h := Do(old(self.record), MergeAction(old(pc)));
              self.record == h.p && pc == if h.over then MergeResume(old(pc), h.v) else old(pc)
    {
      if pc.a < pc.b {
        var done := self.PutNext(pc.a, MergeAction(pc), permit);
        permit := !done;
        if done {
          pc := RefillA(pc.b);
        }
      } else {
        var done := self.PutNext(pc.b, MergeAction(pc), permit);
        permit := !done;
        if done {
          pc := RefillB(pc.a);
        }
      }
    }
  }

  /** `consumer` */
  class ConsumerProcess {
    const p: Producer
    const src: Channel
    var passed: bool
    var i: nat

    /** The locals agree with the channel. */
    ghost predicate Consistent()
      reads this, src, src.stream`consumers
    {
      src.stream.consumers == [p] && src.record.passed == [passed]
    }

    constructor (src: Channel, p: Producer)
      requires src.stream.consumers == [p] && src.record.passed == [false]
      ensures this.src == src && this.p == p && Consistent() && i == 0
    {
      this.src, this.p, passed, i := src, p, false, 0;
    }

    method Act()
      requires Consistent() && src.Valid() && i < 10 && CanGet(src.record, 0, AsIs)
      modifies this, src, src.stream`empty, src.stream.readCount, p`bufferIdx
      ensures Consistent() && src.Valid()
      ensures var h := Do(old(src.record), Fetch(MRG, 0));
              src.record == h.p && i == if h.over then old(i) + 1 else old(i)
    {
      var got, v := src.Get(p, Fetch(MRG, 0), passed);
      passed := !got;
      if got {
        i := i + 1;
      }
    }
  }
}
