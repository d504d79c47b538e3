/** The structs of streams.h, updated in place. `View` is the stream as a value; each method below is a piece of
    `get`, `put`, `init_stream` or `stream_connect` that runs without letting go of the lock. */
module Streams {
  import opened StreamModel

  /** `producer_t`: where one consumer stands in the stream it reads from. */
  class Producer {
    var bufferIdx: int
    const stream: StreamT

    constructor (stream: StreamT, bufferIdx: int)
      ensures this.stream == stream && this.bufferIdx == bufferIdx
    {
      this.stream, this.bufferIdx := stream, bufferIdx;
    }
  }

  class StreamT {
    const buffer: array<int>
    const readCount: array<int>
    var putIdx: int
    var numConsumers: int
    var empty: int
    var producers: seq<Producer>        // what this stream's process reads from, in the order of connection
    ghost var consumers: seq<Producer>  // who reads from this stream

    ghost function Indices(): (s: seq<int>)
      reads this`consumers, consumers
      ensures |s| == |consumers|
    {
      var cs := consumers;
      seq(|cs|, i requires 0 <= i < |cs| reads cs => cs[i].bufferIdx)
    }

    ghost function View(): Stream
      reads this`putIdx, this`numConsumers, this`empty, this`consumers, buffer, readCount, consumers
    {
      Stream(buffer[..], readCount[..], putIdx, Indices(), empty)
    }

    ghost predicate Valid()
      reads this`putIdx, this`numConsumers, this`empty, this`consumers, buffer, readCount, consumers
    {
      && Shaped(View())
      && buffer != readCount
      && numConsumers == |consumers|
      && (forall i :: 0 <= i < |consumers| ==> consumers[i].stream == this)
      && (forall i, j :: 0 <= i < j < |consumers| ==> consumers[i] != consumers[j])
    }

    /** `init_stream` */
    constructor ()
      ensures Valid() && consumers == [] && producers == []
      ensures fresh(buffer) && fresh(readCount)
      ensures View() == Init(View().buffer)
    {
      buffer := new int[BUFFER_SIZE];
      readCount := new int[BUFFER_SIZE];
      putIdx, numConsumers, empty := 0, 0, BUFFER_SIZE;
      producers, consumers := [], [];
      new;
      for i := 0 to BUFFER_SIZE
        invariant View() == Stream(buffer[..], readCount[..], 0, [], BUFFER_SIZE)
        invariant numConsumers == 0 && consumers == [] && producers == []
        invariant forall k :: 0 <= k < i ==> readCount[k] == 9999
      {
        readCount[i] := 9999;
      }
      assert readCount[..] == [9999, 9999, 9999, 9999, 9999];
    }

    /** The condition of the first wait of `get`. */
    method CaughtUp(p: Producer, ghost i: nat) returns (wait: bool)
      requires Valid() && i < |consumers| && consumers[i] == p
      ensures wait <==> !FirstGuard(View(), i)
    {
      wait := (p.bufferIdx + 1) % BUFFER_SIZE == putIdx % BUFFER_SIZE;
    }

    /** The condition of the second wait of `get`. */
    method NothingNew(p: Producer, ghost i: nat) returns (wait: bool)
      requires Valid() && i < |consumers| && consumers[i] == p
      ensures wait <==> !SecondGuard(View(), i)
    {
      assert p.bufferIdx == View().idx[i];
      wait := readCount[p.bufferIdx] >= numConsumers;
    }

    /** `get` after its waits. */
    method TakeValue(p: Producer, ghost i: nat) returns (ret: int)
      requires Valid() && i < |consumers| && consumers[i] == p
      modifies this`empty, readCount, p`bufferIdx
      ensures Valid()
      ensures View() == Take(old(View()), i)
      ensures ret == old(View()).buffer[old(View()).idx[i]]
    {
      ghost var s := View();
      TakeIsShaped(s, i);
      assert p.bufferIdx == s.idx[i];
      ret := buffer[p.bufferIdx];
      readCount[p.bufferIdx] := readCount[p.bufferIdx] + 1;
      if readCount[p.bufferIdx] == numConsumers {
        empty := empty + 1;
      }
      p.bufferIdx := (p.bufferIdx + 1) % BUFFER_SIZE;
      assert Indices() == s.idx[i := p.bufferIdx];
      assert View() == Take(s, i);
    }

    /** `sem_wait` */
    method TakePermit()
      requires Valid() && empty > 0
      modifies this`empty
      ensures Valid() && View() == old(View()).(empty := old(empty) - 1)
    {
      empty := empty - 1;
      assert Indices() == old(Indices());
    }

    /** The condition of the wait of `put` under the lock. */
    method NotAllRead() returns (wait: bool)
      requires Valid()
      ensures wait <==> !PutGuard(View())
    {
      wait := readCount[putIdx] < numConsumers;
    }

    /** `put` after its waits. */
    method StoreValue(value: int)
      requires Valid()
      modifies this`putIdx, buffer, readCount
      ensures Valid()
      ensures View() == Store(old(View()), value)
    {
      buffer[putIdx] := value;
      readCount[putIdx] := 0;
      putIdx := (putIdx + 1) % BUFFER_SIZE;
      assert Indices() == old(Indices());
    }
  }

  lemma TakeIsShaped(s: Stream, i: nat)
    requires Shaped(s) && i < |s.idx|
    ensures Shaped(Take(s, i))
  {
  }

  /** `stream_connect`: the process of `input` also reads from `out`, starting with the next value put there. */
  method StreamConnect(input: StreamT, out: StreamT) returns (p: Producer)
    requires out.Valid()
    modifies input`producers, out`numConsumers, out`consumers
    ensures out.Valid() && fresh(p)
    ensures out.View() == Connect(old(out.View()))
    ensures out.consumers == old(out.consumers) + [p]
    ensures input.producers == old(input.producers) + [p]
    ensures p.stream == out
  {
    p := new Producer(out, out.putIdx);
    input.producers := input.producers + [p];
    out.numConsumers := out.numConsumers + 1;
    out.consumers := out.consumers + [p];
    assert out.Indices() == old(out.Indices()) + [out.putIdx];
  }
}
