/** The ring of streams.c as a value: what `get` and `put` test, and what they do in their critical sections. */
module StreamModel {

  const BUFFER_SIZE := 5

  /** One `stream_t` with the read index (`buffer_idx`) of every consumer connected to it. */
  datatype Stream = Stream(buffer: seq<int>, readCount: seq<int>, putIdx: int, idx: seq<int>, empty: int)

  predicate Shaped(s: Stream) {
    && |s.buffer| == BUFFER_SIZE && |s.readCount| == BUFFER_SIZE
    && 0 <= s.putIdx < BUFFER_SIZE
    && forall i :: 0 <= i < |s.idx| ==> 0 <= s.idx[i] < BUFFER_SIZE
  }

  /** `init_stream` */
  function Init(buffer: seq<int>): Stream
    requires |buffer| == BUFFER_SIZE
  {
    Stream(buffer, [9999, 9999, 9999, 9999, 9999], 0, [], BUFFER_SIZE)
  }

  /** `stream_connect` */
  function Connect(s: Stream): Stream {
    s.(idx := s.idx + [s.putIdx])
  }

  /** The first wait of `get` is over: the consumer is not right behind the putter. */
  predicate FirstGuard(s: Stream, i: nat)
    requires Shaped(s) && i < |s.idx|
  {
    (s.idx[i] + 1) % BUFFER_SIZE != s.putIdx % BUFFER_SIZE
  }

  /** The second wait of `get` is over: someone still has to read this slot. */
  predicate SecondGuard(s: Stream, i: nat)
    requires Shaped(s) && i < |s.idx|
  {
    s.readCount[s.idx[i]] < |s.idx|
  }

  /** The rest of `get`. */
  function Take(s: Stream, i: nat): Stream
    requires Shaped(s) && i < |s.idx|
  {
    var k := s.idx[i];
    s.(readCount := s.readCount[k := s.readCount[k] + 1],
       empty := if s.readCount[k] + 1 == |s.idx| then s.empty + 1 else s.empty,
       idx := s.idx[i := (k + 1) % BUFFER_SIZE])
  }

  /** The wait of `put` under the lock is over: every consumer has read the slot. */
  predicate PutGuard(s: Stream)
    requires Shaped(s)
  {
    s.readCount[s.putIdx] >= |s.idx|
  }

  /** The rest of `put`. */
  function Store(s: Stream, v: int): Stream
    requires Shaped(s)
  {
    s.(buffer := s.buffer[s.putIdx := v],
       readCount := s.readCount[s.putIdx := 0],
       putIdx := (s.putIdx + 1) % BUFFER_SIZE)
  }

  /** Whatever was put before, a new consumer's first value is the next one put. The others stay where they are. */
  lemma ConnectReadsNext(s: Stream, v: int)
    requires Shaped(s)
    ensures Shaped(Connect(s))
    ensures var t, n := Store(Connect(s), v), |s.idx|;
            && Shaped(t) && |t.idx| == n + 1 && t.idx[..n] == s.idx
            && SecondGuard(t, n) && t.buffer[t.idx[n]] == v && Take(t, n).idx[n] == t.putIdx
  {
  }
}
