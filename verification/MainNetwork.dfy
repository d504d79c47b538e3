/** What main.c builds before it starts its threads. */
module MainNetwork {
  import opened StreamModel
  import opened StreamProtocol
  import opened Network
  import opened Streams
  import opened Processes
  import opened Program
  import opened Merging
  import N = NetworkRuns

  /** A stream with `n` consumers, as `init_stream` and `n` calls of `stream_connect` leave it. */
  ghost predicate Ready(s: StreamT, n: nat)
    reads s`putIdx, s`numConsumers, s`empty, s`consumers, s.buffer, s.readCount, s.consumers
  {
    s.Valid() && |s.consumers| == n && s.View() == Connected(Init(s.View().buffer), n)
  }

  lemma OneMoreConsumer(buffer: seq<int>, n: nat)
    requires |buffer| == BUFFER_SIZE
    ensures Connect(Connected(Init(buffer), n)) == Connected(Init(buffer), n + 1)
  {
  }

  method ConnectNext(input: StreamT, out: StreamT, ghost n: nat) returns (p: Producer)
    requires Ready(out, n)
    modifies input`producers, out`numConsumers, out`consumers
    ensures Ready(out, n + 1) && fresh(p)
    ensures out.consumers == old(out.consumers) + [p]
    ensures input.producers == old(input.producers) + [p]
  {
    OneMoreConsumer(out.View().buffer, n);
    ConnectedIdx(out.View().buffer, n);
    ConnectedIdx(out.View().buffer, n + 1);
    p := StreamConnect(input, out);
  }

  /** The first three connections of main.c: the merger reads first from times5 and then from times7. */
  method ConnectMerger(sTimes5: StreamT, sTimes7: StreamT, sMerge: StreamT, sCons: StreamT)
    requires sTimes5 !in {sTimes7, sMerge, sCons} && sTimes7 !in {sMerge, sCons} && sMerge != sCons
    requires Ready(sTimes5, 0) && Ready(sTimes7, 0) && Ready(sMerge, 0)
    requires sMerge.producers == sCons.producers == []
    modifies sTimes5`numConsumers, sTimes5`consumers, sTimes7`numConsumers, sTimes7`consumers
    modifies sMerge`numConsumers, sMerge`consumers, sMerge`producers, sCons`producers
    ensures Ready(sTimes5, 1) && Ready(sTimes7, 1) && Ready(sMerge, 1)
    ensures sMerge.producers == sTimes5.consumers + sTimes7.consumers
    ensures sCons.producers == sMerge.consumers
    ensures fresh(sTimes5.consumers) && fresh(sTimes7.consumers) && fresh(sMerge.consumers)
  {
    var p := ConnectNext(sCons, sMerge, 0);
    ConnectTimes(sTimes5, sTimes7, sMerge);
  }

  method ConnectTimes(sTimes5: StreamT, sTimes7: StreamT, sMerge: StreamT)
    requires sTimes5 != sTimes7
    requires Ready(sTimes5, 0) && Ready(sTimes7, 0)
    modifies sTimes5`numConsumers, sTimes5`consumers, sTimes7`numConsumers, sTimes7`consumers, sMerge`producers
    ensures Ready(sTimes5, 1) && Ready(sTimes7, 1)
    ensures sMerge.producers == old(sMerge.producers) + sTimes5.consumers + sTimes7.consumers
    ensures fresh(sTimes5.consumers) && fresh(sTimes7.consumers)
  {
    var p := ConnectNext(sMerge, sTimes5, 0);
    p := ConnectNext(sMerge, sTimes7, 0);
  }

  /** The last two: times5 is the successor's consumer 0, times7 its consumer 1. */
  method ConnectSuccessor(sSuc: StreamT, sTimes5: StreamT, sTimes7: StreamT)
    requires sSuc !in {sTimes5, sTimes7} && sTimes5 != sTimes7
    requires Ready(sSuc, 0)
    requires sTimes5.producers == sTimes7.producers == []
    modifies sSuc`numConsumers, sSuc`consumers, sTimes5`producers, sTimes7`producers
    ensures Ready(sSuc, 2)
    ensures sSuc.consumers == sTimes5.producers + sTimes7.producers
    ensures |sTimes5.producers| == |sTimes7.producers| == 1
    ensures fresh(sSuc.consumers)
  {
    var p := ConnectNext(sTimes5, sSuc, 0);
    p := ConnectNext(sTimes7, sSuc, 1);
  }

  /** Who reads from whom once main.c has connected its streams. */
  ghost predicate Connections(sSuc: StreamT, sTimes5: StreamT, sTimes7: StreamT, sMerge: StreamT, sCons: StreamT)
    reads sSuc`consumers, sTimes5, sTimes7, sMerge, sCons`producers
  {
    && sSuc.consumers == sTimes5.producers + sTimes7.producers
    && |sTimes5.producers| == |sTimes7.producers| == 1
    && |sTimes5.consumers| == |sTimes7.consumers| == |sMerge.consumers| == 1
    && sMerge.producers == sTimes5.consumers + sTimes7.consumers
    && sCons.producers == sMerge.consumers
  }

  /** The connections of main.c, in its order. */
  method ConnectAll(sSuc: StreamT, sTimes5: StreamT, sTimes7: StreamT, sMerge: StreamT, sCons: StreamT)
    requires sSuc !in {sTimes5, sTimes7, sMerge, sCons} && sTimes5 !in {sTimes7, sMerge, sCons}
    requires sTimes7 !in {sMerge, sCons} && sMerge != sCons
    requires Ready(sSuc, 0) && Ready(sTimes5, 0) && Ready(sTimes7, 0) && Ready(sMerge, 0)
    requires sTimes5.producers == sTimes7.producers == sMerge.producers == sCons.producers == []
    modifies sSuc, sTimes5, sTimes7, sMerge, sCons
    ensures Ready(sSuc, 2) && Ready(sTimes5, 1) && Ready(sTimes7, 1) && Ready(sMerge, 1)
    ensures Connections(sSuc, sTimes5, sTimes7, sMerge, sCons)
    ensures fresh(sSuc.consumers) && fresh(sTimes5.consumers) && fresh(sTimes7.consumers) && fresh(sMerge.consumers)
  {
    ConnectMerger(sTimes5, sTimes7, sMerge, sCons);
    ConnectSuccessor(sSuc, sTimes5, sTimes7);
  }

  /** The five streams of main.c. The four that are written to are those of `Network`. */
  method BuildNetwork() returns (sSuc: StreamT, sTimes5: StreamT, sTimes7: StreamT, sMerge: StreamT, sCons: StreamT)
    ensures Ready(sSuc, 2) && Ready(sTimes5, 1) && Ready(sTimes7, 1) && Ready(sMerge, 1)
    ensures Connections(sSuc, sTimes5, sTimes7, sMerge, sCons)
    ensures Apart(sSuc, sTimes5) && Apart(sSuc, sTimes7) && Apart(sSuc, sMerge)
    ensures Apart(sTimes5, sTimes7) && Apart(sTimes5, sMerge) && Apart(sTimes7, sMerge)
    ensures fresh(Owned(sSuc)) && fresh(Owned(sTimes5)) && fresh(Owned(sTimes7)) && fresh(Owned(sMerge))
    ensures fresh(sSuc.consumers) && fresh(sTimes5.consumers) && fresh(sTimes7.consumers) && fresh(sMerge.consumers)
  {
    sSuc, sTimes5 := NewTwo();
    sTimes7, sMerge := NewTwo();
    sCons := NewStream();
    ConnectAll(sSuc, sTimes5, sTimes7, sMerge, sCons);
  }

  /** A stream's struct and its arrays. */
  ghost function Owned(s: StreamT): set<object> {
    {s, s.buffer, s.readCount}
  }

  method NewTwo() returns (a: StreamT, b: StreamT)
    ensures Ready(a, 0) && Ready(b, 0) && a.producers == b.producers == []
    ensures Apart(a, b) && fresh(Owned(a)) && fresh(Owned(b))
  {
    a := NewStream();
    b := NewStream();
  }

  method NewStream() returns (s: StreamT)
    ensures Ready(s, 0) && s.producers == []
    ensures fresh(s) && fresh(s.buffer) && fresh(s.readCount)
  {
    s := new StreamT();
  }

  /** The record of a stream that `n` consumers are connected to begins where the protocol begins. */
  method OpenChannel(s: StreamT, ghost n: nat) returns (ch: Channel)
    requires Ready(s, n)
    ensures fresh(ch) && ch.stream == s && Opened(ch, n)
  {
    ConnectedIdx(s.View().buffer, n);
    ch := new Channel(s);
    assert ch.record == Start(s.buffer[..], n);
  }

  ghost predicate Opened(ch: Channel, n: nat)
    reads ch, ch.stream, ch.stream.buffer, ch.stream.readCount, ch.stream.consumers
  {
    ch.Valid() && StartsAt(ch.record, n)
  }

  lemma OpenedFlags(ch: Channel, n: nat)
    requires Opened(ch, n)
    ensures ch.record.holding == 0
    ensures n == 1 ==> ch.record.passed == [false]
    ensures n == 2 ==> ch.record.passed == [false, false]
  {
    var buffer :| |buffer| == BUFFER_SIZE && ch.record == Start(buffer, n);
  }

  lemma OpenedStart(suc: Channel, t5: Channel, t7: Channel, mrg: Channel)
    requires Opened(suc, 2) && Opened(t5, 1) && Opened(t7, 1) && Opened(mrg, 1)
    ensures var ch := [suc.record, t5.record, t7.record, mrg.record]; IsStart(Net(ch, BEGINNING)) && Shapes(ch)
  {
    StartNetInv(Net([suc.record, t5.record, t7.record, mrg.record], BEGINNING), Fresh);
  }

  method OpenThree(a: StreamT, b: StreamT, c: StreamT) returns (x: Channel, y: Channel, z: Channel)
    requires Ready(a, 1) && Ready(b, 1) && Ready(c, 1)
    ensures fresh({x, y, z}) && x != y && x != z && y != z
    ensures x.stream == a && y.stream == b && z.stream == c
    ensures Opened(x, 1) && Opened(y, 1) && Opened(z, 1)
  {
    x := OpenChannel(a, 1);
    y := OpenChannel(b, 1);
    z := OpenChannel(c, 1);
  }

  /** The processes of main.c, each on what its stream is connected to, stand for a start of the network. */
  method StartProcesses(suc: Channel, t5: Channel, t7: Channel, mrg: Channel, sCons: StreamT) returns (r: Running)
    requires Opened(suc, 2) && Opened(t5, 1) && Opened(t7, 1) && Opened(mrg, 1)
    requires suc != t5 && suc != t7 && suc != mrg && t5 != t7 && t5 != mrg && t7 != mrg
    requires Apart(suc.stream, t5.stream) && Apart(suc.stream, t7.stream) && Apart(suc.stream, mrg.stream)
    requires Apart(t5.stream, t7.stream) && Apart(t5.stream, mrg.stream) && Apart(t7.stream, mrg.stream)
    requires Connections(suc.stream, t5.stream, t7.stream, mrg.stream, sCons)
    ensures r.Ready() && IsStart(r.View())
    ensures r.suc == suc && r.t5 == t5 && r.t7 == t7 && r.mrg == mrg
    ensures fresh({r, r.successor, r.times5, r.times7, r.merger, r.consumer})
  {
    OpenedFlags(suc, 2);
    OpenedFlags(t5, 1);
    OpenedFlags(t7, 1);
    OpenedFlags(mrg, 1);
    OpenedStart(suc, t5, t7, mrg);
    r := new Running(suc, t5, t7, mrg, t5.stream.producers[0], t7.stream.producers[0],
                     mrg.stream.producers[0], mrg.stream.producers[1], sCons.producers[0]);
  }

  method OpenAll(sSuc: StreamT, sTimes5: StreamT, sTimes7: StreamT, sMerge: StreamT, sCons: StreamT)
    returns (r: Running)
    requires Ready(sSuc, 2) && Ready(sTimes5, 1) && Ready(sTimes7, 1) && Ready(sMerge, 1)
    requires Connections(sSuc, sTimes5, sTimes7, sMerge, sCons)
    requires Apart(sSuc, sTimes5) && Apart(sSuc, sTimes7) && Apart(sSuc, sMerge)
    requires Apart(sTimes5, sTimes7) && Apart(sTimes5, sMerge) && Apart(sTimes7, sMerge)
    ensures r.Ready() && IsStart(r.View())
    ensures r.suc.stream == sSuc && r.t5.stream == sTimes5 && r.t7.stream == sTimes7 && r.mrg.stream == sMerge
    ensures fresh({r.suc, r.t5, r.t7, r.mrg}) && fresh({r.successor, r.times5, r.times7, r.merger, r.consumer})
  {
    var suc := OpenChannel(sSuc, 2);
    var t5, t7, mrg := OpenThree(sTimes5, sTimes7, sMerge);
    r := StartProcesses(suc, t5, t7, mrg, sCons);
  }

  /** What an action may change: the threads and the records, the streams, and where their consumers stand. */
  lemma FootprintParts(r: Running, o: object)
    requires r.Wired() && o in r.Footprint()
    ensures || o in {r.suc, r.t5, r.t7, r.mrg} || o in {r.successor, r.times5, r.times7, r.merger, r.consumer}
            || o in Owned(r.suc.stream) || o in Owned(r.t5.stream)
            || o in Owned(r.t7.stream) || o in Owned(r.mrg.stream)
            || o in r.suc.stream.consumers || o in r.t5.stream.consumers
            || o in r.t7.stream.consumers || o in r.mrg.stream.consumers
  {
  }

  /** Everything that main.c does before the first put. From here on `Running.Run` says what its threads do. */
  method Launch() returns (r: Running)
    ensures r.Ready() && IsStart(r.View()) && fresh(r.Footprint())
  {
    var sSuc, sTimes5, sTimes7, sMerge, sCons := BuildNetwork();
    r := OpenAll(sSuc, sTimes5, sTimes7, sMerge, sCons);
    forall o | o in r.Footprint()
      ensures fresh(o)
    {
      FootprintParts(r, o);
    }
  }

  /** The program from its start on, under a schedule that its start allows: it ends, and it delivers as long as every
      consumer of every stream receives each value once and in order, which it always does without stale reads. */
  method RunMain(schedule: seq<Process>, ghost mode: Mode) returns (r: Running)
    requires mode.limit == 10
    requires forall net :: IsStart(net) ==> Shapes(net.ch) && N.Legal(net, schedule, mode)
    ensures r.Ready() && |schedule| <= 244 && r.consumer.i <= 10
    ensures (!mode.guard.AsIs? || forall net :: IsStart(net) ==> N.AlwaysPrefixes(net, schedule, mode)) ==>
              && r.mrg.record.got[0] == Merged(r.consumer.i)
              && (N.Stuck(r.View(), mode) ==> r.consumer.i == 10)
  {
    r := Launch();
    N.EveryRunDelivers(r.View(), schedule, mode);
    r.RunDelivers(schedule, mode);
  }
}
