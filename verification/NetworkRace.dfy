/** Where main.c's network as it stands, without looking at the first wait again, leaves the runs of `NetworkRuns`:
    which streams can see a stale read, a schedule in which one makes the consumer's first value wrong, and one in which
    it stops the network before the consumer has any. */
module NetworkRace {
  import opened StreamModel
  import opened StreamProtocol
  import opened StreamRuns
  import opened Merging
  import opened Network
  import N = NetworkRuns

  /** Only the successor's stream, with its two consumers, can see a stale read; and there exactly a consumer that is
      up to date while the other is five values behind can do it. */
  lemma WhereStaleReadsLurk(net: Net, c: nat)
    requires NetInv(net, Fresh) && c < 2
    ensures forall k :: T5 <= k <= MRG && CanGet(net.ch[k], 0, AsIs) ==> CanGet(net.ch[k], 0, Fresh)
    ensures (CanGet(net.ch[SUC], c, AsIs) && !CanGet(net.ch[SUC], c, Fresh)) <==>
            && net.ch[SUC].passed[c] && |net.ch[SUC].got[c]| == |net.ch[SUC].puts|
            && |net.ch[SUC].got[1 - c]| == |net.ch[SUC].puts| - BUFFER_SIZE
  {
    forall k | T5 <= k <= MRG
      ensures CanGet(net.ch[k], 0, AsIs) ==> CanGet(net.ch[k], 0, Fresh)
    {
      GuardsMean(net.ch[k], 0);
      var m := SlowestIsLeast(net.ch[k].got);
    }
    var suc := net.ch[SUC];
    GuardsMean(suc, c);
    var m := SlowestIsLeast(suc.got);
    assert ConsumerOk(suc, c) && ConsumerOk(suc, 1 - c);
  }

  /** Some schedule leads from `net` to `end`. */
  ghost predicate CanReach(net: Net, end: Net, mode: Mode) {
    exists schedule :: Shapes(net.ch) && N.Legal(net, schedule, mode) && N.Exec(net, schedule, mode) == end
  }

  lemma {:induction false} OneMoreAction(net: Net, schedule: seq<Process>, who: Process, mode: Mode)
    requires Shapes(net.ch) && N.Legal(net, schedule, mode)
    requires CanAdvance(N.Exec(net, schedule, mode), who, mode)
    ensures N.Legal(net, schedule + [who], mode)
    ensures N.Exec(net, schedule + [who], mode) == Advance(N.Exec(net, schedule, mode), who, mode)
    decreases |schedule|
  {
    if schedule == [] {
      assert [] + [who] == [who] && [who][1..] == [];
    } else {
      assert (schedule + [who])[1..] == schedule[1..] + [who];
      OneMoreAction(Advance(net, schedule[0], mode), schedule[1..], who, mode);
    }
  }

  lemma Onward(start: Net, net: Net, who: Process, mode: Mode)
    requires CanReach(start, net, mode) && Shapes(net.ch) && CanAdvance(net, who, mode)
    ensures CanReach(start, Advance(net, who, mode), mode)
  {
    var schedule :| Shapes(start.ch) && N.Legal(start, schedule, mode) && N.Exec(start, schedule, mode) == net;
    OneMoreAction(start, schedule, who, mode);
  }

  /** The schedules of the code as it stands, with main.c's consumer or another. */
  function Raw(limit: nat): Mode {
    Mode(AsIs, limit)
  }

  /** What can be said of a network without looking into its rings: where the processes stand, and of each stream
      what was put, whether a putter holds a permit, who is past the first wait, and what was received. */
  datatype Look = Look(puts: seq<int>, holding: nat, passed: seq<bool>, got: seq<seq<int>>)

  datatype Sketch = Sketch(at: Locals, ch: seq<Look>)

  function LookOf(p: Proto): Look {
    Look(p.puts, p.holding, p.passed, p.got)
  }

  predicate Drawn(s: Sketch) {
    |s.ch| == STREAMS && forall k :: 0 <= k < STREAMS ==> |s.ch[k].passed| == |s.ch[k].got| == Consumers(k)
  }

  /** `net` looks like `s`, and its streams from `from` on are sound. */
  ghost predicate LooksLike(net: Net, s: Sketch, from: nat) {
    && Shapes(net.ch) && Drawn(s) && net.at == s.at
    && forall k :: from <= k < STREAMS ==> LookOf(net.ch[k]) == s.ch[k] && ChannelOk(net.ch[k], Consumers(k), Fresh)
  }

  /** The half of a call can happen, by how far the ends of the stream are apart, and is not a stale read. */
  predicate Timely(l: Look, a: Action)
    requires |l.passed| == |l.got| && (a.Fetch? ==> a.c < |l.got|)
  {
    match a
    case Fetch(k, c) => if l.passed[c] then |l.got[c]| < |l.puts| else |l.puts| - |l.got[c]| != 1
    case Send(k, v) => l.holding > 0 || |l.puts| - Slowest(l.got) < BUFFER_SIZE
  }

  /** The stream after a timely half of a call. */
  function After(l: Look, a: Action): Look
    requires |l.passed| == |l.got| && (a.Fetch? ==> a.c < |l.got|) && Timely(l, a)
  {
    match a
    case Fetch(k, c) =>
      if l.passed[c] then l.(passed := l.passed[c := false], got := l.got[c := l.got[c] + [l.puts[|l.got[c]|]]])
      else l.(passed := l.passed[c := true])
    case Send(k, v) =>
      if l.holding > 0 then l.(holding := l.holding - 1, puts := l.puts + [v]) else l.(holding := 1)
  }

  predicate CanDraw(s: Sketch, who: Process, from: nat)
    requires Drawn(s)
  {
    var a := NextAction(s.at, who);
    from <= a.k && Timely(s.ch[a.k], a)
  }

  function Draw(s: Sketch, who: Process): (t: Sketch)
    requires Drawn(s) && CanDraw(s, who, 0)
    ensures Drawn(t)
  {
    var a := NextAction(s.at, who);
    var l := s.ch[a.k];
    Sketch(match a
           case Fetch(k, c) => if l.passed[c] then Resume(s.at, who, l.puts[|l.got[c]|]) else s.at
           case Send(k, v) => if l.holding > 0 then Resume(s.at, who, v) else s.at,
           s.ch[a.k := After(l, a)])
  }

  lemma TimelyHalf(p: Proto, n: nat, a: Action)
    requires ChannelOk(p, n, Fresh) && (a.Fetch? ==> a.c < n) && Timely(LookOf(p), a)
    ensures match a case Fetch(k, c) => CanGet(p, c, Fresh) case Send(k, v) => CanPut(p, v)
    ensures ChannelOk(Do(p, a).p, n, Fresh) && LookOf(Do(p, a).p) == After(LookOf(p), a)
    ensures a.Fetch? && Do(p, a).over ==> |p.got[a.c]| < |p.puts| && Do(p, a).v == p.puts[|p.got[a.c]|]
  {
    match a
    case Fetch(k, c) =>
      GuardsMean(p, c);
      GetKeepsChannel(p, c, n, Fresh);
    case Send(k, v) =>
      if p.holding > 0 {
        PutNeverWaits(p);
      }
      PutKeepsChannel(p, v, n, Fresh);
  }

  lemma DrawnAdvance(net: Net, s: Sketch, who: Process, from: nat, limit: nat)
    requires LooksLike(net, s, from) && CanDraw(s, who, from)
    requires who.Consumer? ==> s.at.done < limit
    ensures CanAdvance(net, who, Raw(limit))
    ensures LooksLike(Advance(net, who, Raw(limit)), Draw(s, who), from)
    ensures from > 0 ==> Advance(net, who, Raw(limit)).ch[0] == net.ch[0]
  {
    var a := NextAction(net.at, who);
    TimelyHalf(net.ch[a.k], Consumers(a.k), a);
  }

  lemma DrawnAction(start: Net, net: Net, s: Sketch, who: Process, from: nat, limit: nat) returns (next: Net)
    requires CanReach(start, net, Raw(limit)) && LooksLike(net, s, from) && CanDraw(s, who, from)
    requires who.Consumer? ==> s.at.done < limit
    ensures CanReach(start, next, Raw(limit)) && LooksLike(next, Draw(s, who), from)
    ensures from > 0 ==> next.ch[0] == net.ch[0]
  {
    DrawnAdvance(net, s, who, from, limit);
    next := Advance(net, who, Raw(limit));
    Onward(start, net, who, Raw(limit));
  }

  predicate Drawable(s: Sketch, schedule: seq<Process>, from: nat, limit: nat)
    requires Drawn(s)
    decreases |schedule|
  {
    schedule == [] ||
    (CanDraw(s, schedule[0], from) && (schedule[0].Consumer? ==> s.at.done < limit)
     && Drawable(Draw(s, schedule[0]), schedule[1..], from, limit))
  }

  function DrawAll(s: Sketch, schedule: seq<Process>, from: nat, limit: nat): (t: Sketch)
    requires Drawn(s) && Drawable(s, schedule, from, limit)
    ensures Drawn(t)
    decreases |schedule|
  {
    if schedule == [] then s else DrawAll(Draw(s, schedule[0]), schedule[1..], from, limit)
  }

  /** What can be drawn can be run. */
  lemma {:induction false} DrawnRun(start: Net, net: Net, s: Sketch, schedule: seq<Process>, from: nat, limit: nat)
    returns (end: Net)
    requires CanReach(start, net, Raw(limit)) && LooksLike(net, s, from) && Drawable(s, schedule, from, limit)
    ensures CanReach(start, end, Raw(limit)) && LooksLike(end, DrawAll(s, schedule, from, limit), from)
    ensures from > 0 ==> end.ch[0] == net.ch[0]
    decreases |schedule|
  {
    end := net;
    if schedule != [] {
      var next := DrawnAction(start, net, s, schedule[0], from, limit);
      end := DrawnRun(start, next, Draw(s, schedule[0]), schedule[1..], from, limit);
    }
  }

  /** Some actions on the streams from `from` on lead from one sketch to the other. */
  ghost predicate Leads(s: Sketch, t: Sketch, from: nat, limit: nat) {
    Drawn(s) && exists schedule :: Drawable(s, schedule, from, limit) && DrawAll(s, schedule, from, limit) == t
  }

  lemma LeadsOn(s: Sketch, who: Process, t: Sketch, u: Sketch, from: nat, limit: nat)
    requires Drawn(s) && CanDraw(s, who, from) && (who.Consumer? ==> s.at.done < limit) && Draw(s, who) == t
    requires Leads(t, u, from, limit)
    ensures Leads(s, u, from, limit)
  {
    var rest :| Drawable(t, rest, from, limit) && DrawAll(t, rest, from, limit) == u;
    assert ([who] + rest)[1..] == rest;
    assert Drawable(s, [who] + rest, from, limit) && DrawAll(s, [who] + rest, from, limit) == u;
  }

  lemma LeadsNowhere(s: Sketch, from: nat, limit: nat)
    requires Drawn(s)
    ensures Leads(s, s, from, limit)
  {
    assert Drawable(s, [], from, limit) && DrawAll(s, [], from, limit) == s;
  }

  lemma LeadRuns(start: Net, net: Net, s: Sketch, t: Sketch, from: nat, limit: nat) returns (end: Net)
    requires CanReach(start, net, Raw(limit)) && LooksLike(net, s, from) && Leads(s, t, from, limit)
    ensures CanReach(start, end, Raw(limit)) && LooksLike(end, t, from)
    ensures from > 0 ==> end.ch[0] == net.ch[0]
  {
    var schedule :| Drawable(s, schedule, from, limit) && DrawAll(s, schedule, from, limit) == t;
    end := DrawnRun(start, net, s, schedule, from, limit);
  }

  /** One action. */
  ghost predicate Goes(s: Sketch, who: Process, t: Sketch, from: nat, limit: nat) {
    Drawn(s) && CanDraw(s, who, from) && (who.Consumer? ==> s.at.done < limit) && Draw(s, who) == t
  }

  /** `t` is `s` with another stream `k`. */
  predicate Elsewhere(s: Sketch, t: Sketch, k: nat)
    requires Drawn(s)
  {
    |t.ch| == STREAMS && forall j :: 0 <= j < STREAMS && j != k ==> t.ch[j] == s.ch[j]
  }

  /** The first wait of a `get`. */
  lemma PassGoes(s: Sketch, who: Process, k: nat, c: nat, t: Sketch, from: nat, limit: nat)
    requires Drawn(s) && from <= k && NextAction(s.at, who) == Fetch(k, c) && (who.Consumer? ==> s.at.done < limit)
    requires !s.ch[k].passed[c] && |s.ch[k].puts| - |s.ch[k].got[c]| != 1
    requires Elsewhere(s, t, k) && t.ch[k] == s.ch[k].(passed := s.ch[k].passed[c := true]) && t.at == s.at
    ensures Goes(s, who, t, from, limit)
  {
    assert Draw(s, who).ch == t.ch;
  }

  /** The read of a `get`. */
  lemma ReadGoes(s: Sketch, who: Process, k: nat, c: nat, v: int, t: Sketch, from: nat, limit: nat)
    requires Drawn(s) && from <= k && NextAction(s.at, who) == Fetch(k, c) && (who.Consumer? ==> s.at.done < limit)
    requires var l := s.ch[k];
             && l.passed[c] && |l.got[c]| < |l.puts| && l.puts[|l.got[c]|] == v
             && Elsewhere(s, t, k)
             && t.ch[k] == l.(passed := l.passed[c := false], got := l.got[c := l.got[c] + [v]])
    requires t.at == Resume(s.at, who, v)
    ensures Goes(s, who, t, from, limit)
  {
    assert Draw(s, who).ch == t.ch;
  }

  /** The semaphore of a `put`. */
  lemma WaitGoes(s: Sketch, who: Process, k: nat, v: int, t: Sketch, from: nat, limit: nat)
    requires Drawn(s) && from <= k && NextAction(s.at, who) == Send(k, v) && !who.Consumer?
    requires s.ch[k].holding == 0 && |s.ch[k].puts| < BUFFER_SIZE + Slowest(s.ch[k].got)
    requires Elsewhere(s, t, k) && t.ch[k] == s.ch[k].(holding := 1) && t.at == s.at
    ensures Goes(s, who, t, from, limit)
  {
    assert Draw(s, who).ch == t.ch;
  }

  /** The store of a `put`. */
  lemma StoreGoes(s: Sketch, who: Process, k: nat, v: int, t: Sketch, from: nat, limit: nat)
    requires Drawn(s) && from <= k && NextAction(s.at, who) == Send(k, v) && !who.Consumer?
    requires s.ch[k].holding == 1
    requires Elsewhere(s, t, k) && t.ch[k] == s.ch[k].(holding := 0, puts := s.ch[k].puts + [v])
    requires t.at == Resume(s.at, who, v)
    ensures Goes(s, who, t, from, limit)
  {
    assert Draw(s, who).ch == t.ch;
  }

  /** A stream nobody has put into, whose consumer is past its first wait or not. */
  function Empty(passed: bool): Look {
    Look([], 0, [passed], [[]])
  }

  // ----- the race: times7 keeps up with the successor for five values, times5 reads nothing

  /** times7 has read and put on `k` values, and `n` actions of the next round are done. If `ready`, times5, the merger
      and the consumer are past the first wait of their first `get`. */
  function Race(k: nat, n: nat, ready: bool): (s: Sketch)
    ensures Drawn(s)
  {
    var m, out := Multiples(1, k), Multiples(7, k);
    if n == 0 then Lap(k + 1, Getting, ready, m, 0, false, m, out, 0)
    else if n == 1 then Lap(k + 1, Getting, ready, m, 1, false, m, out, 0)
    else if n == 2 then Lap(k + 1, Getting, ready, m, 1, true, m, out, 0)
    else if n == 3 then Lap(k + 2, Getting, ready, m + [k + 1], 0, true, m, out, 0)
    else if n == 4 then Lap(k + 2, Putting(7 * (k + 1)), ready, m + [k + 1], 0, false, m + [k + 1], out, 0)
    else if n == 5 then Lap(k + 2, Putting(7 * (k + 1)), ready, m + [k + 1], 0, false, m + [k + 1], out, 1)
    else Lap(k + 2, Getting, ready, m + [k + 1], 0, false, m + [k + 1], out + [7 * (k + 1)], 0)
  }

  function Lap(i: int, times7: TimesPc, ready: bool, puts: seq<int>, permit: nat, passed: bool, got: seq<int>,
               out: seq<int>, permit7: nat): (s: Sketch)
    ensures Drawn(s)
  {
    Sketch(Locals(i, Getting, times7, GetA, 0),
           [Look(puts, permit, [ready, passed], [[], got]), Empty(ready),
            Look(out, permit7, [false], [[]]), Empty(ready)])
  }

  function RaceActor(n: nat): Process {
    if n == 0 || n == 2 then Successor else Times7
  }

  lemma RaceGoes(k: nat, n: nat, ready: bool, limit: nat)
    requires k < BUFFER_SIZE && n < 3
    ensures Goes(Race(k, n, ready), RaceActor(n), Race(k, n + 1, ready), 0, limit)
  {
    var s, t, m := Race(k, n, ready), Race(k, n + 1, ready), Multiples(1, k);
    MultiplesLength(1, k);
    if n == 0 {
      assert Slowest([[], m]) == 0;
      WaitGoes(s, Successor, SUC, k + 1, t, 0, limit);
    } else if n == 1 {
      assert [ready, false][1 := true] == [ready, true];
      PassGoes(s, Times7, SUC, 1, t, 0, limit);
    } else {
      StoreGoes(s, Successor, SUC, k + 1, t, 0, limit);
    }
  }

  lemma RaceGoesOn(k: nat, n: nat, ready: bool, limit: nat)
    requires k < BUFFER_SIZE && 3 <= n < 6
    ensures Goes(Race(k, n, ready), RaceActor(n), Race(k, n + 1, ready), 0, limit)
  {
    var s, t, m := Race(k, n, ready), Race(k, n + 1, ready), Multiples(1, k);
    MultiplesLength(1, k);
    MultiplesLength(7, k);
    if n == 3 {
      assert [ready, true][1 := false] == [ready, false];
      assert [[], m][1 := m + [k + 1]] == [[], m + [k + 1]];
      ReadGoes(s, Times7, SUC, 1, k + 1, t, 0, limit);
    } else if n == 4 {
      assert Slowest(s.ch[T7].got) == 0;
      WaitGoes(s, Times7, T7, 7 * (k + 1), t, 0, limit);
    } else {
      StoreGoes(s, Times7, T7, 7 * (k + 1), t, 0, limit);
    }
  }

  lemma NextRound(k: nat, ready: bool)
    ensures Race(k, 6, ready) == Race(k + 1, 0, ready)
  {
    MultiplesGrow(1, k, k + 1);
    MultiplesGrow(7, k, 7 * (k + 1));
  }

  lemma RaceLeadsOn(k: nat, n: nat, ready: bool, u: Sketch, limit: nat)
    requires k < BUFFER_SIZE && n < 6 && Leads(Race(k, n + 1, ready), u, 0, limit)
    ensures Leads(Race(k, n, ready), u, 0, limit)
  {
    if n < 3 {
      RaceGoes(k, n, ready, limit);
    } else {
      RaceGoesOn(k, n, ready, limit);
    }
    LeadsOn(Race(k, n, ready), RaceActor(n), Race(k, n + 1, ready), u, 0, limit);
  }

  lemma {:induction false} RaceLeads(k: nat, ready: bool, u: Sketch, limit: nat)
    requires k <= BUFFER_SIZE
    requires Leads(Race(BUFFER_SIZE, 0, ready), u, 0, limit)
    ensures Leads(Race(k, 0, ready), u, 0, limit)
    decreases BUFFER_SIZE - k
  {
    if k < BUFFER_SIZE {
      RaceLeads(k + 1, ready, u, limit);
      NextRound(k, ready);
      RoundLeads(k, 0, ready, u, limit);
    }
  }

  lemma {:induction false} RoundLeads(k: nat, n: nat, ready: bool, u: Sketch, limit: nat)
    requires k < BUFFER_SIZE && n <= 6 && Leads(Race(k, 6, ready), u, 0, limit)
    ensures Leads(Race(k, n, ready), u, 0, limit)
    decreases 6 - n
  {
    if n < 6 {
      RoundLeads(k, n + 1, ready, u, limit);
      RaceLeadsOn(k, n, ready, u, limit);
    }
  }

  const ONES: seq<int> := [1, 2, 3, 4, 5]
  const SEVENS: seq<int> := [7, 14, 21, 28, 35]

  lemma FiveMultiples()
    ensures Multiples(1, 5) == ONES && Multiples(7, 5) == SEVENS
  {
    MultiplesGrow(1, 0, 1);
    MultiplesGrow(1, 1, 2);
    MultiplesGrow(1, 2, 3);
    MultiplesGrow(1, 3, 4);
    MultiplesGrow(1, 4, 5);
    MultiplesGrow(7, 0, 7);
    MultiplesGrow(7, 1, 14);
    MultiplesGrow(7, 2, 21);
    MultiplesGrow(7, 3, 28);
    MultiplesGrow(7, 4, 35);
  }

  /** The stream of times7 after the race. */
  const FULL := Look(SEVENS, 0, [false], [[]])

  /** times7 has passed the first wait once more, with nothing new to read. */
  function Caught(ready: bool): (s: Sketch)
    ensures Drawn(s)
  {
    Sketch(Locals(6, Getting, Getting, GetA, 0),
           [Look(ONES, 0, [ready, true], [[], ONES]), Empty(ready), FULL, Empty(ready)])
  }

  lemma RaceIsCaught(ready: bool, limit: nat)
    ensures Leads(Race(0, 0, ready), Caught(ready), 0, limit)
  {
    var s, t := Race(BUFFER_SIZE, 0, ready), Caught(ready);
    FiveMultiples();
    assert [ready, false][1 := true] == [ready, true];
    PassGoes(s, Times7, SUC, 1, t, 0, limit);
    LeadsNowhere(t, 0, limit);
    LeadsOn(s, Times7, t, t, 0, limit);
    RaceLeads(0, ready, t, limit);
  }

  // ----- the beginning

  /** A sketch in which nothing has been put or received. */
  function Idle(suc: bool, t5: bool, mrg: bool): (s: Sketch)
    ensures Drawn(s)
  {
    Sketch(BEGINNING, [Look([], 0, [suc, false], [[], []]), Empty(t5), Empty(false), Empty(mrg)])
  }

  lemma StartLooks(net: Net)
    requires IsStart(net)
    ensures LooksLike(net, Idle(false, false, false), 0)
  {
    StartNetInv(net, Fresh);
    StartLook(net.ch[SUC], 2);
    StartLook(net.ch[T5], 1);
    StartLook(net.ch[T7], 1);
    StartLook(net.ch[MRG], 1);
    LooksLikeIdle(net);
  }

  lemma StartLook(p: Proto, n: nat)
    requires StartsAt(p, n) && 1 <= n <= 2
    ensures LookOf(p) == if n == 2 then Look([], 0, [false, false], [[], []]) else Empty(false)
  {
    var buffer :| |buffer| == BUFFER_SIZE && p == Start(buffer, n);
  }

  lemma LooksLikeIdle(net: Net)
    requires ChannelsOk(net.ch, Fresh) && net.at == BEGINNING
    requires LookOf(net.ch[SUC]) == Look([], 0, [false, false], [[], []])
    requires LookOf(net.ch[T5]) == LookOf(net.ch[T7]) == LookOf(net.ch[MRG]) == Empty(false)
    ensures LooksLike(net, Idle(false, false, false), 0)
  {
  }

  lemma IdleIsRace(ready: bool)
    ensures Idle(ready, ready, ready) == Race(0, 0, ready)
  {
    assert Multiples(1, 0) == [] && Multiples(7, 0) == [];
  }

  /** times5, the merger and the consumer pass the first wait of their first `get`. */
  lemma Opening(u: Sketch, limit: nat)
    requires limit > 0 && Leads(Idle(true, true, true), u, 0, limit)
    ensures Leads(Idle(false, false, false), u, 0, limit)
  {
    ConsumerPasses(u, limit);
    MergerPasses(u, limit);
    Times5Passes(u, limit);
  }

  lemma Times5Passes(u: Sketch, limit: nat)
    requires Leads(Idle(true, false, false), u, 0, limit)
    ensures Leads(Idle(false, false, false), u, 0, limit)
  {
    var a, b := Idle(false, false, false), Idle(true, false, false);
    assert [false, false][0 := true] == [true, false];
    PassGoes(a, Times5, SUC, 0, b, 0, limit);
    LeadsOn(a, Times5, b, u, 0, limit);
  }

  lemma ConsumerPasses(u: Sketch, limit: nat)
    requires limit > 0 && Leads(Idle(true, true, true), u, 0, limit)
    ensures Leads(Idle(true, true, false), u, 0, limit)
  {
    var a, b := Idle(true, true, false), Idle(true, true, true);
    assert [false][0 := true] == [true];
    PassGoes(a, Consumer, MRG, 0, b, 0, limit);
    LeadsOn(a, Consumer, b, u, 0, limit);
  }

  lemma MergerPasses(u: Sketch, limit: nat)
    requires Leads(Idle(true, true, false), u, 0, limit)
    ensures Leads(Idle(true, false, false), u, 0, limit)
  {
    var a, b := Idle(true, false, false), Idle(true, true, false);
    assert [false][0 := true] == [true];
    PassGoes(a, Merger, T5, 0, b, 0, limit);
    LeadsOn(a, Merger, b, u, 0, limit);
  }

  /** A schedule up to the stale read. */
  lemma ToTheStaleRead(start: Net, ready: bool, limit: nat) returns (net: Net)
    requires IsStart(start) && limit > 0
    ensures CanReach(start, net, Raw(limit)) && LooksLike(net, Caught(ready), 0)
  {
    StartLooks(start);
    RaceIsCaught(ready, limit);
    IdleIsRace(ready);
    if ready {
      Opening(Caught(ready), limit);
    }
    assert N.Legal(start, [], Raw(limit)) && N.Exec(start, [], Raw(limit)) == start;
    net := LeadRuns(start, start, Idle(false, false, false), Caught(ready), 0, limit);
  }

  // ----- the stale read

  /** The stale read on the stream itself: consumer 1 reads the 1 again and counts as consumer 0 in doing so, so the
      putter stores its 6 over the 1 that consumer 0 never saw. If consumer 0 is past the first wait it reads the 6 for
      its first value; if not, it takes itself to be right behind the putter and does not get past it. And there is
      no permit left. */
  lemma UnreadIsLost(p: Proto, ready: bool)
    requires Inv(p) && LookOf(p) == Look(ONES, 0, [ready, true], [[], ONES])
    ensures Enabled(p, Read(1)) && Found(p, 1) == 1
    ensures var q := Next(p, Read(1));
            && LookOf(q) == Look(ONES, 0, [ready, false], [[], ONES + [1]])
            && Enabled(q, Wait)
            && var r := Next(q, Wait);
               && LookOf(r) == Look(ONES, 1, [ready, false], [[], ONES + [1]])
               && Enabled(r, Put(6))
               && Overwritten(Next(r, Put(6)), ready)
  {
    assert ConsumerOk(p, 0) && ConsumerOk(p, 1) && SlotOk(p, 0);
    var rest := p.got[1..];
    assert rest[0] == ONES && rest[1..] == [];
    assert CountPast(rest, 0) == 1;
    assert Slowest(p.got) == 0;
  }

  predicate Overwritten(p: Proto, ready: bool) {
    && WellFormed(p) && LookOf(p) == Look(ONES + [6], 0, [ready, false], [[], ONES + [1]])
    && p.s.empty == 0 && !FirstGuard(p.s, 0)
    && SecondGuard(p.s, 0) && Found(p, 0) == 6
  }

  /** One half of a call on the successor's stream, whatever it does to that stream. */
  lemma RawHalf(start: Net, net: Net, who: Process, limit: nat) returns (next: Net)
    requires CanReach(start, net, Raw(limit)) && Shapes(net.ch) && !who.Consumer?
    requires NextAction(net.at, who).k == SUC && CanDo(net.ch, NextAction(net.at, who), AsIs)
    ensures CanReach(start, next, Raw(limit)) && Shapes(next.ch)
    ensures var h := Do(net.ch[SUC], NextAction(net.at, who));
            && next.ch[SUC] == h.p && next.at == (if h.over then Resume(net.at, who, h.v) else net.at)
    ensures next.ch[1..] == net.ch[1..]
  {
    next := Advance(net, who, Raw(limit));
    Onward(start, net, who, Raw(limit));
  }

  lemma StaleReadRuns(start: Net, net: Net, ready: bool, limit: nat) returns (end: Net)
    requires CanReach(start, net, Raw(limit)) && LooksLike(net, Caught(ready), 0)
    ensures CanReach(start, end, Raw(limit)) && Shapes(end.ch) && Overwritten(end.ch[SUC], ready)
    ensures end.ch[1..] == net.ch[1..] && end.at == Locals(7, Getting, Putting(7), GetA, 0)
  {
    UnreadIsLost(net.ch[SUC], ready);
    var a := RawHalf(start, net, Times7, limit);
    var b := RawHalf(start, a, Successor, limit);
    end := RawHalf(start, b, Successor, limit);
  }

  /** What the other streams look like is not changed by what happens on the successor's. */
  lemma SameBehind(net: Net, lost: Net, s: Sketch, t: Sketch)
    requires LooksLike(net, s, 0) && Shapes(lost.ch) && lost.ch[1..] == net.ch[1..]
    requires Drawn(t) && t.at == lost.at && t.ch[1..] == s.ch[1..]
    ensures LooksLike(lost, t, 1)
  {
    forall k | 1 <= k < STREAMS
      ensures lost.ch[k] == net.ch[k] && t.ch[k] == s.ch[k]
    {
      assert lost.ch[k] == lost.ch[1..][k - 1] && net.ch[k] == net.ch[1..][k - 1];
      assert t.ch[k] == t.ch[1..][k - 1] && s.ch[k] == s.ch[1..][k - 1];
    }
  }

  // ----- the network stops

  /** What is left to do once times5 is kept out. */
  function Halting(suc: Look, merger: bool, consumer: bool): (s: Sketch)
    ensures |suc.passed| == |suc.got| == 2 ==> Drawn(s)
  {
    Sketch(Locals(7, Getting, Putting(7), GetA, 0), [suc, Empty(merger), FULL, Empty(consumer)])
  }

  lemma HaltingLeads(suc: Look, limit: nat)
    requires |suc.passed| == |suc.got| == 2 && limit > 0
    ensures Leads(Halting(suc, false, false), Halting(suc, true, true), 1, limit)
  {
    var a, b, c := Halting(suc, false, false), Halting(suc, true, false), Halting(suc, true, true);
    assert [false][0 := true] == [true];
    LeadsNowhere(c, 1, limit);
    PassGoes(b, Consumer, MRG, 0, c, 1, limit);
    LeadsOn(b, Consumer, c, c, 1, limit);
    PassGoes(a, Merger, T5, 0, b, 1, limit);
    LeadsOn(a, Merger, b, c, 1, limit);
  }

  lemma NothingToRead(p: Proto)
    requires ChannelOk(p, 1, Fresh) && LookOf(p) == Empty(true)
    ensures !CanGet(p, 0, AsIs)
  {
    GuardsMean(p, 0);
  }

  lemma NoPermit(p: Proto, v: int)
    requires ChannelOk(p, 1, Fresh) && LookOf(p) == FULL
    ensures !CanPut(p, v)
  {
    assert Slowest(p.got) == 0;
  }

  lemma HaltingIsStuck(net: Net, suc: Look, limit: nat)
    requires |suc.passed| == |suc.got| == 2 && LooksLike(net, Halting(suc, true, true), 1)
    requires Overwritten(net.ch[SUC], false)
    ensures N.Stuck(net, Raw(limit))
  {
    assert LookOf(net.ch[T5]) == Empty(true) && LookOf(net.ch[T7]) == FULL && LookOf(net.ch[MRG]) == Empty(true);
    NothingToRead(net.ch[T5]);
    NothingToRead(net.ch[MRG]);
    NoPermit(net.ch[T7], 7);
  }

  /** With the code as it stands, from every start, a schedule after which no thread can go on and the consumer,
      whatever it asks for, has nothing: times7 has read the 1 twice, and its put waits for the merger, which waits for
      times5, which waits for the successor although the 6 is there, and that one waits for times5. */
  lemma NetworkCanDeadlock(start: Net, limit: nat) returns (end: Net)
    requires IsStart(start) && limit >= 1
    ensures CanReach(start, end, Raw(limit)) && Shapes(end.ch) && N.Stuck(end, Raw(limit))
    ensures end.at.done == 0 && end.ch[SUC].got == [[], ONES + [1]] && end.ch[SUC].puts == ONES + [6]
  {
    var net := ToTheStaleRead(start, false, limit);
    var lost := StaleReadRuns(start, net, false, limit);
    var suc := LookOf(lost.ch[SUC]);
    SameBehind(net, lost, Caught(false), Halting(suc, false, false));
    HaltingLeads(suc, limit);
    end := LeadRuns(start, lost, Halting(suc, false, false), Halting(suc, true, true), 1, limit);
    HaltingIsStuck(end, suc, limit);
  }

  // ----- the consumer's first value is wrong

  /** From the read of the 6, after which times5 holds 30, to the consumer's first value. */
  function Then(n: nat, suc: Look): (s: Sketch)
    ensures |suc.passed| == |suc.got| == 2 ==> Drawn(s)
  {
    var t5, t7 := Look([30], 0, [false], [[30]]), Look(SEVENS, 0, [false], [[7]]);
    if n == 0 then Row(Putting(30), GetA, 0, suc, Empty(true), FULL, Empty(true))
    else if n == 1 then Row(Putting(30), GetA, 0, suc, Look([], 1, [true], [[]]), FULL, Empty(true))
    else if n == 2 then Row(Getting, GetA, 0, suc, Look([30], 0, [true], [[]]), FULL, Empty(true))
    else if n == 3 then Row(Getting, GetB(30), 0, suc, t5, FULL, Empty(true))
    else if n == 4 then Row(Getting, GetB(30), 0, suc, t5, Look(SEVENS, 0, [true], [[]]), Empty(true))
    else if n == 5 then Row(Getting, Choose(30, 7), 0, suc, t5, t7, Empty(true))
    else if n == 6 then Row(Getting, Choose(30, 7), 0, suc, t5, t7, Look([], 1, [true], [[]]))
    else if n == 7 then Row(Getting, RefillB(30), 0, suc, t5, t7, Look([7], 0, [true], [[]]))
    else Row(Getting, RefillB(30), 1, suc, t5, t7, Look([7], 0, [false], [[7]]))
  }

  function Row(times5: TimesPc, merge: MergePc, done: nat, suc: Look, t5: Look, t7: Look, mrg: Look): Sketch {
    Sketch(Locals(7, times5, Putting(7), merge, done), [suc, t5, t7, mrg])
  }

  function ThenActor(n: nat): Process {
    if n < 2 then Times5 else if n < 7 then Merger else Consumer
  }

  lemma ThenGoes(n: nat, suc: Look, limit: nat)
    requires n < 4 && |suc.passed| == |suc.got| == 2
    ensures Goes(Then(n, suc), ThenActor(n), Then(n + 1, suc), 1, limit)
  {
    var s, t := Then(n, suc), Then(n + 1, suc);
    var none: seq<int> := [];
    assert none + [30] == [30] && [true][0 := false] == [false] && [false][0 := true] == [true];
    if n == 0 {
      assert Slowest(s.ch[T5].got) == 0;
      WaitGoes(s, Times5, T5, 30, t, 1, limit);
    } else if n == 1 {
      StoreGoes(s, Times5, T5, 30, t, 1, limit);
    } else if n == 2 {
      assert [none][0 := none + [30]] == [[30]];
      ReadGoes(s, Merger, T5, 0, 30, t, 1, limit);
    } else {
      PassGoes(s, Merger, T7, 0, t, 1, limit);
    }
  }

  lemma ThenGoesOn(n: nat, suc: Look, limit: nat)
    requires 4 <= n < 8 && |suc.passed| == |suc.got| == 2 && limit > 0
    ensures Goes(Then(n, suc), ThenActor(n), Then(n + 1, suc), 1, limit)
  {
    var s, t := Then(n, suc), Then(n + 1, suc);
    var none: seq<int> := [];
    assert none + [7] == [7] && [true][0 := false] == [false] && [none][0 := none + [7]] == [[7]];
    if n == 4 {
      ReadGoes(s, Merger, T7, 0, 7, t, 1, limit);
    } else if n == 5 {
      assert Slowest(s.ch[MRG].got) == 0;
      WaitGoes(s, Merger, MRG, 7, t, 1, limit);
    } else if n == 6 {
      StoreGoes(s, Merger, MRG, 7, t, 1, limit);
    } else {
      ReadGoes(s, Consumer, MRG, 0, 7, t, 1, limit);
    }
  }

  lemma {:induction false} ThenLeads(n: nat, suc: Look, limit: nat)
    requires n <= 8 && limit > 0 && |suc.passed| == |suc.got| == 2
    ensures Leads(Then(n, suc), Then(8, suc), 1, limit)
    decreases 8 - n
  {
    if n == 8 {
      LeadsNowhere(Then(8, suc), 1, limit);
    } else {
      ThenLeads(n + 1, suc, limit);
      if n < 4 {
        ThenGoes(n, suc, limit);
      } else {
        ThenGoesOn(n, suc, limit);
      }
      LeadsOn(Then(n, suc), ThenActor(n), Then(n + 1, suc), Then(8, suc), 1, limit);
    }
  }

  lemma UnreadIsRead(start: Net, lost: Net, limit: nat) returns (next: Net)
    requires CanReach(start, lost, Raw(limit)) && Shapes(lost.ch) && Overwritten(lost.ch[SUC], true)
    requires lost.at == Locals(7, Getting, Putting(7), GetA, 0)
    ensures CanReach(start, next, Raw(limit)) && Shapes(next.ch)
    ensures LookOf(next.ch[SUC]) == Look(ONES + [6], 0, [false, false], [[6], ONES + [1]])
    ensures next.ch[1..] == lost.ch[1..] && next.at == Locals(7, Putting(30), Putting(7), GetA, 0)
  {
    var none: seq<int> := [];
    assert none + [6] == [6];
    next := RawHalf(start, lost, Times5, limit);
  }

  /** A schedule from there to the consumer's first value. */
  lemma ToTheFirstValue(start: Net, net: Net, next: Net, limit: nat) returns (end: Net)
    requires CanReach(start, next, Raw(limit)) && limit >= 1 && LooksLike(net, Caught(true), 0)
    requires Shapes(next.ch) && next.ch[1..] == net.ch[1..]
    requires next.at == Locals(7, Putting(30), Putting(7), GetA, 0)
    ensures CanReach(start, end, Raw(limit)) && LooksLike(end, Then(8, LookOf(next.ch[SUC])), 1)
    ensures end.ch[SUC] == next.ch[SUC]
  {
    var suc := LookOf(next.ch[SUC]);
    SameBehind(net, next, Caught(true), Then(0, suc));
    ThenLeads(0, suc, limit);
    end := LeadRuns(start, next, Then(0, suc), Then(8, suc), 1, limit);
  }

  lemma ThenEnds(net: Net, suc: Look)
    requires |suc.passed| == |suc.got| == 2 && LooksLike(net, Then(8, suc), 1)
    ensures net.at.done == 1 && net.ch[MRG].got == [[7]]
  {
    assert LookOf(net.ch[MRG]) == Then(8, suc).ch[MRG];
  }

  /** With the code as it stands, from every start, a schedule in which times7 reads the 1 twice and times5 never reads
      it, so that the consumer's first value is 7. */
  lemma NetworkCanRepeat(start: Net, limit: nat) returns (end: Net)
    requires IsStart(start) && limit >= 1
    ensures CanReach(start, end, Raw(limit)) && Shapes(end.ch)
    ensures end.at.done == 1 && end.ch[MRG].got == [[7]]
    ensures end.ch[SUC].puts == ONES + [6] && end.ch[SUC].got == [[6], ONES + [1]]
  {
    var net := ToTheStaleRead(start, true, limit);
    var lost := StaleReadRuns(start, net, true, limit);
    var next := UnreadIsRead(start, lost, limit);
    end := ToTheFirstValue(start, net, next, limit);
    ThenEnds(end, LookOf(next.ch[SUC]));
  }

  // ----- exactly when

  lemma {:induction false} NothingAskedFor(net: Net, schedule: seq<Process>)
    requires Shapes(net.ch) && N.Legal(net, schedule, Raw(0))
    ensures var end := N.Exec(net, schedule, Raw(0));
            end.at.done == net.at.done && end.ch[MRG].got == net.ch[MRG].got
    decreases |schedule|
  {
    if schedule != [] {
      NothingAskedFor(Advance(net, schedule[0], Raw(0)), schedule[1..]);
    }
  }

  /** Some run of the code as it stands ends with the consumer short of what it asks for. */
  ghost predicate CanStopShort(start: Net, limit: nat) {
    exists end :: CanReach(start, end, Raw(limit)) && Shapes(end.ch) && N.Stuck(end, Raw(limit)) && end.at.done < limit
  }

  /** In some run of the code as it stands the consumer receives something other than the merge. */
  ghost predicate CanBeWrong(start: Net, limit: nat) {
    exists end :: CanReach(start, end, Raw(limit)) && Shapes(end.ch) && end.ch[MRG].got[0] != Merged(end.at.done)
  }

  lemma SevenIsWrong(end: Net)
    requires Shapes(end.ch) && end.at.done == 1 && end.ch[MRG].got == [[7]]
    ensures end.ch[MRG].got[0] != Merged(end.at.done)
  {
    assert Value(0) == 5;
    assert Merged(1)[0] == 5;
  }

  lemma NothingIsRight(start: Net, end: Net)
    requires IsStart(start) && CanReach(start, end, Raw(0))
    ensures Shapes(end.ch) && end.ch[MRG].got[0] == Merged(end.at.done)
  {
    var schedule :| Shapes(start.ch) && N.Legal(start, schedule, Raw(0)) && N.Exec(start, schedule, Raw(0)) == end;
    NothingAskedFor(start, schedule);
    StartNetInv(start, Fresh);
    StartLook(start.ch[MRG], 1);
  }

  /** Progress and delivery fail, as the code stands, for every consumer that asks for anything. */
  lemma StopsShortIff(start: Net, limit: nat)
    requires IsStart(start)
    ensures CanStopShort(start, limit) <==> limit >= 1
  {
    if limit >= 1 {
      var end := NetworkCanDeadlock(start, limit);
    }
  }

  lemma WrongIff(start: Net, limit: nat)
    requires IsStart(start)
    ensures CanBeWrong(start, limit) <==> limit >= 1
  {
    if limit >= 1 {
      RepeatIsWrong(start, limit);
    } else {
      NothingIsNotWrong(start, limit);
    }
  }

  lemma RepeatIsWrong(start: Net, limit: nat)
    requires IsStart(start) && limit >= 1
    ensures CanBeWrong(start, limit)
  {
    var end := NetworkCanRepeat(start, limit);
    SevenIsWrong(end);
  }

  lemma NothingIsNotWrong(start: Net, limit: nat)
    requires IsStart(start) && limit < 1
    ensures !CanBeWrong(start, limit)
  {
    forall end | CanReach(start, end, Raw(limit))
      ensures Shapes(end.ch) && end.ch[MRG].got[0] == Merged(end.at.done)
    {
      NothingIsRight(start, end);
    }
  }
}
