/** Aggregate: per-channel sample buffers with max/min/average results,
    either accumulated and flushed every `samples` gates, or kept as a
    sliding window of the last `samples` units. */
module Aggregate {
  import opened Signals

  datatype Port = MaxPort | MinPort | AvgPort | ChannelPort | GatePort

  /** `connected` is the set of wired outputs. */
  datatype Config = Config(samples: nat, cyclic: bool, connected: set<Port>)

  /** `buffer` and `index` are the per-channel buffers and counters;
      `channel` and `unit` are the latched inputs. */
  datatype State = State(buffer: map<Value, seq<int>>, index: map<Value, nat>, channel: Value, unit: int)

  datatype Event = UnitIn(u: int) | ChannelIn(c: Value) | Gate(data: Value)

  datatype Output = MaxOut(n: int) | MinOut(n: int) | AvgOut(a: real) | ChannelOut(c: Value) | GateOut(v: Value)

  datatype Reaction = Reaction(state: State, out: seq<Output>)

  /** The option schema demands at least one sample. */
  predicate ValidConfig(cfg: Config)
  {
    cfg.samples >= 1
  }

  function Init(): State
  {
    State(map[], map[], Num(1), 0)
  }

  // ---------------------------------------------------------------------
  // Statistics

  function Max(xs: seq<int>): (m: int)
    requires |xs| > 0
    ensures m in xs
    ensures forall x :: x in xs ==> x <= m
  {
    if |xs| == 1 then xs[0]
    else
      var rest := Max(xs[1..]);
      assert forall x :: x in xs ==> x == xs[0] || x in xs[1..];
      if xs[0] >= rest then xs[0] else rest
  }

  function Min(xs: seq<int>): (m: int)
    requires |xs| > 0
    ensures m in xs
    ensures forall x :: x in xs ==> m <= x
  {
    if |xs| == 1 then xs[0]
    else
      var rest := Min(xs[1..]);
      assert forall x :: x in xs ==> x == xs[0] || x in xs[1..];
      if xs[0] <= rest then xs[0] else rest
  }

  function Sum(xs: seq<int>): int
  {
    if |xs| == 0 then 0 else xs[0] + Sum(xs[1..])
  }

  /** The output port an output is sent on. */
  function PortOf(o: Output): Port
  {
    match o
    case MaxOut(_) => MaxPort
    case MinOut(_) => MinPort
    case AvgOut(_) => AvgPort
    case ChannelOut(_) => ChannelPort
    case GateOut(_) => GatePort
  }

  /** `o`, when its port is connected. */
  function IfConnected(cfg: Config, o: Output): (out: seq<Output>)
    ensures forall x :: x in out ==> x == o && PortOf(o) in cfg.connected
    ensures PortOf(o) in cfg.connected ==> o in out
  {
    if PortOf(o) in cfg.connected then [o] else []
  }

  /** What an output sent for buffer `buf` may carry: max and min are
      elements of the buffer that bound all others, the average times the
      length is the sum, and channel and gate are passed through. */
  predicate Describes(buf: seq<int>, ch: Value, data: Value, o: Output)
  {
    match o
    case MaxOut(n) => n in buf && forall x :: x in buf ==> x <= n
    case MinOut(n) => n in buf && forall x :: x in buf ==> n <= x
    case AvgOut(a) => a * (|buf| as real) == Sum(buf) as real
    case ChannelOut(c) => c == ch
    case GateOut(v) => v == data
  }

  /** `_sendResults`: each statistic only when its output is connected,
      and nothing at all for an empty buffer. */
  function SendResults(cfg: Config, buf: seq<int>, ch: Value, data: Value): (out: seq<Output>)
    ensures |buf| == 0 ==> out == []
    ensures forall o :: o in out ==> Describes(buf, ch, data, o)
  {
    if |buf| == 0 then []
    else
      var mx := IfConnected(cfg, MaxOut(Max(buf)));
      var mn := IfConnected(cfg, MinOut(Min(buf)));
      var av := IfConnected(cfg, AvgOut((Sum(buf) as real) / (|buf| as real)));
      var c := IfConnected(cfg, ChannelOut(ch));
      var g := IfConnected(cfg, GateOut(data));
      assert forall o :: o in mx + mn ==> Describes(buf, ch, data, o);
      assert forall o :: o in av + c + g ==> Describes(buf, ch, data, o);
      (mx + mn) + (av + c + g)
  }

  /** On a non-empty buffer, an output is sent on a port exactly when that
      port is connected. */
  lemma SendResultsPorts(cfg: Config, buf: seq<int>, ch: Value, data: Value, p: Port)
    requires |buf| > 0
    ensures (exists o :: o in SendResults(cfg, buf, ch, data) && PortOf(o) == p) <==> p in cfg.connected
  {
    var a := IfConnected(cfg, MaxOut(Max(buf)));
    var b := IfConnected(cfg, MinOut(Min(buf)));
    var c := IfConnected(cfg, AvgOut((Sum(buf) as real) / (|buf| as real)));
    var d := IfConnected(cfg, ChannelOut(ch));
    var e := IfConnected(cfg, GateOut(data));
    var out := SendResults(cfg, buf, ch, data);
    assert out == (a + b) + (c + d + e);
    if p in cfg.connected {
      match p
      case MaxPort => assert MaxOut(Max(buf)) in out;
      case MinPort => assert MinOut(Min(buf)) in out;
      case AvgPort => assert AvgOut((Sum(buf) as real) / (|buf| as real)) in out;
      case ChannelPort => assert ChannelOut(ch) in out;
      case GatePort => assert GateOut(data) in out;
    } else {
      forall o | o in out
        ensures PortOf(o) != p
      {
        assert o in a || o in b || o in c || o in d || o in e;
      }
    }
  }

  // ---------------------------------------------------------------------
  // Handlers

  /** Per channel: buffers and counters exist together; a sliding window
      never holds more than `samples` units; an accumulating buffer's length
      is its counter and stays below `samples`. */
  predicate Inv(cfg: Config, s: State)
  {
    && s.buffer.Keys == s.index.Keys
    && (forall c :: c in s.buffer ==> |s.buffer[c]| <= cfg.samples)
    && (forall c :: c in s.buffer && !cfg.cyclic ==> s.index[c] == |s.buffer[c]| < cfg.samples)
  }

  /** The buffer of a channel, empty before it is created. */
  function BufferOf(s: State, ch: Value): seq<int>
  {
    if ch in s.buffer then s.buffer[ch] else []
  }

  function CounterOf(s: State, ch: Value): nat
  {
    if ch in s.buffer && ch in s.index then s.index[ch] else 0
  }

  /** `inputGate` */
  function OnGate(cfg: Config, s: State, data: Value): (r: Reaction)
    requires ValidConfig(cfg)
    ensures r.state.channel == s.channel && r.state.unit == s.unit
    ensures r.state.buffer.Keys == s.buffer.Keys + {s.channel}
    ensures r.state.index.Keys == s.index.Keys + {s.channel}
    ensures forall c :: c in s.buffer && c != s.channel ==> r.state.buffer[c] == s.buffer[c]
    ensures forall c :: c in s.index && c != s.channel ==> r.state.index[c] == s.index[c]
    ensures Inv(cfg, s) ==> Inv(cfg, r.state)
  {
    var g := GateOr1(data);
    var ch := s.channel;
    var buf := BufferOf(s, ch);
    var idx := CounterOf(s, ch);
    if cfg.cyclic then
      var pushed := buf + [s.unit];
      var window := if |pushed| > cfg.samples then pushed[1..] else pushed;
      var out := if |window| == cfg.samples then SendResults(cfg, window, ch, g) else [];
      Reaction(s.(buffer := s.buffer[ch := window], index := s.index[ch := idx]), out)
    else
      var count := idx + 1;
      var pushed := buf + [s.unit];
      if count >= cfg.samples then
        Reaction(s.(buffer := s.buffer[ch := []], index := s.index[ch := 0]), SendResults(cfg, pushed, ch, g))
      else
        Reaction(s.(buffer := s.buffer[ch := pushed], index := s.index[ch := count]), [])
  }

  function Step(cfg: Config, s: State, ev: Event): (r: Reaction)
    requires ValidConfig(cfg)
    ensures Inv(cfg, s) ==> Inv(cfg, r.state)
    ensures ev.ChannelIn? ==> r == Reaction(s.(channel := ev.c), [])
    ensures ev.UnitIn? && GatePort in cfg.connected ==> r == Reaction(s.(unit := ev.u), [])
  {
    match ev
    case UnitIn(u) =>
      if GatePort !in cfg.connected then OnGate(cfg, s.(unit := u), Num(1)) else Reaction(s.(unit := u), [])
    case ChannelIn(c) => Reaction(s.(channel := c), [])
    case Gate(data) => OnGate(cfg, s, data)
  }

  // ---------------------------------------------------------------------
  // Properties

  /** The last `n` elements of `h` (all of them when there are fewer). */
  function LastN(h: seq<int>, n: nat): (w: seq<int>)
    ensures |w| <= n && |w| <= |h|
  {
    if |h| <= n then h else h[|h| - n..]
  }

  /** Latch each unit of `us` in turn and gate it. */
  function Feed(cfg: Config, s: State, us: seq<int>): State
    requires ValidConfig(cfg)
    decreases |us|
  {
    if |us| == 0 then s else Feed(cfg, OnGate(cfg, s.(unit := us[0]), Num(1)).state, us[1..])
  }

  /** One sliding-window push keeps the window equal to the last `n`. */
  lemma WindowPush(h: seq<int>, u: int, n: nat)
    requires n >= 1
    ensures var pushed := LastN(h, n) + [u];
            (if |pushed| > n then pushed[1..] else pushed) == LastN(h + [u], n)
  {
    if |h| >= n {
      assert (h[|h| - n..] + [u])[1..] == (h + [u])[|h| + 1 - n..];
    }
  }

  /** Events delivered one after the other. */
  function Run(cfg: Config, s: State, evs: seq<Event>): State
    requires ValidConfig(cfg)
    decreases |evs|
  {
    if |evs| == 0 then s else Run(cfg, Step(cfg, s, evs[0]).state, evs[1..])
  }

  /** What one event gates on channel `c`: a gate, or a unit that triggers
      itself, gates the latched unit while `c` is the latched channel. */
  function GatedBy(cfg: Config, s: State, ev: Event, c: Value): (us: seq<int>)
    ensures |us| <= 1
  {
    if s.channel != c then []
    else
      match ev
      case Gate(_) => [s.unit]
      case UnitIn(u) => if GatePort !in cfg.connected then [u] else []
      case ChannelIn(_) => []
  }

  /** Every unit gated on channel `c` during a run, in order. */
  function GatedOn(cfg: Config, s: State, evs: seq<Event>, c: Value): seq<int>
    requires ValidConfig(cfg)
    decreases |evs|
  {
    if |evs| == 0 then []
    else GatedBy(cfg, s, evs[0], c) + GatedOn(cfg, Step(cfg, s, evs[0]).state, evs[1..], c)
  }

  /** One cyclic gate, seen on the buffer of any channel `c`: the latched
      channel's window takes the unit, every other buffer stays as it was. */
  lemma CyclicGateOn(cfg: Config, s: State, data: Value, c: Value, h: seq<int>)
    requires ValidConfig(cfg) && cfg.cyclic
    requires BufferOf(s, c) == LastN(h, cfg.samples)
    ensures BufferOf(OnGate(cfg, s, data).state, c)
            == LastN(h + (if s.channel == c then [s.unit] else []), cfg.samples)
  {
    if s.channel == c {
      WindowPush(h, s.unit, cfg.samples);
    } else {
      assert h + [] == h;
    }
  }

  /** One event, seen on the buffer of any channel `c`. */
  lemma CyclicStepOn(cfg: Config, s: State, ev: Event, c: Value, h: seq<int>)
    requires ValidConfig(cfg) && cfg.cyclic
    requires BufferOf(s, c) == LastN(h, cfg.samples)
    ensures BufferOf(Step(cfg, s, ev).state, c) == LastN(h + GatedBy(cfg, s, ev, c), cfg.samples)
  {
    match ev
    case Gate(data) =>
      CyclicGateOn(cfg, s, data, c, h);
    case UnitIn(u) =>
      if GatePort !in cfg.connected {
        CyclicGateOn(cfg, s.(unit := u), Num(1), c, h);
      } else {
        assert h + GatedBy(cfg, s, ev, c) == h;
      }
    case ChannelIn(_) =>
      assert h + GatedBy(cfg, s, ev, c) == h;
  }

  lemma RunCons(cfg: Config, s: State, evs: seq<Event>, c: Value)
    requires ValidConfig(cfg) && |evs| > 0
    ensures var s1 := Step(cfg, s, evs[0]).state;
            Run(cfg, s, evs) == Run(cfg, s1, evs[1..])
            && GatedOn(cfg, s, evs, c) == GatedBy(cfg, s, evs[0], c) + GatedOn(cfg, s1, evs[1..], c)
  {
  }

  /** The inductive step of CyclicWindow: the window after the first event,
      extended by the rest of the run, is the window of the whole run. */
  lemma CyclicWindowCons(cfg: Config, s: State, evs: seq<Event>, c: Value, h: seq<int>)
    requires ValidConfig(cfg) && cfg.cyclic && |evs| > 0
    requires var s1 := Step(cfg, s, evs[0]).state;
             BufferOf(Run(cfg, s1, evs[1..]), c)
               == LastN((h + GatedBy(cfg, s, evs[0], c)) + GatedOn(cfg, s1, evs[1..], c), cfg.samples)
    ensures BufferOf(Run(cfg, s, evs), c) == LastN(h + GatedOn(cfg, s, evs, c), cfg.samples)
  {
    var p := GatedBy(cfg, s, evs[0], c);
    var s1 := Step(cfg, s, evs[0]).state;
    var rest := GatedOn(cfg, s1, evs[1..], c);
    RunCons(cfg, s, evs, c);
    WindowOfParts(cfg.samples, h, p, rest, GatedOn(cfg, s, evs, c), BufferOf(Run(cfg, s1, evs[1..]), c));
  }

  lemma WindowOfParts(n: nat, h: seq<int>, p: seq<int>, rest: seq<int>, whole: seq<int>, b: seq<int>)
    requires whole == p + rest && b == LastN((h + p) + rest, n)
    ensures b == LastN(h + whole, n)
  {
    assert h + whole == (h + p) + rest;
  }

  /** In cyclic mode, whatever order units, channels and gates arrive in,
      every channel's buffer is the last `samples` units gated while that
      channel was latched, in order. */
  lemma {:induction false} CyclicWindow(cfg: Config, s: State, evs: seq<Event>, c: Value, h: seq<int>)
    requires ValidConfig(cfg) && cfg.cyclic
    requires BufferOf(s, c) == LastN(h, cfg.samples)
    ensures BufferOf(Run(cfg, s, evs), c) == LastN(h + GatedOn(cfg, s, evs, c), cfg.samples)
    decreases |evs|
  {
    if |evs| == 0 {
      assert h + GatedOn(cfg, s, evs, c) == h;
    } else {
      CyclicStepOn(cfg, s, evs[0], c, h);
      CyclicWindow(cfg, Step(cfg, s, evs[0]).state, evs[1..], c, h + GatedBy(cfg, s, evs[0], c));
      CyclicWindowCons(cfg, s, evs, c, h);
    }
  }

  /** From startup, every channel's buffer is the last `samples` units
      gated on it. */
  lemma CyclicWindowFromInit(cfg: Config, evs: seq<Event>, c: Value)
    requires ValidConfig(cfg) && cfg.cyclic
    ensures BufferOf(Run(cfg, Init(), evs), c) == LastN(GatedOn(cfg, Init(), evs, c), cfg.samples)
  {
    var empty: seq<int> := [];
    CyclicWindow(cfg, Init(), evs, c, empty);
    assert empty + GatedOn(cfg, Init(), evs, c) == GatedOn(cfg, Init(), evs, c);
  }

  /** Cyclic mode, two samples, `gate` unconnected so each unit gates
      itself: units 5 on channel 1, 6 on channel 2 and 7 on channel 1 leave
      channel 1 holding [5, 7] and channel 2 holding [6]. */
  lemma InterleavedChannels()
    ensures var cfg := Config(2, true, {});
            var evs := [ChannelIn(Num(1)), UnitIn(5), ChannelIn(Num(2)), UnitIn(6), ChannelIn(Num(1)), UnitIn(7)];
            var t := Run(cfg, Init(), evs);
            BufferOf(t, Num(1)) == [5, 7] && BufferOf(t, Num(2)) == [6]
  {
    var cfg := Config(2, true, {});
    var evs := [ChannelIn(Num(1)), UnitIn(5), ChannelIn(Num(2)), UnitIn(6), ChannelIn(Num(1)), UnitIn(7)];
    assert GatedOn(cfg, Init(), evs, Num(1)) == [5, 7] by {
      InterleavedGated(cfg, evs, Num(1));
    }
    assert GatedOn(cfg, Init(), evs, Num(2)) == [6] by {
      InterleavedGated(cfg, evs, Num(2));
    }
    CyclicWindowFromInit(cfg, evs, Num(1));
    CyclicWindowFromInit(cfg, evs, Num(2));
  }

  /** The units the run of InterleavedChannels gates on each channel. */
  lemma InterleavedGated(cfg: Config, evs: seq<Event>, c: Value)
    requires cfg == Config(2, true, {})
    requires evs == [ChannelIn(Num(1)), UnitIn(5), ChannelIn(Num(2)), UnitIn(6), ChannelIn(Num(1)), UnitIn(7)]
    ensures c == Num(1) ==> GatedOn(cfg, Init(), evs, c) == [5, 7]
    ensures c == Num(2) ==> GatedOn(cfg, Init(), evs, c) == [6]
  {
    var s0 := Init();
    var s1 := Step(cfg, s0, evs[0]).state;
    var s2 := Step(cfg, s1, evs[1]).state;
    var s3 := Step(cfg, s2, evs[2]).state;
    var s4 := Step(cfg, s3, evs[3]).state;
    var s5 := Step(cfg, s4, evs[4]).state;
    var e1, e2, e3, e4, e5 := evs[1..], evs[2..], evs[3..], evs[4..], evs[5..];
    assert e1[1..] == e2 && e2[1..] == e3 && e3[1..] == e4 && e4[1..] == e5 && e5[1..] == [];
    var g5 := GatedBy(cfg, s5, evs[5], c);
    var g4 := GatedBy(cfg, s4, evs[4], c);
    var g3 := GatedBy(cfg, s3, evs[3], c);
    var g2 := GatedBy(cfg, s2, evs[2], c);
    var g1 := GatedBy(cfg, s1, evs[1], c);
    var g0 := GatedBy(cfg, s0, evs[0], c);
    assert s1.channel == Num(1) && s2.channel == Num(1) && s3.channel == Num(2) && s4.channel == Num(2)
      && s5.channel == Num(1);
    assert GatedOn(cfg, s5, e5, c) == g5 by { RunCons(cfg, s5, e5, c); }
    assert GatedOn(cfg, s4, e4, c) == g4 + g5 by { RunCons(cfg, s4, e4, c); }
    assert GatedOn(cfg, s3, e3, c) == g3 + (g4 + g5) by { RunCons(cfg, s3, e3, c); }
    assert GatedOn(cfg, s2, e2, c) == g2 + (g3 + (g4 + g5)) by { RunCons(cfg, s2, e2, c); }
    assert GatedOn(cfg, s1, e1, c) == g1 + (g2 + (g3 + (g4 + g5))) by { RunCons(cfg, s1, e1, c); }
    assert GatedOn(cfg, s0, evs, c) == g0 + (g1 + (g2 + (g3 + (g4 + g5)))) by { RunCons(cfg, s0, evs, c); }
  }

  /** In cyclic mode the results are sent on every gate at which the window
      is full, and only then. */
  lemma CyclicSendsWhenFull(cfg: Config, s: State, data: Value)
    requires ValidConfig(cfg) && cfg.cyclic && Inv(cfg, s)
    ensures var r := OnGate(cfg, s, data);
            var w := r.state.buffer[s.channel];
            r.out == (if |w| == cfg.samples then SendResults(cfg, w, s.channel, GateOr1(data)) else [])
            && (|BufferOf(s, s.channel)| + 1 >= cfg.samples <==> |w| == cfg.samples)
  {
  }

  /** In accumulate mode a gate flushes exactly when the counter reaches
      `samples`: the results cover the whole buffer and the buffer and
      counter restart empty; otherwise the unit is appended and counted. */
  lemma AccumulateFlush(cfg: Config, s: State, data: Value)
    requires ValidConfig(cfg) && !cfg.cyclic && Inv(cfg, s)
    ensures var r := OnGate(cfg, s, data);
            var full := BufferOf(s, s.channel) + [s.unit];
            if |full| == cfg.samples then
              r.out == SendResults(cfg, full, s.channel, GateOr1(data))
              && r.state.buffer[s.channel] == [] && r.state.index[s.channel] == 0
            else
              r.out == [] && r.state.buffer[s.channel] == full && r.state.index[s.channel] == |full|
  {
  }

  /** A unit arriving while `gate` is unconnected acts as that unit followed
      by `gate(1)`. */
  lemma UnitSelfTriggers(cfg: Config, s: State, u: int)
    requires ValidConfig(cfg) && GatePort !in cfg.connected
    ensures Step(cfg, s, UnitIn(u)) == Step(cfg, s.(unit := u), Gate(Num(1)))
  {
  }

  /** An undefined gate payload is sent on as 1. */
  lemma UndefinedGateIsOne(cfg: Config, s: State)
    requires ValidConfig(cfg)
    ensures Step(cfg, s, Gate(Undef)) == Step(cfg, s, Gate(Num(1)))
  {
  }

  function AllPorts(): set<Port>
  {
    {MaxPort, MinPort, AvgPort, ChannelPort, GatePort}
  }

  /** Accumulate mode, three samples: units 1, 2, 3 each followed by a gate
      give max 3, min 1, average 2 on the third gate, and leave the channel's
      buffer empty. */
  lemma AccumulateExample()
    ensures var cfg := Config(3, false, AllPorts());
            var s2 := Feed(cfg, Init(), [1, 2]);
            var r := OnGate(cfg, s2.(unit := 3), Num(1));
            r.out == [MaxOut(3), MinOut(1), AvgOut(2.0), ChannelOut(Num(1)), GateOut(Num(1))]
            && r.state.buffer[Num(1)] == []
  {
    var cfg := Config(3, false, AllPorts());
    var c := Num(1);
    var s1 := State(map[c := [1]], map[c := 1], c, 1);
    var s2 := State(map[c := [1, 2]], map[c := 2], c, 2);
    assert OnGate(cfg, Init().(unit := 1), Num(1)).state == s1 by {
      var empty: seq<int> := [];
      assert empty + [1] == [1];
    }
    assert OnGate(cfg, s1.(unit := 2), Num(1)).state == s2 by {
      assert [1] + [2] == [1, 2];
    }
    assert Feed(cfg, Init(), [1, 2]) == s2 by {
      assert [1, 2][1..] == [2];
      assert Feed(cfg, Init(), [1, 2]) == Feed(cfg, s1, [2]);
      assert Feed(cfg, s1, [2]) == Feed(cfg, s2, []);
    }
    var full := [1, 2, 3];
    assert [1, 2] + [3] == full;
    assert Max(full) == 3 && Min(full) == 1 && Sum(full) == 6 by {
      assert full[1..] == [2, 3] && full[1..][1..] == [3];
    }
    assert SendResults(cfg, full, c, Num(1)) == [MaxOut(3), MinOut(1), AvgOut(2.0), ChannelOut(c), GateOut(Num(1))];
  }

  /** Cyclic mode, two samples: units 5, 7, 9 give results over {5, 7}
      after the second gate and over {7, 9} after the third, never over
      more than two units. */
  lemma CyclicExample()
    ensures var cfg := Config(2, true, AllPorts());
            var r1 := OnGate(cfg, Init().(unit := 5), Num(1));
            var r2 := OnGate(cfg, r1.state.(unit := 7), Num(1));
            var r3 := OnGate(cfg, r2.state.(unit := 9), Num(1));
            r1.out == []
            && r2.out == [MaxOut(7), MinOut(5), AvgOut(6.0), ChannelOut(Num(1)), GateOut(Num(1))]
            && r3.out == [MaxOut(9), MinOut(7), AvgOut(8.0), ChannelOut(Num(1)), GateOut(Num(1))]
  {
    CyclicExampleFirst();
    CyclicExampleSecond();
    CyclicExampleThird();
  }

  lemma CyclicExampleFirst()
    ensures OnGate(Config(2, true, AllPorts()), Init().(unit := 5), Num(1))
            == Reaction(State(map[Num(1) := [5]], map[Num(1) := 0], Num(1), 5), [])
  {
    var empty: seq<int> := [];
    assert empty + [5] == [5];
  }

  lemma CyclicExampleSecond()
    ensures OnGate(Config(2, true, AllPorts()), State(map[Num(1) := [5]], map[Num(1) := 0], Num(1), 7), Num(1))
            == Reaction(State(map[Num(1) := [5, 7]], map[Num(1) := 0], Num(1), 7),
                        [MaxOut(7), MinOut(5), AvgOut(6.0), ChannelOut(Num(1)), GateOut(Num(1))])
  {
    assert [5] + [7] == [5, 7];
    assert [5, 7][1..] == [7];
    assert Max([5, 7]) == 7 && Min([5, 7]) == 5 && Sum([5, 7]) == 12;
  }

  lemma CyclicExampleThird()
    ensures OnGate(Config(2, true, AllPorts()), State(map[Num(1) := [5, 7]], map[Num(1) := 0], Num(1), 9), Num(1))
            == Reaction(State(map[Num(1) := [7, 9]], map[Num(1) := 0], Num(1), 9),
                        [MaxOut(9), MinOut(7), AvgOut(8.0), ChannelOut(Num(1)), GateOut(Num(1))])
  {
    assert ([5, 7] + [9])[1..] == [7, 9];
    assert [7, 9][1..] == [9];
    assert Max([7, 9]) == 9 && Min([7, 9]) == 7 && Sum([7, 9]) == 16;
  }
}
