/** Unmixer: the inverse of the Mixer's main path. It latches a mixed value
    and a channel number and, on a gate, sends the value on the single
    output `mix<channel>`, once. */
module Unmixer {
  import opened Signals
  import Mixer

  /** `outputs` is the number of `mix<k>` outputs (the schema bounds it to
      1..64). */
  datatype Config = Config(outputs: nat)

  datatype State = State(mixed: Value, channel: Value)

  datatype Event = MixedIn(v: Value) | ChannelIn(v: Value) | Gate(data: Value)

  /** `Warning(c)` is the out-of-range notice for channel `c`. */
  datatype Output = Mix(k: int, v: Value) | Warning(c: Value)

  /** `fault` is set when the handler pushes to a port that does not exist
      (a channel that `Number` turns into NaN passes the range test). */
  datatype Reaction = Reaction(state: State, out: seq<Output>, fault: bool)

  predicate ValidConfig(cfg: Config)
  {
    1 <= cfg.outputs <= 64
  }

  /** The latches after `process`. */
  function Init(): State
  {
    State(Null, Null)
  }

  predicate Absent(v: Value)
  {
    v == Null || v == Undef
  }

  /** `processUnmix`; the gate payload itself is ignored. */
  function OnGate(cfg: Config, s: State): (r: Reaction)
    ensures Absent(s.mixed) || Absent(s.channel) ==> r == Reaction(s, [], false)
    ensures |r.out| <= 1
    ensures forall o :: o in r.out && o.Mix? ==> 1 <= o.k <= cfg.outputs && o.v == s.mixed
    ensures r.state != s ==> r.state == State(Null, Null) && |r.out| == 1 && r.out[0].Mix?
  {
    if Absent(s.mixed) || Absent(s.channel) then Reaction(s, [], false)
    else
      var c := ToNumber(s.channel);
      match c
      case Num(n) =>
        if n < 1 || n > cfg.outputs then Reaction(s, [Warning(c)], false)
        else Reaction(State(Null, Null), [Mix(n, s.mixed)], false)
      case _ => Reaction(s, [], true)
  }

  function Step(cfg: Config, s: State, ev: Event): (r: Reaction)
    ensures ev.MixedIn? ==> r == Reaction(s.(mixed := ev.v), [], false)
    ensures ev.ChannelIn? ==> r == Reaction(s.(channel := ev.v), [], false)
    ensures ev.Gate? ==> |r.out| <= 1 && forall o :: o in r.out && o.Mix? ==> 1 <= o.k <= cfg.outputs && o.v == s.mixed
    ensures ev.Gate? && (Absent(s.mixed) || Absent(s.channel)) ==> r == Reaction(s, [], false)
  {
    match ev
    case MixedIn(v) => Reaction(s.(mixed := v), [], false)
    case ChannelIn(v) => Reaction(s.(channel := v), [], false)
    case Gate(_) => OnGate(cfg, s)
  }

  // ---------------------------------------------------------------------
  // Properties

  /** A gate with either latch empty sends nothing and changes nothing. */
  lemma GateNeedsBothLatches(cfg: Config, s: State, data: Value)
    requires Absent(s.mixed) || Absent(s.channel)
    ensures Step(cfg, s, Gate(data)) == Reaction(s, [], false)
  {
  }

  /** An in-range channel sends the latched value once, on `mix<c>` only,
      and clears both latches, so an immediate second gate sends nothing. */
  lemma ForwardOnce(cfg: Config, v: Value, c: int, d1: Value, d2: Value)
    requires ValidConfig(cfg) && !Absent(v) && 1 <= c <= cfg.outputs
    ensures var s1 := Step(cfg, Step(cfg, Init(), MixedIn(v)).state, ChannelIn(Num(c))).state;
            var r1 := Step(cfg, s1, Gate(d1));
            var r2 := Step(cfg, r1.state, Gate(d2));
            r1.out == [Mix(c, v)] && r1.state == Init() && r2.out == [] && r2.state == Init()
  {
  }

  /** A channel outside `[1, outputs]` gives a warning, no value, and
      leaves both latches as they were. */
  lemma OutOfRangeKeepsLatches(cfg: Config, s: State, data: Value)
    requires !Absent(s.mixed) && !Absent(s.channel)
    requires ToNumber(s.channel).Num? && !(1 <= ToNumber(s.channel).n <= cfg.outputs)
    ensures Step(cfg, s, Gate(data)) == Reaction(s, [Warning(ToNumber(s.channel))], false)
  {
  }

  /** An Unmixer whose `mixed`, `channel` and `gate` inputs are wired to a
      Mixer's `mixed`, `channel` and `gate` outputs, receiving the Mixer's
      pushes in order; FX pushes do not reach it. */
  function Wire(cfg: Config, s: State, outs: seq<Mixer.Output>): (r: Reaction)
    decreases |outs|
  {
    if |outs| == 0 then Reaction(s, [], false)
    else
      var o := outs[0];
      var first :=
        if o.Mixed? then Step(cfg, s, MixedIn(o.v))
        else if o.Channel? then Step(cfg, s, ChannelIn(o.v))
        else if o.Gate? then Step(cfg, s, Gate(o.v))
        else Reaction(s, [], false);
      var rest := Wire(cfg, first.state, outs[1..]);
      Reaction(rest.state, first.out + rest.out, first.fault || rest.fault)
  }

  /** Inverse of the Mixer's main path: when a Mixer sends input `i`'s
      value to its main outputs, an Unmixer wired behind it sends that value
      on `mix<i>` and clears its latches. A null or undefined value is
      dropped instead, and the latches keep what the Mixer sent. */
  lemma InvertsMixerMainPath(cfg: Config, s: State, mcfg: Mixer.Config, ms: Mixer.State, i: int, v: Value)
    requires ValidConfig(cfg) && 1 <= i <= cfg.outputs
    requires 1 <= i <= mcfg.inputs
    requires Mixer.Slot(i) !in mcfg.routes || mcfg.routes[Mixer.Slot(i)] == Mixer.Name("main")
    ensures var r := Wire(cfg, s, Mixer.Step(mcfg, ms, Mixer.Mix(i, v)).out);
            && !r.fault
            && (!Absent(v) ==> r.out == [Mix(i, v)] && r.state == Init())
            && (Absent(v) ==> r.out == [] && r.state == State(v, Num(i)))
  {
    var sent := Mixer.Step(mcfg, ms, Mixer.Mix(i, v)).out;
    assert sent == [Mixer.Mixed(v), Mixer.Channel(Num(i)), Mixer.Gate(Num(1))] by {
      if Mixer.Slot(i) in mcfg.routes {
        Mixer.StringRoute(mcfg, ms, i, v, "main");
      } else {
        Mixer.UnroutedInputGoesToMain(mcfg, ms, i, v);
      }
    }
    WireTriple(cfg, s, v, Num(i), Num(1));
  }

  /** The three main pushes reach the Unmixer as a value, a channel and a
      gate, in that order. */
  lemma WireTriple(cfg: Config, s: State, v: Value, c: Value, g: Value)
    ensures var last := OnGate(cfg, State(v, c));
            Wire(cfg, s, [Mixer.Mixed(v), Mixer.Channel(c), Mixer.Gate(g)]) == last
  {
    var sent := [Mixer.Mixed(v), Mixer.Channel(c), Mixer.Gate(g)];
    var s1 := s.(mixed := v);
    var s2 := s1.(channel := c);
    assert s2 == State(v, c);
    var last := OnGate(cfg, s2);
    assert Wire(cfg, s2, sent[2..]) == last by {
      assert sent[2..][1..] == [];
    }
    assert Wire(cfg, s1, sent[1..]) == Wire(cfg, s2, sent[2..]) by {
      assert sent[1..][1..] == sent[2..];
    }
  }

  /** A channel sent as decimal text is read as that number. */
  lemma TextChannel(cfg: Config, v: Value, i: nat, data: Value)
    requires ValidConfig(cfg) && !Absent(v) && 1 <= i <= cfg.outputs
    ensures Step(cfg, State(v, Str(NatToString(i))), Gate(data)).out == [Mix(i, v)]
  {
    NumberOfDecimalText(i);
  }
}
