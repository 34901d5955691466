/** Uniselector: a cursor over the outputs `gate1 .. gate<outputs>`. Each
    gate moves the cursor one slot and pulses the slot it lands on; at the
    end of a cycle the cursor wraps, stops, or turns back. */
module Uniselector {
  import opened Signals

  /** The `doOnEnd` option (its schema admits exactly these three). */
  datatype EndPolicy = Reset | Nothing | Reverse

  /** `connected` holds the numbers of the `gate<k>` outputs that are wired. */
  datatype Config = Config(doOnEnd: EndPolicy, outputs: nat, start: bool, resetSignal: bool, connected: set<int>)

  /** `index` is the active slot, `action` the running flag, `reverse` the direction. */
  datatype State = State(index: int, action: bool, reverse: bool)

  datatype Event = Gate(data: Value) | Start | Stop | ResetIn

  datatype Output = Pulse(slot: int, v: Value)

  datatype Reaction = Reaction(state: State, out: seq<Output>)

  /** The initial shares after `process`. */
  function Init(cfg: Config): (s: State)
    ensures s.index == 1 && !s.reverse && s.action == cfg.start
  {
    State(1, cfg.start, false)
  }

  /** The cursor invariant: the index is a slot whenever there are slots. */
  predicate Inv(cfg: Config, s: State)
  {
    1 <= s.index && (cfg.outputs >= 1 ==> s.index <= cfg.outputs)
  }

  /** `_incrementIndex` */
  function Advance(cfg: Config, s: State): (t: State)
    requires Inv(cfg, s) && cfg.outputs >= 1
    ensures Inv(cfg, t)
    ensures !s.reverse && s.index < cfg.outputs ==> t == s.(index := s.index + 1)
    ensures s.reverse && s.index > 1 ==> t == s.(index := s.index - 1)
    ensures t.action != s.action ==> !s.reverse && s.index == cfg.outputs && cfg.doOnEnd == Nothing && !t.action
  {
    if s.reverse then
      if s.index == 1 then
        var t := s.(reverse := false, index := 2);
        if t.index > cfg.outputs && cfg.outputs > 0 then t.(index := 1) else t
      else s.(index := s.index - 1)
    else
      if s.index == cfg.outputs then
        match cfg.doOnEnd
        case Reset => s.(index := 1)
        case Nothing => s.(action := false)
        case Reverse => if cfg.outputs > 1 then s.(reverse := true, index := s.index - 1) else s.(reverse := true)
      else s.(index := s.index + 1)
  }

  /** `_outGate(data = 1)`: a pulse on the active slot if that output exists
      and is connected; an undefined payload takes the default 1. */
  function Emit(cfg: Config, index: int, data: Value): (out: seq<Output>)
    ensures |out| <= 1
    ensures out != [] <==> 1 <= index <= cfg.outputs && index in cfg.connected
    ensures forall o :: o in out ==> o.slot == index && o.v != Undef
  {
    if 1 <= index <= cfg.outputs && index in cfg.connected then [Pulse(index, GateOr1(data))] else []
  }

  function Step(cfg: Config, s: State, ev: Event): (r: Reaction)
    requires Inv(cfg, s)
    ensures Inv(cfg, r.state)
    ensures ev.Start? || ev.Stop? ==> r.out == [] && r.state == s.(action := ev.Start?)
    ensures ev.ResetIn? ==> r.state == s.(index := 1, reverse := false)
    ensures ev.Gate? && !(s.action && cfg.outputs > 0) ==> r == Reaction(s, [])
    ensures forall o :: o in r.out ==> o.slot == r.state.index
  {
    match ev
    case Gate(data) =>
      if s.action && cfg.outputs > 0 then
        var t := Advance(cfg, s);
        Reaction(t, Emit(cfg, t.index, data))
      else Reaction(s, [])
    case Start => Reaction(s.(action := true), [])
    case Stop => Reaction(s.(action := false), [])
    case ResetIn =>
      var t := s.(index := 1, reverse := false);
      if cfg.resetSignal && cfg.outputs > 0 then Reaction(t, Emit(cfg, 1, Num(1))) else Reaction(t, [])
  }

  /** A run of events; the outputs of each step, in order. */
  function Run(cfg: Config, s: State, evs: seq<Event>): (r: Reaction)
    requires Inv(cfg, s)
    ensures Inv(cfg, r.state)
    decreases |evs|
  {
    if |evs| == 0 then Reaction(s, [])
    else
      var first := Step(cfg, s, evs[0]);
      var rest := Run(cfg, first.state, evs[1..]);
      Reaction(rest.state, first.out + rest.out)
  }

  // ---------------------------------------------------------------------
  // Properties

  /** With at least one output the index stays in `[1, outputs]` after any
      sequence of events from startup. */
  lemma IndexInRange(cfg: Config, evs: seq<Event>)
    requires cfg.outputs >= 1
    ensures 1 <= Run(cfg, Init(cfg), evs).state.index <= cfg.outputs
  {
  }

  /** Moving forward below the last slot, a gate steps the index by one and
      pulses that slot. */
  lemma ForwardGate(cfg: Config, s: State, data: Value)
    requires Inv(cfg, s) && s.action && !s.reverse && s.index < cfg.outputs
    ensures Step(cfg, s, Gate(data)).state == s.(index := s.index + 1)
    ensures s.index + 1 in cfg.connected ==> Step(cfg, s, Gate(data)).out == [Pulse(s.index + 1, GateOr1(data))]
    ensures s.index + 1 !in cfg.connected ==> Step(cfg, s, Gate(data)).out == []
  {
  }

  /** `reset` policy: a gate at the last slot wraps to slot 1. */
  lemma ResetPolicyWraps(cfg: Config, s: State, data: Value)
    requires Inv(cfg, s) && cfg.doOnEnd == Reset && s.action && !s.reverse && s.index == cfg.outputs
    ensures Step(cfg, s, Gate(data)).state == s.(index := 1)
  {
  }

  /** `nothing` policy: a gate at the last slot stops the selector, keeps
      the index, and still pulses that same slot. */
  lemma NothingPolicyStops(cfg: Config, s: State, data: Value)
    requires Inv(cfg, s) && cfg.doOnEnd == Nothing && s.action && !s.reverse && s.index == cfg.outputs
    requires cfg.outputs in cfg.connected
    ensures Step(cfg, s, Gate(data)).state == s.(action := false)
    ensures Step(cfg, s, Gate(data)).out == [Pulse(cfg.outputs, GateOr1(data))]
  {
  }

  /** Start and stop are idempotent and touch only the running flag. */
  lemma StartStopIdempotent(cfg: Config, s: State, ev: Event)
    requires Inv(cfg, s) && (ev.Start? || ev.Stop?)
    ensures Run(cfg, s, [ev, ev]) == Run(cfg, s, [ev])
    ensures Run(cfg, s, [ev]).state.index == s.index && Run(cfg, s, [ev]).state.reverse == s.reverse
  {
    assert [ev, ev][1..] == [ev];
  }

  /** `reset` sets slot 1 and the forward direction, and pulses `gate1`
      exactly when `resetSignal` is on and there are outputs (and `gate1` is
      connected), whether or not the selector is running. */
  lemma ResetEvent(cfg: Config, s: State)
    requires Inv(cfg, s)
    ensures var r := Step(cfg, s, ResetIn);
            r.state.index == 1 && !r.state.reverse && r.state.action == s.action
            && (r.out == [Pulse(1, Num(1))] <==> cfg.resetSignal && cfg.outputs > 0 && 1 in cfg.connected)
            && (r.out != [Pulse(1, Num(1))] ==> r.out == [])
  {
  }

  /** Under the `reverse` policy with two or more outputs, every gate moves
      the cursor, so no slot is pulsed twice in a row. */
  lemma ReverseAlwaysMoves(cfg: Config, s: State, data: Value)
    requires Inv(cfg, s) && cfg.doOnEnd == Reverse && cfg.outputs >= 2 && s.action
    ensures Step(cfg, s, Gate(data)).state.index != s.index
    ensures Step(cfg, s, Gate(data)).state.action
  {
  }

  function Gates(n: nat): (evs: seq<Event>)
    ensures |evs| == n
    ensures forall j :: 0 <= j < n ==> evs[j] == Gate(Num(1))
  {
    if n == 0 then [] else [Gate(Num(1))] + Gates(n - 1)
  }

  /** A run of n > 0 gates is one gate followed by a run of n - 1. */
  lemma RunGates(cfg: Config, s: State, n: nat)
    requires Inv(cfg, s) && n > 0
    ensures var first := Step(cfg, s, Gate(Num(1)));
            var rest := Run(cfg, first.state, Gates(n - 1));
            Run(cfg, s, Gates(n)) == Reaction(rest.state, first.out + rest.out)
  {
    assert Gates(n)[1..] == Gates(n - 1);
  }

  /** With three connected outputs and the `reverse` policy, gates from slot
      1 moving forward pulse 2, 3, 2, 1, 2, 3 and end back at slot 3. */
  lemma ReverseTrace(cfg: Config)
    requires cfg.doOnEnd == Reverse && cfg.outputs == 3 && cfg.connected == {1, 2, 3}
    ensures var r := Run(cfg, State(1, true, false), Gates(6));
            r.out == [Pulse(2, Num(1)), Pulse(3, Num(1)), Pulse(2, Num(1)), Pulse(1, Num(1)), Pulse(2, Num(1)), Pulse(3, Num(1))]
            && r.state == State(3, true, false)
  {
    var s0 := State(1, true, false);
    var s1, s2, s3 := State(2, true, false), State(3, true, false), State(2, true, true);
    var s4, s5, s6 := State(1, true, true), State(2, true, false), State(3, true, false);
    RunGates(cfg, s0, 6);
    RunGates(cfg, s1, 5);
    RunGates(cfg, s2, 4);
    RunGates(cfg, s3, 3);
    RunGates(cfg, s4, 2);
    RunGates(cfg, s5, 1);
    var o := [Pulse(2, Num(1))] + ([Pulse(3, Num(1))] + ([Pulse(2, Num(1))] + ([Pulse(1, Num(1))] + ([Pulse(2, Num(1))] + ([Pulse(3, Num(1))] + [])))));
    assert Run(cfg, s0, Gates(6)).out == o;
    assert o == [Pulse(2, Num(1)), Pulse(3, Num(1)), Pulse(2, Num(1)), Pulse(1, Num(1)), Pulse(2, Num(1)), Pulse(3, Num(1))];
  }

  /** Runs of gates compose. */
  lemma {:induction false} RunGatesSplit(cfg: Config, s: State, a: nat, b: nat)
    requires Inv(cfg, s)
    ensures Run(cfg, s, Gates(a + b)).state == Run(cfg, Run(cfg, s, Gates(a)).state, Gates(b)).state
    decreases a
  {
    if a > 0 {
      RunGates(cfg, s, a + b);
      RunGates(cfg, s, a);
      RunGatesSplit(cfg, Step(cfg, s, Gate(Num(1))).state, a - 1, b);
    }
  }

  /** Running forward, k gates that do not reach past the last slot move
      the cursor k slots. */
  lemma {:induction false} ForwardRun(cfg: Config, s: State, k: nat)
    requires Inv(cfg, s) && s.action && !s.reverse && s.index + k <= cfg.outputs
    ensures Run(cfg, s, Gates(k)).state == s.(index := s.index + k)
    decreases k
  {
    if k > 0 {
      RunGates(cfg, s, k);
      ForwardRun(cfg, s.(index := s.index + 1), k - 1);
    }
  }

  /** Under the `reset` policy the cursor is periodic: `outputs` gates while
      running forward bring it back to the slot it started from. */
  lemma ResetPolicyPeriod(cfg: Config, s: State)
    requires cfg.doOnEnd == Reset && cfg.outputs >= 1 && Inv(cfg, s) && s.action && !s.reverse
    ensures Run(cfg, s, Gates(cfg.outputs)).state == s
  {
    var m := cfg.outputs;
    var toEnd := m - s.index;
    ForwardRun(cfg, s, toEnd);
    var atEnd := s.(index := m);
    RunGatesSplit(cfg, s, toEnd, 1 + (s.index - 1));
    RunGatesSplit(cfg, atEnd, 1, s.index - 1);
    RunGates(cfg, atEnd, 1);
    var first := s.(index := 1);
    ForwardRun(cfg, first, s.index - 1);
  }
}
