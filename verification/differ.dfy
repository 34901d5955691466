/** Differ: remembers the last unit seen per channel and sends the unit,
    channel and gate only when the unit changed. */
module Differ {
  import opened Signals

  /** `gateConnected` is the state of the `gate` output. */
  datatype Config = Config(gateConnected: bool)

  /** `seen` is the `state` object: last unit per channel. */
  datatype State = State(channel: Value, unit: Value, seen: map<Value, Value>)

  datatype Event = UnitIn(v: Value) | ChannelIn(v: Value) | Gate(data: Value)

  datatype Output = UnitOut(v: Value) | ChannelOut(v: Value) | GateOut(v: Value)

  datatype Reaction = Reaction(state: State, out: seq<Output>)

  function Init(): State
  {
    State(Num(1), Num(0), map[])
  }

  /** The value compared against: the stored one, or the current unit when
      the channel has nothing stored (`undefined`). */
  function Baseline(s: State): Value
  {
    if Lookup(s.seen, s.channel) == Undef then s.unit else s.seen[s.channel]
  }

  /** `_outGate` */
  function OnGate(s: State, data: Value): (r: Reaction)
    ensures r.state.channel == s.channel && r.state.unit == s.unit
    ensures r.state.seen == s.seen[s.channel := s.unit]
    ensures r.out != [] <==> !StrictEq(Baseline(s), s.unit)
    ensures r.out != [] ==> r.out == [UnitOut(s.unit), ChannelOut(s.channel), GateOut(data)]
  {
    var seeded := if Lookup(s.seen, s.channel) == Undef then s.seen[s.channel := s.unit] else s.seen;
    if StrictEq(seeded[s.channel], s.unit) then Reaction(s.(seen := seeded), [])
    else Reaction(s.(seen := seeded[s.channel := s.unit]), [UnitOut(s.unit), ChannelOut(s.channel), GateOut(data)])
  }

  function Step(cfg: Config, s: State, ev: Event): (r: Reaction)
    ensures ev.ChannelIn? ==> r == Reaction(s.(channel := ev.v), [])
    ensures ev.UnitIn? && cfg.gateConnected ==> r == Reaction(s.(unit := ev.v), [])
  {
    match ev
    case UnitIn(v) =>
      if !cfg.gateConnected then OnGate(s.(unit := v), Num(1)) else Reaction(s.(unit := v), [])
    case ChannelIn(v) => Reaction(s.(channel := v), [])
    case Gate(data) => OnGate(s, data)
  }

  // ---------------------------------------------------------------------
  // Properties

  /** The first gate on a channel with nothing stored only records the unit
      (a NaN unit is the exception: NaN differs from itself). */
  lemma FirstGateSeeds(cfg: Config, s: State, data: Value)
    requires s.channel !in s.seen && !s.unit.NaN?
    ensures Step(cfg, s, Gate(data)) == Reaction(s.(seen := s.seen[s.channel := s.unit]), [])
  {
  }

  /** On a channel with a stored value, a gate sends iff the unit is not
      strictly equal to it. */
  lemma GateSendsIffChanged(cfg: Config, s: State, data: Value)
    requires s.channel in s.seen && s.seen[s.channel] != Undef
    ensures Step(cfg, s, Gate(data)).out != [] <==> !StrictEq(s.seen[s.channel], s.unit)
  {
  }

  /** After a gate the channel stores the current unit; other channels keep
      what they stored. */
  lemma GateStoresUnit(cfg: Config, s: State, data: Value)
    ensures var t := Step(cfg, s, Gate(data)).state;
            s.channel in t.seen && t.seen[s.channel] == s.unit
            && forall c :: c != s.channel ==> (c in t.seen <==> c in s.seen) && (c in s.seen ==> t.seen[c] == s.seen[c])
  {
  }

  /** A NaN unit is never strictly equal to anything, so every gate with a
      NaN unit sends, the first on a channel included. */
  lemma NaNAlwaysSends(cfg: Config, s: State, data: Value)
    requires s.unit.NaN?
    ensures Step(cfg, s, Gate(data)).out == [UnitOut(NaN), ChannelOut(s.channel), GateOut(data)]
  {
  }

  /** A stored `undefined` reads as "nothing stored": the gate seeds the
      channel again and sends nothing, whatever the unit was before. */
  lemma StoredUndefinedIsReseeded(cfg: Config, s: State, data: Value)
    requires s.channel in s.seen && s.seen[s.channel] == Undef && !s.unit.NaN?
    ensures Step(cfg, s, Gate(data)) == Reaction(s.(seen := s.seen[s.channel := s.unit]), [])
  {
  }

  /** Unit `undefined` then unit 5 on a fresh channel: the unit changed, yet
      neither gate sends, because the stored `undefined` is seeded again. */
  lemma UndefinedThenChangeIsSilent(s: State, d1: Value, d2: Value)
    requires s.channel !in s.seen
    ensures var cfg := Config(true);
            var r1 := Step(cfg, Step(cfg, s, UnitIn(Undef)).state, Gate(d1));
            var r2 := Step(cfg, Step(cfg, r1.state, UnitIn(Num(5))).state, Gate(d2));
            r1.out == [] && r2.out == []
  {
  }

  /** A repeated gate with unchanged unit and channel is a no-op, unless
      the unit is NaN. */
  lemma RepeatGateIsNoOp(cfg: Config, s: State, d1: Value, d2: Value)
    requires !s.unit.NaN?
    ensures var t := Step(cfg, s, Gate(d1)).state;
            Step(cfg, t, Gate(d2)) == Reaction(t, [])
  {
  }

  /** The first two gates on a fresh channel: the first never sends, the
      second sends iff the unit changed in between. */
  lemma SecondObservation(cfg: Config, s: State, u1: Value, u2: Value, d1: Value, d2: Value)
    requires cfg.gateConnected && s.channel !in s.seen && !u1.NaN? && u1 != Undef
    ensures var r1 := Step(cfg, Step(cfg, s, UnitIn(u1)).state, Gate(d1));
            var r2 := Step(cfg, Step(cfg, r1.state, UnitIn(u2)).state, Gate(d2));
            r1.out == [] && (r2.out != [] <==> !StrictEq(u1, u2))
  {
  }

  /** With `gate` unconnected a unit triggers the check with gate 1. */
  lemma UnitSelfTriggers(cfg: Config, s: State, v: Value)
    requires !cfg.gateConnected
    ensures Step(cfg, s, UnitIn(v)) == Step(cfg, s.(unit := v), Gate(Num(1)))
  {
  }
}
