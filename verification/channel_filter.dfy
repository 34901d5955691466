/** ChannelFilter: forwards the latched unit and channel on each gate,
    unless an allow-list or a deny-list rejects the channel. */
module ChannelFilter {
  import opened Signals

  /** The `include` and `except` options. */
  datatype Config = Config(includeList: seq<Value>, exceptList: seq<Value>)

  datatype State = State(unit: Value, channel: Value)

  datatype Event = UnitIn(v: Value) | ChannelIn(v: Value) | Gate(data: Value)

  datatype Output = UnitOut(v: Value) | ChannelOut(v: Value) | GateOut(v: Value)

  datatype Reaction = Reaction(state: State, out: seq<Output>)

  function Init(): State
  {
    State(Num(0), Num(1))
  }

  /** The filter of `_outGate`: block when the allow-list is active and
      lacks the channel, or when the deny-list holds it. `includes` is
      SameValueZero, which on these payloads is plain equality. */
  predicate Admits(cfg: Config, ch: Value)
  {
    var includeActive := |cfg.includeList| > 0;
    var included := ch in cfg.includeList;
    var excluded := |cfg.exceptList| > 0 && ch in cfg.exceptList;
    !((includeActive && !included) || excluded)
  }

  function Step(cfg: Config, s: State, ev: Event): (r: Reaction)
    ensures ev.UnitIn? ==> r == Reaction(s.(unit := ev.v), [])
    ensures ev.ChannelIn? ==> r == Reaction(s.(channel := ev.v), [])
    ensures ev.Gate? ==> r.state == s
    ensures ev.Gate? ==> (r.out != [] <==> Admits(cfg, s.channel))
    ensures ev.Gate? && r.out != [] ==> r.out == [UnitOut(s.unit), ChannelOut(s.channel), GateOut(ev.data)]
  {
    match ev
    case UnitIn(v) => Reaction(s.(unit := v), [])
    case ChannelIn(v) => Reaction(s.(channel := v), [])
    case Gate(data) =>
      if Admits(cfg, s.channel) then Reaction(s, [UnitOut(s.unit), ChannelOut(s.channel), GateOut(data)])
      else Reaction(s, [])
  }

  // ---------------------------------------------------------------------
  // Properties

  /** The filter, stated as membership: a channel passes iff the allow-list
      is empty or holds it, and the deny-list does not hold it. */
  lemma AdmitsCharacterised(cfg: Config, ch: Value)
    ensures Admits(cfg, ch) <==> (cfg.includeList == [] || ch in cfg.includeList) && ch !in cfg.exceptList
  {
  }

  /** A gate forwards exactly when the channel passes, and then sends the
      latched unit, the channel and the gate payload unchanged. */
  lemma GateForwardsIffAdmitted(cfg: Config, s: State, data: Value)
    ensures Step(cfg, s, Gate(data)).out != [] <==> Admits(cfg, s.channel)
    ensures Admits(cfg, s.channel) ==>
      Step(cfg, s, Gate(data)).out == [UnitOut(s.unit), ChannelOut(s.channel), GateOut(data)]
  {
  }

  /** With both lists empty every gate forwards. */
  lemma EmptyListsForwardAll(s: State, data: Value)
    ensures Step(Config([], []), s, Gate(data)).out == [UnitOut(s.unit), ChannelOut(s.channel), GateOut(data)]
  {
  }

  /** A denied channel is blocked even when it is also allowed. */
  lemma ExceptWins(cfg: Config, s: State, data: Value)
    requires s.channel in cfg.exceptList
    ensures Step(cfg, s, Gate(data)).out == []
  {
  }

  /** Unit and channel only latch; before any input the latches are 0 and 1. */
  lemma LatchesOnly(cfg: Config, u: Value, c: Value, data: Value)
    ensures Step(cfg, Init(), UnitIn(u)).out == [] && Step(cfg, Init(), ChannelIn(c)).out == []
    ensures Step(cfg, Step(cfg, Step(cfg, Init(), UnitIn(u)).state, ChannelIn(c)).state, Gate(data)).out
            == (if Admits(cfg, c) then [UnitOut(u), ChannelOut(c), GateOut(data)] else [])
  {
  }
}
