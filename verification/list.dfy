/** List: translates a latched index into the matching entry of the `list`
    dictionary, sending the entry (or `undefined`) and the gate payload. */
module List {
  import opened Signals

  /** `list` is the dictionary option; `gateConnected` is the state of the
      `gate` output, which decides whether an index triggers by itself. */
  datatype Config = Config(list: map<Value, Value>, gateConnected: bool)

  /** The latched index. */
  datatype State = State(index: Value)

  datatype Event = IndexIn(v: Value) | Gate(data: Value)

  datatype Output = ValueOut(v: Value) | GateOut(v: Value)

  datatype Reaction = Reaction(state: State, out: seq<Output>)

  function Init(): State
  {
    State(Num(0))
  }

  /** `_outGate` */
  function Emit(cfg: Config, index: Value, data: Value): (out: seq<Output>)
    ensures |out| == 2 && out[1] == GateOut(data)
    ensures index in cfg.list ==> out[0] == ValueOut(cfg.list[index])
    ensures index !in cfg.list ==> out[0] == ValueOut(Undef)
  {
    [ValueOut(Lookup(cfg.list, index)), GateOut(data)]
  }

  function Step(cfg: Config, s: State, ev: Event): (r: Reaction)
    ensures ev.IndexIn? ==> r.state == State(ev.v)
    ensures ev.Gate? ==> r.state == s
    ensures ev.IndexIn? && cfg.gateConnected ==> r.out == []
  {
    match ev
    case IndexIn(v) => Reaction(State(v), if cfg.gateConnected then [] else Emit(cfg, v, Num(1)))
    case Gate(data) => Reaction(s, Emit(cfg, s.index, data))
  }

  // ---------------------------------------------------------------------
  // Properties

  /** A gate sends the entry for the latched index (or `undefined` when it
      is missing), then the gate payload unchanged. */
  lemma GateLooksUp(cfg: Config, s: State, data: Value)
    ensures Step(cfg, s, Gate(data)).out == [ValueOut(Lookup(cfg.list, s.index)), GateOut(data)]
  {
  }

  /** A lookup never invents an entry: what it sends is an entry of the
      dictionary under the latched index, or `undefined` for a missing key. */
  lemma LookupNeverFabricates(cfg: Config, s: State, data: Value)
    ensures var v := Step(cfg, s, Gate(data)).out[0].v;
            (s.index in cfg.list && v == cfg.list[s.index]) || (s.index !in cfg.list && v == Undef)
  {
  }

  /** With `gate` unconnected an index triggers a lookup with gate 1. */
  lemma IndexSelfTriggers(cfg: Config, s: State, v: Value)
    requires !cfg.gateConnected
    ensures Step(cfg, s, IndexIn(v)) == Reaction(State(v), Step(cfg, State(v), Gate(Num(1))).out)
  {
  }

  /** The index starts at 0. */
  lemma InitialIndex(cfg: Config, data: Value)
    ensures Step(cfg, Init(), Gate(data)).out[0] == ValueOut(Lookup(cfg.list, Num(0)))
  {
  }
}
