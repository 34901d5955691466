/** Mixer: routes each plain input `mix<i>` to the main outputs and/or to
    FX output groups according to a route table checked at startup, and
    feeds each FX input group (`fx<k>.mix`, `fx<k>.channel`, `fx<k>.gate`)
    back into the main outputs. */
module Mixer {
  import opened Signals

  /** A key of the `routes` object. `Slot(n)` is the key spelled as the
      integer `n`; `NotANumber` is a key that `parseInt` rejects. */
  datatype RouteKey = Slot(n: int) | NotANumber(text: string)

  /** A value of the `routes` object: a string, an array, or anything else. */
  datatype Route = Name(name: string) | Names(items: seq<Value>) | NotRoutable

  datatype Config = Config(inputs: nat, inputsFX: nat, outputsFX: nat, routes: map<RouteKey, Route>)

  /** Latched FX-input values, keyed by FX group number. */
  datatype State = State(units: map<int, Value>, channels: map<int, Value>)

  datatype Event =
    | Mix(i: int, data: Value)
    | FxMixIn(k: int, data: Value)
    | FxChannelIn(k: int, data: Value)
    | FxGateIn(k: int, data: Value)

  datatype Output =
    | Mixed(v: Value) | Channel(v: Value) | Gate(v: Value)
    | FxMix(group: string, v: Value) | FxChannel(group: string, v: Value) | FxGate(group: string, v: Value)

  /** `fault` is set when a handler pushed to an output port that does not
      exist (a TypeError in the running node); nothing after it is sent. */
  datatype Reaction = Reaction(state: State, out: seq<Output>, fault: bool)

  function FxName(k: nat): string
  {
    "fx" + NatToString(k)
  }

  /** Names of the output ports the node declares. */
  function OutputPorts(cfg: Config): set<string>
  {
    {"mixed", "channel", "gate"}
    + (set k: nat | 1 <= k <= cfg.outputsFX :: FxName(k) + ".mix")
    + (set k: nat | 1 <= k <= cfg.outputsFX :: FxName(k) + ".channel")
    + (set k: nat | 1 <= k <= cfg.outputsFX :: FxName(k) + ".gate")
  }

  function Init(): State
  {
    State(map[], map[])
  }

  // ---------------------------------------------------------------------
  // Startup validation (`process`)

  /** `/^fx\d+$/` */
  predicate IsFxName(s: string)
  {
    |s| >= 3 && s[..2] == "fx" && AllDigits(s[2..])
  }

  predicate NameOk(s: string)
  {
    s == "main" || IsFxName(s)
  }

  predicate KeyOk(cfg: Config, key: RouteKey)
  {
    key.Slot? && 1 <= key.n <= cfg.inputs
  }

  predicate RouteValueOk(r: Route)
  {
    match r
    case Name(s) => NameOk(s)
    case Names(items) => forall j :: 0 <= j < |items| ==> items[j].Str? && NameOk(items[j].s)
    case NotRoutable => false
  }

  /** The port-existence check applied to string routes only; it looks up
      `<route>.mixed`, a name no FX output carries. */
  predicate PortCheckOk(cfg: Config, r: Route)
  {
    r.Name? && r.name != "main" ==> r.name + ".mixed" in OutputPorts(cfg)
  }

  datatype Violation = BadKey(key: RouteKey) | BadValue(key: RouteKey) | MissingPort(key: RouteKey, port: string)

  /** Every reason for which startup terminates the node. */
  function Violations(cfg: Config): (vs: set<Violation>)
    ensures forall v :: v in vs ==> v.key in cfg.routes
    ensures forall key :: key in cfg.routes && !KeyOk(cfg, key) ==> BadKey(key) in vs
    ensures forall key :: key in cfg.routes && !RouteValueOk(cfg.routes[key]) ==> BadValue(key) in vs
  {
    (set key | key in cfg.routes && !KeyOk(cfg, key) :: BadKey(key))
    + (set key | key in cfg.routes && !RouteValueOk(cfg.routes[key]) :: BadValue(key))
    + (set key | key in cfg.routes && !PortCheckOk(cfg, cfg.routes[key]) :: MissingPort(key, cfg.routes[key].name + ".mixed"))
  }

  /** Startup succeeds (the node is not terminated) iff there is no violation. */
  predicate StartsUp(cfg: Config)
  {
    Violations(cfg) == {}
  }

  // ---------------------------------------------------------------------
  // Handlers

  /** `_outGate` */
  function MainTriple(channel: Value, data: Value, gate: Value): seq<Output>
  {
    [Mixed(data), Channel(ToNumber(channel)), Gate(gate)]
  }

  /** `_outFX` for an existing group */
  function FxTriple(group: string, i: int, data: Value): seq<Output>
  {
    [FxMix(group, data), FxChannel(group, Num(i)), FxGate(group, Num(1))]
  }

  /** The result of sending input `i`'s payload to the destination `out`:
      "main", an FX group, or a name for which no port exists. */
  function SendTo(cfg: Config, i: int, data: Value, out: Value): (r: Reaction)
    ensures r.state == Init()
    ensures out == Str("main") ==> r.out == MainTriple(Num(i), data, Num(1)) && !r.fault
    ensures out.Str? && out.s != "main" && out.s + ".mix" in OutputPorts(cfg) ==> r.out == FxTriple(out.s, i, data) && !r.fault
    ensures !out.Str? ==> r.fault && r.out == []
  {
    if out == Str("main") then Reaction(Init(), MainTriple(Num(i), data, Num(1)), false)
    else if out.Str? && out.s + ".mix" in OutputPorts(cfg) then Reaction(Init(), FxTriple(out.s, i, data), false)
    else Reaction(Init(), [], true)
  }

  /** The `for (const out of route)` loop of an array route. */
  function FanOut(cfg: Config, i: int, data: Value, outs: seq<Value>): (r: Reaction)
    ensures r.state == Init()
  {
    if |outs| == 0 then Reaction(Init(), [], false)
    else
      var head := SendTo(cfg, i, data, outs[0]);
      if head.fault then head
      else
        var rest := FanOut(cfg, i, data, outs[1..]);
        Reaction(Init(), head.out + rest.out, rest.fault)
  }

  /** The handler of `mix<i>`. */
  function RouteInput(cfg: Config, i: int, data: Value): Reaction
  {
    if Slot(i) !in cfg.routes then Reaction(Init(), MainTriple(Num(i), data, Num(1)), false)
    else
      match cfg.routes[Slot(i)]
      case Name(s) => SendTo(cfg, i, data, Str(s))
      case Names(items) => FanOut(cfg, i, data, items)
      case NotRoutable => Reaction(Init(), [], false)
  }

  /** One event. Events for ports the node does not declare have no handler. */
  function Step(cfg: Config, s: State, ev: Event): (r: Reaction)
    ensures ev.Mix? ==> r.state == s
    ensures ev.FxGateIn? ==> r.state == s && !r.fault
    ensures ev.FxMixIn? || ev.FxChannelIn? ==> r.out == [] && !r.fault && r.state.units.Keys <= s.units.Keys + {ev.k}
    ensures (ev.FxMixIn? || ev.FxChannelIn?) && !(1 <= ev.k <= cfg.inputsFX) ==> r.state == s
    ensures ev.FxMixIn? ==>
              && r.state.channels == s.channels
              && (1 <= ev.k <= cfg.inputsFX ==> Lookup(r.state.units, ev.k) == ev.data)
              && (forall j :: j != ev.k ==> Lookup(r.state.units, j) == Lookup(s.units, j))
    ensures ev.FxChannelIn? ==>
              && r.state.units == s.units
              && (1 <= ev.k <= cfg.inputsFX ==> Lookup(r.state.channels, ev.k) == ev.data)
              && (forall j :: j != ev.k ==> Lookup(r.state.channels, j) == Lookup(s.channels, j))
  {
    match ev
    case Mix(i, data) =>
      if 1 <= i <= cfg.inputs then
        var routed := RouteInput(cfg, i, data);
        Reaction(s, routed.out, routed.fault)
      else Reaction(s, [], false)
    case FxMixIn(k, data) =>
      if 1 <= k <= cfg.inputsFX then Reaction(s.(units := s.units[k := data]), [], false)
      else Reaction(s, [], false)
    case FxChannelIn(k, data) =>
      if 1 <= k <= cfg.inputsFX then Reaction(s.(channels := s.channels[k := data]), [], false)
      else Reaction(s, [], false)
    case FxGateIn(k, data) =>
      if 1 <= k <= cfg.inputsFX then Reaction(s, MainTriple(Lookup(s.channels, k), Lookup(s.units, k), GateOr1(data)), false)
      else Reaction(s, [], false)
  }

  // ---------------------------------------------------------------------
  // Properties

  /** An input with no route entry sends exactly one main triple. */
  lemma UnroutedInputGoesToMain(cfg: Config, s: State, i: int, data: Value)
    requires 1 <= i <= cfg.inputs && Slot(i) !in cfg.routes
    ensures Step(cfg, s, Mix(i, data)) == Reaction(s, [Mixed(data), Channel(Num(i)), Gate(Num(1))], false)
  {
  }

  /** A string route "main" sends the main triple; any other string sends
      one triple on that FX group, or faults when the group does not exist. */
  lemma StringRoute(cfg: Config, s: State, i: int, data: Value, name: string)
    requires 1 <= i <= cfg.inputs && Slot(i) in cfg.routes && cfg.routes[Slot(i)] == Name(name)
    ensures name == "main" ==> Step(cfg, s, Mix(i, data)).out == [Mixed(data), Channel(Num(i)), Gate(Num(1))]
    ensures name != "main" && name + ".mix" in OutputPorts(cfg) ==>
      Step(cfg, s, Mix(i, data)).out == [FxMix(name, data), FxChannel(name, Num(i)), FxGate(name, Num(1))]
    ensures name != "main" && name + ".mix" !in OutputPorts(cfg) ==>
      Step(cfg, s, Mix(i, data)).out == [] && Step(cfg, s, Mix(i, data)).fault
  {
  }

  /** A route that is neither a string nor an array sends nothing. */
  lemma UnroutableSendsNothing(cfg: Config, s: State, i: int, data: Value)
    requires 1 <= i <= cfg.inputs && Slot(i) in cfg.routes && cfg.routes[Slot(i)] == NotRoutable
    ensures Step(cfg, s, Mix(i, data)) == Reaction(s, [], false)
  {
  }

  /** A destination that names "main" or an existing FX group. */
  predicate Reachable(cfg: Config, out: Value)
  {
    out.Str? && (out.s == "main" || out.s + ".mix" in OutputPorts(cfg))
  }

  /** The three outputs one destination receives. */
  function TripleFor(i: int, data: Value, out: Value): seq<Output>
  {
    if out == Str("main") then MainTriple(Num(i), data, Num(1))
    else if out.Str? then FxTriple(out.s, i, data)
    else []
  }

  /** An array route whose destinations all exist sends one triple per
      destination, in list order. */
  lemma {:induction false} FanOutInOrder(cfg: Config, i: int, data: Value, outs: seq<Value>)
    requires forall j :: 0 <= j < |outs| ==> Reachable(cfg, outs[j])
    ensures !FanOut(cfg, i, data, outs).fault
    ensures |FanOut(cfg, i, data, outs).out| == 3 * |outs|
    ensures forall j :: 0 <= j < |outs| ==> FanOut(cfg, i, data, outs).out[3 * j .. 3 * j + 3] == TripleFor(i, data, outs[j])
  {
    if |outs| > 0 {
      FanOutInOrder(cfg, i, data, outs[1..]);
      var head := SendTo(cfg, i, data, outs[0]);
      var rest := FanOut(cfg, i, data, outs[1..]);
      assert head.out == TripleFor(i, data, outs[0]) && !head.fault;
      var r := head.out + rest.out;
      assert FanOut(cfg, i, data, outs).out == r;
      forall j | 0 <= j < |outs|
        ensures r[3 * j .. 3 * j + 3] == TripleFor(i, data, outs[j])
      {
        if j > 0 {
          assert outs[1..][j - 1] == outs[j];
          SliceAfterHead(head.out, rest.out, j);
        }
      }
    }
  }

  /** Blocks of three after a three-element head are the tail's blocks. */
  lemma SliceAfterHead(a: seq<Output>, b: seq<Output>, j: int)
    requires |a| == 3 && 1 <= j && 3 * j + 3 <= |a| + |b|
    ensures (a + b)[3 * j .. 3 * j + 3] == b[3 * (j - 1) .. 3 * (j - 1) + 3]
  {
  }

  /** A destination that does not exist stops the fan-out there: the
      outputs already sent are those of the destinations before it. */
  lemma {:induction false} FanOutStopsAtMissingGroup(cfg: Config, i: int, data: Value, outs: seq<Value>, m: nat)
    requires m < |outs| && !Reachable(cfg, outs[m])
    requires forall j :: 0 <= j < m ==> Reachable(cfg, outs[j])
    ensures FanOut(cfg, i, data, outs).fault
    ensures FanOut(cfg, i, data, outs).out == FanOut(cfg, i, data, outs[..m]).out
  {
    if m > 0 {
      FanOutStopsAtMissingGroup(cfg, i, data, outs[1..], m - 1);
      assert outs[1..][..m - 1] == outs[..m][1..];
    }
  }

  /** `fx<k>.mix` and `fx<k>.channel` only latch; `fx<k>.gate` sends the
      latched pair on the main outputs, with an undefined gate read as 1. */
  lemma FxLoopReturn(cfg: Config, s: State, k: int, u: Value, c: Value, g: Value)
    requires 1 <= k <= cfg.inputsFX
    ensures var s1 := Step(cfg, s, FxMixIn(k, u)).state;
            var s2 := Step(cfg, s1, FxChannelIn(k, c)).state;
            Step(cfg, s2, FxGateIn(k, g)).out == [Mixed(u), Channel(ToNumber(c)), Gate(if g == Undef then Num(1) else g)]
  {
  }

  /** A gate on an FX group that received nothing sends `undefined` on
      `mixed` and NaN on `channel`. */
  lemma FxGateBeforeLatch(cfg: Config, k: int, g: Value)
    requires 1 <= k <= cfg.inputsFX
    ensures Step(cfg, Init(), FxGateIn(k, g)).out == [Mixed(Undef), Channel(NaN), Gate(GateOr1(g))]
  {
  }

  // --- startup validation

  /** `<anything>.mixed` is never a declared output port name. */
  lemma MixedSuffixNeverDeclared(cfg: Config, route: string)
    ensures route + ".mixed" !in OutputPorts(cfg)
  {
    var p := route + ".mixed";
    assert p[|p| - 1] == 'd';
    forall k: nat | 1 <= k <= cfg.outputsFX
      ensures p != FxName(k) + ".mix" && p != FxName(k) + ".channel" && p != FxName(k) + ".gate"
    {
      var a, b, c := FxName(k) + ".mix", FxName(k) + ".channel", FxName(k) + ".gate";
      assert a[|a| - 1] == 'x' && b[|b| - 1] == 'l' && c[|c| - 1] == 'e';
    }
  }

  /** Every string route other than "main" terminates the node at startup,
      whatever the number of FX outputs, because the check looks up
      `<route>.mixed` while FX outputs are named `fx<k>.mix`. */
  lemma StringFxRouteAlwaysRejected(cfg: Config, key: RouteKey, name: string)
    requires key in cfg.routes && cfg.routes[key] == Name(name) && name != "main"
    ensures MissingPort(key, name + ".mixed") in Violations(cfg)
    ensures !StartsUp(cfg)
  {
    MixedSuffixNeverDeclared(cfg, name);
  }

  /** What a route table that passes startup looks like: keys are input
      slots, and every value is "main" or an array of "main"/`fx<d>` names. */
  lemma AcceptedTableShape(cfg: Config)
    requires StartsUp(cfg)
    ensures forall key :: key in cfg.routes ==> key.Slot? && 1 <= key.n <= cfg.inputs
    ensures forall key :: key in cfg.routes ==> cfg.routes[key] == Name("main") || cfg.routes[key].Names?
    ensures forall key :: key in cfg.routes && cfg.routes[key].Names? ==> RouteValueOk(cfg.routes[key])
  {
    forall key | key in cfg.routes
      ensures cfg.routes[key] == Name("main") || cfg.routes[key].Names?
    {
      assert BadValue(key) !in Violations(cfg);
      if cfg.routes[key].Name? && cfg.routes[key].name != "main" {
        StringFxRouteAlwaysRejected(cfg, key, cfg.routes[key].name);
      }
    }
    forall key | key in cfg.routes
      ensures key.Slot? && 1 <= key.n <= cfg.inputs
    {
      assert BadKey(key) !in Violations(cfg);
    }
  }

  /** A table of in-range keys whose values are "main" or arrays of valid
      names passes startup: arrays are exempt from the port check. */
  lemma AcceptedTablesAreExactlyThese(cfg: Config)
    requires forall key :: key in cfg.routes ==> KeyOk(cfg, key)
    requires forall key :: key in cfg.routes ==> cfg.routes[key] == Name("main") || (cfg.routes[key].Names? && RouteValueOk(cfg.routes[key]))
    ensures StartsUp(cfg)
  {
  }

  /** `fx0` matches `^fx\d+$`, and `fx99` with three FX outputs passes
      startup inside an array, then faults when input 1 is routed. */
  lemma ArrayRouteToMissingGroup(data: Value)
    ensures IsFxName("fx0")
    ensures var cfg := Config(1, 0, 3, map[Slot(1) := Names([Str("fx99")])]);
            StartsUp(cfg) && Step(cfg, Init(), Mix(1, data)).fault && Step(cfg, Init(), Mix(1, data)).out == []
  {
    assert "fx0"[2..] == "0";
    var cfg := Config(1, 0, 3, map[Slot(1) := Names([Str("fx99")])]);
    assert "fx99"[..2] == "fx" && "fx99"[2..] == "99";
    AcceptedTablesAreExactlyThese(cfg);
    var p := "fx99" + ".mix";
    forall k: nat | 1 <= k <= 3
      ensures p != FxName(k) + ".mix" && p != FxName(k) + ".channel" && p != FxName(k) + ".gate"
    {
      var a, b, c := FxName(k) + ".mix", FxName(k) + ".channel", FxName(k) + ".gate";
      assert NatToString(k) == [DigitChar(k)];
      assert |a| == 7 && |p| == 8;
      assert p[|p| - 1] == 'x' && b[|b| - 1] == 'l' && c[|c| - 1] == 'e';
    }
  }

  /** `fx99` as a string route fails startup. */
  lemma StringRouteToMissingGroupRejected()
    ensures !StartsUp(Config(1, 0, 3, map[Slot(1) := Name("fx99")]))
  {
    StringFxRouteAlwaysRejected(Config(1, 0, 3, map[Slot(1) := Name("fx99")]), Slot(1), "fx99");
  }
}
