/** Delay: a bank of independent timer slots, one per `gate<p>` input/output
    pair. A relative slot paces its gate through a timer that restarts after
    each emission; an absolute slot starts a timer on the first gate and
    emits the latest gate payload when it fires.

    The host timer is modelled by two fields per slot: `handle` is the
    truthiness of `timers[port]` (what `inputGate` tests), and `pending` is
    the number of timer callbacks still to run, delivered by `Fire` events.
    They differ because the fire callback stores `false` over the handle
    that `outGate` has just created. */
module Delay {
  import opened Signals

  /** One entry of the `timers` option; `timeout` is the delay in ms. */
  datatype TimerSpec = TimerSpec(timeout: nat, relative: bool)

  /** `connected` holds the ports `p` whose output `gate<p>` is connected. */
  datatype Config = Config(timers: seq<TimerSpec>, connected: set<int>)

  /** `timeout` and `gate` are the flags of `shares.timers[port]`,
      `payload` is `gates[port]`. */
  datatype Slot = Slot(timeout: bool, gate: bool, payload: Value, handle: bool, pending: nat)

  datatype State = State(slots: seq<Slot>)

  /** `GateIn(p, d)` is data on input `gate<p>`; `Fire(p)` runs the oldest
      pending timer callback of slot `p`. */
  datatype Event = GateIn(port: int, data: Value) | Fire(port: int)

  datatype Output = GateOut(port: int, v: Value)

  datatype SlotReaction = SlotReaction(slot: Slot, out: seq<Output>)

  datatype Reaction = Reaction(state: State, out: seq<Output>)

  predicate IsPort(cfg: Config, p: int)
  {
    1 <= p <= |cfg.timers|
  }

  // ---------------------------------------------------------------------
  // One slot

  /** The slot as `preProcess` leaves it: both flags down, no payload, no timer. */
  const Idle := Slot(false, false, Null, false, 0)

  /** `startTimer`: store a handle and schedule one callback. */
  function StartTimer(sl: Slot): (r: Slot)
    ensures r.handle && r.pending == sl.pending + 1
    ensures r.timeout == sl.timeout && r.gate == sl.gate && r.payload == sl.payload
  {
    sl.(handle := true, pending := sl.pending + 1)
  }

  /** `outGate`: clear both flags, send the payload if the output is
      connected, and restart the timer of a relative slot. */
  function OutGate(spec: TimerSpec, connected: bool, port: int, sl: Slot): (r: SlotReaction)
    ensures !r.slot.timeout && !r.slot.gate && r.slot.payload == sl.payload
    ensures r.out == (if connected then [GateOut(port, sl.payload)] else [])
    ensures spec.relative ==> r.slot.handle && r.slot.pending == sl.pending + 1
    ensures !spec.relative ==> r.slot.handle == sl.handle && r.slot.pending == sl.pending
  {
    var cleared := sl.(timeout := false, gate := false);
    var out := if connected then [GateOut(port, sl.payload)] else [];
    SlotReaction(if spec.relative then StartTimer(cleared) else cleared, out)
  }

  /** `inputGate` on one slot. */
  function OnGate(spec: TimerSpec, connected: bool, port: int, sl: Slot, data: Value): (r: SlotReaction)
    ensures r.slot.payload == data
    ensures sl.handle ==> r == SlotReaction(sl.(gate := true, payload := data), [])
    ensures !spec.relative && !sl.handle ==> r == SlotReaction(StartTimer(sl.(gate := true, payload := data)), [])
    ensures r.out != [] ==> spec.relative && !sl.handle && sl.timeout && r.out == [GateOut(port, data)]
  {
    var latched := sl.(gate := true, payload := data);
    if sl.handle then SlotReaction(latched, [])
    else if spec.relative then
      (if latched.timeout then OutGate(spec, connected, port, latched) else SlotReaction(latched, []))
    else SlotReaction(StartTimer(latched), [])
  }

  /** The timer callback of `startTimer` on one slot. The handle is
      overwritten with `false` at the end, after any restart. */
  function OnFire(spec: TimerSpec, connected: bool, port: int, sl: Slot): (r: SlotReaction)
    requires sl.pending > 0
    ensures !r.slot.handle && r.slot.payload == sl.payload
    ensures !spec.relative ==> r == SlotReaction(Slot(false, false, sl.payload, false, sl.pending - 1),
                                                if connected then [GateOut(port, sl.payload)] else [])
    ensures spec.relative && !sl.gate ==> r == SlotReaction(sl.(timeout := true, handle := false, pending := sl.pending - 1), [])
    ensures spec.relative && sl.gate ==> r == SlotReaction(Slot(false, false, sl.payload, false, sl.pending),
                                                          if connected then [GateOut(port, sl.payload)] else [])
  {
    var fired := sl.(timeout := true, pending := sl.pending - 1);
    var sr := if !spec.relative || fired.gate then OutGate(spec, connected, port, fired) else SlotReaction(fired, []);
    SlotReaction(sr.slot.(handle := false), sr.out)
  }

  /** What a slot looks like between events. */
  predicate SlotInv(spec: TimerSpec, sl: Slot)
  {
    if spec.relative then
      sl.pending == (if sl.timeout then 0 else 1) && (sl.handle ==> sl.pending == 1)
    else
      !sl.timeout && sl.gate == sl.handle && sl.handle == (sl.pending == 1) && sl.pending <= 1
  }

  // ---------------------------------------------------------------------
  // The device

  /** `preProcess` followed by `process`: every slot idle, then a timer for
      each relative slot. */
  function Init(cfg: Config): (s: State)
    ensures |s.slots| == |cfg.timers|
    ensures forall i :: 0 <= i < |s.slots| ==>
      s.slots[i].handle == cfg.timers[i].relative && s.slots[i].pending == (if cfg.timers[i].relative then 1 else 0)
  {
    State(seq(|cfg.timers|, i requires 0 <= i < |cfg.timers| => if cfg.timers[i].relative then StartTimer(Idle) else Idle))
  }

  predicate Inv(cfg: Config, s: State)
  {
    |s.slots| == |cfg.timers| && forall i :: 0 <= i < |s.slots| ==> SlotInv(cfg.timers[i], s.slots[i])
  }

  /** A fire for a slot with no callback pending does not happen; it is
      treated as a no-op, as is a gate on a port that the device does not
      declare. */
  function Step(cfg: Config, s: State, ev: Event): (r: Reaction)
    requires |s.slots| == |cfg.timers|
    ensures |r.state.slots| == |s.slots|
    ensures forall i :: 0 <= i < |s.slots| && i != ev.port - 1 ==> r.state.slots[i] == s.slots[i]
    ensures forall o :: o in r.out ==> o.port == ev.port && o.port in cfg.connected
    ensures !IsPort(cfg, ev.port) ==> r == Reaction(s, [])
  {
    if !IsPort(cfg, ev.port) then Reaction(s, [])
    else
      var i := ev.port - 1;
      var spec := cfg.timers[i];
      var connected := ev.port in cfg.connected;
      match ev
      case GateIn(p, data) =>
        var sr := OnGate(spec, connected, p, s.slots[i], data);
        Reaction(State(s.slots[i := sr.slot]), sr.out)
      case Fire(p) =>
        if s.slots[i].pending == 0 then Reaction(s, [])
        else
          var sr := OnFire(spec, connected, p, s.slots[i]);
          Reaction(State(s.slots[i := sr.slot]), sr.out)
  }

  /** Events applied in order; the outputs concatenated. */
  function Run(cfg: Config, s: State, evs: seq<Event>): (r: Reaction)
    requires |s.slots| == |cfg.timers|
    ensures |r.state.slots| == |s.slots|
    decreases |evs|
  {
    if evs == [] then Reaction(s, [])
    else
      var first := Step(cfg, s, evs[0]);
      var rest := Run(cfg, first.state, evs[1..]);
      Reaction(rest.state, first.out + rest.out)
  }

  // ---------------------------------------------------------------------
  // Properties

  lemma InitEstablishesInv(cfg: Config)
    ensures Inv(cfg, Init(cfg))
  {
  }

  lemma SlotStepPreservesInv(spec: TimerSpec, connected: bool, port: int, sl: Slot, ev: Event)
    requires SlotInv(spec, sl)
    ensures ev.GateIn? ==> SlotInv(spec, OnGate(spec, connected, port, sl, ev.data).slot)
    ensures ev.Fire? && sl.pending > 0 ==> SlotInv(spec, OnFire(spec, connected, port, sl).slot)
  {
  }

  lemma StepPreservesInv(cfg: Config, s: State, ev: Event)
    requires Inv(cfg, s)
    ensures Inv(cfg, Step(cfg, s, ev).state)
  {
    if IsPort(cfg, ev.port) {
      var i := ev.port - 1;
      SlotStepPreservesInv(cfg.timers[i], ev.port in cfg.connected, ev.port, s.slots[i], ev);
    }
  }

  /** At most one timer callback per slot is ever outstanding. */
  lemma AtMostOnePending(cfg: Config, s: State, i: int)
    requires Inv(cfg, s) && 0 <= i < |s.slots|
    ensures s.slots[i].pending <= 1
  {
  }

  /** Every reachable state keeps the invariant. */
  lemma {:induction false} RunPreservesInv(cfg: Config, s: State, evs: seq<Event>)
    requires Inv(cfg, s)
    ensures Inv(cfg, Run(cfg, s, evs).state)
    decreases |evs|
  {
    if evs != [] {
      StepPreservesInv(cfg, s, evs[0]);
      RunPreservesInv(cfg, Step(cfg, s, evs[0]).state, evs[1..]);
    }
  }

  /** At startup only relative slots have a timer; no flag is up. */
  lemma StartupArmsRelativeOnly(cfg: Config, i: int)
    requires 0 <= i < |cfg.timers|
    ensures var sl := Init(cfg).slots[i];
            !sl.timeout && !sl.gate && sl.payload == Null && (sl.pending > 0 <==> cfg.timers[i].relative)
  {
  }

  /** Absolute slot: a gate on an idle slot starts exactly one timer and
      sends nothing; later gates before the fire only replace the payload. */
  lemma AbsoluteGateArmsOnce(cfg: Config, s: State, p: int, d1: Value, d2: Value)
    requires Inv(cfg, s) && IsPort(cfg, p) && !cfg.timers[p - 1].relative && !s.slots[p - 1].handle
    ensures var r1 := Step(cfg, s, GateIn(p, d1));
            var r2 := Step(cfg, r1.state, GateIn(p, d2));
            r1.out == [] && r1.state.slots[p - 1] == Slot(false, true, d1, true, 1)
            && r2.out == [] && r2.state.slots[p - 1] == Slot(false, true, d2, true, 1)
  {
  }

  /** Absolute slot: a fire sends the latest payload once (when connected),
      clears both flags and leaves the slot with no timer. */
  lemma AbsoluteFire(cfg: Config, s: State, p: int)
    requires Inv(cfg, s) && IsPort(cfg, p) && !cfg.timers[p - 1].relative && s.slots[p - 1].pending > 0
    ensures var r := Step(cfg, s, Fire(p));
            r.state.slots[p - 1] == Slot(false, false, s.slots[p - 1].payload, false, 0)
            && r.out == (if p in cfg.connected then [GateOut(p, s.slots[p - 1].payload)] else [])
  {
  }

  /** Relative slot, fire with the gate flag up: the payload is sent and a
      new timer scheduled, yet the stored handle reads `false`. */
  lemma RelativeFireWithGate(cfg: Config, s: State, p: int)
    requires Inv(cfg, s) && IsPort(cfg, p) && cfg.timers[p - 1].relative
    requires s.slots[p - 1].pending > 0 && s.slots[p - 1].gate
    ensures var r := Step(cfg, s, Fire(p));
            r.state.slots[p - 1] == Slot(false, false, s.slots[p - 1].payload, false, 1)
            && r.out == (if p in cfg.connected then [GateOut(p, s.slots[p - 1].payload)] else [])
  {
  }

  /** Relative slot, fire without a gate: only `timeout` goes up; no timer
      is left scheduled. */
  lemma RelativeFireWithoutGate(cfg: Config, s: State, p: int)
    requires Inv(cfg, s) && IsPort(cfg, p) && cfg.timers[p - 1].relative
    requires s.slots[p - 1].pending > 0 && !s.slots[p - 1].gate
    ensures var r := Step(cfg, s, Fire(p));
            r.out == [] && r.state.slots[p - 1] == s.slots[p - 1].(timeout := true, handle := false, pending := 0)
  {
  }

  /** Relative slot after a fire without a gate: the next gate is sent at
      once and the timer restarts. */
  lemma RelativeGateAfterTimeout(cfg: Config, s: State, p: int, d: Value)
    requires Inv(cfg, s) && IsPort(cfg, p) && cfg.timers[p - 1].relative
    requires s.slots[p - 1].timeout
    ensures var r := Step(cfg, s, GateIn(p, d));
            r.state.slots[p - 1] == Slot(false, false, d, true, 1)
            && r.out == (if p in cfg.connected then [GateOut(p, d)] else [])
  {
  }

  /** Relative slot with its timer running: a gate only latches. */
  lemma RelativeGateWhileRunning(cfg: Config, s: State, p: int, d: Value)
    requires Inv(cfg, s) && IsPort(cfg, p) && cfg.timers[p - 1].relative
    requires !s.slots[p - 1].timeout
    ensures Step(cfg, s, GateIn(p, d)) == Reaction(State(s.slots[p - 1 := s.slots[p - 1].(gate := true, payload := d)]), [])
  {
  }

  /** Every step that sends something leaves both flags of its slot down,
      and an unconnected output changes nothing about the slot. */
  lemma EmissionClearsFlags(cfg: Config, cfg2: Config, s: State, ev: Event)
    requires Inv(cfg, s) && IsPort(cfg, ev.port)
    requires cfg2 == cfg.(connected := cfg.connected - {ev.port})
    ensures var r := Step(cfg, s, ev);
            r.out != [] ==> !r.state.slots[ev.port - 1].timeout && !r.state.slots[ev.port - 1].gate
    ensures Step(cfg2, s, ev).state == Step(cfg, s, ev).state && Step(cfg2, s, ev).out == []
  {
  }

  /** The events of one port. */
  function GateEvents(p: int, ds: seq<Value>): (evs: seq<Event>)
    ensures |evs| == |ds|
    ensures forall k :: 0 <= k < |ds| ==> evs[k] == GateIn(p, ds[k])
  {
    if ds == [] then [] else [GateIn(p, ds[0])] + GateEvents(p, ds[1..])
  }

  /** Absolute slot with a timer running: any run of gates sends nothing
      and keeps only the last payload. */
  lemma {:induction false} AbsoluteGatesOverwrite(cfg: Config, s: State, p: int, ds: seq<Value>)
    requires Inv(cfg, s) && IsPort(cfg, p) && !cfg.timers[p - 1].relative && s.slots[p - 1].handle
    requires ds != []
    ensures var r := Run(cfg, s, GateEvents(p, ds));
            r.out == [] && r.state.slots[p - 1] == s.slots[p - 1].(payload := ds[|ds| - 1])
            && forall i :: 0 <= i < |s.slots| && i != p - 1 ==> r.state.slots[i] == s.slots[i]
    decreases |ds|
  {
    var evs := GateEvents(p, ds);
    var first := Step(cfg, s, evs[0]);
    assert evs[1..] == GateEvents(p, ds[1..]);
    StepPreservesInv(cfg, s, evs[0]);
    if |ds| > 1 {
      AbsoluteGatesOverwrite(cfg, first.state, p, ds[1..]);
    }
  }

  /** Absolute slot, from idle: a burst of gates sends nothing and leaves
      the slot armed once, holding the last payload. */
  lemma AbsoluteBurstFromIdle(cfg: Config, s: State, p: int, ds: seq<Value>)
    requires Inv(cfg, s) && IsPort(cfg, p) && !cfg.timers[p - 1].relative && !s.slots[p - 1].handle
    requires ds != []
    ensures var r := Run(cfg, s, GateEvents(p, ds));
            r.out == [] && r.state.slots[p - 1] == Slot(false, true, ds[|ds| - 1], true, 1) && Inv(cfg, r.state)
  {
    var evs := GateEvents(p, ds);
    var first := Step(cfg, s, evs[0]);
    assert first.out == [] && first.state.slots[p - 1] == Slot(false, true, ds[0], true, 1);
    StepPreservesInv(cfg, s, evs[0]);
    assert evs[1..] == GateEvents(p, ds[1..]);
    RunPreservesInv(cfg, first.state, evs[1..]);
    if |ds| > 1 {
      AbsoluteGatesOverwrite(cfg, first.state, p, ds[1..]);
    }
  }

  /** Absolute slot, from idle: a burst of gates and then the fire sends
      only the last gate payload. */
  lemma AbsoluteBurstSendsLast(cfg: Config, s: State, p: int, ds: seq<Value>)
    requires Inv(cfg, s) && IsPort(cfg, p) && !cfg.timers[p - 1].relative && !s.slots[p - 1].handle
    requires ds != [] && p in cfg.connected
    ensures Run(cfg, s, GateEvents(p, ds) + [Fire(p)]).out == [GateOut(p, ds[|ds| - 1])]
  {
    var pre := Run(cfg, s, GateEvents(p, ds));
    AbsoluteBurstFromIdle(cfg, s, p, ds);
    RunAppendFire(cfg, s, p, ds);
    AbsoluteFire(cfg, pre.state, p);
  }

  /** A run ending in a fire: the outputs of the prefix, then of the fire. */
  lemma {:induction false} RunAppendFire(cfg: Config, s: State, p: int, ds: seq<Value>)
    requires |s.slots| == |cfg.timers|
    ensures var pre := Run(cfg, s, GateEvents(p, ds));
            Run(cfg, s, GateEvents(p, ds) + [Fire(p)]).out == pre.out + Step(cfg, pre.state, Fire(p)).out
    decreases |ds|
  {
    var evs := GateEvents(p, ds) + [Fire(p)];
    if ds == [] {
      assert evs == [Fire(p)];
    } else {
      assert evs[0] == GateIn(p, ds[0]);
      assert evs[1..] == GateEvents(p, ds[1..]) + [Fire(p)];
      assert GateEvents(p, ds)[1..] == GateEvents(p, ds[1..]);
      RunAppendFire(cfg, Step(cfg, s, GateIn(p, ds[0])).state, p, ds[1..]);
    }
  }
}
