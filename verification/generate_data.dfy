/** GenerateData: plays back a scripted list of (value, timeout) entries,
    sending each value on `unit` when its timer fires, and looping or
    halting at the end of the list. */
module GenerateData {
  import opened Signals

  /** One `data` entry; the timeout is whatever payload the option held. */
  datatype Entry = Entry(value: Value, timeout: Value)

  /** `doOnEnd` is a free string: only "nothing" halts at the end.
      `connected` is the state of the `unit` output. */
  datatype Config = Config(data: seq<Entry>, autoStart: bool, doOnEnd: string, connected: bool)

  /** `running` is `shares.start`, `index` is `shares.index`. `handle` is the
      timer stored in `queueTimer` (None for `false`); `armed` maps each
      timer whose callback is still due to the entry value it captured;
      `nextId` is the next fresh timer id. */
  datatype State = State(running: bool, index: nat, handle: Option<nat>, armed: map<nat, Value>, nextId: nat)

  /** `Fire(id)` is the callback of timer `id` running. */
  datatype Event = Start | Stop | ResetIn | Fire(id: nat)

  /** `DataError(i)` is the error the node reports for entry `i`. */
  datatype Output = UnitOut(v: Value) | DataError(index: nat)

  datatype Reaction = Reaction(state: State, out: seq<Output>)

  /** The entry at `i` can be scheduled. */
  predicate EntryOk(cfg: Config, i: nat)
  {
    i < |cfg.data| && cfg.data[i].value != Undef && IsNumber(cfg.data[i].timeout)
  }

  /** The node is halted at the end of the list only under "nothing". */
  predicate HaltsAtEnd(cfg: Config)
  {
    cfg.doOnEnd == "nothing"
  }

  /** At most one timer is due, it is the stored handle's, it belongs to
      the entry at the index, and a timer is due exactly while running. */
  predicate Inv(cfg: Config, s: State)
  {
    && (forall id :: id in s.armed ==> id < s.nextId && s.handle == Some(id))
    && (s.handle.Some? <==> s.running)
    && (s.handle.Some? ==> s.handle.value in s.armed && EntryOk(cfg, s.index)
                           && s.armed[s.handle.value] == cfg.data[s.index].value)
    && (s.index == 0 || s.index < |cfg.data|)
  }

  function Fresh(): State
  {
    State(false, 0, None, map[], 0)
  }

  /** `clearTimeout(queueTimer)` */
  function ClearHandle(s: State): (t: State)
    ensures t.handle == None && t.running == s.running && t.index == s.index && t.nextId == s.nextId
    ensures s.handle.Some? ==> t.armed == s.armed - {s.handle.value}
    ensures s.handle.None? ==> t.armed == s.armed
  {
    match s.handle
    case None => s
    case Some(h) => s.(handle := None, armed := s.armed - {h})
  }

  /** `queueTimer = setTimeout(...)` with a fresh timer capturing `v`. */
  function SetTimer(s: State, v: Value): State
  {
    s.(handle := Some(s.nextId), armed := s.armed[s.nextId := v], nextId := s.nextId + 1)
  }

  /** `inputStop` */
  function StopNode(cfg: Config, s: State): (r: Reaction)
    ensures r.out == [] && r.state.index == s.index && !r.state.running
    ensures s.running ==> r.state.handle == None
    ensures s.running && s.handle.Some? ==> r.state.armed == s.armed - {s.handle.value}
    ensures !s.running ==> r.state == s
  {
    if !s.running then Reaction(s, [])
    else Reaction(ClearHandle(s).(running := false), [])
  }

  /** `_run`: schedule the current entry, or report it and stop. */
  function RunEntry(cfg: Config, s: State): (r: Reaction)
    ensures !s.running ==> r == Reaction(s, [])
    ensures s.running && EntryOk(cfg, s.index) ==>
      r.out == [] && r.state.running && r.state.index == s.index
      && r.state.handle == Some(s.nextId) && s.nextId in r.state.armed && r.state.armed[s.nextId] == cfg.data[s.index].value
    ensures s.running && !EntryOk(cfg, s.index) ==>
      r.out == [DataError(s.index)] && !r.state.running && r.state.handle == None && r.state.index == s.index
  {
    if !s.running then Reaction(s, [])
    else if EntryOk(cfg, s.index) then Reaction(SetTimer(ClearHandle(s), cfg.data[s.index].value), [])
    else
      var stopped := StopNode(cfg, s);
      Reaction(stopped.state, [DataError(s.index)] + stopped.out)
  }

  /** `inputStart` */
  function StartNode(cfg: Config, s: State): Reaction
  {
    if s.running then Reaction(s, []) else RunEntry(cfg, s.(running := true))
  }

  /** `_queueNext`, run after timer callback has sent its value. */
  function QueueNext(cfg: Config, s: State): Reaction
  {
    var next := s.index + 1;
    if next == |cfg.data| then
      if HaltsAtEnd(cfg) then Reaction(s.(index := 0, handle := None, running := false), [])
      else RunEntry(cfg, s.(index := 0))
    else RunEntry(cfg, s.(index := next))
  }

  function Step(cfg: Config, s: State, ev: Event): (r: Reaction)
    ensures Inv(cfg, s) ==> Inv(cfg, r.state)
    ensures ev.Start? && s.running ==> r == Reaction(s, [])
    ensures ev.Stop? ==> r.out == [] && !r.state.running && r.state.index == s.index
    ensures ev.Fire? && ev.id !in s.armed ==> r == Reaction(s, [])
    ensures forall o :: o in r.out && o.UnitOut? ==> ev.Fire? && ev.id in s.armed && o.v == s.armed[ev.id]
    ensures !ev.Fire? ==> forall o :: o in r.out ==> o.DataError?
  {
    match ev
    case Start => StartNode(cfg, s)
    case Stop => StopNode(cfg, s)
    case ResetIn =>
      var cleared := ClearHandle(s).(index := 0, running := false);
      StartNode(cfg, cleared)
    case Fire(id) =>
      if id !in s.armed then Reaction(s, [])
      else
        var sent := if cfg.connected then [UnitOut(s.armed[id])] else [];
        var rest := QueueNext(cfg, s.(armed := s.armed - {id}));
        Reaction(rest.state, sent + rest.out)
  }

  /** The node after `process`. */
  function Init(cfg: Config): (r: Reaction)
    ensures Inv(cfg, r.state) && r.state.index == 0
    ensures !cfg.autoStart ==> r == Reaction(Fresh(), [])
    ensures cfg.autoStart && EntryOk(cfg, 0) ==> r.out == [] && r.state.running
    ensures cfg.autoStart && !EntryOk(cfg, 0) ==> r.out == [DataError(0)] && !r.state.running && r.state.armed == map[]
  {
    if cfg.autoStart then StartNode(cfg, Fresh()) else Reaction(Fresh(), [])
  }

  // ---------------------------------------------------------------------
  // Properties

  lemma InitEstablishesInv(cfg: Config)
    ensures Inv(cfg, Init(cfg).state)
  {
  }

  /** Every handler keeps the timer bookkeeping consistent. */
  lemma StepPreservesInv(cfg: Config, s: State, ev: Event)
    requires Inv(cfg, s)
    ensures Inv(cfg, Step(cfg, s, ev).state)
  {
    match ev
    case Start =>
    case Stop =>
    case ResetIn =>
    case Fire(id) =>
      if id in s.armed {
        var s1 := s.(armed := s.armed - {id});
        assert s1.armed == map[];
        assert s.index + 1 <= |cfg.data|;
      }
  }

  /** At most one value is ever waiting to be sent. */
  lemma AtMostOneDue(cfg: Config, s: State)
    requires Inv(cfg, s)
    ensures |s.armed| <= 1
    ensures s.running ==> |s.armed| == 1
  {
    if s.handle.Some? {
      assert s.armed.Keys == {s.handle.value};
    } else {
      assert s.armed.Keys == {};
    }
  }

  /** Starting a running node changes nothing. */
  lemma StartWhileRunning(cfg: Config, s: State)
    requires s.running
    ensures Step(cfg, s, Start) == Reaction(s, [])
  {
  }

  /** Starting twice leaves the same state as starting once; the second
      start sends nothing unless the current entry is malformed, in which
      case it is reported again. */
  lemma StartIdempotent(cfg: Config, s: State)
    requires Inv(cfg, s)
    ensures var once := Step(cfg, s, Start);
            Step(cfg, once.state, Start).state == once.state
    ensures var once := Step(cfg, s, Start);
            s.running || EntryOk(cfg, s.index) ==> Step(cfg, once.state, Start).out == []
  {
  }

  /** Starting a stopped node with a valid current entry leaves exactly one
      timer due, carrying that entry's value. */
  lemma StartFromStopped(cfg: Config, s: State)
    requires Inv(cfg, s) && !s.running && EntryOk(cfg, s.index)
    ensures var r := Step(cfg, s, Start);
            r.out == [] && r.state.running && r.state.index == s.index
            && r.state.armed == map[r.state.handle.value := cfg.data[s.index].value]
  {
    var r := Step(cfg, s, Start);
    StepPreservesInv(cfg, s, Start);
    AtMostOneDue(cfg, r.state);
    assert r.state.armed.Keys == {r.state.handle.value};
  }

  /** A timer firing sends its value (when `unit` is connected) and moves to
      the next entry, scheduling it. */
  lemma FireAdvances(cfg: Config, s: State, id: nat)
    requires Inv(cfg, s) && id in s.armed && EntryOk(cfg, s.index + 1)
    ensures var r := Step(cfg, s, Fire(id));
            r.state.index == s.index + 1 && r.state.running
            && r.state.armed == map[r.state.handle.value := cfg.data[s.index + 1].value]
            && r.out == (if cfg.connected then [UnitOut(cfg.data[s.index].value)] else [])
  {
    var r := Step(cfg, s, Fire(id));
    StepPreservesInv(cfg, s, Fire(id));
    AtMostOneDue(cfg, r.state);
    assert r.state.armed.Keys == {r.state.handle.value};
  }

  /** Past the last entry the index returns to 0; under "nothing" the node
      stops with nothing due, otherwise entry 0 is scheduled. */
  lemma FireAtEnd(cfg: Config, s: State, id: nat)
    requires Inv(cfg, s) && id in s.armed && s.index + 1 == |cfg.data|
    ensures var r := Step(cfg, s, Fire(id));
            r.state.index == 0
            && (HaltsAtEnd(cfg) ==> !r.state.running && r.state.armed == map[])
            && (!HaltsAtEnd(cfg) && EntryOk(cfg, 0) ==>
                  r.state.running && r.state.armed == map[r.state.handle.value := cfg.data[0].value])
  {
    var r := Step(cfg, s, Fire(id));
    StepPreservesInv(cfg, s, Fire(id));
    AtMostOneDue(cfg, r.state);
    if r.state.handle.Some? {
      assert r.state.armed.Keys == {r.state.handle.value};
    }
  }

  /** Any `doOnEnd` other than "nothing" behaves exactly like "reset". */
  lemma OtherEndPoliciesActAsReset(cfg: Config, s: State, ev: Event)
    requires !HaltsAtEnd(cfg)
    ensures Step(cfg, s, ev) == Step(cfg.(doOnEnd := "reset"), s, ev)
  {
  }

  /** Stop cancels the due timer and halts, keeping the index. */
  lemma StopCancels(cfg: Config, s: State)
    requires Inv(cfg, s)
    ensures var r := Step(cfg, s, Stop);
            r.out == [] && !r.state.running && r.state.armed == map[] && r.state.index == s.index
  {
    if s.handle.Some? {
      assert s.armed.Keys == {s.handle.value};
    } else {
      assert s.armed.Keys == {};
    }
  }

  /** Reset cancels the due timer, returns to entry 0 and always restarts:
      entry 0 is scheduled, or reported when it is malformed. */
  lemma ResetRestarts(cfg: Config, s: State)
    requires Inv(cfg, s)
    ensures var r := Step(cfg, s, ResetIn);
            r.state.index == 0 && (s.handle.Some? ==> s.handle.value !in r.state.armed)
    ensures var r := Step(cfg, s, ResetIn);
            EntryOk(cfg, 0) ==> r.out == [] && r.state.running && r.state.armed == map[r.state.handle.value := cfg.data[0].value]
    ensures var r := Step(cfg, s, ResetIn);
            !EntryOk(cfg, 0) ==> r.out == [DataError(0)] && !r.state.running && r.state.armed == map[]
  {
    var r := Step(cfg, s, ResetIn);
    if s.handle.Some? {
      assert s.armed.Keys == {s.handle.value};
    } else {
      assert s.armed.Keys == {};
    }
    StepPreservesInv(cfg, s, ResetIn);
    AtMostOneDue(cfg, r.state);
    if r.state.handle.Some? {
      assert r.state.armed.Keys == {r.state.handle.value};
    }
  }

  /** A malformed entry is reported and leaves the node stopped with
      nothing due. */
  lemma MalformedEntryStops(cfg: Config, s: State)
    requires Inv(cfg, s) && !s.running && !EntryOk(cfg, s.index)
    ensures var r := Step(cfg, s, Start);
            r.out == [DataError(s.index)] && !r.state.running && r.state.armed == map[]
  {
  }

  /** A cancelled or already-fired timer never sends anything. */
  lemma StaleTimerIsSilent(cfg: Config, s: State, id: nat)
    requires id !in s.armed
    ensures Step(cfg, s, Fire(id)) == Reaction(s, [])
  {
  }
}
