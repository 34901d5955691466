/** Buffer: a first-in-first-out queue of arbitrary values. `entity`
    appends, `shift n` drops the first n entries, and `slice n` sends a
    copy of the first n entries without removing them. */
module Buffer {
  import opened Signals

  /** `entitiesConnected` is the state of the `entities` output. */
  datatype Config = Config(entitiesConnected: bool)

  /** `bufferCount` is the published `shares.bufferCount`. */
  datatype State = State(buffer: seq<Value>, bufferCount: nat)

  datatype Event = EntityIn(v: Value) | ShiftIn(count: Value) | SliceIn(count: Value)

  datatype Output = Entities(items: seq<Value>)

  datatype Reaction = Reaction(state: State, out: seq<Output>)

  function Init(): State
  {
    State([], 0)
  }

  predicate Inv(s: State)
  {
    s.bufferCount == |s.buffer|
  }

  /** The guard of `inputShift` and `inputSlice`: a number above zero. */
  predicate IsPositiveCount(count: Value)
  {
    count.Num? && count.n > 0
  }

  /** How many entries a count reaches: the count clipped to the length. */
  function Reach(n: int, len: nat): (k: nat)
    requires n > 0
    ensures k <= len && k <= n
    ensures k == n || k == len
  {
    if n < len then n else len
  }

  /** `updateBufferCount` */
  function Publish(buffer: seq<Value>): (s: State)
    ensures Inv(s) && s.buffer == buffer
  {
    State(buffer, |buffer|)
  }

  function Step(cfg: Config, s: State, ev: Event): (r: Reaction)
    ensures ev.EntityIn? ==> r == Reaction(Publish(s.buffer + [ev.v]), [])
    ensures ev.ShiftIn? && IsPositiveCount(ev.count) ==>
      r.out == [] && Inv(r.state) && |r.state.buffer| == |s.buffer| - Reach(ev.count.n, |s.buffer|)
      && s.buffer == s.buffer[..Reach(ev.count.n, |s.buffer|)] + r.state.buffer
    ensures (ev.ShiftIn? || ev.SliceIn?) && !IsPositiveCount(ev.count) ==> r == Reaction(s, [])
    ensures ev.SliceIn? ==> r.state == s
    ensures ev.SliceIn? && IsPositiveCount(ev.count) && cfg.entitiesConnected ==>
      |r.out| == 1 && r.out[0].items <= s.buffer && |r.out[0].items| == Reach(ev.count.n, |s.buffer|)
    ensures ev.SliceIn? && !cfg.entitiesConnected ==> r.out == []
  {
    match ev
    case EntityIn(v) => Reaction(Publish(s.buffer + [v]), [])
    case ShiftIn(count) =>
      if IsPositiveCount(count) then
        Reaction(Publish(s.buffer[Reach(count.n, |s.buffer|)..]), [])
      else Reaction(s, [])
    case SliceIn(count) =>
      if IsPositiveCount(count) && cfg.entitiesConnected then
        Reaction(s, [Entities(s.buffer[..Reach(count.n, |s.buffer|)])])
      else Reaction(s, [])
  }

  /** Entities appended one after the other. */
  function Fill(cfg: Config, s: State, vs: seq<Value>): (t: State)
    decreases |vs|
  {
    if vs == [] then s else Fill(cfg, Step(cfg, s, EntityIn(vs[0])).state, vs[1..])
  }

  // ---------------------------------------------------------------------
  // Properties

  /** The published count follows the buffer through every event. */
  lemma StepPreservesInv(cfg: Config, s: State, ev: Event)
    requires Inv(s)
    ensures Inv(Step(cfg, s, ev).state)
  {
  }

  /** Slice and shift by the same count split the buffer: the entries sent
      by the slice, followed by what the shift keeps, are the buffer. */
  lemma SliceThenShiftPartition(cfg: Config, s: State, n: int)
    requires n > 0 && cfg.entitiesConnected
    ensures var sent := Step(cfg, s, SliceIn(Num(n))).out;
            var kept := Step(cfg, s, ShiftIn(Num(n))).state.buffer;
            |sent| == 1 && sent[0].items + kept == s.buffer
  {
  }

  /** Shifting more than the buffer holds empties it. */
  lemma ShiftPastEndEmpties(cfg: Config, s: State, n: int)
    requires n >= |s.buffer| && n > 0
    ensures Step(cfg, s, ShiftIn(Num(n))).state == Init()
  {
  }

  /** Entities are kept in arrival order: filling appends them all. */
  lemma {:induction false} FillAppends(cfg: Config, s: State, vs: seq<Value>)
    requires Inv(s)
    ensures Fill(cfg, s, vs) == Publish(s.buffer + vs)
    decreases |vs|
  {
    if vs != [] {
      var s1 := Step(cfg, s, EntityIn(vs[0])).state;
      FillAppends(cfg, s1, vs[1..]);
      assert s1.buffer + vs[1..] == s.buffer + vs;
    } else {
      assert s.buffer + vs == s.buffer;
    }
  }

  /** First in, first out: after filling an empty buffer, shifting k and
      slicing the rest sends exactly the entries after the first k. */
  lemma FirstInFirstOut(cfg: Config, vs: seq<Value>, k: int)
    requires cfg.entitiesConnected && 0 < k < |vs|
    ensures var full := Fill(cfg, Init(), vs);
            var shifted := Step(cfg, full, ShiftIn(Num(k))).state;
            Step(cfg, shifted, SliceIn(Num(|vs|))).out == [Entities(vs[k..])]
  {
    FillAppends(cfg, Init(), vs);
    assert Init().buffer + vs == vs;
    var full := Fill(cfg, Init(), vs);
    assert full == Publish(vs);
    var shifted := Step(cfg, full, ShiftIn(Num(k))).state;
    assert shifted.buffer == vs[k..];
    assert Reach(|vs|, |vs[k..]|) == |vs| - k;
    assert vs[k..][..|vs| - k] == vs[k..];
  }

  /** Non-numeric or non-positive counts are ignored by both shift and slice. */
  lemma BadCountIgnored(cfg: Config, s: State, c: Value)
    requires !IsPositiveCount(c)
    ensures Step(cfg, s, ShiftIn(c)) == Reaction(s, []) && Step(cfg, s, SliceIn(c)) == Reaction(s, [])
  {
  }
}
