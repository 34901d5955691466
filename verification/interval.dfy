/** Interval: a start/stop ticker that sends 1 on `gate` each time its
    timer ticks. */
module Interval {
  import opened Signals

  /** `timeout` (ms, at least 1) and `start` are the options. */
  datatype Config = Config(timeout: nat, start: bool)

  /** `armed` is the truthiness of `timer`. */
  datatype State = State(armed: bool)

  /** `Tick` is one run of the interval callback. */
  datatype Event = Start | Stop | Tick

  datatype Output = GateOut(v: Value)

  datatype Reaction = Reaction(state: State, out: seq<Output>)

  /** `process`: start at once iff the `start` option is true. */
  function Init(cfg: Config): (s: State)
    ensures s.armed <==> cfg.start
  {
    if cfg.start then StartTimer(State(false)) else State(false)
  }

  /** `_startTimer`: install the interval unless one is installed. */
  function StartTimer(s: State): (r: State)
    ensures r.armed
  {
    if !s.armed then State(true) else s
  }

  function Step(s: State, ev: Event): (r: Reaction)
    ensures ev.Start? ==> r == Reaction(State(true), [])
    ensures ev.Stop? ==> r == Reaction(State(false), [])
    ensures ev.Tick? ==> r.state == s
    ensures ev.Tick? ==> r.out == (if s.armed then [GateOut(Num(1))] else [])
  {
    match ev
    case Start => Reaction(StartTimer(s), [])
    case Stop => if !s.armed then Reaction(s, []) else Reaction(State(false), [])
    case Tick => if s.armed then Reaction(s, [GateOut(Num(1))]) else Reaction(s, [])
  }

  function Run(s: State, evs: seq<Event>): (r: Reaction)
    decreases |evs|
  {
    if evs == [] then Reaction(s, [])
    else
      var first := Step(s, evs[0]);
      var rest := Run(first.state, evs[1..]);
      Reaction(rest.state, first.out + rest.out)
  }

  /** The last start or stop in a run, if any. */
  function LastControl(evs: seq<Event>): (c: Option<Event>)
    ensures c.Some? ==> c.value != Tick && c.value in evs
    ensures c.None? ==> forall k :: 0 <= k < |evs| ==> evs[k] == Tick
    decreases |evs|
  {
    if evs == [] then None
    else if evs[|evs| - 1] != Tick then Some(evs[|evs| - 1])
    else LastControl(evs[..|evs| - 1])
  }

  /** The number of ticks in a run. */
  function CountTicks(evs: seq<Event>): (n: nat)
    ensures n <= |evs|
    decreases |evs|
  {
    if evs == [] then 0 else (if evs[0] == Tick then 1 else 0) + CountTicks(evs[1..])
  }

  function Ones(n: nat): (out: seq<Output>)
    ensures |out| == n && forall k :: 0 <= k < n ==> out[k] == GateOut(Num(1))
  {
    if n == 0 then [] else [GateOut(Num(1))] + Ones(n - 1)
  }

  // ---------------------------------------------------------------------
  // Properties

  /** Starting twice is starting once; stopping twice is stopping once. */
  lemma StartStopIdempotent(s: State)
    ensures Step(Step(s, Start).state, Start) == Step(s, Start)
    ensures Step(Step(s, Stop).state, Stop) == Step(s, Stop)
  {
  }

  /** A tick while armed sends exactly 1; while stopped it sends nothing. */
  lemma TickSendsOne(s: State)
    ensures s.armed ==> Step(s, Tick).out == [GateOut(Num(1))]
    ensures !s.armed ==> Step(s, Tick).out == []
  {
  }

  lemma {:induction false} RunSplit(s: State, a: seq<Event>, b: seq<Event>)
    ensures Run(s, a + b).state == Run(Run(s, a).state, b).state
    ensures Run(s, a + b).out == Run(s, a).out + Run(Run(s, a).state, b).out
    decreases |a|
  {
    if a != [] {
      assert (a + b)[1..] == a[1..] + b;
      RunSplit(Step(s, a[0]).state, a[1..], b);
    } else {
      assert a + b == b;
    }
  }

  /** After any run the ticker is armed iff its last control event was a
      start (or, with none, iff it was armed to begin with). */
  lemma {:induction false} RunFollowsLastControl(s: State, evs: seq<Event>)
    ensures Run(s, evs).state.armed == (match LastControl(evs)
                                         case Some(c) => c == Start
                                         case None => s.armed)
    decreases |evs|
  {
    if evs != [] {
      var init := evs[..|evs| - 1];
      assert evs == init + [evs[|evs| - 1]];
      RunSplit(s, init, [evs[|evs| - 1]]);
      RunFollowsLastControl(s, init);
    }
  }

  /** While armed, n ticks send exactly n ones. */
  lemma {:induction false} ArmedTicks(s: State, evs: seq<Event>)
    requires s.armed && forall k :: 0 <= k < |evs| ==> evs[k] == Tick
    ensures Run(s, evs) == Reaction(s, Ones(|evs|))
    decreases |evs|
  {
    if evs != [] {
      ArmedTicks(s, evs[1..]);
    }
  }

  /** A stopped ticker sends nothing however many ticks arrive. */
  lemma {:induction false} StoppedIsSilent(s: State, evs: seq<Event>)
    requires !s.armed && forall k :: 0 <= k < |evs| ==> evs[k] == Tick
    ensures Run(s, evs) == Reaction(s, [])
    decreases |evs|
  {
    if evs != [] {
      StoppedIsSilent(s, evs[1..]);
    }
  }

  /** Started and never stopped, the ticker sends one 1 per tick, whatever
      starts come in between. */
  lemma {:induction false} OnePerTick(s: State, evs: seq<Event>)
    requires s.armed && Stop !in evs
    ensures Run(s, evs) == Reaction(s, Ones(CountTicks(evs)))
    decreases |evs|
  {
    if evs != [] {
      assert Stop !in evs[1..] by {
        forall k | 0 <= k < |evs[1..]|
          ensures evs[1..][k] != Stop
        {
          assert evs[1..][k] == evs[k + 1];
        }
      }
      assert Step(s, evs[0]).state == s;
      OnePerTick(s, evs[1..]);
    }
  }
}
