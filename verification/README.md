# vrack2 basic devices in Dafny

This project models the eleven signal-processing devices of the vrack2 basic
device set. Each device is a node in a vrack2 dataflow graph. The node
receives values on named input ports. It keeps a little state and pushes
values on named output ports. The devices modelled are:

- **Mixer**: routes inputs to main/FX outputs by a startup-validated route table.
- **Unmixer**: sends a latched value to `mix<channel>`.
- **ChannelFilter**: passes or blocks a gate by allow/deny lists.
- **List**: dictionary lookup.
- **Aggregate**: per-channel max/min/average over accumulating or sliding buffers.
- **Buffer**: a FIFO queue with shift and slice.
- **Differ**: per-channel change detection.
- **Uniselector**: a stepping cursor over `gate1..gateN`.
- **Delay**: a bank of relative/absolute timer slots.
- **GenerateData**: scripted playback of `(value, timeout)` entries.
- **Interval**: a start/stop ticker.

Every device is one module (`mixer.dfy`, `unmixer.dfy`, …) over the shared
module `Signals` (`signals.dfy`). Each module has the same parts:

- `Config` holds the validated options, plus whether each output is connected.
- `State` holds the node's fields.
- `Event` has one constructor per input port, plus timer callbacks as explicit `Fire`/`Tick` events.
- `Output` has one constructor per output port.
- `Step(cfg, s, ev)` is a pure function. It returns the next state and the values pushed, in order.

The payload type `Signals.Value` covers the JavaScript payloads this code
distinguishes: `undefined`, `null`, `NaN`, integers, strings and booleans.
`StrictEq` is `===`, under which `NaN` differs from itself. `ToNumber` is
`Number(...)`.

Some behaviour of the code is unusual, and it is kept as written:

- **Mixer.** Startup checks a string route by looking up the port `<route>.mixed`. The FX outputs are declared as `fx<k>.mix`, so no such port ever exists. Every string route other than `"main"` therefore terminates the node. Array routes skip this check, so an array can name a group that does not exist. The push to it then fails at run time; the model records that as `fault`.
- **Uniselector.** Under the `nothing` end policy, a gate at the last slot stops the cursor and still pulses that slot.
- **GenerateData.** At the end of the list the index returns to 0 even under `nothing`. Any `doOnEnd` string other than `"nothing"` acts as `reset`.
- **Delay.** A relative slot whose timer fires with no gate latched is not restarted. The next gate then passes at once and restarts it. The fire callback writes `false` over the handle that `outGate` has just stored.
- **Differ.** A stored `undefined` is read as "nothing stored", so the channel is seeded again and the gate is silent. Unit `undefined` followed by unit 5 therefore sends nothing on either gate. A NaN unit sends on every gate, the first included, because NaN is not `===` to itself.
- **Unmixer.** An out-of-range channel produces a warning and keeps both latches.

## Model

| member | source | states |
|---|---|---|
| Signals.NatToString | Mixer.js:63-68 | the decimal spelling of a number is a non-empty digit string with no leading zero |
| Signals.DecimalRoundTrip | Unmixer.js:69 | reading back the decimal spelling of `n` gives `n` |
| Signals.ToNumber | Unmixer.js:69 | `Number(v)` always yields a number; it keeps numbers and turns `undefined` into NaN |
| Signals.NumberOfDecimalText | Unmixer.js:69 | `Number` of the decimal text of `n` is `n` |
| Mixer.Violations | Mixer.js:122-153 | every key outside `[1, inputs]` and every route that is not `main`/`fx<d>`, or an array of those, is a violation; every violation belongs to a key of the table |
| Mixer.Step | Mixer.js:77-120 | a `mix<i>` event changes no latch; an in-range FX value input stores its value under its group and leaves every other unit and all channels alone, and an FX channel input does the same with the channels; out-of-range FX inputs and FX gates change no latch and never fault |
| Mixer.UnroutedInputGoesToMain | Mixer.js:83-88 | an input with no route entry sends exactly `mixed=data, channel=i, gate=1` |
| Mixer.StringRoute | Mixer.js:90-93 | route "main" sends the main triple; another string sends one triple on that FX group when it exists, and faults otherwise |
| Mixer.UnroutableSendsNothing | Mixer.js:90-100 | a route that is neither a string nor an array sends nothing and does not fault |
| Mixer.FanOutInOrder | Mixer.js:94-100 | an array route of existing destinations sends one triple per destination, in list order, and does not fault |
| Mixer.FanOutStopsAtMissingGroup | Mixer.js:94-100 | the first missing destination faults; only the destinations before it have been sent |
| Mixer.FxLoopReturn | Mixer.js:105-118 | after latching value `u` and channel `c` of FX group `k`, its gate sends `(u, Number(c), gate or 1)` on the main outputs |
| Mixer.FxGateBeforeLatch | Mixer.js:113-118 | an FX gate with nothing latched sends `undefined` and NaN |
| Mixer.MixedSuffixNeverDeclared | Mixer.js:53-70 | no declared output port ends in `.mixed` |
| Mixer.StringFxRouteAlwaysRejected | Mixer.js:145-151 | any string route other than "main" yields a missing-port violation, so the node does not start |
| Mixer.AcceptedTableShape | Mixer.js:124-151 | a table that starts up has only in-range keys and values that are "main" or valid arrays |
| Mixer.AcceptedTablesAreExactlyThese | Mixer.js:124-151 | conversely, every such table starts up |
| Mixer.ArrayRouteToMissingGroup | Mixer.js:137-168 | `fx0` passes the name check; an array route to `fx99` passes startup with three FX outputs, then faults when used |
| Mixer.StringRouteToMissingGroupRejected | Mixer.js:145-151 | the same destination as a string route fails startup |
| Unmixer.Step | Unmixer.js:43-53 | `mixed` and `channel` only latch; a gate sends at most one value, only the latched value on an in-range `mix<k>`, and does nothing with a latch missing |
| Unmixer.OnGate | Unmixer.js:62-85 | a gate sends at most one value; any value is the latched one, on an in-range `mix<k>`; the latches change only by being cleared after a send; a missing latch sends nothing |
| Unmixer.GateNeedsBothLatches | Unmixer.js:64-67 | with either latch null/undefined a gate sends nothing and changes nothing |
| Unmixer.ForwardOnce | Unmixer.js:43-84 | from startup, latching `v` and channel `c` then gating sends `v` once on `mix<c>`; a second gate sends nothing |
| Unmixer.OutOfRangeKeepsLatches | Unmixer.js:72-75 | a channel outside `[1, outputs]` gives a warning, no value, and keeps both latches |
| Unmixer.InvertsMixerMainPath | Unmixer.js:43-84 | wired behind a Mixer that sends input `i` to main, the Unmixer sends the value on `mix<i>` once and clears its latches; a null or undefined value is dropped and the latches keep what arrived |
| Unmixer.TextChannel | Unmixer.js:69 | a channel given as decimal text selects that output |
| ChannelFilter.Step | ChannelFilter.js:56-92 | unit and channel only latch; a gate changes no latch, sends something iff the channel passes, and what it sends is `unit, channel, gate` |
| ChannelFilter.AdmitsCharacterised | ChannelFilter.js:76-86 | a channel passes iff the include list is empty or contains it, and the except list does not contain it |
| ChannelFilter.GateForwardsIffAdmitted | ChannelFilter.js:84-91 | a gate sends iff the channel passes, and then sends the latched unit, the channel and the gate payload |
| ChannelFilter.ExceptWins | ChannelFilter.js:81-86 | a channel on the except list is blocked even if it is included |
| ChannelFilter.EmptyListsForwardAll | ChannelFilter.js:76-91 | with both lists empty every gate forwards `unit, channel, gate` |
| ChannelFilter.LatchesOnly | ChannelFilter.js:52-62 | inputs send nothing; a gate after latching `u`, `c` sends exactly `u`, `c` when `c` passes |
| List.Step | List.js:53-61 | the index input latches and sends nothing while `gate` is connected; a gate keeps the index |
| List.LookupNeverFabricates | List.js:65-69 | the value sent is the dictionary's own entry for the index, or `undefined` when the index is not an own key |
| List.IndexSelfTriggers | List.js:53-57 | with `gate` unconnected an index triggers a lookup with gate 1 |
| List.InitialIndex | List.js:50 | before any index arrives, lookups use index 0 |
| Differ.OnGate | Differ.js:61-74 | after a gate the channel stores the current unit; it sends `unit, channel, gate` iff the unit is not `===` to the stored (or freshly seeded) value |
| Differ.Step | Differ.js:46-54 | channel only latches; a unit only latches while `gate` is connected |
| Differ.FirstGateSeeds | Differ.js:64-67 | the first gate on a channel with no stored value stores the unit and sends nothing, unless the unit is NaN |
| Differ.GateSendsIffChanged | Differ.js:67-73 | with a stored value other than `undefined` a gate sends iff the unit is not `===` to it |
| Differ.GateStoresUnit | Differ.js:62-69 | after a gate the current channel stores the unit; other channels are unchanged |
| Differ.RepeatGateIsNoOp | Differ.js:67 | a second gate with the same unit and channel does nothing (unless the unit is NaN) |
| Differ.SecondObservation | Differ.js:46-74 | with `gate` connected and a first unit that is neither NaN nor `undefined`, the first gate on a fresh channel is silent and the second sends iff the unit changed |
| Differ.NaNAlwaysSends | Differ.js:64-73 | a gate with a NaN unit always sends it, the first gate on a channel included |
| Differ.StoredUndefinedIsReseeded | Differ.js:64-67 | a stored `undefined` counts as nothing stored: the gate stores the unit again and sends nothing |
| Differ.UndefinedThenChangeIsSilent | Differ.js:46-74 | unit `undefined` then unit 5 on a fresh channel: both gates are silent although the unit changed |
| Differ.UnitSelfTriggers | Differ.js:46-50 | with `gate` unconnected a unit triggers the check with gate 1 |
| Buffer.Step | Buffer.js:40-60 | entity appends; a positive shift drops the first `min(n, len)` entries and keeps the rest in order; a slice keeps the buffer and sends a prefix of length `min(n, len)`; other counts do nothing |
| Buffer.StepPreservesInv | Buffer.js:63-66 | `bufferCount` equals the buffer length after every event |
| Buffer.SliceThenShiftPartition | Buffer.js:45-58 | what a slice of `n` sends, followed by what a shift of `n` keeps, is the whole buffer |
| Buffer.ShiftPastEndEmpties | Buffer.js:45-48 | shifting at least the length empties the buffer |
| Buffer.FillAppends | Buffer.js:40-43 | a run of entities is appended in arrival order |
| Buffer.FirstInFirstOut | Buffer.js:40-58 | after filling `vs`, shifting `k` and slicing all sends exactly `vs[k..]` |
| Buffer.BadCountIgnored | Buffer.js:46-53 | non-number or non-positive counts change nothing and send nothing |
| Aggregate.Max | Aggregate.js:113 | the maximum is an element of the buffer and bounds every element |
| Aggregate.Min | Aggregate.js:117 | the minimum is an element of the buffer and is bounded by every element |
| Aggregate.SendResults | Aggregate.js:106-129 | an empty buffer sends nothing; every output carries the buffer's max, min, average (times length = sum), the channel or the gate payload |
| Aggregate.SendResultsPorts | Aggregate.js:111-127 | on a non-empty buffer a port receives an output iff it is connected |
| Aggregate.OnGate | Aggregate.js:73-103 | a gate touches only the current channel's buffer and counter, creates them if missing, and keeps the buffer invariant |
| Aggregate.Step | Aggregate.js:61-71 | channel only latches; a unit only latches while `gate` is connected; the invariant is kept |
| Aggregate.CyclicWindow | Aggregate.js:61-87 | in cyclic mode, over any run of unit, channel and gate events, every channel's buffer is the last `samples` units gated while that channel was latched |
| Aggregate.CyclicWindowFromInit | Aggregate.js:55-87 | from startup, every channel's buffer is the last `samples` units gated on it, however channels interleave |
| Aggregate.InterleavedChannels | Aggregate.js:61-87 | a window of two, units 5 on channel 1, 6 on channel 2, 7 on channel 1: channel 1 holds [5, 7] and channel 2 holds [6] |
| Aggregate.CyclicSendsWhenFull | Aggregate.js:88-91 | in cyclic mode results are sent exactly on the gates at which the window is full |
| Aggregate.AccumulateFlush | Aggregate.js:92-102 | in accumulate mode the `samples`-th gate sends results over the whole buffer and empties it; earlier gates only append and count |
| Aggregate.UnitSelfTriggers | Aggregate.js:61-67 | with `gate` unconnected a unit acts as a gate of 1 |
| Aggregate.UndefinedGateIsOne | Aggregate.js:74 | an undefined gate payload is read as 1 |
| Aggregate.AccumulateExample | Aggregate.js:92-129 | three samples 1, 2, 3 give max 3, min 1, average 2 and an empty buffer |
| Aggregate.CyclicExample | Aggregate.js:82-91 | a window of two over 5, 7, 9 reports {5, 7} then {7, 9} |
| Uniselector.Init | Uniselector.js:56-66 | the cursor starts at slot 1, forward, running iff `start` |
| Uniselector.Advance | Uniselector.js:74-114 | stepping keeps the index in `[1, outputs]`; forward below the end adds one, reverse above 1 subtracts one; only `nothing` at the end stops the cursor |
| Uniselector.Emit | Uniselector.js:145-153 | a pulse is sent iff the slot exists and is connected, on that slot, with a defined payload |
| Uniselector.Step | Uniselector.js:117-142 | start/stop only set the running flag; reset sets slot 1 forward; a gate while stopped (or with no outputs) does nothing; any pulse is on the new active slot |
| Uniselector.IndexInRange | Uniselector.js:74-142 | after any event sequence from startup the index is in `[1, outputs]` |
| Uniselector.ForwardGate | Uniselector.js:110-121 | moving forward below the end, a gate steps to the next slot and pulses it if connected |
| Uniselector.ResetPolicyWraps | Uniselector.js:88-93 | under `reset`, a gate at the last slot wraps to slot 1 |
| Uniselector.NothingPolicyStops | Uniselector.js:94-121 | under `nothing`, a gate at the last slot stops the cursor, keeps the index and still pulses that slot |
| Uniselector.StartStopIdempotent | Uniselector.js:124-132 | start and stop are idempotent and leave index and direction alone |
| Uniselector.ResetEvent | Uniselector.js:134-142 | reset sets slot 1 forward and pulses `gate1` with 1 iff `resetSignal`, outputs and `gate1` connected; otherwise it sends nothing |
| Uniselector.ReverseAlwaysMoves | Uniselector.js:75-104 | under `reverse` with two or more outputs every gate moves the cursor and it keeps running |
| Uniselector.ReverseTrace | Uniselector.js:74-121 | with three outputs under `reverse`, six gates from slot 1 pulse 2, 3, 2, 1, 2, 3 |
| Uniselector.ForwardRun | Uniselector.js:110-111 | `k` forward gates that stay within range move the index by `k` |
| Uniselector.ResetPolicyPeriod | Uniselector.js:88-111 | under `reset` the cursor returns to the same state after `outputs` gates |
| GenerateData.StopNode | GenerateData.js:85-93 | stop halts a running node, cancels its timer and keeps the index; a stopped node is unchanged |
| GenerateData.RunEntry | GenerateData.js:121-143 | a running node with a well-formed current entry schedules one timer carrying its value; a malformed entry is reported and stops the node |
| GenerateData.Init | GenerateData.js:61-83 | the node starts at index 0 with the timer invariant; without `autoStart` it is idle and silent; with it, entry 0 is scheduled, or reported and the node stopped when malformed |
| GenerateData.Step | GenerateData.js:79-143 | every event keeps the timer invariant; start while running and a stale fire do nothing; stop halts silently and keeps the index; a value is sent only by a due timer's fire, and it is the value that timer captured; other events can only report data errors |
| GenerateData.InitEstablishesInv | GenerateData.js:61-71 | the node after startup satisfies the timer invariant |
| GenerateData.StepPreservesInv | GenerateData.js:79-143 | every handler keeps the timer invariant: one handle, due iff running, carrying the current entry's value |
| GenerateData.AtMostOneDue | GenerateData.js:128-137 | at most one timer is due, and exactly one while running |
| GenerateData.StartWhileRunning | GenerateData.js:80 | start on a running node does nothing |
| GenerateData.StartIdempotent | GenerateData.js:79-83 | starting twice leaves the same state as starting once |
| GenerateData.StartFromStopped | GenerateData.js:79-137 | starting a stopped node leaves exactly one timer due with the current entry's value |
| GenerateData.FireAdvances | GenerateData.js:106-137 | a fire sends the entry's value when connected and schedules the next entry |
| GenerateData.FireAtEnd | GenerateData.js:107-117 | past the last entry the index is 0; under "nothing" the node stops with nothing due, else entry 0 is scheduled |
| GenerateData.OtherEndPoliciesActAsReset | GenerateData.js:106-119 | any `doOnEnd` other than "nothing" behaves exactly like "reset" |
| GenerateData.StopCancels | GenerateData.js:85-93 | stop leaves nothing due and keeps the index |
| GenerateData.ResetRestarts | GenerateData.js:95-103 | reset cancels the old timer, goes to entry 0 and restarts; a malformed entry 0 is reported |
| GenerateData.MalformedEntryStops | GenerateData.js:138-142 | starting on a malformed entry reports it and leaves the node stopped with nothing due |
| GenerateData.StaleTimerIsSilent | GenerateData.js:85-103 | a cancelled or already-run timer sends nothing |
| Delay.OnGate | Delay.js:65-80 | a gate latches its payload; with a handle stored it does nothing else; an idle absolute slot starts a timer; it sends only on a relative slot whose timeout is up |
| Delay.OnFire | Delay.js:83-96 | a fire leaves no handle; an absolute slot sends the payload and clears; a relative slot sends and re-arms when its gate is up, and otherwise only raises `timeout` |
| Delay.Init | Delay.js:46-63 | after startup exactly the relative slots have a handle and one pending callback |
| Delay.Step | Delay.js:65-112 | an event on port `p` changes only slot `p` and sends only on `gate<p>` when connected; events on undeclared ports do nothing |
| Delay.InitEstablishesInv | Delay.js:46-63 | the slots after startup satisfy the per-slot invariant |
| Delay.SlotStepPreservesInv | Delay.js:65-112 | a gate on, or a fire of, one slot keeps that slot's invariant |
| Delay.StepPreservesInv | Delay.js:65-112 | every event keeps the per-slot invariant relating flags, handle and pending callbacks |
| Delay.AtMostOnePending | Delay.js:69-109 | no slot ever has more than one timer callback outstanding |
| Delay.RunPreservesInv | Delay.js:65-112 | the invariant holds after any sequence of events |
| Delay.StartupArmsRelativeOnly | Delay.js:47-63 | at startup no flag is up and a slot has a pending timer iff it is relative |
| Delay.AbsoluteGateArmsOnce | Delay.js:65-77 | an absolute gate on an idle slot arms exactly one timer; a second gate only replaces the payload |
| Delay.AbsoluteFire | Delay.js:90-105 | an absolute fire sends the latest payload once, clears both flags and leaves no timer |
| Delay.RelativeFireWithGate | Delay.js:84-109 | a relative fire with the gate up sends and re-arms, yet the stored handle reads false |
| Delay.RelativeFireWithoutGate | Delay.js:84-94 | a relative fire without a gate only raises `timeout`; nothing is re-armed |
| Delay.RelativeGateAfterTimeout | Delay.js:69-109 | a relative gate after an unanswered timeout sends at once and re-arms |
| Delay.RelativeGateWhileRunning | Delay.js:65-74 | a relative gate while its timer runs only latches |
| Delay.EmissionClearsFlags | Delay.js:100-105 | a step that sends leaves both flags down; with the output unconnected the state is the same and nothing is sent |
| Delay.AbsoluteGatesOverwrite | Delay.js:65-69 | while an absolute timer runs, any run of gates sends nothing and keeps only the last payload |
| Delay.AbsoluteBurstFromIdle | Delay.js:65-77 | from idle, a burst of absolute gates sends nothing and leaves the slot armed once with the last payload |
| Delay.AbsoluteBurstSendsLast | Delay.js:65-105 | from idle, a burst of gates and the fire send only the last payload |
| Interval.Init | Interval.js:47-49 | at startup the ticker is armed iff `start` is true |
| Interval.StartTimer | Interval.js:51-58 | starting always leaves the ticker armed |
| Interval.Step | Interval.js:51-66 | start arms, stop disarms; a tick keeps the state and sends 1 iff armed |
| Interval.StartStopIdempotent | Interval.js:52-63 | a second start or stop changes nothing |
| Interval.TickSendsOne | Interval.js:54-56 | a tick while armed sends exactly 1; stopped, nothing |
| Interval.RunFollowsLastControl | Interval.js:51-66 | after any run the ticker is armed iff its last start/stop was a start (or, with none, as it began) |
| Interval.ArmedTicks | Interval.js:54-56 | while armed, `n` ticks send `n` ones |
| Interval.StoppedIsSilent | Interval.js:62-66 | a stopped ticker sends nothing however many ticks arrive |
| Interval.OnePerTick | Interval.js:51-58 | started and never stopped, the ticker sends one 1 per tick whatever starts come in between |

## Left out

- `description()` in every device reads a Markdown file from disk; file I/O is not modelled.
- Telemetry is not modelled: `render()`, the `shares` snapshots sent to the host, and the periodic refresh timers. `Buffer.bufferCount` is kept because its agreement with the buffer is a stated property.
- The vrack2-core host is not part of this model. That covers option schemas (`Rule`), dynamic port expansion and `addInputHandler` dispatch. Validated options are taken as given, and port dispatch is the `Event` datatype. Events on ports a node does not declare are no-ops.
- Timer durations and wall-clock order are not modelled. `setTimeout`/`setInterval` callbacks are `Fire`/`Tick` events the environment may deliver at any time; clearing a timer removes its pending callback.
- `terminate`, `notify` and `error` are abstract outcomes: Mixer's `Violations`/`StartsUp`, Unmixer's `Warning` output and GenerateData's `DataError` output.
- Numbers are integers. The model has no floating point, no fractional counts and no `Math.floor`. The Aggregate average is a `real`, and Buffer counts are integers.
- `Signals.ToNumber`: `Number` of a string is modelled only for plain decimal digits; any other non-empty string gives NaN. Whitespace, signs, hex and exponents are not parsed.
- Mixer.Violations: route keys are integer slots or non-numeric text. `parseInt` accepting a numeric prefix such as `"2x"` is not modelled.
- JavaScript object keys are strings, so `1` and `"1"` name the same entry. In the model the maps of Differ, List, Aggregate and Mixer are keyed by `Value`, so `Num(1)` and `Str("1")` are different keys.
- The maps of Differ, List, Aggregate and Mixer model an object's own keys only. A name inherited through the prototype chain (`"toString"`, `"constructor"`, `"__proto__"`) reads as a function or object in JavaScript, not as `undefined`. The model does not cover it: List would send a function, Differ would send on the first gate of such a channel, and Aggregate would throw on `push`.
- Arrays and objects are not payloads of `Value`. The identity semantics of `===` on them are not modelled.
- Aggregate.Step: units are integers. `Math.max`/`Math.min`/`+` over non-numeric units is not modelled.
- Unmixer.OnGate: a channel that `Number` turns into NaN makes the code push to a port that does not exist. That crash is recorded as the `fault` flag.
- Mixer.Step: a push to an FX group that does not exist is recorded as `fault`, and the rest of that handler is dropped.
- GenerateData.StartIdempotent: the outputs of a second start are claimed to be empty only when the current entry is well-formed. A malformed entry is reported again, as the code does.
