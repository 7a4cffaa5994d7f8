# BLE device-under-test controller, modelled in Dafny

This project models the connection and session manager of a Bluetooth Low
Energy peripheral used as a device under test (`BleController` in
`src/ble.rs`). The peripheral advertises and accepts one connection at a time.
While connected it serves a GATT service with four characteristics:
`status`, `control`, `notify_stream` and `indicate_stream`. Two stream engines
emit a 16-bit value `(prefix << 8) | counter` at a peer-tunable interval.
The peer reconfigures them live by writing a 64-bit control word.

The model has five modules, one per component:

- `Control` (control.dfy): `StreamConfig`, the defaults and the control-word decoder. `Encode` is the peer's side of the bit layout; it is the decoder's inverse.
- `Channel` (channel.dfy): the capacity-4 FIFO channels behind `define_channel!`, with `try_send` and `try_receive`. A channel is a value that its owner reassigns.
- `Stream` (stream.dfy): one pass of an engine's loop, `Step`, as a pure function. It takes the engine's locals (`config`, `counter`), the shared `active` flag, the engine's queue, and the transport's result for the emission.
- `Session` (session.dfy): the controller's shared fields (`Shared`) and the GATT event closure (`Dispatch`). It also holds one connected phase as a scheduler-ordered sequence of activities (`Perform`, `PerformAll`), one advertise–connect–disconnect cycle (`Cycle`), the sequence of cycles (`RunAll`) and the published lifecycle trace (`Trace`).
- `Ble` (controller.dfy): the classes `BleController` and `StreamEngine`. Their fields are updated in place, and each method's postcondition ties the new state to the pure definitions.

Rust's `u8`, `u16` and `u64` are bit-vectors of the same width, so `>>`, `&`,
`<<`, `|` and `wrapping_add` keep their Rust meaning. A narrowing `as` on
bit-vectors is checked in Dafny rather than truncating; the model agrees with the
source because, as in the source, every narrowing cast follows a mask that
already fits the target width.

Some inputs are choices of the environment, so the model takes each as a parameter:

- whether advertising yields a connection;
- the order in which the cooperative scheduler runs GATT events and engine passes;
- whether each notification or indication succeeds;
- which future `select3` sees finish first.

`config` and `counter` are locals of the engine futures, and `run` creates new
futures for every connection (src/ble.rs:257-258). So each connection starts at
`{0x28, 100}` / `{0x28, 1000}` with counter 0 (`Connect`). The `active` flags and
the queues are controller fields and carry over (`SubscriptionSurvivesReconnect`).

## Model

| member | source | states |
|---|---|---|
| `Control.Decode` | src/ble.rs:142-153 | every 64-bit word decodes, and the result is the unique pair of configurations whose encoding equals the word's low 48 bits (notify interval bits 0-15, notify prefix 16-23, indicate interval 24-39, indicate prefix 40-47) |
| `Control.DecodeEncode` | src/ble.rs:144-153 | decoding recovers every pair of configurations a peer can encode |
| `Control.ReservedBitsIgnored` | src/ble.rs:144-153 | two words that agree on bits 0-47 decode identically: bits 48-63 never matter |
| `Control.DecodeExample` | src/ble.rs:144-153 | the word 0x0000_2800_C828_0064 gives notify {0x28, 100 ms} and indicate {0x28, 200 ms} |
| `Channel.TrySend` | src/ble.rs:156-157 | succeeds exactly when the queue holds fewer than 4 values; on success the value is appended at the back, otherwise the queue is unchanged and the value is dropped; never exceeds capacity |
| `Channel.TryReceive` | src/ble.rs:174-179 | reports empty exactly when the queue is empty; otherwise returns the front value and leaves the rest in order |
| `Channel.ReceiveSentIntoEmpty` | src/ble.rs:156-179 | a value sent into an empty queue is the next one received, and the queue is empty again |
| `Channel.ReceiveAfterSend` | src/ble.rs:156-179 | on a queue that is neither empty nor full, receive and send commute: the old front comes out first and the new value goes to the back |
| `Channel.SendAllFills` | src/ble.rs:29-30 | a burst of try_send calls keeps the first k values, where k is the smaller of the burst length and the free room, and reports full for exactly the rest |
| `Channel.SendAll` | src/ble.rs:156-157 | a run of try_send calls reports one result per value, and every value already queued stays at the front in order, and a queue within capacity stays within capacity |
| `Channel.FiveIntoFour` | src/ble.rs:29-30 | five values sent in a row to an empty capacity-4 channel leave exactly the first four queued in order, the first four sends report success and the fifth reports full |
| `Stream.Payload` | src/ble.rs:182 | the emitted value's high byte is the current prefix and its low byte the counter |
| `Stream.Next` | src/ble.rs:186 | the wrapping increment gives (counter + 1) mod 256 |
| `Stream.Step` | src/ble.rs:160-229 | inactive: nothing emitted, counter, config and queue unchanged, wait 250 ms. Active: at most one config is taken, from the front, and replaces the current one before the payload (new prefix above the old counter) is built. A failed notification alone is fatal and leaves the counter. Otherwise the counter is incremented and the wait is the config's interval + 5 ms, acknowledged or not |
| `Stream.KindsAgreeOnSuccess` | src/ble.rs:160-229 | given the same engine state, flag and queue, the two engines behave identically when the emission succeeds |
| `Stream.FirstNotifications` | src/ble.rs:161-189 | a fresh, subscribed notify engine with nothing queued sends 0x2800, 0x2801, 0x2802, each followed by a 105 ms wait |
| `Stream.IndicateFailureKeepsCadence` | src/ble.rs:218-227 | for any engine state and any queue, a failed indication leaves the engine, the queue and the payload exactly as a successful one would, and the wait is the (possibly newly taken) configuration's interval + 5 ms in both cases |
| `Session.EnqueueConfigs` | src/ble.rs:142-158 | each queue gains its own decoded configuration exactly when it has room, independently of the other queue; status and flags unchanged; capacity kept |
| `Session.Dispatch` | src/ble.rs:260-276 | a control write sets status to exactly the written word, then enqueues its two configurations; a CCCD write sets its own stream's flag and changes nothing else |
| `Session.CccdWriteIdempotent` | src/ble.rs:267-274 | writing the same subscription value twice equals writing it once |
| `Session.Boot` | src/ble.rs:107-136 | the controller starts with both flags false and both configuration queues empty, within capacity |
| `Session.Connect` | src/ble.rs:257-258 | a new connection keeps every controller field and starts both engines at prefix 0x28, counter 0, 100 ms (notify) and 1000 ms (indicate), with empty payload logs and not halted |
| `Session.Perform` | src/ble.rs:260-292 | a GATT event changes only the shared fields; an engine pass changes only that engine, its own queue and its log; only a failed notification on an active stream halts |
| `Session.PerformAll` | src/ble.rs:278-292 | once halted nothing more happens; the payload logs only grow; a sequence with no notify pass leaves the halted flag as it was |
| `Session.Cycle` | src/ble.rs:251-294 | a cycle publishes Advertising, then Connected if a connection was accepted, then Disconnected unless the process halted; a failed advertisement halts with the state unchanged |
| `Session.RunAll` | src/ble.rs:244-295 | cycles that do not halt publish exactly three events each, a halting run publishes at most three per cycle and stops on a non-empty input, and any non-empty run begins with Advertising |
| `Session.RunAllFollowsMachine` | src/ble.rs:244-295 | successive cycles follow the state machine Advertising → Connected → Disconnected → Advertising; unless halted, the last event is Disconnected |
| `Session.Trace` | src/ble.rs:231-295 | the published trace starts with Idle and every later event is the state-machine successor of the one before it |
| `Session.LifecycleBracketsConnections` | src/ble.rs:232-294 | in such a trace Idle occurs only first, and every Connected is immediately preceded by Advertising and, unless last, immediately followed by Disconnected |
| `Session.WrapValue` | src/ble.rs:186 | n wrapping increments of a zero u8 counter give n mod 256 |
| `Session.AppendTracks` | src/ble.rs:182-186 | one more emission keeps a stream's payload log and its counter in step |
| `Session.StepTracks` | src/ble.rs:167-190 | one engine pass keeps its payload log and its counter in step, whatever the flag, queue and emission result |
| `Session.PerformTracksCounters` | src/ble.rs:260-292 | any connected-phase activity keeps both engines' logs and counters in step |
| `Session.PerformAllTracksCounters` | src/ble.rs:278-292 | any interleaving of activities keeps both engines' logs and counters in step |
| `Session.ConnectionLowBytesCycle` | src/ble.rs:257-258 | on every connection the low bytes sent on each characteristic run 0, 1, …, 255, 0, …, whatever reconfigurations, subscription changes and failed indications occur in between |
| `Session.PhaseMirrorsLastWrites` | src/ble.rs:262-274 | unless the process halts, a connected phase leaves status equal to the last control word written and each flag equal to the last CCCD value written for that stream |
| `Session.PhaseKeepsQueuesBounded` | src/ble.rs:156-157 | no configuration queue ever holds more than four values during a connection |
| `Session.RunKeepsQueuesBounded` | src/ble.rs:244-295 | no configuration queue ever holds more than four values across any number of cycles |
| `Session.SubscriptionSurvivesReconnect` | src/ble.rs:97-102 | a flag left set by one connection is still set on the next: its first notify pass emits at once, from counter 0, with the default or the queued configuration |
| `Session.GattEventsLeaveEnginesAlone` | src/ble.rs:260-276 | GATT events never touch an engine's counter, configuration or log, so toggling a subscription off and on resumes where the engine stopped |
| `Ble.BleController.constructor` | src/ble.rs:107-136 | both active flags are false, both configuration channels empty, nothing published |
| `Ble.BleController.HandleControlWrite` | src/ble.rs:142-158 | the new state is `EnqueueConfigs` of the old state and the word |
| `Ble.BleController.OnGattEvent` | src/ble.rs:260-276 | the new state is `Dispatch` of the old state and the event |
| `Ble.BleController.Publish` | src/ble.rs:251 | the event is appended to the published events; none is dropped |
| `Ble.BleController.Serve` | src/ble.rs:244-295 | state, published events, payload logs and halting are those of `Cycle`, with fresh engines for the connection |
| `Ble.BleController.Run` | src/ble.rs:231-296 | publishes Idle, then the events of `RunAll`; the final state and halting are those of `RunAll` |
| `Ble.StreamEngine.constructor` | src/ble.rs:161-198 | a new engine has prefix 0x28, counter 0 and interval 100 ms (notify) or 1000 ms (indicate) |
| `Ble.StreamEngine.Iterate` | src/ble.rs:160-229 | the engine's new locals, the outcome and the queues are those of `Step`; only the engine's own queue may change |

## Left out

- `softdevice_config` (src/ble.rs:59-91): radio and clock constants for the foreign SoftDevice stack.
- The GATT service and server macros, advertising payloads and `advertise_connectable` (src/ble.rs:38-57, 234-253). These are transport; the arrival of a connection, or the failure to get one, is the `accepted` input of a `Connection`.
- `select3` and real concurrency (src/ble.rs:278-292). The interleaving is the input sequence of activities, and the winning future is the `Ending` input, which is only logged in the source. In the source the two engine futures never finish, because their loops never exit.
- Timers (src/ble.rs:169, 189, 202, 227): each pass returns its wait in milliseconds instead of sleeping.
- `defmt` logging, `info!` and `error!`.
- The blocking behaviour of the lifecycle event channel: `send` is awaited, so the model records every event in order in `events` and does not model the suspension while the capacity-4 channel is full. `get_ble_event_receiver` and the observer task in src/main.rs are not part of this model.
- `Ble.BleController.constructor`: the initial value of `status` is taken as 0, because it is set by the GATT server macro, which is not part of this model.
- `Ble.BleController.OnGattEvent`: `status_set` is assumed to succeed; its failure would panic through `unwrap!`, but it belongs to the GATT server, which is not part of this model.
- A panic is modelled as the process halting (`halted`): nothing further happens and no Disconnected is published.
- src/itc.rs: the macro wraps `embassy_sync::channel` and `static_cell`, which are not part of this model; its bounded FIFO behaviour is the `Channel` module.
- src/main.rs: hardware initialisation, LED tasks and task spawning: I/O only.
