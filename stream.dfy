/**
 * One iteration of a stream engine (`handle_notify_stream` and
 * `handle_indicate_stream`), as a function of the engine's local state, the
 * shared `active` flag, the engine's configuration queue and the result the
 * transport gives for the emission. The two engines differ only in their
 * default interval and in what an emission failure does.
 */
module Stream {
  import opened Wrappers
  import opened Control
  import opened Channel

  datatype Kind = Notify | Indicate

  /** Poll period while the stream is not subscribed. */
  const IdlePollMs: nat := 250

  /** Guard margin added to the configured interval. */
  const GuardMs: nat := 5

  function DefaultConfig(kind: Kind): StreamConfig
  {
    match kind
    case Notify => NotifyDefault
    case Indicate => IndicateDefault
  }

  /** The locals of the engine's async fn: current configuration and counter. */
  datatype Engine = Engine(config: StreamConfig, counter: U8)

  /** The state each engine starts in when its future is created. */
  function Fresh(kind: Kind): Engine { Engine(DefaultConfig(kind), 0) }

  /** What one iteration does, and how long it then sleeps. */
  datatype Outcome =
    | Waited(waitMs: nat)                                  // not active: poll again later
    | Emitted(payload: U16, delivered: bool, waitMs: nat)  // payload handed to the transport
    | Panicked(payload: U16)                               // `unwrap!` on a failed notification

  /** The upper and lower byte of a stream value. */
  function HighByte(p: U16): U16 { p >> 8 }

  function LowByte(p: U16): U16 { p & 0xFF }

  /** The 16-bit stream value `(prefix << 8) | counter`: the prefix above the counter. */
  function Payload(config: StreamConfig, counter: U8): (p: U16)
    ensures HighByte(p) == config.prefix as U16 && LowByte(p) == counter as U16
  {
    ((config.prefix as U16) << 8) | (counter as U16)
  }

  /** `counter.wrapping_add(1)`: 255 wraps to 0. */
  function Next(counter: U8): (c: U8)
    ensures c as int == (counter as int + 1) % 0x100
  {
    if counter == 0xFF then 0 else counter + 1
  }

  datatype StepResult = StepResult(engine: Engine, queue: Queue<StreamConfig>, outcome: Outcome)

  /**
   * One pass through the engine's loop body. `delivered` is the result the
   * transport returns for the notification or indication.
   */
  function Step(kind: Kind, e: Engine, active: bool, queue: Queue<StreamConfig>, delivered: bool): (r: StepResult)
    // Not active: nothing emitted, nothing consumed, nothing changed; poll in 250 ms.
    ensures !active ==> r == StepResult(e, queue, Waited(IdlePollMs))
    // Active: at most one configuration is taken, from the front, and it replaces the current one.
    ensures active && queue.items == [] ==> r.queue == queue && r.engine.config == e.config
    ensures active && queue.items != [] ==> r.queue.items == queue.items[1..] && r.engine.config == queue.items[0]
    // Active: the payload carries the (possibly new) prefix above the counter.
    ensures active ==> !r.outcome.Waited?
    ensures active ==> r.outcome.payload == Payload(r.engine.config, e.counter)
    // Only a failed notification is fatal, and it leaves the counter as it was.
    ensures r.outcome.Panicked? <==> active && kind == Notify && !delivered
    ensures r.outcome.Panicked? ==> r.engine.counter == e.counter
    // Otherwise an active pass counts the emission and sleeps interval + 5 ms,
    // whether or not an indication was acknowledged.
    ensures r.outcome.Emitted? ==>
      && r.outcome.delivered == delivered
      && r.engine.counter == Next(e.counter)
      && r.outcome.waitMs == r.engine.config.intervalMs as int + GuardMs
  {
    if !active then StepResult(e, queue, Waited(IdlePollMs))
    else
      var received := TryReceive(queue);
      var config := match received.value
        case Some(c) => c
        case None => e.config;
      var payload := Payload(config, e.counter);
      if kind == Notify && !delivered then
        StepResult(Engine(config, e.counter), received.queue, Panicked(payload))
      else
        StepResult(Engine(config, Next(e.counter)), received.queue,
                   Emitted(payload, delivered, config.intervalMs as nat + GuardMs))
  }

  /** Two stream kinds behave alike except for the failure policy and the default. */
  lemma KindsAgreeOnSuccess(e: Engine, active: bool, queue: Queue<StreamConfig>)
    ensures Step(Notify, e, active, queue, true) == Step(Indicate, e, active, queue, true)
  {
  }

  /**
   * A freshly created notify engine that is subscribed and finds no queued
   * configuration sends 0x2800, 0x2801, 0x2802, sleeping 105 ms after each.
   */
  lemma FirstNotifications(q: Queue<StreamConfig>)
    requires q.items == []
    ensures var r1 := Step(Notify, Fresh(Notify), true, q, true);
      var r2 := Step(Notify, r1.engine, true, r1.queue, true);
      var r3 := Step(Notify, r2.engine, true, r2.queue, true);
      && r1.outcome == Emitted(0x2800, true, 105)
      && r2.outcome == Emitted(0x2801, true, 105)
      && r3.outcome == Emitted(0x2802, true, 105)
  {
  }

  /**
   * A failed indication costs nothing: the next pass emits the following
   * counter value after the normal interval, exactly as after a success.
   */
  lemma IndicateFailureKeepsCadence(e: Engine, q: Queue<StreamConfig>)
    ensures var failed := Step(Indicate, e, true, q, false);
      var acked := Step(Indicate, e, true, q, true);
      && failed.engine == acked.engine
      && failed.queue == acked.queue
      && failed.outcome.Emitted? && acked.outcome.Emitted?
      && failed.outcome.payload == acked.outcome.payload
      && failed.outcome.waitMs == acked.outcome.waitMs == acked.engine.config.intervalMs as int + GuardMs
  {
  }
}
