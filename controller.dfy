/**
 * `BleController` and the two stream engines as objects whose fields are
 * updated in place. Each method is tied to the pure definitions of the
 * Session and Stream modules, where the properties are proved.
 */
module Ble {
  import opened Wrappers
  import opened Control
  import opened Channel
  import opened Stream
  import opened Session

  class BleController {
    /** The `status` characteristic's value. */
    var status: U64
    var notifyActive: bool
    var indicateActive: bool
    var notifyQueue: Queue<StreamConfig>
    var indicateQueue: Queue<StreamConfig>
    /** Every lifecycle event sent on the event channel, in order. */
    var events: seq<BleEvent>

    function Snapshot(): Shared
      reads this
    {
      Shared(status, notifyActive, indicateActive, notifyQueue, indicateQueue)
    }

    /** `BleController::new`: both flags false, both configuration channels empty. */
    constructor ()
      ensures Snapshot() == Boot() && events == []
      ensures !notifyActive && !indicateActive
    {
      status := 0;
      notifyActive, indicateActive := false, false;
      notifyQueue, indicateQueue := Empty(), Empty();
      events := [];
    }

    /** Decode a control word and `try_send` each half to its stream's channel. */
    method HandleControlWrite(value: U64)
      modifies this`notifyQueue, this`indicateQueue
      ensures Snapshot() == EnqueueConfigs(old(Snapshot()), value)
    {
      var d := Decode(value);
      var sent := TrySend(notifyQueue, d.notify);
      notifyQueue := sent.queue;
      sent := TrySend(indicateQueue, d.indicate);
      indicateQueue := sent.queue;
    }

    /** The closure `run` passes to the GATT server. */
    method OnGattEvent(e: GattEvent)
      modifies this`status, this`notifyActive, this`indicateActive, this`notifyQueue, this`indicateQueue
      ensures Snapshot() == Dispatch(old(Snapshot()), e)
    {
      match e
      case ControlWrite(value) =>
        status := value;
        HandleControlWrite(value);
      case NotifyCccdWrite(on) =>
        notifyActive := on;
      case IndicateCccdWrite(on) =>
        indicateActive := on;
    }

    /** The awaited `send` on the event channel: nothing is ever dropped. */
    method Publish(ev: BleEvent)
      modifies this`events
      ensures events == old(events) + [ev]
    {
      events := events + [ev];
    }

    /**
     * One pass of `run`'s loop: advertise, accept, serve the connection with
     * fresh engines until one of the raced futures ends, publish Disconnected.
     * Returns whether the process halted and the payloads given to the transport.
     */
    method Serve(c: Connection) returns (halted: bool, notified: seq<U16>, indicated: seq<U16>)
      modifies this
      ensures var r := Cycle(old(Snapshot()), c);
        && Snapshot() == r.shared
        && events == old(events) + r.events
        && halted == r.halted && notified == r.notified && indicated == r.indicated
    {
      Publish(Advertising);
      notified, indicated := [], [];
      if !c.accepted {
        // `unwrap!` on a failed advertisement stops the process.
        halted := true;
        return;
      }
      Publish(Connected);
      var ne := new StreamEngine(Notify);
      var ie := new StreamEngine(Indicate);
      ghost var target := PerformAll(Connect(old(Snapshot())), c.activities);
      halted := false;
      var i := 0;
      while i < |c.activities| && !halted
        invariant 0 <= i <= |c.activities|
        invariant ne.kind == Notify && ie.kind == Indicate
        invariant PerformAll(Phase(Snapshot(), ne.State(), ie.State(), notified, indicated, halted),
                             c.activities[i..]) == target
        invariant events == old(events) + [Advertising, Connected]
      {
        assert c.activities[i..][1..] == c.activities[i + 1..];
        match c.activities[i] {
          case Gatt(e) =>
            OnGattEvent(e);
          case NotifyTick(ok) =>
            var outcome := ne.Iterate(this, ok);
            if outcome.Emitted? {
              notified := notified + [outcome.payload];
            }
            halted := outcome.Panicked?;
          case IndicateTick(ok) =>
            var outcome := ie.Iterate(this, ok);
            if outcome.Emitted? {
              indicated := indicated + [outcome.payload];
            }
        }
        i := i + 1;
      }
      // Whichever of the three futures ended first, the next event is Disconnected.
      if !halted {
        Publish(Disconnected);
      }
    }

    /** `run`: publish Idle once, then one `Serve` per connection until the process halts. */
    method Run(cs: seq<Connection>) returns (halted: bool)
      modifies this
      ensures var r := RunAll(old(Snapshot()), cs);
        && events == old(events) + [Idle] + r.events
        && Snapshot() == r.shared
        && halted == r.halted
    {
      Publish(Idle);
      ghost var start := events;
      ghost var target := RunAll(old(Snapshot()), cs);
      ghost var done: seq<BleEvent> := [];
      halted := false;
      var i := 0;
      while i < |cs| && !halted
        invariant 0 <= i <= |cs|
        invariant !halted ==> Completes(Snapshot(), cs[i..], done, target)
        invariant halted ==> Snapshot() == target.shared && done == target.events && target.halted
        invariant events == start + done
      {
        assert cs[i..][0] == cs[i] && cs[i..][1..] == cs[i + 1..];
        ghost var r := Cycle(Snapshot(), cs[i]);
        CompletesStep(Snapshot(), cs[i..], done, target);
        var h, notified, indicated := Serve(cs[i]);
        AppendAssociative(start, done, r.events);
        done := done + r.events;
        halted := h;
        i := i + 1;
      }
      if !halted {
        assert cs[i..] == [];
      }
    }
  }

  lemma AppendAssociative<T>(a: seq<T>, b: seq<T>, c: seq<T>)
    ensures (a + b) + c == a + (b + c)
  {
  }

  /** The locals of one engine future: its current configuration and counter. */
  class StreamEngine {
    const kind: Kind
    var config: StreamConfig
    var counter: U8

    function State(): Engine
      reads this
    {
      Engine(config, counter)
    }

    /** The future is created: default configuration for its kind, counter zero. */
    constructor (kind: Kind)
      ensures this.kind == kind && State() == Fresh(kind)
      ensures counter == 0 && config.prefix == 0x28
      ensures config.intervalMs == if kind == Notify then 100 else 1000
    {
      this.kind := kind;
      config := DefaultConfig(kind);
      counter := 0;
    }

    /**
     * One pass through the engine's loop. `delivered` is what the transport
     * returns for the notification or indication; only the engine's own
     * configuration channel is read.
     */
    method Iterate(ctl: BleController, delivered: bool) returns (outcome: Outcome)
      modifies this, ctl`notifyQueue, ctl`indicateQueue
      ensures var r := Step(kind, old(State()), Active(old(ctl.Snapshot()), kind),
                            QueueOf(old(ctl.Snapshot()), kind), delivered);
        && State() == r.engine
        && outcome == r.outcome
        && ctl.Snapshot() == WithQueue(old(ctl.Snapshot()), kind, r.queue)
    {
      ghost var s0 := ctl.Snapshot();
      ghost var r := Step(kind, State(), Active(s0, kind), QueueOf(s0, kind), delivered);
      var active := if kind == Notify then ctl.notifyActive else ctl.indicateActive;
      assert active == Active(s0, kind);
      if !active {
        outcome := Waited(IdlePollMs);
        return;
      }
      var received := TryReceive(if kind == Notify then ctl.notifyQueue else ctl.indicateQueue);
      assert received == TryReceive(QueueOf(s0, kind));
      if kind == Notify {
        ctl.notifyQueue := received.queue;
      } else {
        ctl.indicateQueue := received.queue;
      }
      assert ctl.Snapshot() == WithQueue(s0, kind, received.queue);
      if received.value.Some? {
        config := received.value.value;
      }
      assert config == r.engine.config;
      var value := Payload(config, counter);
      if kind == Notify && !delivered {
        // `unwrap!` on a failed notification stops the process.
        outcome := Panicked(value);
        assert r == StepResult(State(), received.queue, outcome);
        return;
      }
      counter := Next(counter);
      outcome := Emitted(value, delivered, config.intervalMs as nat + GuardMs);
      assert r == StepResult(State(), received.queue, outcome);
    }
  }
}
