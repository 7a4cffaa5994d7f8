/**
 * The controller's shared state and the session cycle of `BleController::run`
 * as pure functions: GATT event dispatch, one connected phase (the service
 * loop and the two stream engines interleaved by a cooperative scheduler),
 * and the published lifecycle trace.
 */
module Session {
  import opened Wrappers
  import opened Control
  import opened Channel
  import opened Stream

  /** The lifecycle events published to observers. */
  datatype BleEvent = Idle | Advertising | Connected | Disconnected

  /** The session state machine: the event published after each event. */
  function Successor(e: BleEvent): BleEvent
  {
    match e
    case Idle => Advertising
    case Advertising => Connected
    case Connected => Disconnected
    case Disconnected => Advertising
  }

  /** `evs` continues, step by step through the state machine, a trace that ended in `last`. */
  ghost predicate ContinuesFrom(last: BleEvent, evs: seq<BleEvent>)
  {
    && (evs != [] ==> evs[0] == Successor(last))
    && forall i :: 0 < i < |evs| ==> evs[i] == Successor(evs[i - 1])
  }

  /** A whole trace: Idle first, then every event the successor of the one before. */
  ghost predicate Lifecycle(trace: seq<BleEvent>)
  {
    trace != [] && trace[0] == Idle && ContinuesFrom(Idle, trace[1..])
  }

  /** The controller fields that outlive a connection. */
  datatype Shared = Shared(
    status: U64,
    notifyActive: bool,
    indicateActive: bool,
    notifyQueue: Queue<StreamConfig>,
    indicateQueue: Queue<StreamConfig>)

  /** The state `BleController::new` builds: both streams unsubscribed, both queues empty. */
  function Boot(): (r: Shared)
    ensures !r.notifyActive && !r.indicateActive
    ensures r.notifyQueue.items == [] && r.indicateQueue.items == []
    ensures Bounded(r)
  {
    Shared(0, false, false, Empty(), Empty())
  }

  predicate Bounded(s: Shared)
  {
    Channel.Valid(s.notifyQueue) && Channel.Valid(s.indicateQueue)
  }

  function Active(s: Shared, kind: Kind): bool
  {
    match kind
    case Notify => s.notifyActive
    case Indicate => s.indicateActive
  }

  function QueueOf(s: Shared, kind: Kind): Queue<StreamConfig>
  {
    match kind
    case Notify => s.notifyQueue
    case Indicate => s.indicateQueue
  }

  function WithQueue(s: Shared, kind: Kind, q: Queue<StreamConfig>): Shared
  {
    match kind
    case Notify => s.(notifyQueue := q)
    case Indicate => s.(indicateQueue := q)
  }

  /**
   * `handle_control_write`: decode the word and offer each configuration to
   * its own queue. Each queue gains its configuration exactly when it has
   * room, whatever happens to the other one.
   */
  function EnqueueConfigs(s: Shared, value: U64): (r: Shared)
    ensures r.status == s.status
    ensures r.notifyActive == s.notifyActive && r.indicateActive == s.indicateActive
    ensures r.notifyQueue.items
         == if Full(s.notifyQueue) then s.notifyQueue.items
            else s.notifyQueue.items + [Decode(value).notify]
    ensures r.indicateQueue.items
         == if Full(s.indicateQueue) then s.indicateQueue.items
            else s.indicateQueue.items + [Decode(value).indicate]
    ensures Bounded(s) ==> Bounded(r)
  {
    var d := Decode(value);
    s.(notifyQueue := TrySend(s.notifyQueue, d.notify).queue,
       indicateQueue := TrySend(s.indicateQueue, d.indicate).queue)
  }

  /** The three GATT events the service loop hands to its closure. */
  datatype GattEvent =
    | ControlWrite(value: U64)
    | NotifyCccdWrite(notifications: bool)
    | IndicateCccdWrite(indications: bool)

  /**
   * The GATT event closure of `run`. A control write mirrors the word into
   * `status` and then enqueues its two configurations; a CCCD write sets its
   * stream's flag and touches nothing else.
   */
  function Dispatch(s: Shared, e: GattEvent): (r: Shared)
    ensures e.ControlWrite? ==> r.status == e.value && r == EnqueueConfigs(s.(status := e.value), e.value)
    ensures e.NotifyCccdWrite? ==> r == s.(notifyActive := e.notifications)
    ensures e.IndicateCccdWrite? ==> r == s.(indicateActive := e.indications)
    ensures Bounded(s) ==> Bounded(r)
  {
    match e
    case ControlWrite(value) => EnqueueConfigs(s.(status := value), value)
    case NotifyCccdWrite(on) => s.(notifyActive := on)
    case IndicateCccdWrite(on) => s.(indicateActive := on)
  }

  /** Writing the same subscription value twice is the same as writing it once. */
  lemma CccdWriteIdempotent(s: Shared, e: GattEvent)
    requires !e.ControlWrite?
    ensures Dispatch(Dispatch(s, e), e) == Dispatch(s, e)
  {
  }

  /** What may happen next while connected: a GATT event or one pass of an engine's loop. */
  datatype Activity =
    | Gatt(event: GattEvent)
    | NotifyTick(notified: bool)
    | IndicateTick(indicated: bool)

  /**
   * The connected phase so far: the shared fields, both engines' locals, the
   * payloads handed to the transport on each characteristic, and whether a
   * failed notification has stopped the process.
   */
  datatype Phase = Phase(
    shared: Shared,
    notify: Engine,
    indicate: Engine,
    notified: seq<U16>,
    indicated: seq<U16>,
    halted: bool)

  /** A connection arrives: both engine futures are created afresh, the shared fields carry over. */
  function Connect(s: Shared): (r: Phase)
    ensures r.shared == s && !r.halted
    ensures r.notify.counter == 0 && r.notify.config == StreamConfig(0x28, 100)
    ensures r.indicate.counter == 0 && r.indicate.config == StreamConfig(0x28, 1000)
    ensures r.notified == [] && r.indicated == []
  {
    Phase(s, Fresh(Notify), Fresh(Indicate), [], [], false)
  }

  /**
   * One activity of the connected phase. Each activity touches only its own
   * part: a GATT event only the shared fields, an engine pass only that
   * engine, its queue and its payload log.
   */
  function Perform(p: Phase, a: Activity): (r: Phase)
    ensures a.Gatt? ==> r == p.(shared := Dispatch(p.shared, a.event))
    ensures a.NotifyTick? ==>
      && r.shared == p.shared.(notifyQueue := r.shared.notifyQueue)
      && r.indicate == p.indicate && r.indicated == p.indicated
      && (r.halted <==> p.shared.notifyActive && !a.notified)
    ensures a.IndicateTick? ==>
      && r.shared == p.shared.(indicateQueue := r.shared.indicateQueue)
      && r.notify == p.notify && r.notified == p.notified && r.halted == p.halted
  {
    match a
    case Gatt(e) => p.(shared := Dispatch(p.shared, e))
    case NotifyTick(ok) =>
      var r := Step(Notify, p.notify, p.shared.notifyActive, p.shared.notifyQueue, ok);
      p.(shared := p.shared.(notifyQueue := r.queue),
         notify := r.engine,
         notified := if r.outcome.Emitted? then p.notified + [r.outcome.payload] else p.notified,
         halted := r.outcome.Panicked?)
    case IndicateTick(ok) =>
      var r := Step(Indicate, p.indicate, p.shared.indicateActive, p.shared.indicateQueue, ok);
      p.(shared := p.shared.(indicateQueue := r.queue),
         indicate := r.engine,
         indicated := if r.outcome.Emitted? then p.indicated + [r.outcome.payload] else p.indicated)
  }

  /** The activities of a connected phase in scheduler order, until the process halts. */
  function PerformAll(p: Phase, acts: seq<Activity>): (r: Phase)
    // A halted process does nothing more.
    ensures p.halted ==> r == p
    // Payload logs only grow: what was handed to the transport stays handed.
    ensures p.notified <= r.notified && p.indicated <= r.indicated
    // Only a notify pass can halt, so a phase of GATT events and indications never halts.
    ensures (forall i :: 0 <= i < |acts| ==> !acts[i].NotifyTick?) ==> r.halted == p.halted
    decreases |acts|
  {
    if acts == [] || p.halted then p else PerformAll(Perform(p, acts[0]), acts[1..])
  }

  /** Which of the three futures raced by `select3` finished first (only logged). */
  datatype Ending = ServerStopped | NotifyStopped | IndicateStopped

  /**
   * One pass of `run`'s loop as seen from outside: whether advertising
   * produced a connection, what happened while connected, and which future
   * ended the connected phase.
   */
  datatype Connection = Connection(accepted: bool, activities: seq<Activity>, ending: Ending)

  datatype CycleResult = CycleResult(
    shared: Shared,
    events: seq<BleEvent>,
    notified: seq<U16>,
    indicated: seq<U16>,
    halted: bool)

  /**
   * One advertise-connect-serve-disconnect cycle. A failed advertisement and
   * a failed notification both stop the process (`unwrap!`); otherwise the
   * cycle publishes Disconnected, whichever future ended first.
   */
  function Cycle(s: Shared, c: Connection): (r: CycleResult)
    ensures r.events == [Advertising] + (if c.accepted then [Connected] else [])
                        + (if r.halted then [] else [Disconnected])
    ensures !c.accepted ==> r.halted && r.shared == s
  {
    if !c.accepted then CycleResult(s, [Advertising], [], [], true)
    else
      var p := PerformAll(Connect(s), c.activities);
      CycleResult(p.shared, [Advertising, Connected] + (if p.halted then [] else [Disconnected]),
                  p.notified, p.indicated, p.halted)
  }

  datatype RunResult = RunResult(shared: Shared, events: seq<BleEvent>, halted: bool)

  /** Successive cycles of `run`'s loop, until one of them halts the process. */
  function RunAll(s: Shared, cs: seq<Connection>): (r: RunResult)
    // Every cycle that does not halt publishes exactly three events.
    ensures !r.halted ==> |r.events| == 3 * |cs|
    ensures r.halted ==> cs != [] && |r.events| <= 3 * |cs|
    ensures cs != [] ==> r.events != [] && r.events[0] == Advertising
    decreases |cs|
  {
    if cs == [] then RunResult(s, [], false)
    else
      var r := Cycle(s, cs[0]);
      if r.halted then RunResult(r.shared, r.events, true)
      else
        var rest := RunAll(r.shared, cs[1..]);
        RunResult(rest.shared, r.events + rest.events, rest.halted)
  }

  /** Running `cs` from `s` after publishing `done` gives `target`. */
  ghost predicate Completes(s: Shared, cs: seq<Connection>, done: seq<BleEvent>, target: RunResult)
  {
    && RunAll(s, cs).shared == target.shared
    && RunAll(s, cs).halted == target.halted
    && done + RunAll(s, cs).events == target.events
  }

  /** After the first cycle, either the run has halted at `target` or the rest completes it. */
  lemma CompletesStep(s: Shared, cs: seq<Connection>, done: seq<BleEvent>, target: RunResult)
    requires cs != [] && Completes(s, cs, done, target)
    ensures var r := Cycle(s, cs[0]);
      if r.halted then r.shared == target.shared && done + r.events == target.events && target.halted
      else Completes(r.shared, cs[1..], done + r.events, target)
  {
    var r := Cycle(s, cs[0]);
    if !r.halted {
      var rest := RunAll(r.shared, cs[1..]);
      assert done + (r.events + rest.events) == (done + r.events) + rest.events;
    }
  }

  /** Everything `run` publishes from process start, for the given connections. */
  function Trace(cs: seq<Connection>): (r: seq<BleEvent>)
    ensures Lifecycle(r)
  {
    RunAllFollowsMachine(Boot(), cs, Idle);
    var r := [Idle] + RunAll(Boot(), cs).events;
    assert r[1..] == RunAll(Boot(), cs).events;
    r
  }

  // ---------------------------------------------------------------------------
  // Lifecycle ordering

  lemma ContinuesAppend(last: BleEvent, a: seq<BleEvent>, b: seq<BleEvent>)
    requires ContinuesFrom(last, a) && a != []
    requires ContinuesFrom(a[|a| - 1], b)
    ensures ContinuesFrom(last, a + b)
  {
    var ab := a + b;
    forall i | 0 < i < |ab|
      ensures ab[i] == Successor(ab[i - 1])
    {
      if i >= |a| {
        if i == |a| {
          assert ab[i] == b[0];
        } else {
          assert ab[i] == b[i - |a|] && ab[i - 1] == b[i - 1 - |a|];
        }
      }
    }
  }

  /** One cycle steps through the machine from Idle or Disconnected, ending in Disconnected unless it halts. */
  lemma CycleFollowsMachine(s: Shared, c: Connection, last: BleEvent)
    requires last == Idle || last == Disconnected
    ensures ContinuesFrom(last, Cycle(s, c).events)
    ensures !Cycle(s, c).halted ==> Cycle(s, c).events[|Cycle(s, c).events| - 1] == Disconnected
  {
  }

  /**
   * From a state where the previous cycle ended (or nothing has happened
   * yet), the cycles follow the state machine, and unless the process halted
   * the last event published is Disconnected.
   */
  lemma {:induction false} RunAllFollowsMachine(s: Shared, cs: seq<Connection>, last: BleEvent)
    requires last == Idle || last == Disconnected
    ensures ContinuesFrom(last, RunAll(s, cs).events)
    ensures !RunAll(s, cs).halted && RunAll(s, cs).events != [] ==>
      RunAll(s, cs).events[|RunAll(s, cs).events| - 1] == Disconnected
    decreases |cs|
  {
    if cs != [] {
      var r := Cycle(s, cs[0]);
      CycleFollowsMachine(s, cs[0], last);
      if !r.halted {
        var rest := RunAll(r.shared, cs[1..]);
        assert RunAll(s, cs) == RunResult(rest.shared, r.events + rest.events, rest.halted);
        RunAllFollowsMachine(r.shared, cs[1..], Disconnected);
        ContinuesAppend(last, r.events, rest.events);
        if rest.events != [] {
          assert (r.events + rest.events)[|r.events + rest.events| - 1] == rest.events[|rest.events| - 1];
        }
      } else {
        assert RunAll(s, cs).events == r.events;
      }
    }
  }

  /**
   * In a lifecycle trace Idle occurs only first, and every Connected is
   * immediately preceded by Advertising and, unless it is the last event,
   * immediately followed by Disconnected.
   */
  lemma LifecycleBracketsConnections(trace: seq<BleEvent>)
    requires Lifecycle(trace)
    ensures forall i :: 0 < i < |trace| ==> trace[i] != Idle
    ensures forall i :: 0 <= i < |trace| && trace[i] == Connected ==>
      && 0 < i && trace[i - 1] == Advertising
      && (i + 1 < |trace| ==> trace[i + 1] == Disconnected)
  {
    var t := trace[1..];
    forall i | 0 < i < |trace|
      ensures trace[i] == Successor(trace[i - 1]) && trace[i] != Idle
    {
      assert trace[i] == t[i - 1];
      if i > 1 {
        assert trace[i - 1] == t[i - 2];
      }
    }
  }

  // ---------------------------------------------------------------------------
  // Counters over a connection

  /** The `u8` that `n` increments of a zero counter produce. */
  function Wrap(n: nat): (c: U8)
  {
    if n == 0 then 0 else Next(Wrap(n - 1))
  }

  lemma {:induction false} WrapValue(n: nat)
    ensures Wrap(n) as int == n % 0x100
  {
    if n > 0 {
      WrapValue(n - 1);
      assert ((n - 1) % 0x100 + 1) % 0x100 == n % 0x100;
    }
  }

  /** Each engine's counter equals the number of its payloads so far, wrapped to a byte. */
  ghost predicate CountersTrack(p: Phase)
  {
    LogTracks(p.notified, p.notify.counter) && LogTracks(p.indicated, p.indicate.counter)
  }

  /** A payload log and its counter stay in step when one more payload is emitted. */
  ghost predicate LogTracks(log: seq<U16>, counter: U8)
  {
    counter == Wrap(|log|) && forall j :: 0 <= j < |log| ==> LowByte(log[j]) == Wrap(j) as U16
  }

  lemma AppendTracks(log: seq<U16>, counter: U8, payload: U16)
    requires LogTracks(log, counter) && LowByte(payload) == counter as U16
    ensures LogTracks(log + [payload], Next(counter))
  {
  }

  lemma StepTracks(kind: Kind, e: Engine, log: seq<U16>, active: bool, q: Queue<StreamConfig>, ok: bool)
    requires LogTracks(log, e.counter)
    ensures var r := Step(kind, e, active, q, ok);
      LogTracks(if r.outcome.Emitted? then log + [r.outcome.payload] else log, r.engine.counter)
  {
    var r := Step(kind, e, active, q, ok);
    if r.outcome.Emitted? {
      AppendTracks(log, e.counter, r.outcome.payload);
    }
  }

  lemma PerformTracksCounters(p: Phase, a: Activity)
    requires CountersTrack(p)
    ensures CountersTrack(Perform(p, a))
  {
    match a
    case Gatt(e) =>
    case NotifyTick(ok) =>
      StepTracks(Notify, p.notify, p.notified, p.shared.notifyActive, p.shared.notifyQueue, ok);
    case IndicateTick(ok) =>
      StepTracks(Indicate, p.indicate, p.indicated, p.shared.indicateActive, p.shared.indicateQueue, ok);
  }

  lemma {:induction false} PerformAllTracksCounters(p: Phase, acts: seq<Activity>)
    requires CountersTrack(p)
    ensures CountersTrack(PerformAll(p, acts))
    decreases |acts|
  {
    if acts != [] && !p.halted {
      PerformTracksCounters(p, acts[0]);
      PerformAllTracksCounters(Perform(p, acts[0]), acts[1..]);
    }
  }

  /**
   * On every connection the low bytes handed to the transport on each
   * characteristic run 0, 1, ..., 255, 0, 1, ..., whatever configurations,
   * subscription changes and failed indications happen in between.
   */
  lemma ConnectionLowBytesCycle(s: Shared, acts: seq<Activity>)
    ensures var p := PerformAll(Connect(s), acts);
      && (forall j :: 0 <= j < |p.notified| ==> LowByte(p.notified[j]) as int == j % 0x100)
      && (forall j :: 0 <= j < |p.indicated| ==> LowByte(p.indicated[j]) as int == j % 0x100)
  {
    PerformAllTracksCounters(Connect(s), acts);
    var p := PerformAll(Connect(s), acts);
    forall j | 0 <= j < |p.notified|
      ensures LowByte(p.notified[j]) as int == j % 0x100
    {
      WrapValue(j);
      assert (Wrap(j) as U16) as int == Wrap(j) as int;
    }
    forall j | 0 <= j < |p.indicated|
      ensures LowByte(p.indicated[j]) as int == j % 0x100
    {
      WrapValue(j);
      assert (Wrap(j) as U16) as int == Wrap(j) as int;
    }
  }

  // ---------------------------------------------------------------------------
  // What a connected phase does to the shared fields

  /** Activities that are GATT events of the given shape. */
  predicate IsControlWrite(a: Activity) { a.Gatt? && a.event.ControlWrite? }

  /** The status after `acts`: the last control word written, if any. */
  function LastWrite(status: U64, acts: seq<Activity>): U64
    decreases |acts|
  {
    if acts == [] then status
    else LastWrite(if IsControlWrite(acts[0]) then acts[0].event.value else status, acts[1..])
  }

  /** A stream's subscription after `acts`: the last CCCD value written for it, if any. */
  function LastSubscription(kind: Kind, on: bool, acts: seq<Activity>): bool
    decreases |acts|
  {
    if acts == [] then on
    else
      var on' := match acts[0]
        case Gatt(NotifyCccdWrite(b)) => if kind == Notify then b else on
        case Gatt(IndicateCccdWrite(b)) => if kind == Indicate then b else on
        case _ => on;
      LastSubscription(kind, on', acts[1..])
  }

  /**
   * Unless the process halts, `status` ends as the last control word written
   * during the phase, and each stream's flag as the last subscription value
   * written for it; nothing else touches them.
   */
  lemma {:induction false} PhaseMirrorsLastWrites(p: Phase, acts: seq<Activity>)
    requires !p.halted
    ensures var q := PerformAll(p, acts);
      !q.halted ==>
        && q.shared.status == LastWrite(p.shared.status, acts)
        && q.shared.notifyActive == LastSubscription(Notify, p.shared.notifyActive, acts)
        && q.shared.indicateActive == LastSubscription(Indicate, p.shared.indicateActive, acts)
    decreases |acts|
  {
    if acts != [] {
      var p' := Perform(p, acts[0]);
      if !p'.halted {
        PhaseMirrorsLastWrites(p', acts[1..]);
      } else {
        assert PerformAll(p, acts) == p';
      }
    }
  }

  /** No queue ever holds more than four configurations. */
  lemma {:induction false} PhaseKeepsQueuesBounded(p: Phase, acts: seq<Activity>)
    requires Bounded(p.shared)
    ensures Bounded(PerformAll(p, acts).shared)
    decreases |acts|
  {
    if acts != [] && !p.halted {
      var p' := Perform(p, acts[0]);
      assert Bounded(p'.shared);
      PhaseKeepsQueuesBounded(p', acts[1..]);
    }
  }

  lemma {:induction false} RunKeepsQueuesBounded(s: Shared, cs: seq<Connection>)
    requires Bounded(s)
    ensures Bounded(RunAll(s, cs).shared)
    decreases |cs|
  {
    if cs != [] {
      if cs[0].accepted {
        PhaseKeepsQueuesBounded(Connect(s), cs[0].activities);
      }
      if !Cycle(s, cs[0]).halted {
        RunKeepsQueuesBounded(Cycle(s, cs[0]).shared, cs[1..]);
      }
    }
  }

  /**
   * A disconnect does not clear a subscription: when the previous
   * connection left the notify stream subscribed, the first notify pass of
   * the next connection emits at once, from a counter of zero, with the
   * default configuration or the one queued meanwhile.
   */
  lemma SubscriptionSurvivesReconnect(s: Shared, c: Connection)
    requires !Cycle(s, c).halted && Cycle(s, c).shared.notifyActive
    ensures var s' := Cycle(s, c).shared;
      var p := Perform(Connect(s'), NotifyTick(true));
      p.notified == [Payload(if s'.notifyQueue.items == [] then NotifyDefault else s'.notifyQueue.items[0], 0)]
  {
  }

  /**
   * GATT events never touch an engine: toggling a subscription off and on,
   * or reconfiguring, leaves each engine's counter and current configuration
   * as they were, so streaming resumes where it stopped.
   */
  lemma {:induction false} GattEventsLeaveEnginesAlone(p: Phase, acts: seq<Activity>)
    requires forall i :: 0 <= i < |acts| ==> acts[i].Gatt?
    ensures var q := PerformAll(p, acts);
      && q.notify == p.notify && q.indicate == p.indicate
      && q.notified == p.notified && q.indicated == p.indicated
      && q.halted == p.halted
    decreases |acts|
  {
    if acts != [] && !p.halted {
      GattEventsLeaveEnginesAlone(Perform(p, acts[0]), acts[1..]);
    }
  }
}
