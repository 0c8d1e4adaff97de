/**
 * The request queue of `StockAPI` (api.js): requests run one at a time, in
 * submission order, and the next one starts no earlier than `requestDelay`
 * milliseconds after the previous one settled. Requests are named by ids;
 * `isProcessing` is `true` exactly when the phase is not `Idle`.
 */
module Scheduler {
  import opened Wrappers

  /** `requestDelay`. */
  const RequestDelay: int := 500

  /** Nothing in flight; a request awaited; or the post-request timer pending until `until`. */
  datatype Phase = Idle | Running(id: nat) | Cooling(until: int)

  /**
   * The queue and phase, the clock, and the history: ids submitted, started
   * and settled (resolved or rejected) in that order, with the times of the
   * starts and settlements.
   */
  datatype Queue = Queue(
    waiting: seq<nat>,
    phase: Phase,
    clock: int,
    submitted: seq<nat>,
    started: seq<nat>,
    settled: seq<nat>,
    startTimes: seq<int>,
    settleTimes: seq<int>)

  /** The constructor: empty queue, not processing. */
  function Initial(clock: int): (q: Queue)
    ensures Inv(q)
  {
    Queue([], Idle, clock, [], [], [], [], [])
  }

  /** The events that drive the queue. */
  datatype Event =
    | Submit(id: nat)   // `queueRequest`
    | Settle            // the running request resolved or rejected
    | TimerFires        // the `requestDelay` timer ran

  /**
   * `processQueue` at the current clock: when not processing and something
   * waits, start the head of the queue.
   */
  function Process(q: Queue): (r: Queue)
    ensures r.submitted == q.submitted && r.settled == q.settled && r.clock == q.clock
    ensures q.phase.Idle? && |q.waiting| > 0 ==>
      r.phase == Running(q.waiting[0]) && r.waiting == q.waiting[1..]
      && r.started == q.started + [q.waiting[0]] && r.startTimes == q.startTimes + [q.clock]
    ensures !(q.phase.Idle? && |q.waiting| > 0) ==> r == q
  {
    if q.phase.Idle? && |q.waiting| > 0 then
      q.(waiting := q.waiting[1..], phase := Running(q.waiting[0]),
         started := q.started + [q.waiting[0]], startTimes := q.startTimes + [q.clock])
    else q
  }

  /**
   * One event at time `now`. `None` when the event cannot happen then: time
   * runs backwards, nothing is running to settle, or no timer is due.
   */
  function Step(q: Queue, e: Event, now: int): (r: Option<Queue>)
    ensures r.Some? <==> now >= q.clock && match e
      case Submit(_) => true
      case Settle => q.phase.Running?
      case TimerFires => q.phase.Cooling? && now >= q.phase.until
    ensures r.Some? ==> r.value.clock == now
    ensures r.Some? && e.Submit? ==> r.value.submitted == q.submitted + [e.id]
    ensures r.Some? && !e.Submit? ==> r.value.submitted == q.submitted
  {
    if now < q.clock then None
    else
      var q' := q.(clock := now);
      match e
      case Submit(id) =>
        Some(Process(q'.(waiting := q'.waiting + [id], submitted := q'.submitted + [id])))
      case Settle =>
        if !q.phase.Running? then None
        else Some(q'.(phase := Cooling(now + RequestDelay), settled := q'.settled + [q.phase.id],
                      settleTimes := q'.settleTimes + [now]))
      case TimerFires =>
        if !q.phase.Cooling? || now < q.phase.until then None
        else Some(Process(q'.(phase := Idle)))
  }

  /** Requests start in submission order: what has started, then what waits, is everything submitted. */
  ghost predicate Fifo(q: Queue) {
    q.started + q.waiting == q.submitted
  }

  /**
   * At most one request is in flight, and it is the last one started; every
   * earlier one has settled, in start order.
   */
  ghost predicate Counted(q: Queue) {
    && |q.startTimes| == |q.started| && |q.settleTimes| == |q.settled|
    && (q.phase.Running? ==>
          |q.started| == |q.settled| + 1 && q.settled == q.started[..|q.settled|]
          && q.started[|q.settled|] == q.phase.id)
    && (!q.phase.Running? ==> q.settled == q.started)
  }

  /** As `Counted`, and nothing waits while idle. */
  ghost predicate OneInFlight(q: Queue) {
    Counted(q) && (q.phase.Idle? ==> q.waiting == [])
  }

  /**
   * Each request started at or before it settled, and each request after
   * the first started at least `RequestDelay` after its predecessor
   * settled; a pending timer is due `RequestDelay` after the last
   * settlement, and an idle queue has already waited that long.
   */
  ghost predicate Spaced(q: Queue)
    requires |q.startTimes| == |q.started| && |q.settleTimes| == |q.settled|
    requires |q.settled| <= |q.started| <= |q.settled| + 1
  {
    && (forall i :: 0 <= i < |q.startTimes| ==> q.startTimes[i] <= q.clock)
    && (forall i :: 0 <= i < |q.settleTimes| ==> q.startTimes[i] <= q.settleTimes[i] <= q.clock)
    && (forall i :: 0 < i < |q.startTimes| ==> q.settleTimes[i - 1] + RequestDelay <= q.startTimes[i])
    && (q.phase.Cooling? ==>
          |q.settleTimes| > 0 && q.phase.until == q.settleTimes[|q.settleTimes| - 1] + RequestDelay)
    && (q.phase.Idle? && |q.settleTimes| > 0 ==>
          q.settleTimes[|q.settleTimes| - 1] + RequestDelay <= q.clock)
  }

  /** What the queue guarantees at every moment. */
  ghost predicate Inv(q: Queue) {
    Fifo(q) && OneInFlight(q) && Spaced(q)
  }

  /** The state an event leaves just before `processQueue` runs: the guarantees, except that an idle queue may hold work. */
  ghost predicate Ready(q: Queue) {
    Fifo(q) && Counted(q) && Spaced(q)
  }

  /** Starting the head of an idle queue keeps requests in submission order. */
  lemma StartKeepsFifo(s: Queue)
    requires Ready(s) && s.phase.Idle? && |s.waiting| > 0
    ensures Fifo(Process(s))
  {
    assert s.waiting == [s.waiting[0]] + s.waiting[1..];
    assert s.started + [s.waiting[0]] + s.waiting[1..] == s.started + s.waiting;
  }

  /** Starting the head of an idle queue puts exactly one request in flight. */
  lemma StartKeepsCounted(s: Queue)
    requires Ready(s) && s.phase.Idle? && |s.waiting| > 0
    ensures Counted(Process(s))
  {
    var r := Process(s);
    assert r.started[..|r.settled|] == s.started;
  }

  /** Starting the head of an idle queue respects the delay since the last settlement. */
  lemma StartKeepsSpaced(s: Queue)
    requires Ready(s) && s.phase.Idle? && |s.waiting| > 0
    requires Counted(Process(s))
    ensures Spaced(Process(s))
  {
    var r := Process(s);
    assert r.startTimes[|r.startTimes| - 1] == s.clock;
  }

  /** `processQueue` turns a ready state into one with all the guarantees. */
  lemma ProcessRestoresInv(s: Queue)
    requires Ready(s)
    ensures Inv(Process(s))
  {
    if s.phase.Idle? && |s.waiting| > 0 {
      StartKeepsFifo(s);
      StartKeepsCounted(s);
      StartKeepsSpaced(s);
    }
  }

  /** Queueing a request keeps the guarantees. */
  lemma SubmitPreservesInv(q: Queue, id: nat, now: int)
    requires Inv(q) && now >= q.clock
    ensures Inv(Step(q, Submit(id), now).value)
  {
    var s := q.(clock := now, waiting := q.waiting + [id], submitted := q.submitted + [id]);
    SubmitIsReady(q, id, now);
    ProcessRestoresInv(s);
  }

  /** Appending to the queue and advancing the clock leaves a ready state. */
  lemma SubmitIsReady(q: Queue, id: nat, now: int)
    requires Inv(q) && now >= q.clock
    ensures Ready(q.(clock := now, waiting := q.waiting + [id], submitted := q.submitted + [id]))
  {
    var s := q.(clock := now, waiting := q.waiting + [id], submitted := q.submitted + [id]);
    assert Fifo(s) by {
      assert q.started + (q.waiting + [id]) == (q.started + q.waiting) + [id];
    }
    SubmitKeepsSpaced(q, id, now);
  }

  /** Advancing the clock on a submission breaks no timing guarantee. */
  lemma SubmitKeepsSpaced(q: Queue, id: nat, now: int)
    requires Inv(q) && now >= q.clock
    ensures Counted(q.(clock := now, waiting := q.waiting + [id], submitted := q.submitted + [id]))
    ensures Spaced(q.(clock := now, waiting := q.waiting + [id], submitted := q.submitted + [id]))
  {
    var s := q.(clock := now, waiting := q.waiting + [id], submitted := q.submitted + [id]);
    assert s.startTimes == q.startTimes && s.settleTimes == q.settleTimes && s.phase == q.phase;
    assert s.started == q.started && s.settled == q.settled;
  }

  /** The running request settling keeps the guarantees. */
  lemma SettlePreservesInv(q: Queue, now: int)
    requires Inv(q) && now >= q.clock && q.phase.Running?
    ensures Inv(Step(q, Settle, now).value)
  {
    var r := Step(q, Settle, now).value;
    assert r.settled == q.started;
  }

  /** The timer firing keeps the guarantees. */
  lemma TimerPreservesInv(q: Queue, now: int)
    requires Inv(q) && now >= q.clock && q.phase.Cooling? && now >= q.phase.until
    ensures Inv(Step(q, TimerFires, now).value)
  {
    var s := q.(clock := now, phase := Idle);
    assert Step(q, TimerFires, now).value == Process(s);
    assert Counted(s);
    ProcessRestoresInv(s);
  }

  /** Every event the runtime can deliver keeps the guarantees. */
  lemma StepPreservesInv(q: Queue, e: Event, now: int)
    requires Inv(q)
    requires Step(q, e, now).Some?
    ensures Inv(Step(q, e, now).value)
  {
    match e
    case Submit(id) => SubmitPreservesInv(q, id, now);
    case Settle => SettlePreservesInv(q, now);
    case TimerFires => TimerPreservesInv(q, now);
  }

  /** Runs a sequence of timed events; `None` as soon as one cannot happen. */
  function Run(q: Queue, events: seq<(Event, int)>): Option<Queue>
    decreases |events|
  {
    if |events| == 0 then Some(q)
    else match Step(q, events[0].0, events[0].1)
      case None => None
      case Some(q') => Run(q', events[1..])
  }

  /** The guarantees hold after any run from any state that has them. */
  lemma {:induction false} RunPreservesInv(q: Queue, events: seq<(Event, int)>)
    requires Inv(q)
    requires Run(q, events).Some?
    ensures Inv(Run(q, events).value)
    decreases |events|
  {
    if |events| > 0 {
      StepPreservesInv(q, events[0].0, events[0].1);
      RunPreservesInv(Step(q, events[0].0, events[0].1).value, events[1..]);
    }
  }

  /**
   * From a fresh `StockAPI`, whatever happens: requests start in the order
   * they were queued, one settles before the next starts, and consecutive
   * requests are separated by at least `RequestDelay` milliseconds.
   */
  lemma QueueDiscipline(clock: int, events: seq<(Event, int)>)
    requires Run(Initial(clock), events).Some?
    ensures var q := Run(Initial(clock), events).value;
      && |q.started| <= |q.submitted| && q.started == q.submitted[..|q.started|]
      && |q.settled| <= |q.started| <= |q.settled| + 1
      && |q.startTimes| == |q.started| && |q.settleTimes| == |q.settled|
      && q.settled == q.started[..|q.settled|]
      && (forall i :: 0 < i < |q.startTimes| ==> q.settleTimes[i - 1] + RequestDelay <= q.startTimes[i])
  {
    RunPreservesInv(Initial(clock), events);
    var q := Run(Initial(clock), events).value;
    assert q.submitted[..|q.started|] == q.started;
  }

  /** `isProcessing` is cleared only by the timer that follows a settlement. */
  lemma FlagClearedOnlyByTimer(q: Queue, e: Event, now: int)
    requires !q.phase.Idle?
    requires Step(q, e, now).Some? && Step(q, e, now).value.phase.Idle?
    ensures e == TimerFires && q.phase.Cooling? && now >= q.phase.until
  {
  }

  /** Submitting to an idle queue starts the request at once. */
  lemma IdleSubmitStartsImmediately(q: Queue, id: nat, now: int)
    requires Inv(q) && q.phase.Idle? && now >= q.clock
    ensures Step(q, Submit(id), now).Some?
    ensures Step(q, Submit(id), now).value.phase == Running(id)
    ensures Step(q, Submit(id), now).value.startTimes == q.startTimes + [now]
  {
  }

  /** Submitting while a request is in flight or cooling only appends to the queue. */
  lemma BusySubmitWaits(q: Queue, id: nat, now: int)
    requires !q.phase.Idle? && now >= q.clock
    ensures Step(q, Submit(id), now).Some?
    ensures Step(q, Submit(id), now).value.waiting == q.waiting + [id]
    ensures Step(q, Submit(id), now).value.phase == q.phase
    ensures Step(q, Submit(id), now).value.started == q.started
  {
  }
}
