/**
 * One run's event hub as a state machine: backend/app/services/run_service.py.
 *
 * Every action below is what the event loop runs between two suspension points,
 * so any interleaving of the server's coroutines is a sequence of actions. An
 * action that is not enabled leaves the state unchanged, so statements about
 * `Run(actions)` hold of every sequence of actions.
 */
module Hub {
  import opened Common
  import opened Wire
  import P = Projection

  /** Who writes an event: the engine's sink, the wall-clock guard, or a cancel request. */
  datatype Origin = Engine | Timeout | Cancel

  datatype Writer = Writer(origin: Origin, data: Payload)

  /**
   * A row of the `events` table. `origin` and how far its write came (`projected`: to the
   * derived tables, `fanned`: to the fan-out) are not stored; they let properties speak of them.
   */
  datatype Row = Row(event: Event, origin: Origin, projected: bool, fanned: bool)

  /** How far the write that holds the lock has come. */
  datatype Stage = Allocated | Appended | Projected

  datatype Held = Held(writer: Writer, event: Event, stage: Stage)

  /** An item of a subscriber's queue: an event, or the end-of-stream sentinel. */
  datatype Item = Deliver(event: Event) | Stop

  datatype Reason = ByStop | ByTerminal | ByClient

  /** Where a subscriber's generator stands. */
  datatype Phase = Joined | Replaying(next: nat) | Live | Closed(reason: Reason)

  /** `rows` is the log snapshot it replays, `given` all it has yielded so far. */
  datatype Sub = Sub(phase: Phase, queue: seq<Item>, rows: seq<Event>, seen: int, given: seq<Event>)

  /**
   * The background task: engine working; engine in its final `done` or `error`
   * emission; wall-clock guard writing its error; about to run its `finally`; over.
   */
  datatype Task = Working | Ending | TimedOut | Returned | Finished

  /**
   * `tables` are the run's row and the tables derived from the log, `looks` the cancel requests
   * that have found the run's status not final and not gone on yet.
   * `waiters` is the lock's queue, first come first served. `settled` is the number
   * of rows that were no longer in the middle of a write when the run finished, and
   * `faulted` records a shutdown or the failure of a final write; both only serve
   * to state properties.
   */
  datatype State = State(
    nextSeq: nat,
    cancelled: bool,
    log: seq<Row>,
    tables: P.Tables,
    looks: nat,
    holder: Option<Held>,
    waiters: seq<Writer>,
    task: Task,
    subs: seq<Sub>,
    settled: nat,
    faulted: bool)

  /** A hub created over an empty log. */
  const INIT := State(0, false, [], P.CREATED, 0, None, [], Working, [], 0, false)

  // ----- writing --------------------------------------------------------------------

  function RemoveOrigins(ws: seq<Writer>, origins: set<Origin>): seq<Writer> {
    if ws == [] then []
    else (if ws[0].origin in origins then [] else [ws[0]]) + RemoveOrigins(ws[1..], origins)
  }

  /** The write that took or gave up the lock is over: what its awaiting task does next. */
  function Complete(s: State, w: Writer): State {
    if w.origin == Engine && s.task == Ending then s.(task := Returned)
    else if w.origin == Timeout && s.task == TimedOut then s.(task := Returned)
    else s
  }

  /** The lock is granted: the flag is read, and a number is allocated in the same breath. */
  function Enter(s: State, w: Writer): State {
    if w.origin == Engine && s.cancelled then Complete(s, w)
    else s.(holder := Some(Held(w, Event(s.nextSeq, w.data), Allocated)), nextSeq := s.nextSeq + 1)
  }

  /** `async with hub.write_lock`: at once when the lock is free and nobody queues, else last in line. */
  function Submit(s: State, w: Writer): State {
    if s.holder.None? && s.waiters == [] then Enter(s, w) else s.(waiters := s.waiters + [w])
  }

  predicate Registered(sub: Sub) {
    !sub.phase.Closed?
  }

  /** `queue.put_nowait(item)` for every registered subscriber. */
  function PutAll(subs: seq<Sub>, item: Item): (r: seq<Sub>)
    ensures |r| == |subs|
    ensures forall k :: 0 <= k < |subs| ==>
              r[k] == if Registered(subs[k]) then subs[k].(queue := subs[k].queue + [item]) else subs[k]
  {
    if subs == [] then []
    else
      var last := subs[|subs| - 1];
      PutAll(subs[..|subs| - 1], item)
      + [if Registered(last) then last.(queue := last.queue + [item]) else last]
  }

  predicate HeldBy(s: State, origins: set<Origin>) {
    s.holder.Some? && s.holder.value.writer.origin in origins
  }

  predicate Pending(s: State) {
    s.holder.Some? && s.holder.value.stage != Allocated
  }

  /** Writers of these origins are thrown out of the lock and of its queue. */
  function Interrupt(s: State, origins: set<Origin>): State {
    s.(waiters := RemoveOrigins(s.waiters, origins),
       holder := if HeldBy(s, origins) then None else s.holder)
  }

  // ----- the actions ------------------------------------------------------------------

  datatype Action =
    | EngineEmit(data: Payload)          // some engine coroutine calls the sink
    | EngineFinal(data: Payload)         // the engine's last call: `done`, or `error` before re-raising
    | Grant                              // the lock goes to the first waiter
    | Append                             // INSERT INTO events
    | Project                            // the derived tables
    | FanOut                             // put on every queue, release the lock
    | DropWaiter(index: nat)             // a sibling failed: a section's write is cancelled in the queue
    | DropHolder                         // ... or anywhere inside the critical section
    | FinalFails                         // the sink raises in the engine's last call
    | OutOfBandFails                     // the sink raises in a timeout's or a cancel's write
    | TimeoutFires(message: string)
    | CancelLook                         // a cancel request reads the run's row
    | CancelCall                         // ... sets the flag and asks for the lock
    | CancelTeardown                     // the cancel request, its event delivered, cancels the task
    | Shutdown
    | Finish                             // the task's `finally`
    | Join                               // subscribe: register and check `finished`
    | Snapshot(k: nat)                   // ... read the log
    | Replay(k: nat)                     // ... yield the next row of it
    | Take(k: nat)                       // ... take the next queued item
    | Leave(k: nat)                      // the client goes away

  function SubStep(log: seq<Row>, a: Action, sub: Sub): Sub {
    match a
    case Snapshot(_) =>
      if sub.phase.Joined? then sub.(rows := Events(log), phase := Replaying(0)) else sub
    case Replay(_) =>
      if !sub.phase.Replaying? then sub
      else if sub.phase.next >= |sub.rows| then sub.(phase := Live)
      else
        var e := sub.rows[sub.phase.next];
        sub.(given := sub.given + [e], seen := e.seqNo,
             phase := if Terminal(e.data) then Closed(ByTerminal) else Replaying(sub.phase.next + 1))
    case Take(_) =>
      if !sub.phase.Live? || sub.queue == [] then sub
      else
        var item, rest := sub.queue[0], sub.queue[1..];
        if item.Stop? then sub.(queue := rest, phase := Closed(ByStop))
        else if item.event.seqNo <= sub.seen then sub.(queue := rest)
        else sub.(queue := rest, given := sub.given + [item.event], seen := item.event.seqNo,
                  phase := if Terminal(item.event.data) then Closed(ByTerminal) else Live)
    case Leave(_) =>
      if Registered(sub) then sub.(phase := Closed(ByClient)) else sub
    case _ => sub
  }

  function Events(log: seq<Row>): (es: seq<Event>)
    ensures |es| == |log|
    ensures forall i :: 0 <= i < |log| ==> es[i] == log[i].event
  {
    seq(|log|, i requires 0 <= i < |log| => log[i].event)
  }

  /** The statuses after which a cancel request does nothing. */
  predicate Final(status: string) {
    status == "done" || status == "error" || status == "cancelled"
  }

  /** A delivered cancellation. */
  predicate CancelDelivered(s: State) {
    exists i :: 0 <= i < |s.log| && s.log[i].fanned && s.log[i].origin == Cancel
  }

  predicate Enabled(s: State, a: Action) {
    match a
    case EngineEmit(data) => s.task == Working && !Terminal(data)
    case EngineFinal(data) =>
      && s.task == Working && Terminal(data)
      && !HeldBy(s, {Engine}) && (forall w :: w in s.waiters ==> w.origin != Engine)
    case Grant => s.holder.None? && s.waiters != []
    case Append => s.holder.Some? && s.holder.value.stage == Allocated
    case Project => s.holder.Some? && s.holder.value.stage == Appended && s.log != []
    case FanOut => s.holder.Some? && s.holder.value.stage == Projected && s.log != []
    case DropWaiter(i) => s.task == Working && i < |s.waiters| && s.waiters[i].origin == Engine
    case DropHolder => s.task == Working && HeldBy(s, {Engine})
    case FinalFails => s.task == Ending && HeldBy(s, {Engine})
    case OutOfBandFails => HeldBy(s, {Timeout, Cancel})
    case TimeoutFires(_) => s.task == Working || s.task == Ending
    case CancelLook => true
    case CancelCall => s.looks > 0
    case CancelTeardown => s.task != Finished && CancelDelivered(s)
    case Shutdown => s.task != Finished
    case Finish => s.task == Returned
    case Join => true
    case Snapshot(k) => k < |s.subs|
    case Replay(k) => k < |s.subs|
    case Take(k) => k < |s.subs|
    case Leave(k) => k < |s.subs|
  }

  function Effect(s: State, a: Action): State
    requires Enabled(s, a)
  {
    match a
    case EngineEmit(data) => Submit(s, Writer(Engine, data))
    case EngineFinal(data) => Submit(s.(task := Ending), Writer(Engine, data))
    case Grant => Enter(s.(waiters := s.waiters[1..]), s.waiters[0])
    case Append =>
      var h := s.holder.value;
      s.(log := s.log + [Row(h.event, h.writer.origin, false, false)], holder := Some(h.(stage := Appended)))
    case Project =>
      var h := s.holder.value;
      var n := |s.log| - 1;
      s.(log := s.log[n := s.log[n].(projected := true)],
         tables := P.Persisted(s.tables, h.event.data),
         holder := Some(h.(stage := Projected)))
    case FanOut =>
      var h := s.holder.value;
      var n := |s.log| - 1;
      Complete(s.(log := s.log[n := s.log[n].(fanned := true)],
                  subs := PutAll(s.subs, Deliver(h.event)),
                  holder := None),
               h.writer)
    case DropWaiter(i) => s.(waiters := s.waiters[..i] + s.waiters[i + 1..])
    case DropHolder => s.(holder := None)
    case FinalFails =>
      if s.holder.value.writer.data.Done? then s.(holder := None, task := Working)
      else s.(holder := None, task := Returned, faulted := true)
    case OutOfBandFails => Complete(s.(holder := None, faulted := true), s.holder.value.writer)
    case TimeoutFires(message) =>
      Submit(Interrupt(s, {Engine}).(task := TimedOut), Writer(Timeout, Failed(message)))
    case CancelLook => s.(looks := s.looks + if Final(s.tables.status) then 0 else 1)
    case CancelCall => Submit(s.(cancelled := true, looks := s.looks - 1), Writer(Cancel, CANCELLED))
    case CancelTeardown => Interrupt(s, {Engine, Timeout}).(task := Returned)
    case Shutdown => Interrupt(s, {Engine, Timeout}).(task := Returned, faulted := true)
    case Finish =>
      s.(task := Finished, subs := PutAll(s.subs, Stop), settled := if Pending(s) && s.log != [] then |s.log| - 1 else |s.log|)
    case Join => s.(subs := s.subs + [Sub(Joined, if s.task == Finished then [Stop] else [], [], -1, [])])
    case Snapshot(k) => s.(subs := s.subs[k := SubStep(s.log, a, s.subs[k])])
    case Replay(k) => s.(subs := s.subs[k := SubStep(s.log, a, s.subs[k])])
    case Take(k) => s.(subs := s.subs[k := SubStep(s.log, a, s.subs[k])])
    case Leave(k) => s.(subs := s.subs[k := SubStep(s.log, a, s.subs[k])])
  }

  function Next(s: State, a: Action): State {
    if Enabled(s, a) then Effect(s, a) else s
  }

  /** The state after any sequence of actions. */
  function Run(actions: seq<Action>): State {
    if actions == [] then INIT else Next(Run(actions[..|actions| - 1]), actions[|actions| - 1])
  }
}
