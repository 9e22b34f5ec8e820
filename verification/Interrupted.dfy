/**
 * What an interruption does to a run that has gone well so far: the actions that follow a state in which a live
 * subscriber has been given the whole log (models: Hub.dfy, ServedRun.dfy).
 */
module Interrupted {
  import opened Common
  import opened Wire
  import opened Hub
  import opened ServedRun
  import P = Projection

  lemma NumberedLast(data: seq<Payload>, d: Payload)
    ensures Numbered(data + [d]) == Numbered(data) + [Event(|data|, d)]
  {
  }

  lemma EventsLast(log: seq<Row>, row: Row)
    ensures Events(log + [row]) == Events(log) + [row.event]
  {
  }

  // ----- a time-out in the middle of a write -----------------------------------------------------

  /** An engine write is cut off between its append and the tables, and the time-out takes the lock. */
  function TimedOutState(s: State, d: Payload, message: string): State {
    s.(nextSeq := s.nextSeq + 2, task := TimedOut, log := s.log + [Row(Event(s.nextSeq, d), Engine, false, false)],
       holder := Some(Held(Writer(Timeout, Failed(message)), Event(s.nextSeq + 1, Failed(message)), Allocated)))
  }

  lemma CutOff(s: State, k: nat, data: seq<Payload>, d: Payload, message: string)
    requires Following(s, k, data) && !Terminal(d)
    ensures Submits(s, EngineEmit(d)) && Next(Next(Next(s, EngineEmit(d)), Append), TimeoutFires(message)) == TimedOutState(s, d, message)
  {
    hide P.Persisted, P.Stored, CancelDelivered;
    var e := Event(s.nextSeq, d);
    var t := Next(s, EngineEmit(d));
    assert t == s.(nextSeq := s.nextSeq + 1, holder := Some(Held(Writer(Engine, d), e, Allocated)));
    var u := Next(t, Append);
    assert u == t.(log := s.log + [Row(e, Engine, false, false)], holder := Some(Held(Writer(Engine, d), e, Appended)));
  }

  /** The time-out holds the lock and has its number. */
  predicate TimeoutHolds(s: State, message: string) {
    && s.nextSeq > 0 && s.task == TimedOut && s.waiters == []
    && s.holder == Some(Held(Writer(Timeout, Failed(message)), Event(s.nextSeq - 1, Failed(message)), Allocated))
  }

  /** Its error goes all the way. */
  function ErrorOut(s: State, message: string): State
    requires s.nextSeq > 0
  {
    var e := Event(s.nextSeq - 1, Failed(message));
    s.(log := s.log + [Row(e, Timeout, true, true)], tables := P.Persisted(s.tables, Failed(message)),
       subs := PutAll(s.subs, Deliver(e)), holder := None, task := Returned)
  }

  /** A write that holds the lock is appended and projected ... */
  function Stored(s: State): State
    requires s.holder.Some?
  {
    var h := s.holder.value;
    s.(log := s.log + [Row(h.event, h.writer.origin, true, false)], tables := P.Persisted(s.tables, h.event.data),
       holder := Some(h.(stage := Projected)))
  }

  /** ... and goes to the subscribers. */
  function Out(s: State): State
    requires s.holder.Some?
  {
    var h := s.holder.value;
    Complete(s.(log := s.log + [Row(h.event, h.writer.origin, true, true)], tables := P.Persisted(s.tables, h.event.data),
                subs := PutAll(s.subs, Deliver(h.event)), holder := None), h.writer)
  }

  lemma IsStored(s: State)
    requires s.holder.Some? && s.holder.value.stage == Allocated
    ensures Next(Next(s, Append), Project) == Stored(s)
  {
    hide P.Persisted;
    var h := s.holder.value;
    var t := Next(s, Append);
    assert t == s.(log := s.log + [Row(h.event, h.writer.origin, false, false)], holder := Some(h.(stage := Appended)));
    assert t.log[|s.log| := t.log[|s.log|].(projected := true)] == s.log + [Row(h.event, h.writer.origin, true, false)];
  }

  lemma GoesOut(s: State)
    requires s.holder.Some? && s.holder.value.stage == Allocated
    ensures Next(Next(Next(s, Append), Project), FanOut) == Out(s)
  {
    IsStored(s);
    hide P.Persisted, PutAll, Complete;
    var h, t := s.holder.value, Stored(s);
    assert t.log[|s.log| := t.log[|s.log|].(fanned := true)] == s.log + [Row(h.event, h.writer.origin, true, true)];
    FansOut(t);
  }

  lemma FansOut(t: State)
    requires t.holder.Some? && t.holder.value.stage == Projected && t.log != []
    ensures Next(t, FanOut) == Complete(t.(log := t.log[|t.log| - 1 := t.log[|t.log| - 1].(fanned := true)],
                                           subs := PutAll(t.subs, Deliver(t.holder.value.event)), holder := None), t.holder.value.writer)
  {
  }

  lemma ErrorGoesOut(s: State, message: string)
    requires TimeoutHolds(s, message)
    ensures Next(Next(Next(s, Append), Project), FanOut) == ErrorOut(s, message)
  {
    GoesOut(s);
    hide P.Persisted, PutAll, Next;
  }

  /** A live subscriber takes the done or error that came. */
  lemma TakesTerminal(s: State, k: nat, e: Event)
    requires k < |s.subs| && s.subs[k].phase == Live && s.subs[k].queue == [Deliver(e)] && e.seqNo > s.subs[k].seen && Terminal(e.data)
    ensures Next(s, Take(k)) == s.(subs := s.subs[k := s.subs[k].(queue := [], given := s.subs[k].given + [e], seen := e.seqNo,
                                                                  phase := Closed(ByTerminal))])
  {
    assert [Deliver(e)][1..] == [];
  }

  /** ... or the sentinel. */
  lemma TakesStop(s: State, k: nat)
    requires k < |s.subs| && s.subs[k].phase == Live && s.subs[k].queue == [Stop]
    ensures Next(s, Take(k)) == s.(subs := s.subs[k := s.subs[k].(queue := [], phase := Closed(ByStop))])
  {
    assert [Stop][1..] == [];
  }

  /** The run comes to its end, and the subscriber to the sentinel. */
  lemma StopsAfter(s: State, k: nat)
    requires s.task == Returned && k < |s.subs| && s.subs[k].phase == Live && s.subs[k].queue == []
    ensures var t := Next(Next(s, Finish), Take(k));
            && t.log == s.log && t.tables == s.tables
            && k < |t.subs| && t.subs[k] == s.subs[k].(phase := Closed(ByStop))
  {
    var t := Next(s, Finish);
    assert t.subs[k].queue == [] + [Stop] == [Stop];
    TakesStop(t, k);
  }

  lemma NoSubmission(s: State, message: string, k: nat)
    ensures !Submits(s, Append) && !Submits(s, Project) && !Submits(s, FanOut) && !Submits(s, TimeoutFires(message)) && !Submits(s, Take(k))
    ensures !Submits(s, Shutdown) && !Submits(s, Finish) && !Submits(s, CancelLook) && !Submits(s, CancelCall) && !Submits(s, Join)
    ensures !Submits(s, Snapshot(k)) && !Submits(s, Replay(k))
  {
  }

  // ----- histories -----------------------------------------------------------------------------------

  /** After events that went well, one is cut off after its append and the time-out's error goes out: log, tables, live reader. */
  ghost predicate Torn(s: State, k: nat, data: seq<Payload>, d: Payload, message: string) {
    && Events(s.log) == Numbered(data + [d, Failed(message)])
    && s.tables == P.Persisted(P.Stored(Numbered(data)), Failed(message))
    && k < |s.subs| && s.subs[k].phase == Live && s.subs[k].queue == [Deliver(Event(|data| + 1, Failed(message)))]
    && s.subs[k].given == Numbered(data) && s.subs[k].seen == LastNo(Numbered(data))
    && Quiescent(s) && s.task == Returned
  }

  lemma TornAfter(data: seq<Payload>, d: Payload, message: string) returns (actions: seq<Action>, k: nat)
    requires !Terminal(d) && forall i :: 0 <= i < |data| ==> !Terminal(data[i])
    ensures Submitted(actions) == data + [d] && Torn(Run(actions), k, data, d, message)
  {
    hide Run, Submitted, Next, P.Persisted, P.Stored;
    actions, k := Followed(data);
    var s := Run(actions);
    NoSubmission(Next(s, EngineEmit(d)), message, k);
    NoSubmission(Next(Next(s, EngineEmit(d)), Append), message, k);
    CutOff(s, k, data, d, message);
    actions := Then(actions, EngineEmit(d));
    actions := Then(actions, Append);
    actions := Then(actions, TimeoutFires(message));
    var t := Run(actions);
    ErrorGoesOut(t, message);
    NoSubmission(t, message, k);
    NoSubmission(Next(t, Append), message, k);
    NoSubmission(Next(Next(t, Append), Project), message, k);
    actions := Then(actions, Append);
    actions := Then(actions, Project);
    actions := Then(actions, FanOut);
    TornHolds(s, k, data, d, message);
  }

  lemma TornHolds(s: State, k: nat, data: seq<Payload>, d: Payload, message: string)
    requires Following(s, k, data)
    ensures Torn(ErrorOut(TimedOutState(s, d, message), message), k, data, d, message)
  {
    hide P.Persisted, P.Stored;
    var u := ErrorOut(TimedOutState(s, d, message), message);
    NumberedLast(data, d);
    NumberedLast(data + [d], Failed(message));
    assert data + [d] + [Failed(message)] == data + [d, Failed(message)];
    EventsLast(s.log, Row(Event(s.nextSeq, d), Engine, false, false));
    EventsLast(TimedOutState(s, d, message).log, Row(Event(s.nextSeq + 1, Failed(message)), Timeout, true, true));
    assert [] + [Deliver(Event(|data| + 1, Failed(message)))] == [Deliver(Event(|data| + 1, Failed(message)))];
  }

  /** The live reader is given the error and not the event before it. */
  lemma SkippedAfter(data: seq<Payload>, d: Payload, message: string) returns (actions: seq<Action>, k: nat)
    requires !Terminal(d) && forall i :: 0 <= i < |data| ==> !Terminal(data[i])
    ensures Submitted(actions) == data + [d]
    ensures var s := Run(actions);
            && Events(s.log) == Numbered(data + [d, Failed(message)]) && k < |s.subs|
            && s.subs[k].given == Numbered(data) + [Event(|data| + 1, Failed(message))]
            && s.subs[k].phase == Closed(ByTerminal) && Quiescent(s)
  {
    hide Run, Submitted, Next, P.Persisted, P.Stored;
    actions, k := TornAfter(data, d, message);
    var s := Run(actions);
    NoSubmission(s, message, k);
    TakesTerminal(s, k, Event(|data| + 1, Failed(message)));
    actions := Then(actions, Take(k));
  }

  /** A reader that joins then replays everything, the event too; the tables are without it. */
  lemma MissedAfter(data: seq<Payload>, d: Payload, message: string) returns (actions: seq<Action>, k: nat)
    requires !Terminal(d) && forall i :: 0 <= i < |data| ==> !Terminal(data[i])
    ensures Submitted(actions) == data + [d]
    ensures var s := Run(actions);
            && Events(s.log) == Numbered(data + [d, Failed(message)]) && k < |s.subs| && s.subs[k].given == Events(s.log)
            && s.subs[k].phase == Closed(ByTerminal) && Quiescent(s)
            && s.tables == P.Persisted(P.Stored(Numbered(data)), Failed(message))
  {
    hide Run, Submitted, Next, P.Persisted, P.Stored;
    var first;
    actions, first := TornAfter(data, d, message);
    var s, es := Run(actions), Numbered(data + [d, Failed(message)]);
    k := |s.subs|;
    NoSubmission(s, message, k);
    NoSubmission(Next(s, Join), message, k);
    JoinsIn(s, k);
    actions := Then(actions, Join);
    actions := Then(actions, Snapshot(k));
    var t, n := Run(actions), |data| + 1;
    assert t.subs[k] == Sub(Replaying(0), [], es, -1, []);
    actions := Replayed(actions, k, n);
    var u := Run(actions);
    NoSubmission(u, message, k);
    ReplaysTerminal(u, k, n);
    actions := Then(actions, Replay(k));
    assert es == es[..n] + [es[n]];
  }

  lemma ReplaysTerminal(s: State, k: nat, i: nat)
    requires k < |s.subs| && s.subs[k].phase == Replaying(i) && i < |s.subs[k].rows| && Terminal(s.subs[k].rows[i].data)
    ensures var e := s.subs[k].rows[i];
            Next(s, Replay(k)) == s.(subs := s.subs[k := s.subs[k].(phase := Closed(ByTerminal), given := s.subs[k].given + [e], seen := e.seqNo)])
  {
  }

  /** The time-out's error reaches the tables, then a shutdown cuts it off: the reader is told nothing. */
  lemma UntoldAfter(data: seq<Payload>, message: string) returns (actions: seq<Action>, k: nat)
    requires forall i :: 0 <= i < |data| ==> !Terminal(data[i])
    ensures Submitted(actions) == data
    ensures var s := Run(actions);
            && k < |s.subs| && s.subs[k].given == Numbered(data) && s.subs[k].phase == Closed(ByStop)
            && Events(s.log) == Numbered(data + [Failed(message)])
            && s.tables == P.Persisted(P.Stored(Numbered(data)), Failed(message))
  {
    hide Run, Submitted, Next, P.Persisted, P.Stored;
    actions, k := Followed(data);
    var s := Run(actions);
    NoSubmission(s, message, k);
    TimesOut(s, k, data, message);
    actions := Then(actions, TimeoutFires(message));
    var t := Run(actions);
    IsStored(t);
    NoSubmission(t, message, k);
    NoSubmission(Next(t, Append), message, k);
    actions := Then(actions, Append);
    actions := Then(actions, Project);
    var u := Run(actions);
    NoSubmission(u, message, k);
    ShutsDown(u);
    actions := Then(actions, Shutdown);
    var v := Run(actions);
    StopsAfter(v, k);
    NoSubmission(v, message, k);
    NoSubmission(Next(v, Finish), message, k);
    actions := Then(actions, Finish);
    actions := Then(actions, Take(k));
    NumberedLast(data, Failed(message));
    EventsLast(s.log, Row(Event(s.nextSeq, Failed(message)), Timeout, true, false));
  }

  lemma TimesOut(s: State, k: nat, data: seq<Payload>, message: string)
    requires Following(s, k, data)
    ensures var t := Next(s, TimeoutFires(message));
            && TimeoutHolds(t, message)
            && t == s.(nextSeq := s.nextSeq + 1, task := TimedOut, holder := t.holder)
  {
    hide P.Persisted, P.Stored, CancelDelivered;
  }

  lemma ShutsDown(s: State)
    requires s.task != Finished && HeldBy(s, {Engine, Timeout}) && s.waiters == []
    ensures Next(s, Shutdown) == s.(holder := None, task := Returned, faulted := true)
  {
  }

  /** A shutdown between two events: the reader is told nothing. */
  lemma SilentAfter(data: seq<Payload>) returns (actions: seq<Action>, k: nat)
    requires forall i :: 0 <= i < |data| ==> !Terminal(data[i])
    ensures Submitted(actions) == data
    ensures var s := Run(actions);
            && k < |s.subs| && s.subs[k].given == Numbered(data) && s.subs[k].phase == Closed(ByStop)
            && Events(s.log) == Numbered(data)
  {
    hide Run, Submitted, Next, P.Persisted, P.Stored;
    actions, k := Followed(data);
    var s := Run(actions);
    NoSubmission(s, "", k);
    StopsShort(s);
    actions := Then(actions, Shutdown);
    var t := Run(actions);
    StopsAfter(t, k);
    NoSubmission(t, "", k);
    NoSubmission(Next(t, Finish), "", k);
    actions := Then(actions, Finish);
    actions := Then(actions, Take(k));
  }

  lemma StopsShort(s: State)
    requires s.task == Working && Quiescent(s)
    ensures Next(s, Shutdown) == s.(task := Returned, faulted := true)
  {
  }

  // ----- a cancellation that overtakes nothing ------------------------------------------------------

  /** A cancel request has looked at the row, then the run's done went out and the reader took it. */
  ghost predicate DoneTaken(s: State, k: nat, data: seq<Payload>, d: Payload) {
    && k < |s.subs| && s.subs[k].given == Numbered(data + [d]) && s.subs[k].phase == Closed(ByTerminal)
    && (forall i :: 0 <= i < |s.log| ==> s.log[i].projected)
    && Quiescent(s) && s.task == Returned && s.looks == 1
  }

  lemma DoneAfter(data: seq<Payload>, d: Payload) returns (actions: seq<Action>, k: nat)
    requires d.Done? && (forall i :: 0 <= i < |data| ==> !Terminal(data[i])) && !Final(P.Stored(Numbered(data)).status)
    ensures Submitted(actions) == data + [d] && DoneTaken(Run(actions), k, data, d)
  {
    hide Run, Submitted, Next, P.Persisted, P.Stored;
    actions, k := Followed(data);
    var s := Run(actions);
    NoSubmission(s, "", k);
    Looks(s);
    actions := Then(actions, CancelLook);
    var t := Run(actions);
    DoneOut(t, d);
    NoSubmission(Next(t, EngineFinal(d)), "", k);
    NoSubmission(Next(Next(t, EngineFinal(d)), Append), "", k);
    NoSubmission(Next(Next(Next(t, EngineFinal(d)), Append), Project), "", k);
    actions := Then(actions, EngineFinal(d));
    actions := Then(actions, Append);
    actions := Then(actions, Project);
    actions := Then(actions, FanOut);
    var u := Run(actions);
    NoSubmission(u, "", k);
    actions := Then(actions, Take(k));
    TakesDone(s, t, u, k, data, d);
  }

  lemma TakesDone(s: State, t: State, u: State, k: nat, data: seq<Payload>, d: Payload)
    requires Following(s, k, data) && d.Done? && t == s.(looks := s.looks + 1)
    requires var e := Event(t.nextSeq, d);
             u == t.(nextSeq := t.nextSeq + 1, task := Returned, log := t.log + [Row(e, Engine, true, true)],
                     tables := P.Persisted(t.tables, d), subs := PutAll(t.subs, Deliver(e)))
    ensures DoneTaken(Next(u, Take(k)), k, data, d)
  {
    hide P.Persisted, P.Stored;
    var e := Event(t.nextSeq, d);
    assert u.subs[k].queue == [] + [Deliver(e)] == [Deliver(e)];
    TakesTerminal(u, k, e);
    hide Next;
    NumberedLast(data, d);
  }

  /** Now the request goes on. */
  lemma CancelledAfter(data: seq<Payload>, d: Payload) returns (actions: seq<Action>, k: nat)
    requires d.Done? && (forall i :: 0 <= i < |data| ==> !Terminal(data[i])) && !Final(P.Stored(Numbered(data)).status)
    ensures Submitted(actions) == data + [d]
    ensures var s := Run(actions);
            && k < |s.subs| && s.subs[k].given == Numbered(data + [d]) && s.subs[k].phase == Closed(ByTerminal)
            && s.tables.status == "cancelled" && (forall i :: 0 <= i < |s.log| ==> s.log[i].projected) && Quiescent(s)
  {
    hide Run, Submitted, Next, P.Persisted, P.Stored, Numbered;
    actions, k := DoneAfter(data, d);
    var v := Run(actions);
    CancelOut(v);
    NoSubmission(v, "", k);
    NoSubmission(Next(v, CancelCall), "", k);
    NoSubmission(Next(Next(v, CancelCall), Append), "", k);
    NoSubmission(Next(Next(Next(v, CancelCall), Append), Project), "", k);
    actions := Then(actions, CancelCall);
    actions := Then(actions, Append);
    actions := Then(actions, Project);
    actions := Then(actions, FanOut);
  }

  lemma Looks(s: State)
    requires !Final(s.tables.status)
    ensures Next(s, CancelLook) == s.(looks := s.looks + 1)
  {
  }

  lemma DoneOut(s: State, d: Payload)
    requires d.Done? && s.task == Working && Quiescent(s) && !s.cancelled
    ensures Submits(s, EngineFinal(d))
    ensures var t := Next(Next(Next(Next(s, EngineFinal(d)), Append), Project), FanOut);
            var e := Event(s.nextSeq, d);
            t == s.(nextSeq := s.nextSeq + 1, task := Returned, log := s.log + [Row(e, Engine, true, true)],
                    tables := P.Persisted(s.tables, d), subs := PutAll(s.subs, Deliver(e)))
  {
    hide P.Persisted, PutAll, CancelDelivered;
    var e, w := Event(s.nextSeq, d), Writer(Engine, d);
    var t := Next(s, EngineFinal(d));
    assert t == s.(nextSeq := s.nextSeq + 1, task := Ending, holder := Some(Held(w, e, Allocated)));
    hide Next;
    GoesOut(t);
  }

  lemma CancelOut(s: State)
    requires s.task == Returned && Quiescent(s) && s.looks > 0
    ensures var t := Next(Next(Next(Next(s, CancelCall), Append), Project), FanOut);
            var e := Event(s.nextSeq, CANCELLED);
            t == s.(nextSeq := s.nextSeq + 1, cancelled := true, looks := s.looks - 1, log := s.log + [Row(e, Cancel, true, true)],
                    tables := P.Persisted(s.tables, CANCELLED), subs := PutAll(s.subs, Deliver(e)))
    ensures P.Persisted(s.tables, CANCELLED).status == "cancelled"
  {
    assert P.Persisted(s.tables, CANCELLED).status == "cancelled";
    hide P.Persisted, PutAll, CancelDelivered;
    var e, w := Event(s.nextSeq, CANCELLED), Writer(Cancel, CANCELLED);
    var t := Next(s, CancelCall);
    assert t == s.(nextSeq := s.nextSeq + 1, cancelled := true, looks := s.looks - 1, holder := Some(Held(w, e, Allocated)));
    hide Next;
    GoesOut(t);
  }
}
