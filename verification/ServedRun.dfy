/**
 * The engine behind the hub: which events of an engine run reach the stored log, and what a client and the tables
 * show of a run that nothing interrupts (models: Engine.dfy, Hub.dfy, StreamClient.dfy).
 */
module ServedRun {
  import opened Wire
  import opened Hub
  import opened HubTables
  import D = HubDelivery
  import T = HubStatus
  import P = Projection

  // ----- what the engine submits ---------------------------------------------------------------

  predicate Submits(s: State, a: Action) {
    (a.EngineEmit? || a.EngineFinal?) && Enabled(s, a)
  }

  /** The events the engine hands to its sink, in order. */
  function Submitted(actions: seq<Action>): seq<Payload> {
    if actions == [] then []
    else
      var init, a := actions[..|actions| - 1], actions[|actions| - 1];
      Submitted(init) + if Submits(Run(init), a) then [a.data] else []
  }

  /** What a writer may write: what was submitted, the time-out's error, the cancelled status. */
  predicate Written(origin: Origin, data: Payload, submitted: seq<Payload>) {
    match origin
    case Engine => data in submitted
    case Timeout => data.Failed?
    case Cancel => data == CANCELLED
  }

  ghost predicate SourcesOfRows(s: State, submitted: seq<Payload>) {
    && (forall i :: 0 <= i < |s.log| ==> Written(s.log[i].origin, s.log[i].event.data, submitted))
    && (forall i :: 0 <= i < |s.waiters| ==> Written(s.waiters[i].origin, s.waiters[i].data, submitted))
    && (s.holder.Some? ==>
          && Written(s.holder.value.writer.origin, s.holder.value.writer.data, submitted)
          && s.holder.value.event.data == s.holder.value.writer.data)
  }

  lemma SubmitRows(s: State, w: Writer, submitted: seq<Payload>)
    requires SourcesOfRows(s, submitted) && Written(w.origin, w.data, submitted)
    ensures SourcesOfRows(Submit(s, w), submitted)
  {
  }

  lemma {:induction false} RemovedKeep(ws: seq<Writer>, origins: set<Origin>)
    ensures forall w :: w in RemoveOrigins(ws, origins) ==> w in ws
  {
    if ws != [] {
      RemovedKeep(ws[1..], origins);
    }
  }

  lemma InterruptRows(s: State, origins: set<Origin>, submitted: seq<Payload>)
    requires SourcesOfRows(s, submitted)
    ensures SourcesOfRows(Interrupt(s, origins), submitted)
  {
    hide Written, RemoveOrigins;
    RemovedKeep(s.waiters, origins);
    var ws := RemoveOrigins(s.waiters, origins);
    forall i | 0 <= i < |ws|
      ensures Written(ws[i].origin, ws[i].data, submitted)
    {
      assert ws[i] in ws;
      var j :| 0 <= j < |s.waiters| && s.waiters[j] == ws[i];
    }
  }

  lemma MoreSubmitted(s: State, submitted: seq<Payload>, d: Payload)
    requires SourcesOfRows(s, submitted)
    ensures SourcesOfRows(s, submitted + [d])
  {
  }

  lemma SystemWrites(submitted: seq<Payload>)
    ensures (forall message :: Written(Timeout, Failed(message), submitted)) && Written(Cancel, CANCELLED, submitted)
  {
  }

  lemma Last(submitted: seq<Payload>, d: Payload)
    ensures Written(Engine, d, submitted + [d])
  {
  }

  lemma NextRows(s: State, a: Action, submitted: seq<Payload>)
    requires SourcesOfRows(s, submitted)
    ensures SourcesOfRows(Next(s, a), submitted + if Submits(s, a) then [a.data] else [])
  {
    hide P.Persisted, PutAll, SubStep, Submit, Interrupt, CancelDelivered, Written;
    assert submitted + [] == submitted;
    assert forall message :: Written(Timeout, Failed(message), submitted) by { SystemWrites(submitted); }
    assert Written(Cancel, CANCELLED, submitted) by { SystemWrites(submitted); }
    if Enabled(s, a) {
      match a
      case EngineEmit(data) =>
        MoreSubmitted(s, submitted, data);
        Last(submitted, data);
        SubmitRows(s, Writer(Engine, data), submitted + [data]);
      case EngineFinal(data) =>
        MoreSubmitted(s, submitted, data);
        Last(submitted, data);
        SubmitRows(s.(task := Ending), Writer(Engine, data), submitted + [data]);
      case TimeoutFires(message) =>
        InterruptRows(s, {Engine}, submitted);
        SubmitRows(Interrupt(s, {Engine}).(task := TimedOut), Writer(Timeout, Failed(message)), submitted);
      case CancelCall => SubmitRows(s.(cancelled := true, looks := s.looks - 1), Writer(Cancel, CANCELLED), submitted);
      case CancelTeardown => InterruptRows(s, {Engine, Timeout}, submitted);
      case Shutdown => InterruptRows(s, {Engine, Timeout}, submitted);
      case _ => OtherRows(s, a, submitted);
    }
  }

  lemma OtherRows(s: State, a: Action, submitted: seq<Payload>)
    requires SourcesOfRows(s, submitted) && Enabled(s, a)
    requires !a.EngineEmit? && !a.EngineFinal? && !a.TimeoutFires? && !a.CancelCall? && !a.CancelTeardown? && !a.Shutdown?
    ensures SourcesOfRows(Effect(s, a), submitted)
  {
    hide P.Persisted, PutAll, SubStep, CancelDelivered, Written;
  }

  /** In every run whatever, each row of the log is an event the engine submitted, a time-out's error or a cancellation. */
  lemma {:induction false} RowsAreSubmitted(actions: seq<Action>)
    ensures SourcesOfRows(Run(actions), Submitted(actions))
  {
    hide Next, SourcesOfRows, Submits;
    if actions == [] {
      NoRows();
    } else {
      RowsAreSubmitted(actions[..|actions| - 1]);
      NextRows(Run(actions[..|actions| - 1]), actions[|actions| - 1], Submitted(actions[..|actions| - 1]));
    }
  }

  lemma NoRows()
    ensures SourcesOfRows(INIT, [])
  {
  }

  // ----- runs that nothing interrupts -------------------------------------------------------------

  /** No time-out, cancellation, shutdown or failing write. */
  predicate Calm(actions: seq<Action>) {
    forall a :: a in actions ==>
      !a.TimeoutFires? && !a.CancelCall? && !a.DropWaiter? && !a.DropHolder? && !a.FinalFails? && !a.OutOfBandFails? && !a.Shutdown?
  }

  function Data(log: seq<Row>): (r: seq<Payload>)
    ensures |r| == |log| && forall i :: 0 <= i < |r| ==> r[i] == log[i].event.data
  {
    seq(|log|, i requires 0 <= i < |log| => log[i].event.data)
  }

  function WaitData(ws: seq<Writer>): (r: seq<Payload>)
    ensures |r| == |ws| && forall i :: 0 <= i < |r| ==> r[i] == ws[i].data
  {
    seq(|ws|, i requires 0 <= i < |ws| => ws[i].data)
  }

  function AllocatedData(s: State): seq<Payload> {
    if s.holder.Some? && s.holder.value.stage == Allocated then [s.holder.value.event.data] else []
  }

  /** All that was submitted is in the log, about to be, or in line, in order; rows are numbered by their place. */
  ghost predicate InOrder(s: State, submitted: seq<Payload>) {
    && Data(s.log) + AllocatedData(s) + WaitData(s.waiters) == submitted
    && s.nextSeq == |s.log| + |AllocatedData(s)|
    && (forall i :: 0 <= i < |s.log| ==> s.log[i].event.seqNo == i)
    && (s.holder.Some? && s.holder.value.stage == Allocated ==> s.holder.value.event.seqNo == |s.log|)
  }

  /** Only the engine writes, nothing is left behind half-written, and a done or error is submitted last. */
  ghost predicate Undisturbed(s: State, submitted: seq<Payload>) {
    && !s.cancelled
    && (forall i :: 0 <= i < |s.log| ==> s.log[i].origin == Engine)
    && (forall i :: 0 <= i < |s.waiters| ==> s.waiters[i].origin == Engine)
    && (s.holder.Some? ==> s.holder.value.writer.origin == Engine && s.holder.value.event.data == s.holder.value.writer.data)
    && (forall i :: 0 <= i < |s.log| ==> (s.log[i].projected && s.log[i].fanned) || (i == |s.log| - 1 && Pending(s)))
    && (forall i :: 0 <= i < |submitted| && Terminal(submitted[i]) ==> i == |submitted| - 1 && s.task != Working)
  }

  ghost predicate CalmOk(s: State, submitted: seq<Payload>) {
    D.HolderOk(s) && InOrder(s, submitted) && Undisturbed(s, submitted)
  }

  lemma WaitDataLast(ws: seq<Writer>, w: Writer)
    ensures WaitData(ws + [w]) == WaitData(ws) + [w.data]
  {
  }

  lemma DataLast(log: seq<Row>, row: Row)
    ensures Data(log + [row]) == Data(log) + [row.event.data]
  {
  }

  lemma SubmitCalm(s: State, d: Payload, submitted: seq<Payload>)
    requires CalmOk(s, submitted) && (forall i :: 0 <= i < |submitted| ==> !Terminal(submitted[i]))
    requires Terminal(d) ==> s.task != Working
    ensures var t := Submit(s, Writer(Engine, d));
            InOrder(t, submitted + [d]) && Undisturbed(t, submitted + [d])
  {
    hide D.HolderOk;
    var w := Writer(Engine, d);
    WaitDataLast(s.waiters, w);
    if s.holder.None? && s.waiters == [] {
      assert Data(s.log) + [] + [] == Data(s.log);
      assert Data(s.log) + [d] + [] == Data(s.log) + [d];
    } else {
      var before := Data(s.log) + AllocatedData(s);
      assert before + (WaitData(s.waiters) + [d]) == before + WaitData(s.waiters) + [d];
    }
  }

  lemma NextInLine(log: seq<Payload>, d: Payload, rest: seq<Payload>)
    ensures log + [] + ([d] + rest) == log + [d] + rest
  {
  }

  lemma GrantCalm(s: State, submitted: seq<Payload>)
    requires CalmOk(s, submitted) && Enabled(s, Grant)
    ensures var t := Effect(s, Grant);
            InOrder(t, submitted) && Undisturbed(t, submitted)
  {
    hide D.HolderOk;
    var w := s.waiters[0];
    var rest := WaitData(s.waiters[1..]);
    assert WaitData(s.waiters) == [w.data] + rest;
    NextInLine(Data(s.log), w.data, rest);
    hide CancelDelivered;
  }

  lemma AppendCalm(s: State, submitted: seq<Payload>)
    requires CalmOk(s, submitted) && Enabled(s, Append)
    ensures var t := Effect(s, Append);
            InOrder(t, submitted) && Undisturbed(t, submitted)
  {
    var row := Effect(s, Append).log[|s.log|];
    DataLast(s.log, row);
    assert Data(s.log) + [row.event.data] + [] == Data(s.log) + [row.event.data];
  }

  lemma MarkCalm(s: State, a: Action, submitted: seq<Payload>)
    requires CalmOk(s, submitted) && (a.Project? || a.FanOut?) && Enabled(s, a)
    ensures var t := Effect(s, a);
            InOrder(t, submitted) && Undisturbed(t, submitted)
  {
    hide P.Persisted, PutAll;
    assert Data(Effect(s, a).log) == Data(s.log);
  }

  lemma SinkCalm(s: State, a: Action, submitted: seq<Payload>)
    requires CalmOk(s, submitted) && (a.EngineEmit? || a.EngineFinal?) && Enabled(s, a)
    ensures InOrder(Effect(s, a), submitted + [a.data]) && Undisturbed(Effect(s, a), submitted + [a.data])
  {
    var u := if a.EngineFinal? then s.(task := Ending) else s;
    assert CalmOk(u, submitted);
    hide D.HolderOk, Submit, InOrder, CalmOk;
    assert Effect(s, a) == Submit(u, Writer(Engine, a.data));
    SubmitCalm(u, a.data, submitted);
  }

  lemma StepCalm(s: State, a: Action, submitted: seq<Payload>)
    requires CalmOk(s, submitted) && Calm([a]) && Enabled(s, a)
    ensures var more := submitted + if Submits(s, a) then [a.data] else [];
            InOrder(Effect(s, a), more) && Undisturbed(Effect(s, a), more)
  {
    hide CalmOk, Effect, Enabled, InOrder, Undisturbed, Calm;
    assert submitted + [] == submitted;
    match a
    case EngineEmit(data) => SinkCalm(s, a, submitted);
    case EngineFinal(data) => SinkCalm(s, a, submitted);
    case Grant => GrantCalm(s, submitted);
    case Append => AppendCalm(s, submitted);
    case Project => MarkCalm(s, a, submitted);
    case FanOut => MarkCalm(s, a, submitted);
    case _ => SameCalm(s, a, submitted);
  }

  lemma NextCalm(s: State, a: Action, submitted: seq<Payload>)
    requires D.HubOk(s) && CalmOk(s, submitted) && Calm([a])
    ensures CalmOk(Next(s, a), submitted + if Submits(s, a) then [a.data] else [])
  {
    D.NextOk(s, a);
    assert D.HolderOk(Next(s, a));
    hide D.HubOk, Effect, InOrder, Undisturbed, D.HolderOk, Calm, Enabled;
    assert submitted + [] == submitted;
    if Enabled(s, a) {
      StepCalm(s, a, submitted);
    }
  }

  /** The other steps touch neither the lock nor the log. */
  lemma SameCalm(s: State, a: Action, submitted: seq<Payload>)
    requires CalmOk(s, submitted) && Calm([a]) && Enabled(s, a)
    requires !a.EngineEmit? && !a.EngineFinal? && !a.Grant? && !a.Append? && !a.Project? && !a.FanOut?
    ensures InOrder(Effect(s, a), submitted) && Undisturbed(Effect(s, a), submitted)
  {
    assert a in [a];
    NothingCancelled(s, submitted);
    hide D.HolderOk, PutAll, SubStep, CancelDelivered;
    var t := Effect(s, a);
    assert t.log == s.log && t.waiters == s.waiters && t.holder == s.holder && t.nextSeq == s.nextSeq && t.cancelled == s.cancelled;
  }

  lemma NothingCancelled(s: State, submitted: seq<Payload>)
    requires Undisturbed(s, submitted)
    ensures !CancelDelivered(s)
  {
  }

  lemma {:induction false} CalmRun(actions: seq<Action>)
    requires Calm(actions)
    ensures CalmOk(Run(actions), Submitted(actions))
  {
    hide Next, CalmOk, Submits;
    if actions == [] {
      CalmStart();
    } else {
      var init, a := actions[..|actions| - 1], actions[|actions| - 1];
      assert forall x :: x in init || x in [a] ==> x in actions;
      CalmRun(init);
      D.RunOk(init);
      NextCalm(Run(init), a, Submitted(init));
    }
  }

  lemma CalmStart()
    ensures CalmOk(INIT, [])
  {
  }

  /** No writer holds the lock or waits for it. */
  predicate Quiescent(s: State) {
    s.holder.None? && s.waiters == []
  }

  /** The events numbered by their place. */
  function Numbered(data: seq<Payload>): (r: seq<Event>)
    ensures |r| == |data| && forall i :: 0 <= i < |r| ==> r[i] == Event(i, data[i])
  {
    seq(|data|, i requires 0 <= i < |data| => Event(i, data[i]))
  }

  /**
   * When nothing interrupts a run, however its writers and readers interleave, the stored log is at every moment a
   * prefix of what the engine submitted, numbered from 0; once no write is under way it is all of it, and the tables
   * are its projection.
   */
  lemma CalmLogIsSubmitted(actions: seq<Action>)
    requires Calm(actions)
    ensures var s := Run(actions);
            && Events(s.log) <= Numbered(Submitted(actions))
            && (Quiescent(s) ==> Events(s.log) == Numbered(Submitted(actions)) && s.tables == P.Stored(Events(s.log)))
  {
    CalmRun(actions);
    hide Run, Submitted, CalmOk, P.Stored;
    CalmPrefix(Run(actions), Submitted(actions));
    if Quiescent(Run(actions)) {
      NothingTornNothingMissing(actions);
    }
  }

  lemma CalmPrefix(s: State, submitted: seq<Payload>)
    requires CalmOk(s, submitted)
    ensures Events(s.log) <= Numbered(submitted)
    ensures Quiescent(s) ==> Events(s.log) == Numbered(submitted) && forall i :: 0 <= i < |s.log| ==> s.log[i].projected
  {
    hide D.HolderOk;
    var rest := AllocatedData(s) + WaitData(s.waiters);
    assert submitted == Data(s.log) + rest;
    forall i | 0 <= i < |s.log|
      ensures Events(s.log)[i] == Numbered(submitted)[i]
    {
      assert submitted[i] == Data(s.log)[i];
    }
  }

  /** A stream that ended with done or error has been given all of a calm run's events, and there are no more to come. */
  lemma CalmStreamIsWhole(actions: seq<Action>, k: nat)
    requires Calm(actions)
    requires k < |Run(actions).subs| && Run(actions).subs[k].phase == Closed(ByTerminal)
    ensures Run(actions).subs[k].given == Events(Run(actions).log) == Numbered(Submitted(actions))
  {
    CalmRun(actions);
    CalmLogIsSubmitted(actions);
    D.StreamIsPrefixIff(actions, k);
    D.NumbersNeverCollide(actions);
    var i := T.ClosedAtARow(actions, k);
    D.RunOk(actions);
    hide Run, Submitted;
    var s, submitted := Run(actions), Submitted(actions);
    var given := s.subs[k].given;
    assert given <= Events(s.log) by { CalmIsPrefix(s, submitted, k); }
    assert Events(s.log)[i] == Numbered(submitted)[i];
    assert i == |submitted| - 1;
    assert Events(s.log)[|given| - 1] == given[|given| - 1] == Events(s.log)[i];
    assert Events(s.log)[|given| - 1].seqNo == |given| - 1;
  }

  lemma CalmNoSkip(actions: seq<Action>)
    requires Calm(actions)
    ensures D.NoSkip(Run(actions).log, 0, |Run(actions).log|)
  {
    CalmRun(actions);
  }

  /** Nothing is skipped: only the row being written may be without its fan-out, and nobody was given a later one. */
  lemma CalmIsPrefix(s: State, submitted: seq<Payload>, k: nat)
    requires CalmOk(s, submitted) && D.HubOk(s) && k < |s.subs|
    ensures s.subs[k].given <= Events(s.log)
  {
    hide D.Stops;
    var sub := s.subs[k];
    var hi := D.Reach(s.log, s.task == Finished, s.settled, |sub.rows|);
    if !sub.phase.Joined? {
      D.GivenOfScript(s, sub);
      D.FannedPrefixIff(s.log, Events(s.log), |sub.rows|, hi);
    }
  }

  /** One event goes all the way before the next is submitted. */
  lemma ServeOne(s: State, d: Payload)
    requires s.task == Working && !s.cancelled && Quiescent(s)
    ensures var a := if Terminal(d) then EngineFinal(d) else EngineEmit(d);
            var t := Next(Next(Next(Next(s, a), Append), Project), FanOut);
            && Submits(s, a) && Quiescent(t) && !t.cancelled && t.looks == s.looks && t.task == if Terminal(d) then Returned else Working
  {
    hide P.Persisted, PutAll, CancelDelivered;
    var a := if Terminal(d) then EngineFinal(d) else EngineEmit(d);
    var t := Next(s, a);
    assert t.holder.Some? && t.holder.value.stage == Allocated && t.holder.value.writer == Writer(Engine, d);
    var u := Next(t, Append);
    assert u.holder.Some? && u.holder.value.stage == Appended && u.holder.value.writer == Writer(Engine, d) && u.task == t.task;
    var v := Next(u, Project);
    assert v.holder.Some? && v.holder.value.stage == Projected && v.holder.value.writer == Writer(Engine, d) && v.task == t.task;
  }

  /** Every sequence of events that ends at its first done or error can be served without disturbance. */
  lemma {:induction false} CanBeServed(data: seq<Payload>) returns (actions: seq<Action>)
    requires forall i :: 0 <= i < |data| && Terminal(data[i]) ==> i == |data| - 1
    ensures Calm(actions) && Submitted(actions) == data && Quiescent(Run(actions))
    ensures !Run(actions).cancelled && Run(actions).looks == 0
    ensures Run(actions).task == if data != [] && Terminal(data[|data| - 1]) then Returned else Working
  {
    hide Run, Submitted, Next, Calm;
    if data == [] {
      actions := [];
      NothingYet();
    } else {
      var d := data[|data| - 1];
      actions := CanBeServed(data[..|data| - 1]);
      var a := if Terminal(d) then EngineFinal(d) else EngineEmit(d);
      ServeOne(Run(actions), d);
      OneStepIsCalm(d);
      actions := Extended(actions, a);
      actions := Extended(actions, Append);
      actions := Extended(actions, Project);
      actions := Extended(actions, FanOut);
      assert data == data[..|data| - 1] + [d];
    }
  }

  lemma OneStepIsCalm(d: Payload)
    ensures Calm([EngineEmit(d)]) && Calm([EngineFinal(d)]) && Calm([Append]) && Calm([Project]) && Calm([FanOut])
  {
  }

  lemma NothingYet()
    ensures Run([]) == INIT && Submitted([]) == [] && Calm([])
  {
  }

  lemma Extended(actions: seq<Action>, a: Action) returns (longer: seq<Action>)
    requires Calm(actions) && Calm([a])
    ensures Run(longer) == Next(Run(actions), a) && Calm(longer)
    ensures Submitted(longer) == Submitted(actions) + if Submits(Run(actions), a) then [a.data] else []
  {
    longer := Then(actions, a);
    assert forall x :: x in longer ==> x in actions || x in [a];
  }

  lemma Then(actions: seq<Action>, a: Action) returns (longer: seq<Action>)
    ensures longer == actions + [a] && Run(longer) == Next(Run(actions), a)
    ensures Submitted(longer) == Submitted(actions) + if Submits(Run(actions), a) then [a.data] else []
  {
    hide Next, Submits;
    longer := actions + [a];
    assert longer[..|longer| - 1] == actions;
  }

  // ----- a reader that has followed a run so far ----------------------------------------------------

  /** Subscriber k is live and has been given all of the log, which holds these events; nothing is under way. */
  ghost predicate Following(s: State, k: nat, data: seq<Payload>) {
    var es := Numbered(data);
    && k < |s.subs| && s.subs[k] == Sub(Live, [], es, LastNo(es), es)
    && Events(s.log) == es && s.nextSeq == |data| && s.tables == P.Stored(es)
    && (forall i :: 0 <= i < |s.log| ==> s.log[i].projected)
    && Quiescent(s) && s.task == Working && !s.cancelled && s.looks == 0
  }

  /** A replay of rows without a terminal one goes through to the last. */
  lemma {:induction false} Replayed(actions: seq<Action>, k: nat, n: nat) returns (longer: seq<Action>)
    requires k < |Run(actions).subs| && n <= |Run(actions).subs[k].rows|
    requires Run(actions).subs[k].phase == Replaying(0) && Run(actions).subs[k].given == [] && Run(actions).subs[k].seen == -1
    requires forall e :: e in Run(actions).subs[k].rows[..n] ==> !Terminal(e.data)
    ensures Submitted(longer) == Submitted(actions) && (forall a :: a in longer ==> a in actions || a == Replay(k))
    ensures var s := Run(actions);
            var sub := s.subs[k];
            Run(longer) == s.(subs := s.subs[k := sub.(phase := Replaying(n), given := sub.rows[..n], seen := LastNo(sub.rows[..n]))])
  {
    hide Run, Submitted;
    var s := Run(actions);
    var sub := s.subs[k];
    if n == 0 {
      longer := actions;
      assert sub.rows[..0] == [];
      assert s.subs[k := sub.(phase := Replaying(0), given := sub.rows[..0], seen := LastNo(sub.rows[..0]))] == s.subs;
    } else {
      assert forall e :: e in sub.rows[..n - 1] ==> e in sub.rows[..n];
      longer := Replayed(actions, k, n - 1);
      var t := Run(longer);
      longer := Then(longer, Replay(k));
      assert sub.rows[..n] == sub.rows[..n - 1] + [sub.rows[n - 1]];
      assert sub.rows[n - 1] in sub.rows[..n];
      assert t.subs[k].given + [t.subs[k].rows[n - 1]] == sub.rows[..n];
      ReplayOne(t, k, n - 1);
    }
  }

  lemma CalmMore(actions: seq<Action>, longer: seq<Action>, k: nat)
    requires Calm(actions) && forall a :: a in longer ==> a in actions || a == Replay(k)
    ensures Calm(longer)
  {
  }

  lemma ReplayOne(t: State, k: nat, i: nat)
    requires k < |t.subs| && t.subs[k].phase == Replaying(i) && i < |t.subs[k].rows| && !Terminal(t.subs[k].rows[i].data)
    ensures !Submits(t, Replay(k))
    ensures var e := t.subs[k].rows[i];
            Next(t, Replay(k)) == t.(subs := t.subs[k := t.subs[k].(phase := Replaying(i + 1), given := t.subs[k].given + [e], seen := e.seqNo)])
  {
  }

  lemma OneReplayIsCalm(k: nat)
    ensures Calm([Replay(k)]) && Calm([Snapshot(k)]) && Calm([Join])
  {
  }

  /** Any events short of a done or error can be served and followed. */
  lemma Followed(data: seq<Payload>) returns (actions: seq<Action>, k: nat)
    requires forall i :: 0 <= i < |data| ==> !Terminal(data[i])
    ensures Calm(actions) && Submitted(actions) == data && Following(Run(actions), k, data)
  {
    hide Run, Submitted, Calm;
    var es := Numbered(data);
    actions := CanBeServed(data);
    var s := Run(actions);
    k := |s.subs|;
    OneReplayIsCalm(k);
    CalmLogIsSubmitted(actions);
    AllProjected(actions);
    JoinsIn(s, k);
    actions := Extended(actions, Join);
    actions := Extended(actions, Snapshot(k));
    var t := Run(actions);
    assert t.subs[k] == Sub(Replaying(0), [], es, -1, []);
    var longer := Replayed(actions, k, |es|);
    CalmMore(actions, longer, k);
    actions := longer;
    assert es[..|es|] == es;
    var u := Run(actions);
    assert u.subs[k] == Sub(Replaying(|es|), [], es, LastNo(es), es);
    actions := Extended(actions, Replay(k));
    GoesLive(u, k);
  }

  lemma AllProjected(actions: seq<Action>)
    requires Calm(actions) && Quiescent(Run(actions))
    ensures forall i :: 0 <= i < |Run(actions).log| ==> Run(actions).log[i].projected
    ensures Run(actions).nextSeq == |Run(actions).log|
  {
    CalmRun(actions);
  }

  lemma JoinsIn(s: State, k: nat)
    requires k == |s.subs| && s.task != Finished
    ensures !Submits(s, Join) && !Submits(Next(s, Join), Snapshot(k))
    ensures var t := Next(Next(s, Join), Snapshot(k));
            t == s.(subs := s.subs + [Sub(Replaying(0), [], Events(s.log), -1, [])])
  {
    var t := Next(s, Join);
    assert t == s.(subs := s.subs + [Sub(Joined, [], [], -1, [])]);
  }

  lemma GoesLive(s: State, k: nat)
    requires k < |s.subs| && s.subs[k].phase == Replaying(|s.subs[k].rows|)
    ensures !Submits(s, Replay(k))
    ensures Next(s, Replay(k)) == s.(subs := s.subs[k := s.subs[k].(phase := Live)])
  {
  }
}
