/** How a run ends: no stream closes silently, and a cancellation is final (model: Hub.dfy). */
module HubEnding {
  import opened Wire
  import opened Hub
  import D = HubDelivery
  import P = Projection

  // ----- outstanding writes ------------------------------------------------------------

  function Count(ws: seq<Writer>, o: Origin): nat {
    if ws == [] then 0 else (if ws[0].origin == o then 1 else 0) + Count(ws[1..], o)
  }

  lemma {:induction false} CountAppend(a: seq<Writer>, b: seq<Writer>, o: Origin)
    ensures Count(a + b, o) == Count(a, o) + Count(b, o)
  {
    if a == [] {
      assert a + b == b;
    } else {
      assert (a + b)[1..] == a[1..] + b;
      CountAppend(a[1..], b, o);
    }
  }

  lemma {:induction false} CountZero(ws: seq<Writer>, o: Origin)
    ensures Count(ws, o) == 0 <==> forall w :: w in ws ==> w.origin != o
  {
    if ws != [] {
      CountZero(ws[1..], o);
      assert forall w :: w in ws <==> w == ws[0] || w in ws[1..];
    }
  }

  lemma {:induction false} CountRemove(ws: seq<Writer>, origins: set<Origin>, o: Origin)
    ensures Count(RemoveOrigins(ws, origins), o) == if o in origins then 0 else Count(ws, o)
    ensures forall w :: w in RemoveOrigins(ws, origins) ==> w in ws
  {
    if ws != [] {
      CountRemove(ws[1..], origins, o);
      CountAppend(if ws[0].origin in origins then [] else [ws[0]], RemoveOrigins(ws[1..], origins), o);
      assert Count([ws[0]], o) == (if ws[0].origin == o then 1 else 0) + Count([ws[0]][1..], o);
    }
  }

  /** Writes of this origin that hold the lock or queue for it. */
  function Outstanding(s: State, o: Origin): nat {
    Count(s.waiters, o) + if HeldBy(s, {o}) then 1 else 0
  }

  /** The task is in a state that matches the writes it still awaits. */
  ghost predicate TaskOk(s: State) {
    && (s.task == Working ==> Outstanding(s, Timeout) == 0)
    && (s.task == Ending ==> Outstanding(s, Timeout) == 0 && Outstanding(s, Engine) == 1)
    && (s.task == TimedOut ==> Outstanding(s, Timeout) == 1 && Outstanding(s, Engine) == 0)
    && (s.task == Returned || s.task == Finished ==> Outstanding(s, Timeout) == 0 && Outstanding(s, Engine) == 0)
  }

  /** What each kind of writer may write, given where the task is. */
  ghost predicate WriterOk(s: State, w: Writer) {
    && (w.origin == Engine && s.task == Ending ==> Terminal(w.data))
    && (w.origin == Timeout ==> Terminal(w.data))
    && (w.origin == Cancel ==> w.data == CANCELLED && s.cancelled)
  }

  ghost predicate WritersOk(s: State) {
    && (forall w :: w in s.waiters ==> WriterOk(s, w))
    && (s.holder.Some? ==> WriterOk(s, s.holder.value.writer)
                           && s.holder.value.event.data == s.holder.value.writer.data)
  }

  // ----- the run says how it ended -------------------------------------------------------

  /** The row announces the end of the run, and reached the fan-out. */
  predicate EndRow(r: Row) {
    r.fanned && (Terminal(r.event.data) || r.event.data == CANCELLED)
  }

  predicate Announced(log: seq<Row>) {
    exists i :: 0 <= i < |log| && EndRow(log[i])
  }

  /** As long as nothing faulted, the run never gets past a point without the announcement it owes. */
  ghost predicate AnnounceOk(s: State) {
    !s.faulted ==>
      && (s.cancelled ==> Announced(s.log) || Outstanding(s, Cancel) > 0)
      && (s.task == Returned || s.task == Finished ==> Announced(s.log))
      // while the final write queues, a cancellation is out, being written, or next in line
      && (s.task == Ending && !HeldBy(s, {Engine}) ==>
            Announced(s.log) || HeldBy(s, {Cancel}) || (s.waiters != [] && s.waiters[0].origin == Cancel))
      && (s.task == Finished ==> s.settled <= |s.log| && Announced(s.log[..s.settled]))
  }

  // ----- cancellation is final ------------------------------------------------------------

  /** No engine row comes after a cancellation. */
  ghost predicate CancelIsLast(log: seq<Row>) {
    forall i, j :: 0 <= i < j < |log| && log[i].origin == Cancel ==> log[j].origin != Engine
  }

  ghost predicate CancelOk(s: State) {
    && CancelIsLast(s.log)
    && (forall r :: r in s.log && r.origin == Cancel ==> s.cancelled && r.event.data == CANCELLED)
    && (HeldBy(s, {Engine}) && s.holder.value.stage == Allocated ==> forall r :: r in s.log ==> r.origin != Cancel)
  }

  ghost predicate EndingOk(s: State) {
    D.HubOk(s) && TaskOk(s) && WritersOk(s) && AnnounceOk(s) && CancelOk(s)
  }

  // ----- preservation -----------------------------------------------------------------------

  lemma CountOne(w: Writer, o: Origin)
    ensures Count([w], o) == if w.origin == o then 1 else 0
  {
    assert [w][1..] == [];
  }

  /**
   * What the rest of the state must satisfy just before a writer asks for the lock:
   * `s` already has the writer's task state and flag, but not the writer.
   */
  ghost predicate Asking(s: State, w: Writer) {
    && WriterOk(s, w) && WritersOk(s) && CancelOk(s)
    && (w.origin == Engine ==>
          && (s.task == Working || s.task == Ending) && Outstanding(s, Timeout) == 0
          && (s.task == Ending ==> Outstanding(s, Engine) == 0))
    && (w.origin == Timeout ==>
          s.task == TimedOut && Outstanding(s, Timeout) == 0 && Outstanding(s, Engine) == 0)
    && (w.origin == Cancel ==> TaskOk(s) && s.cancelled)
    && (!s.faulted ==>
          && (s.cancelled && w.origin != Cancel ==> Announced(s.log) || Outstanding(s, Cancel) > 0)
          && (s.task == Returned || s.task == Finished ==> Announced(s.log))
          && (s.task == Finished ==> s.settled <= |s.log| && Announced(s.log[..s.settled]))
          && (s.task == Ending && w.origin == Cancel && !HeldBy(s, {Engine}) ==>
                Announced(s.log) || HeldBy(s, {Cancel}) || (s.waiters != [] && s.waiters[0].origin == Cancel)))
  }

  lemma SubmitEnding(s: State, w: Writer)
    requires Asking(s, w)
    ensures var t := Submit(s, w);
            TaskOk(t) && WritersOk(t) && AnnounceOk(t) && CancelOk(t)
  {
    hide Announced, CancelIsLast, Count;
    var t := Submit(s, w);
    CountOne(w, Engine);
    CountOne(w, Timeout);
    CountOne(w, Cancel);
    CountAppend(s.waiters, [w], Engine);
    CountAppend(s.waiters, [w], Timeout);
    CountAppend(s.waiters, [w], Cancel);
    if w.origin == Engine && s.task == Ending {
      QueueOfCancels(s);
      assert s.waiters != [] ==> s.waiters[0] in s.waiters;
      if s.waiters == [] {
        CountZero(s.waiters, Cancel);
      }
    }
  }

  /** When no engine and no timeout write is outstanding, only cancellations queue. */
  lemma QueueOfCancels(s: State)
    requires Outstanding(s, Engine) == 0 && Outstanding(s, Timeout) == 0
    ensures forall w :: w in s.waiters ==> w.origin == Cancel
    ensures s.holder.Some? ==> HeldBy(s, {Cancel})
  {
    CountZero(s.waiters, Engine);
    CountZero(s.waiters, Timeout);
    assert !HeldBy(s, {Engine}) && !HeldBy(s, {Timeout});
    if s.holder.Some? {
      var o := s.holder.value.writer.origin;
      assert o !in {Engine} && o !in {Timeout};
      assert o == Cancel;
    }
  }

  lemma CountHead(ws: seq<Writer>, o: Origin)
    requires ws != []
    ensures Count(ws, o) == (if ws[0].origin == o then 1 else 0) + Count(ws[1..], o)
  {
  }

  lemma GrantEnding(s: State)
    requires EndingOk(s) && Enabled(s, Grant)
    ensures var t := Effect(s, Grant);
            TaskOk(t) && WritersOk(t) && AnnounceOk(t) && CancelOk(t)
  {
    hide Announced, CancelIsLast, D.HubOk, Count;
    CountHead(s.waiters, Engine);
    CountHead(s.waiters, Timeout);
    CountHead(s.waiters, Cancel);
    assert s.waiters[0] in s.waiters;
    assert forall w :: w in s.waiters[1..] ==> w in s.waiters;
  }

  lemma AnnouncedAt(log: seq<Row>, i: nat)
    requires i < |log| && EndRow(log[i])
    ensures Announced(log)
  {
  }

  lemma AnnouncedAppend(log: seq<Row>, more: seq<Row>)
    requires Announced(log)
    ensures Announced(log + more)
  {
    var i :| 0 <= i < |log| && EndRow(log[i]);
    assert EndRow((log + more)[i]);
  }

  lemma AppendEnding(s: State)
    requires EndingOk(s) && Enabled(s, Append)
    ensures var t := Effect(s, Append);
            TaskOk(t) && WritersOk(t) && AnnounceOk(t) && CancelOk(t)
  {
    hide Announced, Count;
    var t := Effect(s, Append);
    var row := t.log[|s.log|];
    if Announced(s.log) {
      AnnouncedAppend(s.log, [row]);
    }
    assert s.settled <= |s.log| ==> t.log[..s.settled] == s.log[..s.settled];
    forall i, j | 0 <= i < j < |t.log| && t.log[i].origin == Cancel
      ensures t.log[j].origin != Engine
    {
      assert i < |s.log| && t.log[i] == s.log[i] && s.log[i] in s.log;
      assert j < |s.log| ==> t.log[j] == s.log[j];
    }
  }

  lemma AnnouncedMark(log: seq<Row>, n: nat)
    requires log != [] && n <= |log| && Announced(log[..n])
    ensures Announced(D.MarkLast(log)[..n])
  {
    var i :| 0 <= i < n && EndRow(log[..n][i]);
    assert EndRow(D.MarkLast(log)[..n][i]);
  }

  lemma AnnouncedSame(log: seq<Row>, marked: seq<Row>)
    requires |marked| == |log| && Announced(log)
    requires forall i :: 0 <= i < |log| ==> marked[i].event == log[i].event && marked[i].fanned == log[i].fanned
    ensures Announced(marked)
  {
    var i :| 0 <= i < |log| && EndRow(log[i]);
    assert EndRow(marked[i]);
  }

  /** Marks on rows change nothing of who wrote them. */
  lemma MarkedCancel(s: State, log: seq<Row>, marked: seq<Row>)
    requires |marked| == |log| && forall i :: 0 <= i < |log| ==> marked[i].event == log[i].event && marked[i].origin == log[i].origin
    requires CancelIsLast(log) && forall r :: r in log && r.origin == Cancel ==> s.cancelled && r.event.data == CANCELLED
    ensures CancelIsLast(marked) && forall r :: r in marked && r.origin == Cancel ==> s.cancelled && r.event.data == CANCELLED
  {
    forall r | r in marked
      ensures r.origin == Cancel ==> s.cancelled && r.event.data == CANCELLED
    {
      var i :| 0 <= i < |marked| && marked[i] == r;
      assert log[i] in log;
    }
  }

  lemma ProjectEnding(s: State)
    requires EndingOk(s) && Enabled(s, Project)
    ensures var t := Effect(s, Project);
            TaskOk(t) && WritersOk(t) && AnnounceOk(t) && CancelOk(t)
  {
    hide Announced, Count, D.HubOk, P.Persisted;
    var t := Effect(s, Project);
    if Announced(s.log) {
      AnnouncedSame(s.log, t.log);
    }
    if s.settled <= |s.log| && Announced(s.log[..s.settled]) {
      AnnouncedSame(s.log[..s.settled], t.log[..s.settled]);
    }
    MarkedCancel(s, s.log, t.log);
    hide CancelIsLast;
  }

  lemma FanOutEnding(s: State)
    requires EndingOk(s) && Enabled(s, FanOut)
    ensures var t := Effect(s, FanOut);
            TaskOk(t) && WritersOk(t) && AnnounceOk(t) && CancelOk(t)
  {
    hide Announced, Count, D.SubsOk, D.LogOk, PutAll;
    var t := Effect(s, FanOut);
    var h := s.holder.value;
    var last := |s.log| - 1;
    assert t.log == D.MarkLast(s.log);
    assert s.log[last] == Row(h.event, h.writer.origin, true, false);
    if h.writer.origin == Cancel || h.writer.origin == Timeout || s.task == Ending {
      AnnouncedAt(t.log, last);
    } else if Announced(s.log) {
      assert s.log[..|s.log|] == s.log && t.log[..|t.log|] == t.log;
      AnnouncedMark(s.log, |s.log|);
    }
    if s.settled <= |s.log| && Announced(s.log[..s.settled]) {
      AnnouncedMark(s.log, s.settled);
    }
    MarkedCancel(s, s.log, t.log);
    hide CancelIsLast;
  }

  lemma DropEnding(s: State, a: Action)
    requires EndingOk(s) && Enabled(s, a)
    requires a.DropWaiter? || a.DropHolder? || a.FinalFails? || a.OutOfBandFails?
    ensures var t := Effect(s, a);
            TaskOk(t) && WritersOk(t) && AnnounceOk(t) && CancelOk(t)
  {
    hide Announced, CancelIsLast, D.HubOk, Count;
    if a.DropWaiter? {
      var i := a.index;
      var ws := s.waiters;
      var kept := ws[..i] + ws[i + 1..];
      CountWithout(ws, i, Engine);
      CountWithout(ws, i, Timeout);
      CountWithout(ws, i, Cancel);
      assert forall w :: w in kept ==> w in ws;
    }
  }

  lemma CountWithout(ws: seq<Writer>, i: nat, o: Origin)
    requires i < |ws|
    ensures Count(ws[..i] + ws[i + 1..], o) == Count(ws, o) - if ws[i].origin == o then 1 else 0
  {
    assert ws == ws[..i] + ([ws[i]] + ws[i + 1..]);
    CountAppend(ws[..i], [ws[i]] + ws[i + 1..], o);
    CountAppend([ws[i]], ws[i + 1..], o);
    CountAppend(ws[..i], ws[i + 1..], o);
    CountOne(ws[i], o);
  }

  lemma InterruptEnding(s: State, origins: set<Origin>)
    requires WritersOk(s)
    ensures var t := Interrupt(s, origins);
            && (forall w :: w in t.waiters ==> WriterOk(s, w))
            && (t.holder.Some? ==> t.holder == s.holder)
            && forall o :: Outstanding(t, o) == if o in origins then 0 else Outstanding(s, o)
  {
    hide Count, RemoveOrigins;
    var t := Interrupt(s, origins);
    forall o
      ensures Outstanding(t, o) == if o in origins then 0 else Outstanding(s, o)
    {
      CountRemove(s.waiters, origins, o);
    }
    CountRemove(s.waiters, origins, Engine);
  }

  lemma SameOutstanding(s: State, t: State)
    requires s.waiters == t.waiters && s.holder == t.holder
    ensures forall o :: Outstanding(s, o) == Outstanding(t, o)
  {
  }

  lemma KillEnding(s: State, a: Action)
    requires EndingOk(s) && Enabled(s, a)
    requires a.CancelTeardown? || a.Shutdown?
    ensures var t := Effect(s, a);
            TaskOk(t) && WritersOk(t) && AnnounceOk(t) && CancelOk(t)
  {
    hide CancelIsLast, D.HubOk, Outstanding, RemoveOrigins;
    var t := Effect(s, a);
    InterruptEnding(s, {Engine, Timeout});
    SameOutstanding(Interrupt(s, {Engine, Timeout}), t);
    if a.CancelTeardown? {
      var i :| 0 <= i < |s.log| && s.log[i].fanned && s.log[i].origin == Cancel;
      assert s.log[i] in s.log;
      assert EndRow(s.log[i]);
    }
  }

  lemma TimeoutEnding(s: State, message: string)
    requires EndingOk(s) && Enabled(s, TimeoutFires(message))
    ensures var t := Effect(s, TimeoutFires(message));
            TaskOk(t) && WritersOk(t) && AnnounceOk(t) && CancelOk(t)
  {
    hide Announced, CancelIsLast, D.HubOk, Outstanding, RemoveOrigins, Submit;
    InterruptEnding(s, {Engine});
    var u := Interrupt(s, {Engine}).(task := TimedOut);
    SameOutstanding(Interrupt(s, {Engine}), u);
    SubmitEnding(u, Writer(Timeout, Failed(message)));
  }

  lemma FinishEnding(s: State)
    requires EndingOk(s) && Enabled(s, Finish)
    ensures var t := Effect(s, Finish);
            TaskOk(t) && WritersOk(t) && AnnounceOk(t) && CancelOk(t)
  {
    hide CancelIsLast, Count, D.SubsOk, D.LogOk, PutAll, P.Persisted, RemoveOrigins;
    var t := Effect(s, Finish);
    assert t == s.(task := Finished, subs := t.subs, settled := t.settled);
    if !s.faulted {
      var i :| 0 <= i < |s.log| && EndRow(s.log[i]);
      assert i < t.settled;
      assert EndRow(t.log[..t.settled][i]);
    }
  }

  lemma WriteEnding(s: State, a: Action)
    requires EndingOk(s) && D.Writes(a) && Enabled(s, a)
    ensures var t := Effect(s, a);
            TaskOk(t) && WritersOk(t) && AnnounceOk(t) && CancelOk(t)
  {
    hide Announced, CancelIsLast, D.HubOk, Submit, Count, RemoveOrigins;
    match a
    case EngineEmit(data) => SubmitEnding(s, Writer(Engine, data));
    case EngineFinal(data) =>
      CountZero(s.waiters, Engine);
      SubmitEnding(s.(task := Ending), Writer(Engine, data));
    case TimeoutFires(message) => TimeoutEnding(s, message);
    case CancelCall => SubmitEnding(s.(cancelled := true, looks := s.looks - 1), Writer(Cancel, CANCELLED));
  }

  /** A new subscriber, or the step of one, says nothing of the end; nor does a look at the run's row. */
  lemma ReaderEnding(s: State, a: Action)
    requires EndingOk(s) && (a.Join? || a.Snapshot? || a.Replay? || a.Take? || a.Leave? || a.CancelLook?) && Enabled(s, a)
    ensures var t := Effect(s, a);
            TaskOk(t) && WritersOk(t) && AnnounceOk(t) && CancelOk(t)
  {
    hide Announced, CancelIsLast, D.HubOk, SubStep;
    var t := Effect(s, a);
    assert t == s.(subs := t.subs, looks := t.looks);
    SameOutstanding(s, t);
  }

  /** Every action keeps the account of how the run ends. */
  lemma NextEnding(s: State, a: Action)
    requires EndingOk(s)
    ensures EndingOk(Next(s, a))
  {
    D.NextOk(s, a);
    if Enabled(s, a) {
      StepEnding(s, a);
    }
  }

  lemma StepEnding(s: State, a: Action)
    requires EndingOk(s) && Enabled(s, a)
    ensures var t := Effect(s, a);
            TaskOk(t) && WritersOk(t) && AnnounceOk(t) && CancelOk(t)
  {
    hide EndingOk, Effect, Enabled, TaskOk, WritersOk, AnnounceOk, CancelOk;
    match a
    case Grant => GrantEnding(s);
    case Append => AppendEnding(s);
    case Project => ProjectEnding(s);
    case FanOut => FanOutEnding(s);
    case DropWaiter(_) => DropEnding(s, a);
    case DropHolder => DropEnding(s, a);
    case FinalFails => DropEnding(s, a);
    case OutOfBandFails => DropEnding(s, a);
    case CancelTeardown => KillEnding(s, a);
    case Shutdown => KillEnding(s, a);
    case Finish => FinishEnding(s);
    case _ =>
      if D.Writes(a) {
        WriteEnding(s, a);
      } else {
        ReaderEnding(s, a);
      }
  }

  lemma {:induction false} RunEnding(actions: seq<Action>)
    ensures EndingOk(Run(actions))
  {
    if actions == [] {
      D.RunOk([]);
    } else {
      RunEnding(actions[..|actions| - 1]);
      NextEnding(Run(actions[..|actions| - 1]), actions[|actions| - 1]);
    }
  }

  // ----- what follows for every run -----------------------------------------------------------

  /**
   * No silent close: barring a shutdown and the failure of a final write, a stream that
   * ends with the sentinel has been given a done, error or cancelled event before it.
   */
  lemma NoSilentClose(actions: seq<Action>, k: nat)
    requires k < |Run(actions).subs| && !Run(actions).faulted
    requires Run(actions).subs[k].phase == Closed(ByStop)
    ensures exists e :: e in Run(actions).subs[k].given && (Terminal(e.data) || e.data == CANCELLED)
  {
    RunEnding(actions);
    var s := Run(actions);
    var i :| 0 <= i < s.settled && EndRow(s.log[..s.settled][i]);
    D.CaughtUpHasEverything(actions, k, i);
  }

  /** The event announces the end of the run. */
  predicate Ends(d: Payload) {
    Terminal(d) || d == CANCELLED
  }

  /** Row i is an end that lies in the subscriber's snapshot, or was fanned out before the run finished. */
  predicate EndSeen(s: State, sub: Sub, i: nat) {
    i < |s.log| && Ends(s.log[i].event.data) && (i < |sub.rows| || (s.log[i].fanned && i < s.settled))
  }

  /** Without exception: a stream that ends with the sentinel was told of the end if and only if there is such a row. */
  lemma SilentCloseIff(actions: seq<Action>, k: nat)
    requires k < |Run(actions).subs| && Run(actions).subs[k].phase == Closed(ByStop)
    ensures var s := Run(actions);
            (exists e :: e in s.subs[k].given && Ends(e.data)) <==> exists i: nat :: EndSeen(s, s.subs[k], i)
  {
    D.RunOk(actions);
    hide Run;
    SilentClose(Run(actions), k);
  }

  lemma SilentClose(s: State, k: nat)
    requires D.HubOk(s) && k < |s.subs| && s.subs[k].phase == Closed(ByStop)
    ensures (exists e :: e in s.subs[k].given && Ends(e.data)) <==> exists i: nat :: EndSeen(s, s.subs[k], i)
  {
    var sub := s.subs[k];
    var n := |sub.rows|;
    var hi := D.Reach(s.log, true, s.settled, n);
    var later := D.Fanned(s.log, n, hi);
    assert sub.given == sub.rows + later && sub.rows == Events(s.log)[..n] && s.settled <= |s.log|;
    hide D.HubOk, D.Fanned, Ends;
    if e :| e in sub.given && Ends(e.data) {
      if e in sub.rows {
        var i :| 0 <= i < n && sub.rows[i] == e;
        assert EndSeen(s, sub, i);
      } else {
        var i := D.FannedRow(s.log, n, hi, e);
        assert EndSeen(s, sub, i);
      }
    }
    if i: nat :| EndSeen(s, sub, i) {
      var e := s.log[i].event;
      if i < n {
        assert sub.rows[i] == e;
      } else {
        D.FannedHas(s.log, n, hi, i);
      }
      assert e in sub.given && Ends(e.data);
    }
  }

  /** Once a cancellation is in the log, no engine event ever follows it, whatever happens next. */
  lemma CancelIsFinal(actions: seq<Action>, i: nat, j: nat)
    requires i < j < |Run(actions).log| && Run(actions).log[i].origin == Cancel
    ensures Run(actions).log[j].origin != Engine
  {
    RunEnding(actions);
  }
}
