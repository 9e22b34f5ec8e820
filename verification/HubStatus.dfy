/** The status a client is left with when its stream ends, against the run's row (model: Hub.dfy). */
module HubStatus {
  import opened Common
  import opened Wire
  import opened Hub
  import opened Reducer
  import opened HubTables
  import P = Projection
  import D = HubDelivery

  /** A stream goes no further than its first done or error. */
  ghost predicate StopsAtTerminal(sub: Sub) {
    forall m :: 0 <= m < |sub.given| && Terminal(sub.given[m].data) ==>
      m == |sub.given| - 1 && sub.phase == Closed(ByTerminal)
  }

  ghost predicate StreamsOk(s: State) {
    forall k :: 0 <= k < |s.subs| ==> StopsAtTerminal(s.subs[k])
  }

  lemma SubStops(log: seq<Row>, a: Action, sub: Sub)
    requires StopsAtTerminal(sub)
    ensures StopsAtTerminal(SubStep(log, a, sub))
  {
  }

  lemma PutAllStops(subs: seq<Sub>, item: Item)
    requires forall k :: 0 <= k < |subs| ==> StopsAtTerminal(subs[k])
    ensures forall k :: 0 <= k < |subs| ==> StopsAtTerminal(PutAll(subs, item)[k])
  {
  }

  lemma GivenNothing(sub: Sub)
    requires sub.given == []
    ensures StopsAtTerminal(sub)
  {
  }

  /** The other actions change queues, or add a subscriber that was given nothing. */
  lemma OthersStop(s: State, a: Action)
    requires StreamsOk(s) && Enabled(s, a) && !a.Snapshot? && !a.Replay? && !a.Take? && !a.Leave?
    ensures StreamsOk(Effect(s, a))
  {
    hide P.Persisted, RemoveOrigins, CancelDelivered, PutAll, StopsAtTerminal;
    var t := Effect(s, a);
    if a.Join? {
      GivenNothing(t.subs[|s.subs|]);
    } else if a.FanOut? {
      assert t.subs == PutAll(s.subs, Deliver(s.holder.value.event));
      PutAllStops(s.subs, Deliver(s.holder.value.event));
    } else if a.Finish? {
      assert t.subs == PutAll(s.subs, Stop);
      PutAllStops(s.subs, Stop);
    } else {
      assert t.subs == s.subs;
    }
  }

  lemma NextStreams(s: State, a: Action)
    requires StreamsOk(s)
    ensures StreamsOk(Next(s, a))
  {
    hide SubStep, StopsAtTerminal;
    if Enabled(s, a) {
      if a.Snapshot? || a.Replay? || a.Take? || a.Leave? {
        assert Next(s, a).subs == s.subs[a.k := SubStep(s.log, a, s.subs[a.k])];
        hide Next;
        SubStops(s.log, a, s.subs[a.k]);
      } else {
        OthersStop(s, a);
      }
    }
  }

  lemma {:induction false} RunStreams(actions: seq<Action>)
    ensures StreamsOk(Run(actions))
  {
    hide Next, StreamsOk;
    if actions == [] {
      NoStreams();
    } else {
      RunStreams(actions[..|actions| - 1]);
      NextStreams(Run(actions[..|actions| - 1]), actions[|actions| - 1]);
    }
  }

  lemma NoStreams()
    ensures StreamsOk(INIT)
  {
  }

  // ----- what the status column says ---------------------------------------------------------

  /** The statuses done and error are set by those events alone. */
  ghost predicate PlainStages(log: seq<Row>) {
    forall i :: 0 <= i < |log| && log[i].event.data.Status? ==>
      log[i].event.data.stage != "done" && log[i].event.data.stage != "error"
  }

  lemma {:induction false} SaysFrom(log: seq<Row>, lo: nat, field: Payload -> Option<string>)
    requires lo <= |log|
    ensures Says(log, 0, field) == if Says(log, lo, field).Some? then Says(log, lo, field) else Says(log[..lo], 0, field)
  {
    if lo < |log| {
      var init := log[..|log| - 1];
      SaysFrom(init, lo, field);
      assert init[..lo] == log[..lo];
    } else {
      assert log[..lo] == log;
    }
  }

  lemma {:induction false} SaysOfRow(log: seq<Row>, lo: nat, field: Payload -> Option<string>)
    requires lo < |log| && log[lo].projected && field(log[lo].event.data).Some?
    ensures Says(log, lo, field).Some?
  {
    if lo < |log| - 1 {
      SaysOfRow(log[..|log| - 1], lo, field);
    }
  }

  lemma {:induction false} SaysPlain(log: seq<Row>)
    requires PlainStages(log) && forall i :: 0 <= i < |log| ==> !Terminal(log[i].event.data)
    ensures Says(log, 0, StatusOf) != Some("done") && Says(log, 0, StatusOf) != Some("error")
  {
    if log != [] {
      SaysPlain(log[..|log| - 1]);
    }
  }

  lemma SameNumberSameRow(log: seq<Row>, i: nat, j: nat)
    requires Increasing(Events(log)) && i < |log| && j < |log| && log[i].event == log[j].event
    ensures i == j
  {
    assert Events(log)[i] == Events(log)[j];
    if i < j {
      D.IncreasingAt(Events(log), i, j);
    } else if j < i {
      D.IncreasingAt(Events(log), j, i);
    }
  }

  /** A terminal row that was given but never reached the tables was replayed, and is the log's first terminal row. */
  lemma TornTerminalIsFirst(actions: seq<Action>, k: nat, i: nat)
    requires var s := Run(actions);
             && k < |s.subs| && s.subs[k].phase == Closed(ByTerminal) && s.subs[k].given != [] && i < |s.log|
             && s.log[i].event == s.subs[k].given[|s.subs[k].given| - 1] && !s.log[i].projected
    ensures forall m :: 0 <= m < i ==> !Terminal(Run(actions).log[m].event.data)
  {
    D.RunOk(actions);
    TablesAreProjected(actions);
    RunStreams(actions);
    var s := Run(actions);
    hide Run, D.HubOk, TablesOk, Kept;
    TornInScript(s, s.subs[k], i);
  }

  lemma TornInScript(s: State, sub: Sub, i: nat)
    requires D.HubOk(s) && TablesOk(s) && sub in s.subs && StopsAtTerminal(sub)
    requires sub.phase == Closed(ByTerminal) && sub.given != [] && i < |s.log|
    requires s.log[i].event == sub.given[|sub.given| - 1] && !s.log[i].projected
    ensures forall m :: 0 <= m < i ==> !Terminal(s.log[m].event.data)
  {
    hide D.Stops, D.Fresh, D.HolderOk, Kept, P.Stored, Increasing, D.Fanned;
    var log, n := s.log, |sub.given|;
    var hi := D.Reach(log, s.task == Finished, s.settled, |sub.rows|);
    var later := D.Fanned(log, |sub.rows|, hi);
    var script := sub.rows + later;
    assert sub.given <= script;
    assert sub.given[n - 1] == script[n - 1];
    if n > |sub.rows| {
      assert script[n - 1] == later[n - 1 - |sub.rows|];
      var j := D.FannedRow(log, |sub.rows|, hi, sub.given[n - 1]);
      SameNumberSameRow(log, i, j);
      assert false;
    } else {
      assert sub.rows[n - 1] == Events(log)[n - 1];
      SameNumberSameRow(log, i, n - 1);
      forall m | 0 <= m < i
        ensures !Terminal(log[m].event.data)
      {
        assert sub.given[m] == script[m] == sub.rows[m] == Events(log)[m];
      }
    }
  }

  lemma TerminalStatus(given: seq<Event>)
    requires given != [] && Terminal(given[|given| - 1].data)
    ensures Some(Fold(given).status) == StatusOf(given[|given| - 1].data)
    ensures Fold(given).status == "done" || Fold(given).status == "error"
  {
    hide ReduceEvent, StatusOf;
    ReduceTerminal(Fold(given[..|given| - 1]), given[|given| - 1].data);
  }

  lemma ReduceTerminal(s: StreamState, d: Payload)
    requires Terminal(d)
    ensures Some(ReduceEvent(s, d).status) == StatusOf(d)
    ensures ReduceEvent(s, d).status == "done" || ReduceEvent(s, d).status == "error"
  {
    hide UpsertSection, SeedAll, AddSource, SetVerdicts;
    if d.Done? {
      assert ReduceEvent(s, d).status == "done";
    }
  }

  /**
   * When its stream ends with a done or an error, a client shows the run's stored status if and only if, from that
   * row on, the last status that reached the run's row is the same one: a terminal row cut off before the tables, and
   * a later cancellation or timeout, are what makes the two differ.
   */
  lemma ClosedStatusIff(actions: seq<Action>, k: nat, i: nat)
    requires var s := Run(actions);
             && k < |s.subs| && s.subs[k].phase == Closed(ByTerminal) && s.subs[k].given != [] && i < |s.log|
             && s.log[i].event == s.subs[k].given[|s.subs[k].given| - 1] && PlainStages(s.log)
    ensures var s := Run(actions);
            Fold(s.subs[k].given).status == s.tables.status <==> Says(s.log, i, StatusOf) == StatusOf(s.log[i].event.data)
  {
    D.RunOk(actions);
    TablesAreProjected(actions);
    var s := Run(actions);
    TerminalLast(s, k);
    if !s.log[i].projected {
      TornTerminalIsFirst(actions, k, i);
    }
    hide Run, D.HubOk, P.Stored, Kept, Fold;
    TerminalStatus(s.subs[k].given);
    ColumnsSay(s.log);
    StatusFrom(s.log, i);
  }

  lemma StatusFrom(log: seq<Row>, i: nat)
    requires i < |log| && PlainStages(log) && Terminal(log[i].event.data)
    requires !log[i].projected ==> forall m :: 0 <= m < i ==> !Terminal(log[m].event.data)
    ensures Says(log, i, StatusOf) == StatusOf(log[i].event.data)
            <==> Some(Says(log, 0, StatusOf).GetOr("queued")) == StatusOf(log[i].event.data)
  {
    SaysFrom(log, i, StatusOf);
    if log[i].projected {
      SaysOfRow(log, i, StatusOf);
    } else {
      SaysPlain(log[..i]);
    }
  }

  lemma TerminalLast(s: State, k: nat)
    requires D.HubOk(s) && k < |s.subs| && s.subs[k].phase == Closed(ByTerminal)
    ensures s.subs[k].given != [] && Terminal(s.subs[k].given[|s.subs[k].given| - 1].data)
  {
    hide D.Script, D.Fresh, D.Stops;
  }

  /** Every such client has a last row to speak of. */
  lemma ClosedAtARow(actions: seq<Action>, k: nat) returns (i: nat)
    requires k < |Run(actions).subs| && Run(actions).subs[k].phase == Closed(ByTerminal)
    ensures var s := Run(actions);
            && s.subs[k].given != [] && i < |s.log| && s.log[i].event == s.subs[k].given[|s.subs[k].given| - 1]
            && Terminal(s.log[i].event.data)
  {
    hide Run, D.HubOk, Increasing, Terminal;
    D.RunOk(actions);
    D.GivenInOrder(actions, k);
    TerminalLast(Run(actions), k);
    i := RowOf(Run(actions).log, Run(actions).subs[k].given);
  }

  lemma RowOf(log: seq<Row>, given: seq<Event>) returns (i: nat)
    requires given != [] && forall e :: e in given ==> e in Events(log)
    ensures i < |log| && log[i].event == given[|given| - 1]
  {
    var e := given[|given| - 1];
    assert e in given;
    i :| 0 <= i < |log| && Events(log)[i] == e;
  }

  // ----- every subscriber at every moment --------------------------------------------------------

  /** Row i is the last of those the subscriber was given that sets a status. */
  ghost predicate LastStatusGiven(log: seq<Row>, given: seq<Event>, i: nat) {
    && i < |log| && log[i].event in given && StatusOf(log[i].event.data).Some?
    && forall j :: i < j < |log| && log[j].event in given ==> StatusOf(log[j].event.data).None?
  }

  lemma {:induction false} FoldStatus(given: seq<Event>, m: nat)
    requires m < |given| && StatusOf(given[m].data).Some?
    requires forall k :: m < k < |given| ==> StatusOf(given[k].data).None?
    ensures Some(Fold(given).status) == StatusOf(given[m].data)
  {
    hide ReduceEvent, StatusOf;
    var n := |given| - 1;
    ReduceStatus(Fold(given[..n]), given[n].data);
    if m < n {
      FoldStatus(given[..n], m);
    }
  }

  lemma {:induction false} FoldNoStatus(given: seq<Event>)
    requires forall k :: 0 <= k < |given| ==> StatusOf(given[k].data).None?
    ensures Fold(given).status == "queued"
  {
    hide ReduceEvent, StatusOf;
    if given != [] {
      var n := |given| - 1;
      ReduceStatus(Fold(given[..n]), given[n].data);
      FoldNoStatus(given[..n]);
    }
  }

  lemma ReduceStatus(s: StreamState, d: Payload)
    ensures ReduceEvent(s, d).status == if StatusOf(d).Some? then StatusOf(d).value else s.status
  {
    hide UpsertSection, SeedAll, AddSource, SetVerdicts;
  }

  /** The client shows the last status it was given. */
  lemma ShownStatus(log: seq<Row>, given: seq<Event>, i: nat)
    requires Increasing(Events(log)) && Increasing(given) && (forall e :: e in given ==> e in Events(log))
    requires LastStatusGiven(log, given, i)
    ensures Some(Fold(given).status) == StatusOf(log[i].event.data)
  {
    hide StatusOf, Fold;
    var m :| 0 <= m < |given| && given[m] == log[i].event;
    forall k | m < k < |given|
      ensures StatusOf(given[k].data).None?
    {
      assert given[k] in Events(log);
      var j :| 0 <= j < |log| && Events(log)[j] == given[k];
      assert given[m].seqNo < given[k].seqNo;
      D.NumbersTellOrder(Events(log), i, j);
    }
    FoldStatus(given, m);
  }

  /**
   * For every subscriber at every moment, closed by the sentinel or not: what it shows is the stored status if and only
   * if, from the last row it was given that sets one, the last status that reached the run's row is the same, or none
   * reached it from there on and the one before is the same.
   */
  lemma ShownStatusIff(actions: seq<Action>, k: nat, i: nat)
    requires k < |Run(actions).subs| && LastStatusGiven(Run(actions).log, Run(actions).subs[k].given, i)
    ensures var s := Run(actions);
            var said := Says(s.log, i, StatusOf);
            Fold(s.subs[k].given).status == s.tables.status
            <==> said == StatusOf(s.log[i].event.data)
                 || (said.None? && Says(s.log[..i], 0, StatusOf).GetOr("queued") == StatusOf(s.log[i].event.data).value)
  {
    D.GivenInOrder(actions, k);
    D.NumbersNeverCollide(actions);
    TablesAreProjected(actions);
    hide Run, P.Stored, Kept, Fold, Increasing;
    var s := Run(actions);
    ShownStatus(s.log, s.subs[k].given, i);
    ColumnsSay(s.log);
    SaysFrom(s.log, i, StatusOf);
  }

  /** ... and one that was given no status yet shows the status a run is created with. */
  lemma UntoldStatusIff(actions: seq<Action>, k: nat)
    requires k < |Run(actions).subs|
    requires forall e :: e in Run(actions).subs[k].given ==> StatusOf(e.data).None?
    ensures var s := Run(actions);
            Fold(s.subs[k].given).status == s.tables.status <==> Says(s.log, 0, StatusOf).GetOr("queued") == "queued"
  {
    TablesAreProjected(actions);
    hide Run, P.Stored, Kept, Fold, StatusOf;
    var s := Run(actions);
    var given := s.subs[k].given;
    assert forall m :: 0 <= m < |given| ==> given[m] in given;
    FoldNoStatus(given);
    ColumnsSay(s.log);
  }

  /** Of a stream that ended with done or error, that is the last row given. */
  lemma LastStatusIsLast(actions: seq<Action>, k: nat, i: nat)
    requires k < |Run(actions).subs| && Run(actions).subs[k].phase == Closed(ByTerminal)
    requires LastStatusGiven(Run(actions).log, Run(actions).subs[k].given, i)
    ensures var s := Run(actions);
            s.subs[k].given != [] && i < |s.log| && s.log[i].event == s.subs[k].given[|s.subs[k].given| - 1]
  {
    hide Run, Increasing, LastStatusGiven, Events, StatusOf;
    D.GivenInOrder(actions, k);
    D.NumbersNeverCollide(actions);
    var j := ClosedAtARow(actions, k);
    LastGiven(Run(actions).log, Run(actions).subs[k].given, i, j);
  }

  lemma LastGiven(log: seq<Row>, given: seq<Event>, i: nat, j: nat)
    requires Increasing(Events(log)) && Increasing(given) && LastStatusGiven(log, given, i)
    requires given != [] && j < |log| && log[j].event == given[|given| - 1] && Terminal(log[j].event.data)
    ensures i == j
  {
    var m :| 0 <= m < |given| && given[m] == log[i].event;
    assert log[j].event in given && StatusOf(log[j].event.data).Some?;
    LastIsLargest(given, m);
    NoLater(Events(log), i, j);
  }

  lemma LastIsLargest(events: seq<Event>, m: nat)
    requires Increasing(events) && m < |events|
    ensures events[m].seqNo <= events[|events| - 1].seqNo
  {
  }

  lemma NoLater(events: seq<Event>, i: nat, j: nat)
    requires Increasing(events) && i < |events| && j < |events| && events[i].seqNo <= events[j].seqNo
    ensures i <= j
  {
  }
}
