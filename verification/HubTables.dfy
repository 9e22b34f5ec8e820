/**
 * The log and the tables derived from it, in every interleaving (model: Hub.dfy): a write
 * interrupted after its append leaves a row that replaying clients fold and the tables never show.
 */
module HubTables {
  import opened Common
  import opened Wire
  import opened Hub
  import opened Reducer
  import D = HubDelivery
  import P = Projection

  /** The events whose rows reached the tables. */
  function Kept(log: seq<Row>): seq<Event> {
    if log == [] then []
    else
      var last := log[|log| - 1];
      Kept(log[..|log| - 1]) + if last.projected then [last.event] else []
  }

  ghost predicate TablesOk(s: State) {
    && s.tables == P.Stored(Kept(s.log))
    && (forall i :: 0 <= i < |s.log| && s.log[i].fanned ==> s.log[i].projected)
  }

  lemma ProjectedLast(log: seq<Row>, row: Row)
    ensures Kept(log + [row]) == Kept(log) + if row.projected then [row.event] else []
  {
    assert (log + [row])[..|log|] == log;
  }

  lemma {:induction false} ProjectedSame(a: seq<Row>, b: seq<Row>)
    requires |a| == |b| && forall i :: 0 <= i < |a| ==> a[i].event == b[i].event && a[i].projected == b[i].projected
    ensures Kept(a) == Kept(b)
  {
    if a != [] {
      ProjectedSame(a[..|a| - 1], b[..|b| - 1]);
    }
  }

  lemma StoredLast(events: seq<Event>, e: Event)
    ensures P.Stored(events + [e]) == P.Persisted(P.Stored(events), e.data)
  {
    assert (events + [e])[..|events|] == events;
  }

  lemma ProjectTables(s: State)
    requires D.HubOk(s) && TablesOk(s) && Enabled(s, Project)
    ensures TablesOk(Effect(s, Project))
  {
    hide P.Stored, P.Persisted, D.LogOk, D.SubsOk;
    var n := |s.log| - 1;
    var init, row := s.log[..n], s.log[n];
    var marked := row.(projected := true);
    assert s.log == init + [row] && s.log[n := marked] == init + [marked];
    ProjectedLast(init, row);
    ProjectedLast(init, marked);
    assert Kept(s.log) == Kept(init) + [] == Kept(init);
    StoredLast(Kept(init), row.event);
  }

  lemma NextTables(s: State, a: Action)
    requires D.HubOk(s) && TablesOk(s)
    ensures TablesOk(Next(s, a))
  {
    hide P.Stored, P.Persisted, D.LogOk, D.SubsOk, SubStep, PutAll, RemoveOrigins, Kept;
    hide RemoveOrigins, CancelDelivered;
    if Enabled(s, a) {
      if a.Project? {
        ProjectTables(s);
      } else if a.Append? {
        AppendTables(s);
      } else if a.FanOut? {
        FanOutTables(s);
      } else {
        assert Effect(s, a).log == s.log && Effect(s, a).tables == s.tables;
      }
    }
  }

  lemma AppendTables(s: State)
    requires TablesOk(s) && Enabled(s, Append)
    ensures TablesOk(Effect(s, Append))
  {
    hide P.Stored, Kept;
    var h := s.holder.value;
    var row := Row(h.event, h.writer.origin, false, false);
    ProjectedLast(s.log, row);
    assert Kept(s.log) + [] == Kept(s.log);
  }

  lemma FanOutTables(s: State)
    requires D.HubOk(s) && TablesOk(s) && Enabled(s, FanOut)
    ensures TablesOk(Effect(s, FanOut))
  {
    hide D.SubsOk, D.LogOk, PutAll, P.Stored, Kept;
    var t, n := Effect(s, FanOut), |s.log| - 1;
    assert s.log[n].projected && t.tables == s.tables && t.log == s.log[n := s.log[n].(fanned := true)];
    hide D.HubOk, Effect, Enabled;
    ProjectedSame(s.log, t.log);
  }

  /** In every run the tables are the projection of exactly the rows whose write came that far, as every delivered one did. */
  lemma {:induction false} TablesAreProjected(actions: seq<Action>)
    ensures TablesOk(Run(actions))
  {
    hide Next, TablesOk;
    if actions == [] {
      NoTables();
    } else {
      var s := Run(actions[..|actions| - 1]);
      TablesAreProjected(actions[..|actions| - 1]);
      D.RunOk(actions[..|actions| - 1]);
      NextTables(s, actions[|actions| - 1]);
    }
  }

  lemma NoTables()
    ensures TablesOk(INIT)
  {
  }

  // ----- what the tables hold, field by field ---------------------------------------------------

  /** What an event sets the run's status, error, report and title to, if anything. */
  function StatusOf(d: Payload): Option<string> {
    match d
    case Status(stage, _) => Some(stage)
    case AwaitingPlan => Some("awaiting_plan")
    case Done(_, _, _) => Some("done")
    case Failed(_) => Some("error")
    case _ => None
  }

  function ErrorOf(d: Payload): Option<string> {
    if d.Failed? then Some(d.message) else None
  }

  function ReportOf(d: Payload): Option<string> {
    if d.Report? then Some(d.markdown) else None
  }

  function TitleOf(d: Payload): Option<string> {
    if d.Report? then Some(d.title) else None
  }

  /** What the last row at or after `lo` that reached the tables says of a field. */
  function Says(log: seq<Row>, lo: nat, field: Payload -> Option<string>): Option<string> {
    if |log| <= lo then None
    else
      var last := log[|log| - 1];
      if last.projected && field(last.event.data).Some? then field(last.event.data)
      else Says(log[..|log| - 1], lo, field)
  }

  /** The same log had nothing been interrupted. */
  function Whole(log: seq<Row>): (r: seq<Row>)
    ensures |r| == |log|
    ensures forall i :: 0 <= i < |log| ==> r[i] == log[i].(projected := true)
  {
    seq(|log|, i requires 0 <= i < |log| => log[i].(projected := true))
  }

  lemma {:induction false} ProjectedWhole(log: seq<Row>)
    ensures Kept(Whole(log)) == Events(log)
  {
    if log != [] {
      var init := log[..|log| - 1];
      ProjectedWhole(init);
      assert Whole(log)[..|log| - 1] == Whole(init);
      assert Events(log) == Events(init) + [log[|log| - 1].event];
    }
  }

  lemma StepSays(t: P.Tables, d: Payload)
    ensures P.Persisted(t, d).status == if StatusOf(d).Some? then StatusOf(d).value else t.status
    ensures P.Persisted(t, d).error == if ErrorOf(d).Some? then ErrorOf(d) else t.error
    ensures P.Persisted(t, d).report == if ReportOf(d).Some? then ReportOf(d) else t.report
    ensures P.Persisted(t, d).title == if TitleOf(d).Some? then TitleOf(d) else t.title
  {
  }

  /** The four columns are what the last row that reached the tables says of them. */
  lemma {:induction false} ColumnsSay(log: seq<Row>)
    ensures var t := P.Stored(Kept(log));
            && t.status == Says(log, 0, StatusOf).GetOr("queued")
            && t.error == Says(log, 0, ErrorOf)
            && t.report == Says(log, 0, ReportOf)
            && t.title == Says(log, 0, TitleOf)
  {
    hide P.Persisted;
    if log != [] {
      var init, last := log[..|log| - 1], log[|log| - 1];
      ColumnsSay(init);
      if last.projected {
        StoredLast(Kept(init), last.event);
        StepSays(P.Stored(Kept(init)), last.event.data);
      } else {
        assert Kept(init) + [] == Kept(init);
      }
    }
  }

  /** The keyed tables: an event's key and what it stores there. */
  datatype Key = SourceKey(id: nat) | ClaimKey(claimId: string) | VerdictKey(claimId: string)

  datatype Entry = SourceEntry(source: Source) | ClaimEntry(claim: P.ClaimRow) | VerdictEntry(verdict: P.VerdictRow)

  function KeyOf(d: Payload): Option<Key> {
    match d
    case Found(_, source) => Some(SourceKey(source.id))
    case Claimed(id, _, _, _, _, _, _) => Some(ClaimKey(id))
    case Verified(claimId, _, _, _) => Some(VerdictKey(claimId))
    case _ => None
  }

  function EntryOf(d: Payload): Option<Entry> {
    match d
    case Found(_, source) => Some(SourceEntry(source))
    case Claimed(_, sectionId, text, entity, attribute, sourceIds, quote) =>
      Some(ClaimEntry(P.ClaimRow(sectionId, text, entity, attribute, sourceIds, quote)))
    case Verified(_, verdict, confidence, _) => Some(VerdictEntry(P.VerdictRow(verdict, confidence)))
    case _ => None
  }

  function Lookup(t: P.Tables, key: Key): Option<Entry> {
    match key
    case SourceKey(id) => if id in t.sources then Some(SourceEntry(t.sources[id])) else None
    case ClaimKey(id) => if id in t.claims then Some(ClaimEntry(t.claims[id])) else None
    case VerdictKey(id) => if id in t.verdicts then Some(VerdictEntry(t.verdicts[id])) else None
  }

  /** One key never stands for two things; in engine logs it never does. */
  ghost predicate Agreeing(log: seq<Row>) {
    forall i, j :: 0 <= i < |log| && 0 <= j < |log| && SameKey(log[i], log[j]) ==> EntryOf(log[i].event.data) == EntryOf(log[j].event.data)
  }

  predicate SameKey(r: Row, q: Row) {
    KeyOf(r.event.data).Some? && KeyOf(r.event.data) == KeyOf(q.event.data)
  }

  /** Row j reached the tables with this key. */
  predicate Puts(log: seq<Row>, j: nat, key: Key) {
    j < |log| && log[j].projected && KeyOf(log[j].event.data) == Some(key)
  }

  ghost predicate Reached(log: seq<Row>, key: Key) {
    exists j: nat :: Puts(log, j, key)
  }

  lemma StepLookup(t: P.Tables, d: Payload, key: Key)
    ensures Lookup(P.Persisted(t, d), key) ==
            if KeyOf(d) == Some(key) && (d.Found? ==> Lookup(t, key).None?) then EntryOf(d) else Lookup(t, key)
  {
  }

  /** A key is in the tables exactly when a row with it reached them, with what that row says. */
  lemma {:induction false} LookupIs(log: seq<Row>, key: Key)
    requires Agreeing(log)
    ensures var t := P.Stored(Kept(log));
            && (Lookup(t, key).Some? <==> Reached(log, key))
            && (forall j: nat :: Puts(log, j, key) ==> Lookup(t, key) == EntryOf(log[j].event.data))
  {
    assert Lookup(P.CREATED, key).None?;
    hide P.Persisted, Lookup, EntryOf;
    if log != [] {
      var n := |log| - 1;
      var init, last := log[..n], log[n];
      LookupIs(init, key);
      forall j: nat
        ensures Puts(log, j, key) <==> Puts(init, j, key) || (j == n && Puts(log, n, key))
      {
      }
      assert Reached(log, key) <==> Reached(init, key) || Puts(log, n, key);
      var before := P.Stored(Kept(init));
      if last.projected {
        StoredLast(Kept(init), last.event);
        StepLookup(before, last.event.data, key);
        EntryFor(last.event.data);
        if Puts(log, n, key) && Reached(init, key) {
          var j: nat :| Puts(init, j, key);
          assert SameKey(log[j], log[n]) && Puts(log, j, key);
        }
      } else {
        assert Kept(init) + [] == Kept(init);
      }
    }
  }

  lemma EntryFor(d: Payload)
    ensures KeyOf(d).Some? <==> EntryOf(d).Some?
  {
  }

  /** Every key of the log reached the tables, and the last row that did says of each column what the last row does. */
  ghost predicate KeysReached(log: seq<Row>) {
    forall i :: 0 <= i < |log| && KeyOf(log[i].event.data).Some? ==> Reached(log, KeyOf(log[i].event.data).value)
  }

  /** Row i is the last to set the field. */
  ghost predicate LastSetter(log: seq<Row>, i: nat, field: Payload -> Option<string>) {
    i < |log| && field(log[i].event.data).Some? && forall k :: i < k < |log| ==> field(log[k].event.data).None?
  }

  /** Row j is the last of those that reached the tables to set it. */
  ghost predicate LastReached(log: seq<Row>, j: nat, field: Payload -> Option<string>) {
    && j < |log| && log[j].projected && field(log[j].event.data).Some?
    && forall k :: j < k < |log| && log[k].projected ==> field(log[k].event.data).None?
  }

  ghost predicate NeverReached(log: seq<Row>, field: Payload -> Option<string>) {
    forall k :: 0 <= k < |log| && log[k].projected ==> field(log[k].event.data).None?
  }

  /** The last row to set the field reached the tables, or the last row that did, or the column's start value, says the same. */
  ghost predicate ColumnReached(log: seq<Row>, field: Payload -> Option<string>, start: Option<string>) {
    forall i: nat :: LastSetter(log, i, field) ==>
      || log[i].projected
      || (exists j: nat :: LastReached(log, j, field) && field(log[j].event.data) == field(log[i].event.data))
      || (NeverReached(log, field) && field(log[i].event.data) == start)
  }

  ghost predicate ColumnsReached(log: seq<Row>) {
    && ColumnReached(log, StatusOf, Some("queued"))
    && ColumnReached(log, ErrorOf, None)
    && ColumnReached(log, ReportOf, None)
    && ColumnReached(log, TitleOf, None)
  }

  /** What the column says is what the last row that reached the tables says. */
  lemma {:induction false} SaysIs(log: seq<Row>, field: Payload -> Option<string>) returns (j: nat)
    ensures Says(log, 0, field).Some? ==> LastReached(log, j, field) && field(log[j].event.data) == Says(log, 0, field)
    ensures Says(log, 0, field).None? ==> NeverReached(log, field)
  {
    j := 0;
    if log != [] {
      var last := log[|log| - 1];
      if last.projected && field(last.event.data).Some? {
        j := |log| - 1;
      } else {
        j := SaysIs(log[..|log| - 1], field);
      }
    }
  }

  lemma OneLastReached(log: seq<Row>, i: nat, j: nat, field: Payload -> Option<string>)
    requires LastReached(log, i, field) && LastReached(log, j, field)
    ensures i == j
  {
  }

  /** A field's column: what reached the tables says the same as the whole log. */
  lemma ColumnIff(log: seq<Row>, field: Payload -> Option<string>, start: Option<string>)
    ensures ColumnReached(log, field, start)
            <==> Says(log, 0, field) == Says(Whole(log), 0, field) || (Says(log, 0, field).None? && Says(Whole(log), 0, field) == start)
    ensures Says(Whole(log), 0, field).None? ==> Says(log, 0, field).None?
  {
    hide Says;
    var whole := Whole(log);
    var j := SaysIs(log, field);
    var i := SaysIs(whole, field);
    if Says(whole, 0, field).None? {
      NothingSet(log, field);
      assert forall k: nat :: !LastSetter(log, k, field) && !LastReached(log, k, field);
    } else {
      LastOfWhole(log, i, field);
      hide Whole;
      if Says(log, 0, field).Some? {
        assert !NeverReached(log, field);
        forall k: nat | LastReached(log, k, field)
          ensures k == j
        {
          OneLastReached(log, k, j, field);
        }
      } else {
        assert forall k: nat :: !LastReached(log, k, field);
      }
    }
  }

  lemma NothingSet(log: seq<Row>, field: Payload -> Option<string>)
    requires NeverReached(Whole(log), field)
    ensures forall k :: 0 <= k < |log| ==> field(log[k].event.data).None?
  {
    assert forall k :: 0 <= k < |log| ==> Whole(log)[k].projected && Whole(log)[k].event == log[k].event;
  }

  lemma LastOfWhole(log: seq<Row>, i: nat, field: Payload -> Option<string>)
    requires LastReached(Whole(log), i, field)
    ensures LastSetter(log, i, field) && Whole(log)[i].event == log[i].event
    ensures forall k: nat :: LastSetter(log, k, field) ==> k == i
    ensures log[i].projected ==> LastReached(log, i, field)
  {
    assert forall k :: 0 <= k < |log| ==> Whole(log)[k].projected && Whole(log)[k].event == log[k].event;
  }

  lemma SameSources(t: P.Tables, u: P.Tables)
    requires forall id: nat :: Lookup(t, SourceKey(id)) == Lookup(u, SourceKey(id))
    ensures t.sources == u.sources
  {
    forall id: nat
      ensures id in t.sources <==> id in u.sources
      ensures id in t.sources ==> t.sources[id] == u.sources[id]
    {
      assert Lookup(t, SourceKey(id)) == Lookup(u, SourceKey(id));
    }
  }

  lemma SameLookups(t: P.Tables, u: P.Tables)
    requires forall key :: Lookup(t, key) == Lookup(u, key)
    ensures t.sources == u.sources && t.claims == u.claims && t.verdicts == u.verdicts
  {
    SameSources(t, u);
    forall id: string
      ensures id in t.claims <==> id in u.claims
      ensures id in t.claims ==> t.claims[id] == u.claims[id]
      ensures id in t.verdicts <==> id in u.verdicts
      ensures id in t.verdicts ==> t.verdicts[id] == u.verdicts[id]
    {
      assert Lookup(t, ClaimKey(id)) == Lookup(u, ClaimKey(id));
      assert Lookup(t, VerdictKey(id)) == Lookup(u, VerdictKey(id));
    }
  }

  /** One key: the tables have it right exactly when some row with it reached them, or none has it. */
  lemma KeyKeptIff(log: seq<Row>, key: Key)
    requires Agreeing(log)
    ensures Lookup(P.Stored(Kept(log)), key) == Lookup(P.Stored(Events(log)), key)
            <==> (Reached(Whole(log), key) ==> Reached(log, key))
    ensures Lookup(P.Stored(Events(log)), key).None? ==> Lookup(P.Stored(Kept(log)), key).None?
  {
    hide P.Stored, Lookup, EntryOf, Kept;
    assert Agreeing(Whole(log)) by {
      assert forall i, j :: 0 <= i < |log| && 0 <= j < |log| ==> SameKey(Whole(log)[i], Whole(log)[j]) == SameKey(log[i], log[j]);
    }
    ProjectedWhole(log);
    LookupIs(log, key);
    LookupIs(Whole(log), key);
    if Reached(log, key) {
      var j: nat :| Puts(log, j, key);
      assert Puts(Whole(log), j, key);
    }
  }

  lemma KeysReachedAre(log: seq<Row>)
    ensures KeysReached(log) <==> forall key :: Reached(Whole(log), key) ==> Reached(log, key)
  {
    if KeysReached(log) {
      forall key | Reached(Whole(log), key)
        ensures Reached(log, key)
      {
        var j: nat :| Puts(Whole(log), j, key);
        assert KeyOf(log[j].event.data) == Some(key);
      }
    }
    if forall key :: Reached(Whole(log), key) ==> Reached(log, key) {
      forall i | 0 <= i < |log| && KeyOf(log[i].event.data).Some?
        ensures Reached(log, KeyOf(log[i].event.data).value)
      {
        assert Puts(Whole(log), i, KeyOf(log[i].event.data).value);
      }
    }
  }

  lemma KeptIff(log: seq<Row>)
    requires Agreeing(log)
    ensures P.Stored(Kept(log)) == P.Stored(Events(log)) <==> ColumnsReached(log) && KeysReached(log)
  {
    ColumnIff(log, StatusOf, Some("queued"));
    ColumnIff(log, ErrorOf, None);
    ColumnIff(log, ReportOf, None);
    ColumnIff(log, TitleOf, None);
    hide P.Stored, Lookup, Kept, Agreeing, Reached, KeysReached, Says, StatusOf, ErrorOf, ReportOf, TitleOf, ColumnReached;
    var t, u := P.Stored(Kept(log)), P.Stored(Events(log));
    ColumnsSay(log);
    ColumnsSay(Whole(log));
    ProjectedWhole(log);
    forall key
      ensures Lookup(t, key) == Lookup(u, key) <==> (Reached(Whole(log), key) ==> Reached(log, key))
    {
      KeyKeptIff(log, key);
    }
    KeysReachedAre(log);
    if KeysReached(log) {
      SameLookups(t, u);
    }
  }

  /**
   * In every run: the tables are the projection of the log if and only if each source, claim and verdict id in
   * the log reached its table, and for each column the last row that reached the tables says what the last row says.
   */
  lemma TablesMatchLogIff(actions: seq<Action>)
    requires Agreeing(Run(actions).log)
    ensures var s := Run(actions);
            s.tables == P.Stored(Events(s.log)) <==> ColumnsReached(s.log) && KeysReached(s.log)
  {
    hide Run, ColumnsReached, KeysReached, Agreeing;
    TablesAreProjected(actions);
    KeptIff(Run(actions).log);
  }

  /** In particular they are when no write was cut off between its append and the tables. */
  lemma NothingTornNothingMissing(actions: seq<Action>)
    requires forall i :: 0 <= i < |Run(actions).log| ==> Run(actions).log[i].projected
    ensures Run(actions).tables == P.Stored(Events(Run(actions).log))
  {
    hide Run;
    TablesAreProjected(actions);
    var log := Run(actions).log;
    assert Whole(log) == log;
    ProjectedWhole(log);
  }

  // ----- a client that replays the whole log ------------------------------------------------------

  lemma {:induction false} AnnouncedAt(es: seq<Event>, x: Source) returns (i: nat)
    requires x in P.Announced(es)
    ensures i < |es| && es[i].data.Found? && es[i].data.source == x
  {
    var n := |es| - 1;
    if es[n].data.Found? && es[n].data.source == x {
      i := n;
    } else {
      i := AnnouncedAt(es[..n], x);
    }
  }

  lemma AgreeingSources(log: seq<Row>)
    requires Agreeing(log)
    ensures P.OneSourcePerId(Events(log))
  {
    forall x, y | x in P.Announced(Events(log)) && y in P.Announced(Events(log)) && x.id == y.id
      ensures x == y
    {
      var i := AnnouncedAt(Events(log), x);
      var j := AnnouncedAt(Events(log), y);
      assert SameKey(log[i], log[j]);
    }
  }

  lemma SourceTablesIds(log: seq<Row>)
    requires Agreeing(log)
    ensures forall k :: k in P.Stored(Kept(log)).sources ==> P.Stored(Kept(log)).sources[k].id == k
  {
    hide P.Stored, Kept;
    var t := P.Stored(Kept(log));
    forall k | k in t.sources
      ensures t.sources[k].id == k
    {
      LookupIs(log, SourceKey(k));
      assert Lookup(t, SourceKey(k)).Some?;
      var j: nat :| Puts(log, j, SourceKey(k));
    }
  }

  lemma SameOrderSameMap(m: map<nat, Source>, n: map<nat, Source>)
    requires (forall k :: k in m ==> m[k].id == k) && (forall k :: k in n ==> n[k].id == k)
    ensures P.InOrder(m) == P.InOrder(n) ==> m == n
  {
    hide P.InOrder;
    P.InOrderMeaning(m);
    P.InOrderMeaning(n);
    if P.InOrder(m) == P.InOrder(n) {
      forall k
        ensures k in m <==> k in n
        ensures k in m ==> m[k] == n[k]
      {
        assert k in m ==> m[k] in P.InOrder(m);
        assert k in n ==> n[k] in P.InOrder(n);
      }
    }
  }

  /** The client that replays the log lists the stored sources exactly when every source id of the log was stored. */
  lemma ReplayedSourcesIff(actions: seq<Action>)
    requires Agreeing(Run(actions).log)
    ensures var s := Run(actions);
            P.InOrder(P.CollectAll(map[], Fold(Events(s.log)).sections)) == P.InOrder(s.tables.sources)
            <==> forall id :: Reached(Whole(s.log), SourceKey(id)) ==> Reached(s.log, SourceKey(id))
  {
    hide Run, P.Stored, P.InOrder, P.CollectAll, Kept, Agreeing, Reached, P.OneSourcePerId, Fold;
    var s := Run(actions);
    TablesAreProjected(actions);
    AgreeingSources(s.log);
    P.SourcesAgree(Events(s.log));
    var full := P.Stored(Events(s.log)).sources;
    forall id
      ensures Lookup(s.tables, SourceKey(id)) == Lookup(P.Stored(Events(s.log)), SourceKey(id))
              <==> (Reached(Whole(s.log), SourceKey(id)) ==> Reached(s.log, SourceKey(id)))
    {
      KeyKeptIff(s.log, SourceKey(id));
    }
    SourceTablesIds(s.log);
    WholeAgrees(s.log);
    ProjectedWhole(s.log);
    SourceTablesIds(Whole(s.log));
    SameOrderSameMap(full, s.tables.sources);
    if forall id :: Lookup(s.tables, SourceKey(id)) == Lookup(P.Stored(Events(s.log)), SourceKey(id)) {
      SameSources(s.tables, P.Stored(Events(s.log)));
    }
  }

  lemma WholeAgrees(log: seq<Row>)
    requires Agreeing(log)
    ensures Agreeing(Whole(log))
  {
    assert forall i, j :: 0 <= i < |log| && 0 <= j < |log| ==> SameKey(Whole(log)[i], Whole(log)[j]) == SameKey(log[i], log[j]);
  }

  /** Its claims match the stored ones exactly when every claim and verdict of the log was stored. */
  lemma ReplayedClaimsIff(actions: seq<Action>)
    requires var log := Run(actions).log;
             Agreeing(log) && P.ClaimsFirst(Events(log))
    ensures var s := Run(actions);
            (forall c :: c in Fold(Events(s.log)).claims ==> P.ClaimMatches(c, s.tables))
            <==> forall key: Key :: !key.SourceKey? && Reached(Whole(s.log), key) ==> Reached(s.log, key)
  {
    hide Run, P.Stored, Kept, Agreeing, Reached, P.ClaimsFirst, Fold;
    var s := Run(actions);
    var claims, full := Fold(Events(s.log)).claims, P.Stored(Events(s.log));
    TablesAreProjected(actions);
    P.ClaimsAgree(Events(s.log));
    forall key
      ensures Lookup(s.tables, key) == Lookup(full, key) <==> (Reached(Whole(s.log), key) ==> Reached(s.log, key))
      ensures Lookup(full, key).None? ==> Lookup(s.tables, key).None?
    {
      KeyKeptIff(s.log, key);
    }
    ClaimsMatchIff(claims, s.tables, full);
  }

  lemma ClaimsMatchIff(claims: seq<ClaimState>, t: P.Tables, full: P.Tables)
    requires forall c :: c in claims ==> P.ClaimMatches(c, full)
    requires forall k :: k in full.claims <==> exists c :: c in claims && c.claimId == k
    requires full.verdicts.Keys <= full.claims.Keys
    requires forall key :: Lookup(full, key).None? ==> Lookup(t, key).None?
    ensures (forall c :: c in claims ==> P.ClaimMatches(c, t)) <==> forall key: Key :: !key.SourceKey? ==> Lookup(t, key) == Lookup(full, key)
  {
    if forall c :: c in claims ==> P.ClaimMatches(c, t) {
      forall key: Key | !key.SourceKey?
        ensures Lookup(t, key) == Lookup(full, key)
      {
        if key.claimId in full.claims {
          var c :| c in claims && c.claimId == key.claimId;
          assert P.ClaimMatches(c, t) && P.ClaimMatches(c, full);
        } else {
          assert key.claimId !in full.verdicts;
          assert Lookup(full, key).None?;
        }
      }
    }
    if forall key: Key :: !key.SourceKey? ==> Lookup(t, key) == Lookup(full, key) {
      forall c | c in claims
        ensures P.ClaimMatches(c, t)
      {
        assert P.ClaimMatches(c, full);
        assert Lookup(t, ClaimKey(c.claimId)) == Lookup(full, ClaimKey(c.claimId));
        assert Lookup(t, VerdictKey(c.claimId)) == Lookup(full, VerdictKey(c.claimId));
      }
    }
  }
}
