/**
 * Two projections of one log: the tables the server keeps (`_persist` of
 * backend/app/services/run_service.py over backend/app/db/repositories.py) and the
 * state the client folds (Reducer.dfy).
 */
module Projection {
  import opened Common
  import opened Wire
  import opened Reducer

  datatype ClaimRow = ClaimRow(sectionId: string, text: string, entity: Option<string>, attribute: Option<string>,
                               sourceIds: seq<nat>, quote: string)

  datatype VerdictRow = VerdictRow(verdict: Verdict, confidence: real)

  /** The run's row and the tables derived from its events. */
  datatype Tables = Tables(
    status: string, error: Option<string>, report: Option<string>, title: Option<string>,
    sources: map<nat, Source>, claims: map<string, ClaimRow>, verdicts: map<string, VerdictRow>)

  const CREATED := Tables("queued", None, None, None, map[], map[], map[])

  /** What persisting one event does to the tables. */
  function Persisted(t: Tables, d: Payload): Tables {
    match d
    case Status(stage, _) => t.(status := stage)
    case AwaitingPlan => t.(status := "awaiting_plan")
    case Done(_, _, _) => t.(status := "done")
    case Failed(message) => t.(status := "error", error := Some(message))
    case Report(markdown, title, _) => t.(report := Some(markdown), title := Some(title))
    case Found(_, source) =>
      if source.id in t.sources then t else t.(sources := t.sources[source.id := source])
    case Claimed(id, sectionId, text, entity, attribute, sourceIds, quote) =>
      t.(claims := t.claims[id := ClaimRow(sectionId, text, entity, attribute, sourceIds, quote)])
    case Verified(claimId, verdict, confidence, _) =>
      t.(verdicts := t.verdicts[claimId := VerdictRow(verdict, confidence)])
    case _ => t
  }

  /** The tables after a whole log. */
  function Stored(log: seq<Event>): Tables {
    if log == [] then CREATED else Persisted(Stored(log[..|log| - 1]), log[|log| - 1].data)
  }

  /** The repositories' rows for one run, updated in place. */
  class RunStore {
    var status: string
    var error: Option<string>
    var report: Option<string>
    var title: Option<string>
    var sources: map<nat, Source>
    var claims: map<string, ClaimRow>
    var verdicts: map<string, VerdictRow>

    ghost function View(): Tables
      reads this
    {
      Tables(status, error, report, title, sources, claims, verdicts)
    }

    constructor ()
      ensures View() == CREATED
    {
      status, error, report, title := "queued", None, None, None;
      sources, claims, verdicts := map[], map[], map[];
    }

    /** `UPDATE runs SET status = ?`, with the error column only when an error is given. */
    method UpdateStatus(newStatus: string, newError: Option<string>)
      modifies this`status, this`error
      ensures status == newStatus && error == if newError.Some? then newError else old(error)
    {
      status := newStatus;
      if newError.Some? {
        error := newError;
      }
    }

    /** The part of `_persist` after the append: bring the derived tables up to date. */
    method Project(d: Payload)
      modifies this
      ensures View() == Persisted(old(View()), d)
    {
      match d {
        case Status(stage, _) => UpdateStatus(stage, None);
        case AwaitingPlan => UpdateStatus("awaiting_plan", None);
        case Done(_, _, _) => UpdateStatus("done", None);
        case Failed(message) => UpdateStatus("error", Some(message));
        case Report(markdown, newTitle, _) =>
          report, title := Some(markdown), Some(newTitle);
        case Found(_, source) =>
          if source.id !in sources {
            sources := sources[source.id := source];
          }
        case Claimed(id, sectionId, text, entity, attribute, sourceIds, quote) =>
          claims := claims[id := ClaimRow(sectionId, text, entity, attribute, sourceIds, quote)];
        case Verified(claimId, verdict, confidence, _) =>
          verdicts := verdicts[claimId := VerdictRow(verdict, confidence)];
        case _ =>
      }
    }
  }

  // ----- status, error, report ------------------------------------------------------------

  /** For every log whatsoever, the run's row and the client show the same status and error. */
  lemma {:induction false} StatusAgrees(log: seq<Event>)
    ensures Stored(log).status == Fold(log).status
    ensures Stored(log).error == Fold(log).error
  {
    hide ReduceEvent, Persisted;
    if log != [] {
      StatusAgrees(log[..|log| - 1]);
      StatusStep(Stored(log[..|log| - 1]), Fold(log[..|log| - 1]), log[|log| - 1].data);
    }
  }

  lemma StatusStep(t: Tables, s: StreamState, d: Payload)
    requires t.status == s.status && t.error == s.error
    ensures Persisted(t, d).status == ReduceEvent(s, d).status
    ensures Persisted(t, d).error == ReduceEvent(s, d).error
  {
    hide UpsertSection, SeedAll, SetVerdicts, AddSource;
    match d
    case Status(_, _) =>
    case Done(_, _, _) =>
    case _ =>
  }

  /** The report text streamed after the last full report. */
  function Unreported(log: seq<Event>): string {
    if log == [] then ""
    else
      var d := log[|log| - 1].data;
      var before := Unreported(log[..|log| - 1]);
      if d.Report? then "" else if d.ReportDelta? then before + d.text else before
  }

  lemma PersistedReport(t: Tables, d: Payload)
    ensures Persisted(t, d).report == if d.Report? then Some(d.markdown) else t.report
  {
  }

  /** For every log, the client's report is the stored one followed by what was streamed since. */
  lemma {:induction false} ReportAgrees(log: seq<Event>)
    ensures Fold(log).report == Stored(log).report.GetOr("") + Unreported(log)
  {
    hide ReduceEvent, Persisted;
    if log != [] {
      var init := log[..|log| - 1];
      var d := log[|log| - 1].data;
      ReportAgrees(init);
      PersistedReport(Stored(init), d);
      if d.Report? {
        ReduceReport(Fold(init), Fold(init), d);
      } else if !d.ReportDelta? {
        ReportCommutes(Fold(init), d, "");
      } else {
        ReduceDelta(Fold(init), d);
        assert Stored(init).report.GetOr("") + (Unreported(init) + d.text)
            == Stored(init).report.GetOr("") + Unreported(init) + d.text;
      }
    }
  }

  /** `_confidence_from_events`: the summary on the last report event. */
  function LastTrust(log: seq<Event>): Option<ConfidenceSummary> {
    if log == [] then None
    else if log[|log| - 1].data.Report? then log[|log| - 1].data.trust
    else LastTrust(log[..|log| - 1])
  }

  /** A log whose run ended well: one full report, the matching `done`, and neither before. */
  ghost predicate Completed(log: seq<Event>, markdown: string, title: string, trust: Option<ConfidenceSummary>) {
    && |log| >= 2
    && log[|log| - 2].data == Report(markdown, title, trust)
    && log[|log| - 1].data.Done? && log[|log| - 1].data.title == title && log[|log| - 1].data.trust == trust
    && forall i :: 0 <= i < |log| - 2 ==> !log[i].data.Report? && !log[i].data.Done?
  }

  lemma {:induction false} NoTrustBefore(log: seq<Event>)
    requires forall i :: 0 <= i < |log| ==> !log[i].data.Report? && !log[i].data.Done?
    ensures Fold(log).trust == None
  {
    if log != [] {
      NoTrustBefore(log[..|log| - 1]);
    }
  }

  /** A completed run shows the same status, report, title and trust summary on both sides. */
  lemma CompletedAgrees(log: seq<Event>, markdown: string, title: string, trust: Option<ConfidenceSummary>)
    requires Completed(log, markdown, title, trust)
    ensures Stored(log).status == Fold(log).status == "done"
    ensures Stored(log).report == Some(Fold(log).report) == Some(markdown)
    ensures Stored(log).title == Fold(log).title == Some(title)
    ensures LastTrust(log) == Fold(log).trust == trust
  {
    var n := |log|;
    var upto, init := log[..n - 1], log[..n - 2];
    assert upto[..n - 2] == init;
    NoTrustBefore(init);
    var d, e := log[n - 2].data, log[n - 1].data;
    assert Fold(log) == ReduceEvent(ReduceEvent(Fold(init), d), e);
    assert Stored(log) == Persisted(Persisted(Stored(init), d), e);
    assert LastTrust(upto) == trust && LastTrust(log) == trust;
    hide Fold, Stored, LastTrust;
    ReportThenDone(Fold(init), Stored(init), d, e);
  }

  lemma ReportThenDone(s: StreamState, t: Tables, report: Payload, done: Payload)
    requires report.Report? && done.Done? && s.trust == None && report.trust == done.trust && report.title == done.title
    ensures var s2, t2 := ReduceEvent(ReduceEvent(s, report), done), Persisted(Persisted(t, report), done);
            && t2.status == s2.status == "done"
            && t2.report == Some(s2.report) == Some(report.markdown)
            && t2.title == s2.title == Some(report.title) && s2.trust == report.trust
  {
  }

  // ----- sources ------------------------------------------------------------------------------

  function AllSources(sections: seq<SectionState>): set<Source> {
    set s, x | s in sections && x in s.sources :: x
  }

  /** The values of a map, by increasing key: `ORDER BY ref_num`, and `sort((a, b) => a.id - b.id)`. */
  function InOrder(m: map<nat, Source>): seq<Source>
    decreases |m|
  {
    if m == map[] then []
    else
      var k := Least(m.Keys);
      assert (m - {k}).Keys == m.Keys - {k};
      [m[k]] + InOrder(m - {k})
  }

  ghost predicate IsLeast(ks: set<nat>, k: nat) {
    k in ks && forall j :: j in ks ==> k <= j
  }

  lemma {:induction false} LeastExists(ks: set<nat>)
    requires ks != {}
    ensures exists k :: IsLeast(ks, k)
    decreases |ks|
  {
    var x :| x in ks;
    if ks == {x} {
      assert IsLeast(ks, x);
    } else {
      LeastExists(ks - {x});
      var y :| IsLeast(ks - {x}, y);
      assert forall j :: j in ks ==> j == x || j in ks - {x};
      assert IsLeast(ks, if x < y then x else y);
    }
  }

  function Least(ks: set<nat>): (k: nat)
    requires ks != {}
    ensures IsLeast(ks, k)
  {
    LeastExists(ks);
    var k :| k in ks && forall j :: j in ks ==> k <= j;
    k
  }

  /** The sources announced in a log. */
  function Announced(log: seq<Event>): set<Source> {
    if log == [] then {}
    else
      var d := log[|log| - 1].data;
      Announced(log[..|log| - 1]) + if d.Found? then {d.source} else {}
  }

  /** One id never stands for two sources: the registry never does that. */
  ghost predicate OneSourcePerId(log: seq<Event>) {
    forall x, y :: x in Announced(log) && y in Announced(log) && x.id == y.id ==> x == y
  }

  lemma {:induction false} StoredSources(log: seq<Event>)
    requires OneSourcePerId(log)
    ensures forall x :: x in Announced(log) ==> x.id in Stored(log).sources && Stored(log).sources[x.id] == x
    ensures forall k :: k in Stored(log).sources ==>
              Stored(log).sources[k].id == k && Stored(log).sources[k] in Announced(log)
  {
    if log != [] {
      var n := |log| - 1;
      var init := log[..n];
      assert Announced(log) >= Announced(init);
      StoredSources(init);
    }
  }

  /** An update that leaves a section's sources alone leaves all sources alone. */
  lemma UpsertKeepsSources(sections: seq<SectionState>, id: string, update: SectionState -> SectionState)
    requires forall s :: update(s).sources == s.sources
    ensures AllSources(UpsertSection(sections, id, update)) == AllSources(sections)
  {
    var r := UpsertSection(sections, id, update);
    var i := FindSection(sections, id);
    forall x | x in AllSources(sections)
      ensures x in AllSources(r)
    {
      var k :| 0 <= k < |sections| && x in sections[k].sources;
      assert x in r[k].sources && r[k] in r;
    }
    forall x | x in AllSources(r)
      ensures x in AllSources(sections)
    {
      var k :| 0 <= k < |r| && x in r[k].sources;
      assert k < |sections|;
      assert sections[k] in sections;
    }
  }

  lemma {:induction false} SeedKeepsSources(sections: seq<SectionState>, plan: seq<PlanSection>)
    ensures AllSources(SeedAll(sections, plan)) == AllSources(sections)
    decreases |plan|
  {
    if plan != [] {
      var seed := (s: SectionState) => Seed(plan[0], s);
      UpsertKeepsSources(sections, plan[0].id, seed);
      SeedKeepsSources(UpsertSection(sections, plan[0].id, seed), plan[1..]);
    }
  }

  /** Adding a source to a section adds just that source, when ids identify sources. */
  lemma UpsertAddsSource(sections: seq<SectionState>, id: string, source: Source)
    requires forall x :: x in AllSources(sections) && x.id == source.id ==> x == source
    ensures AllSources(UpsertSection(sections, id, (s: SectionState) => AddSource(s, source)))
         == AllSources(sections) + {source}
  {
    var update := (s: SectionState) => AddSource(s, source);
    var r := UpsertSection(sections, id, update);
    var i := FindSection(sections, id);
    forall x | x in AllSources(sections)
      ensures x in AllSources(r)
    {
      var k :| 0 <= k < |sections| && x in sections[k].sources;
      assert x in r[k].sources && r[k] in r;
    }
    forall x | x in AllSources(r)
      ensures x in AllSources(sections) + {source}
    {
      var k :| 0 <= k < |r| && x in r[k].sources;
      if k < |sections| {
        assert sections[k] in sections;
      }
    }
    assert r[i] in r;
    if i < |sections| && exists x :: x in sections[i].sources && x.id == source.id {
      var x :| x in sections[i].sources && x.id == source.id;
      assert x in AllSources(sections);
    }
    assert source in r[i].sources;
  }

  lemma {:induction false} ClientSources(log: seq<Event>)
    requires OneSourcePerId(log)
    ensures AllSources(Fold(log).sections) == Announced(log)
  {
    hide UpsertSection, SeedAll, AddSource, AllSources;
    if log == [] {
      NoSections();
    } else {
      var init := log[..|log| - 1];
      var s, d := Fold(init), log[|log| - 1].data;
      assert Announced(log) >= Announced(init);
      ClientSources(init);
      match d
      case Plan(_, plan) => SeedKeepsSources(s.sections, plan);
      case SectionStart(id, title) =>
        UpsertKeepsSources(s.sections, id, (x: SectionState) => x.(title := if title != "" then title else x.title, status := Active));
      case Search(id, query) =>
        UpsertKeepsSources(s.sections, id, (x: SectionState) => x.(status := if x.status == Complete then Complete else Active, searches := x.searches + [query]));
      case Found(id, source) => UpsertAddsSource(s.sections, id, source);
      case Note(id, content) =>
        UpsertKeepsSources(s.sections, id, (x: SectionState) => x.(notes := x.notes + [content]));
      case SectionDone(id, summary, sourceCount) =>
        UpsertKeepsSources(s.sections, id, (x: SectionState) => x.(summary := Some(summary), sourceCount := Some(sourceCount), status := Complete));
      case _ =>
    }
  }

  lemma NoSections()
    ensures AllSources([]) == {}
  {
  }

  // ----- flattenSources -----------------------------------------------------------------------

  /** First-seen entries win, section by section. */
  function Collect(m: map<nat, Source>, sources: seq<Source>): map<nat, Source>
    decreases |sources|
  {
    if sources == [] then m
    else Collect(if sources[0].id in m then m else m[sources[0].id := sources[0]], sources[1..])
  }

  function CollectAll(m: map<nat, Source>, sections: seq<SectionState>): map<nat, Source>
    decreases |sections|
  {
    if sections == [] then m else CollectAll(Collect(m, sections[0].sources), sections[1..])
  }

  /** `flattenSources`: two loops fill a map, then its values are sorted by id. */
  method FlattenSources(sections: seq<SectionState>) returns (r: seq<Source>)
    ensures r == InOrder(CollectAll(map[], sections))
  {
    var m: map<nat, Source> := map[];
    for i := 0 to |sections|
      invariant CollectAll(map[], sections) == CollectAll(m, sections[i..])
    {
      assert sections[i..][1..] == sections[i + 1..];
      var sources := sections[i].sources;
      ghost var before := m;
      for j := 0 to |sources|
        invariant Collect(before, sources) == Collect(m, sources[j..])
      {
        assert sources[j..][1..] == sources[j + 1..];
        if sources[j].id !in m {
          m := m[sources[j].id := sources[j]];
        }
      }
    }
    r := InOrder(m);
  }

  function Ids(xs: set<Source>): set<nat> {
    set x | x in xs :: x.id
  }

  lemma IdsUnion(a: set<Source>, b: set<Source>)
    ensures Ids(a + b) == Ids(a) + Ids(b)
  {
  }

  function SetOf(sources: seq<Source>): set<Source> {
    set x | x in sources
  }

  /** The entries of `m` are those of the catalogue `all`. */
  ghost predicate PartOf(m: map<nat, Source>, all: map<nat, Source>) {
    forall k :: k in m ==> k in all && m[k] == all[k]
  }

  ghost predicate Catalogued(xs: set<Source>, all: map<nat, Source>) {
    forall x :: x in xs ==> x.id in all && all[x.id] == x
  }

  lemma {:induction false} CollectMeaning(m: map<nat, Source>, sources: seq<Source>, all: map<nat, Source>)
    requires PartOf(m, all) && Catalogued(SetOf(sources), all)
    ensures PartOf(Collect(m, sources), all)
    ensures Collect(m, sources).Keys == m.Keys + Ids(SetOf(sources))
    decreases |sources|
  {
    if sources != [] {
      var x := sources[0];
      var rest := sources[1..];
      assert SetOf(sources) == {x} + SetOf(rest);
      assert x.id in all && all[x.id] == x;
      var m1 := if x.id in m then m else m[x.id := x];
      CollectMeaning(m1, rest, all);
      assert m1.Keys == m.Keys + {x.id};
      assert Ids({x}) == {x.id};
      IdsUnion({x}, SetOf(rest));
    }
  }

  lemma AllSourcesCons(s: SectionState, rest: seq<SectionState>)
    ensures AllSources([s] + rest) == SetOf(s.sources) + AllSources(rest)
  {
    assert forall t :: t in [s] + rest <==> t == s || t in rest;
  }

  lemma {:induction false} CollectAllMeaning(m: map<nat, Source>, sections: seq<SectionState>, all: map<nat, Source>)
    requires PartOf(m, all) && Catalogued(AllSources(sections), all)
    ensures PartOf(CollectAll(m, sections), all)
    ensures CollectAll(m, sections).Keys == m.Keys + Ids(AllSources(sections))
    decreases |sections|
  {
    hide Collect, Ids, PartOf, AllSources, SetOf;
    if sections == [] {
      NoSections();
      assert Ids({}) == {} by { NoIds(); }
    } else {
      var s, rest := sections[0], sections[1..];
      assert sections == [s] + rest;
      AllSourcesCons(s, rest);
      CollectMeaning(m, s.sources, all);
      CollectAllMeaning(Collect(m, s.sources), rest, all);
      IdsUnion(SetOf(s.sources), AllSources(rest));
    }
  }

  lemma NoIds()
    ensures Ids({}) == {}
  {
  }

  /** The client's flattened source list is the server's source table in id order. */
  lemma SourcesAgree(log: seq<Event>)
    requires OneSourcePerId(log)
    ensures InOrder(CollectAll(map[], Fold(log).sections)) == InOrder(Stored(log).sources)
  {
    hide AllSources, CollectAll, InOrder, ReduceEvent, Persisted;
    var sections, table := Fold(log).sections, Stored(log).sources;
    StoredSources(log);
    ClientSources(log);
    CollectAllMeaning(map[], sections, table);
    var r := CollectAll(map[], sections);
    assert r.Keys == table.Keys by {
      forall k | k in table
        ensures k in Ids(AllSources(sections))
      {
        assert Stored(log).sources[k] in Announced(log);
      }
    }
    assert r == table;
  }

  lemma InOrderFirst(m: map<nat, Source>) returns (k: nat)
    requires m != map[]
    ensures k in m && (forall j :: j in m ==> k <= j) && InOrder(m) == [m[k]] + InOrder(m - {k})
  {
    k := Least(m.Keys);
  }

  /** Increasing ids, and exactly the table's rows. */
  lemma {:induction false} InOrderMeaning(m: map<nat, Source>)
    requires forall k :: k in m ==> m[k].id == k
    ensures forall i, j :: 0 <= i < j < |InOrder(m)| ==> InOrder(m)[i].id < InOrder(m)[j].id
    ensures forall x :: x in InOrder(m) <==> x.id in m && m[x.id] == x
    decreases |m|
  {
    if m != map[] {
      var k := InOrderFirst(m);
      hide InOrder;
      InOrderMeaning(m - {k});
      Prepended(m, k, InOrder(m - {k}));
    }
  }

  lemma Prepended(m: map<nat, Source>, k: nat, tail: seq<Source>)
    requires (forall j :: j in m ==> m[j].id == j && k <= j) && k in m
    requires forall i, j :: 0 <= i < j < |tail| ==> tail[i].id < tail[j].id
    requires forall x :: x in tail <==> x.id in m - {k} && m[x.id] == x
    ensures forall i, j :: 0 <= i < j < |[m[k]] + tail| ==> ([m[k]] + tail)[i].id < ([m[k]] + tail)[j].id
    ensures forall x :: x in [m[k]] + tail <==> x.id in m && m[x.id] == x
  {
    forall i | 0 <= i < |tail|
      ensures k < tail[i].id
    {
      assert tail[i] in tail;
    }
    assert forall x :: x in [m[k]] + tail <==> x == m[k] || x in tail;
  }

  // ----- claims and verdicts ----------------------------------------------------------------

  /** Claim ids are new when they appear, and a verdict comes after its claim. */
  ghost predicate ClaimsFirst(log: seq<Event>) {
    && (forall i, j :: 0 <= i < j < |log| && log[i].data.Claimed? && log[j].data.Claimed? ==>
          log[i].data.claimId != log[j].data.claimId)
    && (forall j :: 0 <= j < |log| && log[j].data.Verified? ==>
          exists i :: 0 <= i < j && log[i].data.Claimed? && log[i].data.claimId == log[j].data.claimId)
  }

  ghost predicate ClaimMatches(c: ClaimState, t: Tables) {
    && c.claimId in t.claims
    && t.claims[c.claimId] == ClaimRow(c.sectionId, c.text, c.entity, c.attribute, c.sourceIds, c.quote)
    && (if c.claimId in t.verdicts
        then c.verdict == Some(t.verdicts[c.claimId].verdict) && c.confidence == Some(t.verdicts[c.claimId].confidence)
        else c.verdict == None && c.confidence == None)
  }

  lemma {:induction false} ClaimRows(log: seq<Event>)
    ensures forall k :: k in Stored(log).claims <==>
              exists i :: 0 <= i < |log| && log[i].data.Claimed? && log[i].data.claimId == k
  {
    if log != [] {
      var n := |log| - 1;
      var init := log[..n];
      ClaimRows(init);
      forall k
        ensures k in Stored(log).claims <==>
                exists i :: 0 <= i < |log| && log[i].data.Claimed? && log[i].data.claimId == k
      {
        if k in Stored(init).claims {
          var i :| 0 <= i < n && init[i].data.Claimed? && init[i].data.claimId == k;
          assert log[i] == init[i];
        }
        if i :| 0 <= i < n && log[i].data.Claimed? && log[i].data.claimId == k {
          assert init[i] == log[i];
        }
      }
    }
  }

  /** The claim and verification tables hold exactly the client's claims, verdict by verdict. */
  lemma {:induction false} ClaimsAgree(log: seq<Event>)
    requires ClaimsFirst(log)
    ensures forall c :: c in Fold(log).claims ==> ClaimMatches(c, Stored(log))
    ensures forall k :: k in Stored(log).claims <==> exists c :: c in Fold(log).claims && c.claimId == k
    ensures Stored(log).verdicts.Keys <= Stored(log).claims.Keys
  {
    hide ReduceEvent, Persisted, ClaimMatches;
    if log != [] {
      var n := |log| - 1;
      var init := log[..n];
      var s, t, d := Fold(init), Stored(init), log[n].data;
      ReduceClaims(s, d);
      PersistedClaims(t, d);
      forall j | 0 <= j < n && init[j].data.Verified?
        ensures exists i :: 0 <= i < j && init[i].data.Claimed? && init[i].data.claimId == init[j].data.claimId
      {
        var i :| 0 <= i < j && log[i].data.Claimed? && log[i].data.claimId == log[j].data.claimId;
        assert init[i] == log[i];
      }
      ClaimsAgree(init);
      ClaimRows(init);
      match d
      case Claimed(id, sectionId, text, entity, attribute, sourceIds, quote) =>
        assert id !in t.claims;
        var c := ClaimState(id, sectionId, text, entity, attribute, sourceIds, quote, None, None);
        assert Fold(log).claims == s.claims + [c];
        ClaimAdded(s.claims, c, t);
        var u := t.(claims := t.claims[id := ClaimRow(sectionId, text, entity, attribute, sourceIds, quote)]);
        SameTables(Fold(log).claims, u, Stored(log));
      case Verified(claimId, verdict, confidence, _) =>
        var i :| 0 <= i < n && log[i].data.Claimed? && log[i].data.claimId == claimId;
        assert init[i] == log[i];
        assert claimId in t.claims;
        VerdictAdded(s.claims, t, claimId, verdict, confidence);
        var u := t.(verdicts := t.verdicts[claimId := VerdictRow(verdict, confidence)]);
        SameTables(Fold(log).claims, u, Stored(log));
      case _ =>
        assert Fold(log).claims == s.claims;
        SameTables(s.claims, t, Stored(log));
    }
  }

  /** What one event does to the client's claims. */
  lemma ReduceClaims(s: StreamState, d: Payload)
    ensures ReduceEvent(s, d).claims ==
            match d
            case Claimed(id, sectionId, text, entity, attribute, sourceIds, quote) =>
              if exists c :: c in s.claims && c.claimId == id then s.claims
              else s.claims + [ClaimState(id, sectionId, text, entity, attribute, sourceIds, quote, None, None)]
            case Verified(claimId, verdict, confidence, _) => SetVerdicts(s.claims, claimId, verdict, confidence)
            case _ => s.claims
  {
    hide UpsertSection, SeedAll, AddSource;
  }

  /** What one event does to the claim and verification tables. */
  lemma PersistedClaims(t: Tables, d: Payload)
    ensures Persisted(t, d).claims ==
            if d.Claimed?
            then t.claims[d.claimId := ClaimRow(d.sectionId, d.text, d.entity, d.attribute, d.sourceIds, d.quote)]
            else t.claims
    ensures Persisted(t, d).verdicts ==
            if d.Verified? then t.verdicts[d.claimId := VerdictRow(d.verdict, d.confidence)] else t.verdicts
  {
  }

  /** ClaimMatches reads the two tables only. */
  lemma SameTables(cs: seq<ClaimState>, t: Tables, u: Tables)
    requires forall x :: x in cs ==> ClaimMatches(x, t)
    requires t.claims == u.claims && t.verdicts == u.verdicts
    ensures forall x :: x in cs ==> ClaimMatches(x, u)
  {
  }

  lemma ClaimAdded(cs: seq<ClaimState>, c: ClaimState, t: Tables)
    requires forall x :: x in cs ==> ClaimMatches(x, t)
    requires forall k :: k in t.claims <==> exists x :: x in cs && x.claimId == k
    requires t.verdicts.Keys <= t.claims.Keys && c.claimId !in t.claims
    requires c.verdict == None && c.confidence == None
    ensures var u := t.(claims := t.claims[c.claimId := ClaimRow(c.sectionId, c.text, c.entity, c.attribute, c.sourceIds, c.quote)]);
            && (forall x :: x in cs + [c] ==> ClaimMatches(x, u))
            && (forall k :: k in u.claims <==> exists x :: x in cs + [c] && x.claimId == k)
            && u.verdicts.Keys <= u.claims.Keys
  {
    var u := t.(claims := t.claims[c.claimId := ClaimRow(c.sectionId, c.text, c.entity, c.attribute, c.sourceIds, c.quote)]);
    forall k | k in u.claims
      ensures exists x :: x in cs + [c] && x.claimId == k
    {
      if k == c.claimId {
        assert c in cs + [c];
      } else {
        var x :| x in cs && x.claimId == k;
        assert x in cs + [c];
      }
    }
  }

  lemma VerdictAdded(cs: seq<ClaimState>, t: Tables, claimId: string, verdict: Verdict, confidence: real)
    requires forall x :: x in cs ==> ClaimMatches(x, t)
    requires forall k :: k in t.claims <==> exists x :: x in cs && x.claimId == k
    requires claimId in t.claims
    ensures var ds := SetVerdicts(cs, claimId, verdict, confidence);
            var u := t.(verdicts := t.verdicts[claimId := VerdictRow(verdict, confidence)]);
            && (forall x :: x in ds ==> ClaimMatches(x, u))
            && (forall k :: k in u.claims <==> exists x :: x in ds && x.claimId == k)
  {
    var ds := SetVerdicts(cs, claimId, verdict, confidence);
    var u := t.(verdicts := t.verdicts[claimId := VerdictRow(verdict, confidence)]);
    forall k | k in t.claims
      ensures exists x :: x in ds && x.claimId == k
    {
      var i :| 0 <= i < |cs| && cs[i].claimId == k;
      assert ds[i].claimId == k && ds[i] in ds;
    }
    forall x | x in ds
      ensures ClaimMatches(x, u) && x.claimId in t.claims
    {
      var i :| 0 <= i < |ds| && ds[i] == x;
      assert cs[i] in cs;
      assert x == SetVerdict(cs[i], claimId, verdict, confidence);
    }
  }
}
