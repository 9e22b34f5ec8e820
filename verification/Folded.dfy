/**
 * What the client shows of a log, told by the log's own events: field by field of the state `reduceEvent` of
 * frontend/lib/useResearchStream.ts builds (model: Reducer.dfy).
 */
module Folded {
  import opened Common
  import opened Wire
  import opened Reducer
  import P = Projection

  /** What the events of a log tell, in order. */
  function Told<T>(log: seq<Event>, tell: Payload -> seq<T>): seq<T> {
    if log == [] then [] else Told(log[..|log| - 1], tell) + tell(log[|log| - 1].data)
  }

  function Last<T>(told: seq<T>): Option<T> {
    if told == [] then None else Some(told[|told| - 1])
  }

  function Latest<T>(told: seq<T>, before: Option<T>): Option<T> {
    if told == [] then before else Last(told)
  }

  function First<T>(told: seq<T>): Option<T> {
    if told == [] then None else Some(told[0])
  }

  lemma ToldSnoc<T>(log: seq<Event>, tell: Payload -> seq<T>)
    requires log != []
    ensures Told(log, tell) == Told(log[..|log| - 1], tell) + tell(log[|log| - 1].data)
  {
  }

  lemma LastSnoc<T>(log: seq<Event>, tell: Payload -> seq<T>)
    requires log != []
    ensures Last(Told(log, tell)) == Latest(tell(log[|log| - 1].data), Last(Told(log[..|log| - 1], tell)))
  {
  }

  lemma FirstSnoc<T>(log: seq<Event>, tell: Payload -> seq<T>)
    requires log != []
    ensures First(Told(log, tell))
         == var before := First(Told(log[..|log| - 1], tell)); if before.Some? then before else First(tell(log[|log| - 1].data))
  {
  }

  /** The first of each key, in order. */
  function Firsts<T, K(==)>(told: seq<T>, key: T -> K): seq<T> {
    if told == [] then []
    else
      var n := |told| - 1;
      Firsts(told[..n], key) + if exists i :: 0 <= i < n && key(told[i]) == key(told[n]) then [] else [told[n]]
  }

  lemma {:induction false} FirstsHaveKeys<T, K>(told: seq<T>, key: T -> K, k: K)
    ensures (exists i :: 0 <= i < |told| && key(told[i]) == k)
       <==> (exists i :: 0 <= i < |Firsts(told, key)| && key(Firsts(told, key)[i]) == k)
  {
    if told != [] {
      var n := |told| - 1;
      var before, all := Firsts(told[..n], key), Firsts(told, key);
      FirstsHaveKeys(told[..n], key, k);
      if i :| 0 <= i < n && key(told[i]) == k {
        assert key(told[..n][i]) == k;
        var j :| 0 <= j < |before| && key(before[j]) == k;
        assert key(all[j]) == k;
      } else if key(told[n]) == k {
        assert key(all[|all| - 1]) == k;
      } else {
        assert forall i :: 0 <= i < n ==> key(told[..n][i]) != k;
        assert forall i :: 0 <= i < |before| ==> key(before[i]) != k;
        assert forall i :: |before| <= i < |all| ==> key(all[i]) != k;
      }
    }
  }

  // ----- the run's own fields ------------------------------------------------------------------

  function StatusTold(d: Payload): seq<string> {
    if d.Status? then [d.stage]
    else if d.AwaitingPlan? then ["awaiting_plan"]
    else if d.Failed? then ["error"]
    else if d.Done? then ["done"]
    else []
  }

  function MessageTold(d: Payload): seq<string> {
    if d.Status? then [d.message] else []
  }

  /** A status or a plan request says whether the plan awaits approval, and so does the end. */
  function AwaitingTold(d: Payload): seq<bool> {
    if d.Status? then [d.stage == "awaiting_plan"] else if d.AwaitingPlan? then [true] else if d.Done? then [false] else []
  }

  function BriefTold(d: Payload): seq<string> {
    if d.Plan? then [d.brief] else []
  }

  function PlanTold(d: Payload): seq<seq<PlanSection>> {
    if d.Plan? then [d.sections] else []
  }

  function TitleTold(d: Payload): seq<string> {
    if d.Report? || d.Done? then [d.title] else []
  }

  function CountTold(d: Payload): seq<nat> {
    if d.Done? then [d.sourceCount] else []
  }

  function TrustTold(d: Payload): seq<ConfidenceSummary> {
    if (d.Report? || d.Done?) && d.trust.Some? then [d.trust.value] else []
  }

  function ErrorTold(d: Payload): seq<string> {
    if d.Failed? then [d.message] else []
  }

  /** Every field of the run itself is what the last event that speaks of it says. */
  ghost predicate LastSaid(s: StreamState, log: seq<Event>) {
    && s.status == Last(Told(log, StatusTold)).GetOr("queued")
    && s.statusMessage == Last(Told(log, MessageTold)).GetOr("")
    && s.awaitingPlan == Last(Told(log, AwaitingTold)).GetOr(false)
    && s.brief == Last(Told(log, BriefTold))
    && s.planSections == Last(Told(log, PlanTold)).GetOr([])
    && s.title == Last(Told(log, TitleTold))
    && s.sourceCount == Last(Told(log, CountTold))
    && s.trust == Last(Told(log, TrustTold))
    && s.error == Last(Told(log, ErrorTold))
    && (s.reportFinal <==> Told(log, TitleTold) != [])
  }

  lemma RunIsLastSaid(log: seq<Event>)
    ensures LastSaid(Fold(log), log)
  {
    StatusIsLastSaid(log);
    PlanIsLastSaid(log);
    EndIsLastSaid(log);
  }

  lemma {:induction false} StatusIsLastSaid(log: seq<Event>)
    ensures var s := Fold(log);
            && s.status == Last(Told(log, StatusTold)).GetOr("queued")
            && s.statusMessage == Last(Told(log, MessageTold)).GetOr("")
            && s.awaitingPlan == Last(Told(log, AwaitingTold)).GetOr(false)
  {
    if log != [] {
      StatusIsLastSaid(log[..|log| - 1]);
      RunStep(Fold(log[..|log| - 1]), log[|log| - 1].data);
      LastSnoc(log, StatusTold);
      LastSnoc(log, MessageTold);
      LastSnoc(log, AwaitingTold);
      hide ReduceEvent, Told, StatusTold, MessageTold, AwaitingTold;
    }
  }

  lemma {:induction false} PlanIsLastSaid(log: seq<Event>)
    ensures var s := Fold(log);
            && s.brief == Last(Told(log, BriefTold))
            && s.planSections == Last(Told(log, PlanTold)).GetOr([])
            && s.error == Last(Told(log, ErrorTold))
  {
    if log != [] {
      PlanIsLastSaid(log[..|log| - 1]);
      RunStep(Fold(log[..|log| - 1]), log[|log| - 1].data);
      LastSnoc(log, BriefTold);
      LastSnoc(log, PlanTold);
      LastSnoc(log, ErrorTold);
      hide ReduceEvent, Told, BriefTold, PlanTold, ErrorTold;
    }
  }

  lemma {:induction false} EndIsLastSaid(log: seq<Event>)
    ensures var s := Fold(log);
            && s.title == Last(Told(log, TitleTold))
            && s.sourceCount == Last(Told(log, CountTold))
            && s.trust == Last(Told(log, TrustTold))
            && (s.reportFinal <==> Told(log, TitleTold) != [])
  {
    if log != [] {
      EndIsLastSaid(log[..|log| - 1]);
      EndRunStep(Fold(log[..|log| - 1]), log[|log| - 1].data);
      ToldSnoc(log, TitleTold);
      LastSnoc(log, TitleTold);
      LastSnoc(log, CountTold);
      LastSnoc(log, TrustTold);
      hide ReduceEvent, Told, Last, TitleTold, CountTold, TrustTold;
    }
  }

  /** One event sets the fields it speaks of. */
  lemma RunStep(s: StreamState, d: Payload)
    ensures var t := ReduceEvent(s, d);
            && t.status == Last(StatusTold(d)).GetOr(s.status)
            && t.statusMessage == Last(MessageTold(d)).GetOr(s.statusMessage)
            && t.awaitingPlan == Last(AwaitingTold(d)).GetOr(s.awaitingPlan)
            && t.brief == Latest(BriefTold(d), s.brief)
            && t.planSections == Last(PlanTold(d)).GetOr(s.planSections)
            && t.error == Latest(ErrorTold(d), s.error)
  {
    hide UpsertSection, SeedAll, SetVerdicts, AddSource;
  }

  lemma EndRunStep(s: StreamState, d: Payload)
    ensures var t := ReduceEvent(s, d);
            && t.title == Latest(TitleTold(d), s.title)
            && t.sourceCount == Latest(CountTold(d), s.sourceCount)
            && t.trust == Latest(TrustTold(d), s.trust)
            && t.reportFinal == (s.reportFinal || TitleTold(d) != [])
  {
    hide UpsertSection, SeedAll, SetVerdicts, AddSource;
  }

  // ----- one section ---------------------------------------------------------------------------

  /** The section of that id, or an empty one while no event has spoken of it. */
  function SectionOf(sections: seq<SectionState>, id: string): SectionState {
    var i := FindSection(sections, id);
    if i < |sections| then sections[i] else EmptySection(id)
  }

  ghost predicate IdsOnce(sections: seq<SectionState>) {
    forall i, j :: 0 <= i < j < |sections| ==> sections[i].id != sections[j].id
  }

  function Ids(sections: seq<SectionState>): seq<string> {
    seq(|sections|, i requires 0 <= i < |sections| => sections[i].id)
  }

  function PlanIds(plan: seq<PlanSection>): seq<string> {
    if plan == [] then [] else PlanIds(plan[..|plan| - 1]) + [plan[|plan| - 1].id]
  }

  /** The sections an event speaks of. */
  function Named(d: Payload): seq<string> {
    if d.Plan? then PlanIds(d.sections)
    else if d.SectionStart? || d.Search? || d.Found? || d.Note? || d.SectionDone? then [d.sectionId]
    else []
  }

  function Itself(id: string): string {
    id
  }

  function SearchIn(id: string): Payload -> seq<string> {
    (d: Payload) => if d.Search? && d.sectionId == id then [d.query] else []
  }

  function SourceId(s: Source): nat {
    s.id
  }

  function SourceIn(id: string): Payload -> seq<Source> {
    (d: Payload) => if d.Found? && d.sectionId == id then [d.source] else []
  }

  function NoteIn(id: string): Payload -> seq<string> {
    (d: Payload) => if d.Note? && d.sectionId == id then [d.content] else []
  }

  function SummaryOf(id: string): Payload -> seq<string> {
    (d: Payload) => if d.SectionDone? && d.sectionId == id then [d.summary] else []
  }

  function CountOf(id: string): Payload -> seq<nat> {
    (d: Payload) => if d.SectionDone? && d.sectionId == id then [d.sourceCount] else []
  }

  /** A title of its own, from the section's start. */
  function TitleOf(id: string): Payload -> seq<string> {
    (d: Payload) => if d.SectionStart? && d.sectionId == id && d.title != "" then [d.title] else []
  }

  /** A start makes a section active, its end complete. */
  function TurnOf(id: string): Payload -> seq<Progress> {
    (d: Payload) =>
      if d.SectionStart? && d.sectionId == id then [Active]
      else if d.SectionDone? && d.sectionId == id then [Complete]
      else []
  }

  /** What a plan's entries for that id say, in order: goals, titles and query lists, blanks left out. */
  function Goals(plan: seq<PlanSection>, id: string): seq<string> {
    if plan == [] then []
    else
      var p := plan[|plan| - 1];
      Goals(plan[..|plan| - 1], id) + if p.id == id then [p.goal] else []
  }

  function Titles(plan: seq<PlanSection>, id: string): (r: seq<string>)
    ensures forall k :: 0 <= k < |r| ==> r[k] != ""
  {
    if plan == [] then []
    else
      var p := plan[|plan| - 1];
      Titles(plan[..|plan| - 1], id) + if p.id == id && p.title != "" then [p.title] else []
  }

  function Queries(plan: seq<PlanSection>, id: string): (r: seq<seq<string>>)
    ensures forall k :: 0 <= k < |r| ==> r[k] != []
  {
    if plan == [] then []
    else
      var p := plan[|plan| - 1];
      Queries(plan[..|plan| - 1], id) + if p.id == id && p.queries != [] then [p.queries] else []
  }

  function GoalIn(id: string): Payload -> seq<string> {
    (d: Payload) => if d.Plan? then Goals(d.sections, id) else []
  }

  function TitleIn(id: string): Payload -> seq<string> {
    (d: Payload) => if d.Plan? then Titles(d.sections, id) else []
  }

  function QueriesIn(id: string): Payload -> seq<seq<string>> {
    (d: Payload) => if d.Plan? then Queries(d.sections, id) else []
  }

  /** A section as the log's events tell it. */
  ghost predicate SectionTold(x: SectionState, log: seq<Event>, id: string) {
    x.id == id && ListsTold(x, log, id) && EndTold(x, log, id) && PlanFilled(x, log, id)
  }

  ghost predicate ListsTold(x: SectionState, log: seq<Event>, id: string) {
    && x.searches == Told(log, SearchIn(id))
    && x.sources == Firsts(Told(log, SourceIn(id)), SourceId)
    && x.notes == Told(log, NoteIn(id))
  }

  ghost predicate EndTold(x: SectionState, log: seq<Event>, id: string) {
    && x.summary == Last(Told(log, SummaryOf(id)))
    && x.sourceCount == Last(Told(log, CountOf(id)))
    && x.status == Last(Told(log, TurnOf(id))).GetOr(if Told(log, SearchIn(id)) == [] then Pending else Active)
  }

  ghost predicate PlanFilled(x: SectionState, log: seq<Event>, id: string) {
    && x.title == Last(Told(log, TitleOf(id))).GetOr(First(Told(log, TitleIn(id))).GetOr(""))
    && x.goal == First(Told(log, GoalIn(id)))
    && x.queries == First(Told(log, QueriesIn(id))).GetOr([])
  }

  lemma UpsertOf(ss: seq<SectionState>, id: string, update: SectionState -> SectionState, other: string)
    requires forall x :: update(x).id == x.id
    ensures SectionOf(UpsertSection(ss, id, update), other)
         == if other == id then update(SectionOf(ss, id)) else SectionOf(ss, other)
    ensures IdsOnce(ss) ==> IdsOnce(UpsertSection(ss, id, update))
    ensures Ids(UpsertSection(ss, id, update)) == if id in Ids(ss) then Ids(ss) else Ids(ss) + [id]
  {
    var i := FindSection(ss, id);
    var ts := UpsertSection(ss, id, update);
    assert forall k :: 0 <= k < |ss| && k != i ==> ts[k] == ss[k];
    assert i < |ss| ==> Ids(ss)[i] == id;
    var k := FindSection(ss, other);
    var j := FindSection(ts, other);
    assert forall m :: 0 <= m < |ss| ==> ts[m].id == ss[m].id;
    if k < |ss| {
      assert ts[k].id == other;
      assert j == k;
    } else if other == id {
      assert ts[|ss|].id == id;
    }
  }

  /** What a section has after a plan: its own, and for what it lacks the first the plan's entries for it say. */
  function Filled(x: SectionState, plan: seq<PlanSection>, id: string): SectionState {
    x.(title := if x.title != "" then x.title else First(Titles(plan, id)).GetOr(""),
       goal := if x.goal.Some? then x.goal else First(Goals(plan, id)),
       queries := if x.queries != [] then x.queries else First(Queries(plan, id)).GetOr([]))
  }

  lemma FilledSnoc(x: SectionState, plan: seq<PlanSection>, id: string)
    requires plan != []
    ensures var n := |plan| - 1;
            Filled(x, plan, id) == if plan[n].id == id then Seed(plan[n], Filled(x, plan[..n], id)) else Filled(x, plan[..n], id)
  {
  }

  lemma {:induction false} SeedsOf(ss: seq<SectionState>, plan: seq<PlanSection>, id: string)
    ensures SectionOf(SeedAll(ss, plan), id) == Filled(SectionOf(ss, id), plan, id)
    ensures IdsOnce(ss) ==> IdsOnce(SeedAll(ss, plan))
    decreases |plan|
  {
    if plan != [] {
      var n := |plan| - 1;
      SeedSnoc(ss, plan);
      SeedsOf(ss, plan[..n], id);
      FilledSnoc(SectionOf(ss, id), plan, id);
      UpsertOf(SeedAll(ss, plan[..n]), plan[n].id, (s: SectionState) => Seed(plan[n], s), id);
      hide UpsertSection, SeedAll, SectionOf, IdsOnce, Filled;
    }
  }

  lemma {:induction false} SeedSnoc(ss: seq<SectionState>, plan: seq<PlanSection>)
    requires plan != []
    ensures var n := |plan| - 1;
            SeedAll(ss, plan) == UpsertSection(SeedAll(ss, plan[..n]), plan[n].id, (s: SectionState) => Seed(plan[n], s))
    decreases |plan|
  {
    hide UpsertSection;
    var n := |plan| - 1;
    if n > 0 {
      assert plan[1..][..n - 1] == plan[..n][1..];
      SeedSnoc(UpsertSection(ss, plan[0].id, (s: SectionState) => Seed(plan[0], s)), plan[1..]);
    } else {
      assert plan[1..] == [];
    }
  }

  // ----- every section of every log ------------------------------------------------------------

  /** What one event does to one section. */
  function After(x: SectionState, d: Payload, id: string): SectionState {
    match d
    case Plan(_, plan) => Filled(x, plan, id)
    case SectionStart(sid, title) =>
      if sid == id then x.(title := if title != "" then title else x.title, status := Active) else x
    case Search(sid, query) =>
      if sid == id then x.(status := if x.status == Complete then Complete else Active, searches := x.searches + [query]) else x
    case Found(sid, source) => if sid == id then AddSource(x, source) else x
    case Note(sid, content) => if sid == id then x.(notes := x.notes + [content]) else x
    case SectionDone(sid, summary, sourceCount) =>
      if sid == id then x.(summary := Some(summary), sourceCount := Some(sourceCount), status := Complete) else x
    case _ => x
  }

  lemma SectionStep(s: StreamState, d: Payload, id: string)
    ensures SectionOf(ReduceEvent(s, d).sections, id) == After(SectionOf(s.sections, id), d, id)
    ensures IdsOnce(s.sections) ==> IdsOnce(ReduceEvent(s, d).sections)
  {
    var ss := s.sections;
    hide UpsertSection, SeedAll, SetVerdicts, SectionOf, Filled, IdsOnce, Ids;
    match d {
      case Plan(_, plan) =>
        SeedsOf(ss, plan, id);
      case SectionStart(sid, title) =>
        UpsertOf(ss, sid, (x: SectionState) => x.(title := if title != "" then title else x.title, status := Active), id);
      case Search(sid, query) =>
        UpsertOf(ss, sid, (x: SectionState) => x.(status := if x.status == Complete then Complete else Active, searches := x.searches + [query]), id);
      case Found(sid, source) =>
        UpsertOf(ss, sid, (x: SectionState) => AddSource(x, source), id);
      case Note(sid, content) =>
        UpsertOf(ss, sid, (x: SectionState) => x.(notes := x.notes + [content]), id);
      case SectionDone(sid, summary, sourceCount) =>
        UpsertOf(ss, sid, (x: SectionState) => x.(summary := Some(summary), sourceCount := Some(sourceCount), status := Complete), id);
      case _ =>
    }
  }

  lemma ListsStep(x: SectionState, log: seq<Event>, id: string)
    requires log != [] && ListsTold(x, log[..|log| - 1], id)
    ensures ListsTold(After(x, log[|log| - 1].data, id), log, id)
  {
    var init, d := log[..|log| - 1], log[|log| - 1].data;
    ToldSnoc(log, SearchIn(id));
    ToldSnoc(log, SourceIn(id));
    ToldSnoc(log, NoteIn(id));
    WordsStep(x, d, id, Told(init, SearchIn(id)), Told(init, NoteIn(id)));
    SourceStep(x, d, id, Told(init, SourceIn(id)));
    hide Told, After, SearchIn, NoteIn, SourceIn, Firsts;
  }

  lemma WordsStep(x: SectionState, d: Payload, id: string, searches: seq<string>, notes: seq<string>)
    requires x.searches == searches && x.notes == notes
    ensures After(x, d, id).searches == searches + SearchIn(id)(d)
    ensures After(x, d, id).notes == notes + NoteIn(id)(d)
  {
  }

  lemma SourceStep(x: SectionState, d: Payload, id: string, told: seq<Source>)
    requires x.sources == Firsts(told, SourceId)
    ensures After(x, d, id).sources == Firsts(told + SourceIn(id)(d), SourceId)
  {
    hide Firsts, AddSource, Titles, Goals, Queries;
    if d.Found? && d.sectionId == id {
      SourceAdded(x, told, d.source);
    } else {
      assert told + SourceIn(id)(d) == told;
      assert After(x, d, id).sources == x.sources;
    }
  }

  /** Adding a source keeps the first of each id. */
  lemma SourceAdded(x: SectionState, told: seq<Source>, source: Source)
    requires x.sources == Firsts(told, SourceId)
    ensures AddSource(x, source).sources == Firsts(told + [source], SourceId)
  {
    FirstsHaveKeys(told, SourceId, source.id);
    assert (told + [source])[..|told|] == told;
    if i :| 0 <= i < |x.sources| && SourceId(x.sources[i]) == source.id {
      assert x.sources[i] in x.sources;
      var j :| 0 <= j < |told| && SourceId(told[j]) == source.id;
      assert SourceId((told + [source])[j]) == source.id;
    } else {
      assert forall j :: 0 <= j < |told| ==> SourceId(told[j]) != source.id;
    }
  }

  lemma EndStep(x: SectionState, log: seq<Event>, id: string)
    requires log != [] && EndTold(x, log[..|log| - 1], id)
    ensures EndTold(After(x, log[|log| - 1].data, id), log, id)
  {
    var init, d := log[..|log| - 1], log[|log| - 1].data;
    NoTurnBack(init, id);
    ToldSnoc(log, SearchIn(id));
    ToldSnoc(log, SummaryOf(id));
    ToldSnoc(log, CountOf(id));
    ToldSnoc(log, TurnOf(id));
    TurnStep(x, d, id, Told(init, TurnOf(id)), Told(init, SearchIn(id)));
    CountStep(x, d, id, Told(init, SummaryOf(id)), Told(init, CountOf(id)));
    hide Told, After, SearchIn, SummaryOf, CountOf, TurnOf;
  }

  lemma TurnStep(x: SectionState, d: Payload, id: string, turns: seq<Progress>, searches: seq<string>)
    requires x.status == Last(turns).GetOr(if searches == [] then Pending else Active)
    requires Last(turns) != Some(Pending)
    ensures After(x, d, id).status == Last(turns + TurnOf(id)(d)).GetOr(if searches + SearchIn(id)(d) == [] then Pending else Active)
  {
  }

  lemma CountStep(x: SectionState, d: Payload, id: string, summaries: seq<string>, counts: seq<nat>)
    requires x.summary == Last(summaries) && x.sourceCount == Last(counts)
    ensures After(x, d, id).summary == Last(summaries + SummaryOf(id)(d))
    ensures After(x, d, id).sourceCount == Last(counts + CountOf(id)(d))
  {
  }

  lemma {:induction false} NoBlankTitle(log: seq<Event>, id: string)
    ensures Last(Told(log, TitleOf(id))) != Some("")
    ensures First(Told(log, TitleIn(id))) != Some("")
  {
    if log != [] {
      NoBlankTitle(log[..|log| - 1], id);
      LastSnoc(log, TitleOf(id));
      FirstSnoc(log, TitleIn(id));
      hide Told, Titles;
    }
  }

  lemma {:induction false} NoBlankQueries(log: seq<Event>, id: string)
    ensures First(Told(log, QueriesIn(id))) != Some([])
  {
    if log != [] {
      NoBlankQueries(log[..|log| - 1], id);
      FirstSnoc(log, QueriesIn(id));
      hide Told, Queries;
    }
  }

  lemma {:induction false} NoTurnBack(log: seq<Event>, id: string)
    ensures Last(Told(log, TurnOf(id))) != Some(Pending)
  {
    if log != [] {
      NoTurnBack(log[..|log| - 1], id);
      LastSnoc(log, TurnOf(id));
      hide Told;
    }
  }

  lemma PlanStep(x: SectionState, log: seq<Event>, id: string)
    requires log != [] && PlanFilled(x, log[..|log| - 1], id)
    ensures PlanFilled(After(x, log[|log| - 1].data, id), log, id)
  {
    var init, d := log[..|log| - 1], log[|log| - 1].data;
    NoBlankTitle(init, id);
    NoBlankQueries(init, id);
    ToldSnoc(log, TitleOf(id));
    ToldSnoc(log, TitleIn(id));
    ToldSnoc(log, GoalIn(id));
    ToldSnoc(log, QueriesIn(id));
    TitleStep(x, d, id, Told(init, TitleOf(id)), Told(init, TitleIn(id)));
    GoalStep(x, d, id, Told(init, GoalIn(id)), Told(init, QueriesIn(id)));
    hide Told, After, TitleOf, TitleIn, GoalIn, QueriesIn;
  }

  lemma TitleStep(x: SectionState, d: Payload, id: string, own: seq<string>, planned: seq<string>)
    requires x.title == Last(own).GetOr(First(planned).GetOr(""))
    requires Last(own) != Some("") && First(planned) != Some("")
    ensures After(x, d, id).title == Last(own + TitleOf(id)(d)).GetOr(First(planned + TitleIn(id)(d)).GetOr(""))
  {
    hide Titles, Goals, Queries;
  }

  lemma GoalStep(x: SectionState, d: Payload, id: string, goals: seq<string>, queries: seq<seq<string>>)
    requires x.goal == First(goals)
    requires x.queries == First(queries).GetOr([]) && First(queries) != Some([])
    ensures After(x, d, id).goal == First(goals + GoalIn(id)(d))
    ensures After(x, d, id).queries == First(queries + QueriesIn(id)(d)).GetOr([])
  {
    hide Titles, Goals, Queries;
  }

  /**
   * For every log and section id: the searches and notes are those of the log's events with that id, in order; the
   * sources are the first of each id; the end's summary and count are the last; title, goal, queries and status
   * follow from the plans and the starts.
   */
  lemma {:induction false} SectionIsTold(log: seq<Event>, id: string)
    ensures SectionTold(SectionOf(Fold(log).sections, id), log, id)
    ensures IdsOnce(Fold(log).sections)
  {
    if log != [] {
      var init, d := log[..|log| - 1], log[|log| - 1].data;
      SectionIsTold(init, id);
      var x := SectionOf(Fold(init).sections, id);
      SectionStep(Fold(init), d, id);
      ListsStep(x, log, id);
      EndStep(x, log, id);
      PlanStep(x, log, id);
      hide ReduceEvent, SectionOf, IdsOnce, ListsTold, EndTold, PlanFilled, Filled, Told;
    }
  }

  // ----- which sections there are ----------------------------------------------------------------

  lemma {:induction false} FirstsSnoc<T, K>(told: seq<T>, key: T -> K, x: T)
    ensures Firsts(told + [x], key)
         == if exists i :: 0 <= i < |Firsts(told, key)| && key(Firsts(told, key)[i]) == key(x)
            then Firsts(told, key) else Firsts(told, key) + [x]
  {
    FirstsHaveKeys(told, key, key(x));
    var all := told + [x];
    assert all[..|told|] == told;
    if i :| 0 <= i < |told| && key(told[i]) == key(x) {
      assert key(all[i]) == key(x);
    } else {
      assert forall i :: 0 <= i < |told| ==> key(told[i]) != key(x);
    }
  }

  /** Naming a section adds it unless it is there. */
  lemma NamedOnce(ss: seq<SectionState>, id: string, update: SectionState -> SectionState, told: seq<string>)
    requires forall x :: update(x).id == x.id
    requires Ids(ss) == Firsts(told, Itself)
    ensures Ids(UpsertSection(ss, id, update)) == Firsts(told + [id], Itself)
  {
    UpsertOf(ss, id, update, id);
    FirstsSnoc(told, Itself, id);
    var firsts := Firsts(told, Itself);
    hide UpsertSection, Ids, Firsts, IdsOnce, SectionOf;
    if id in firsts {
      var i :| 0 <= i < |firsts| && firsts[i] == id;
      assert Itself(firsts[i]) == Itself(id);
    } else {
      assert forall i :: 0 <= i < |firsts| ==> Itself(firsts[i]) == firsts[i];
    }
  }

  lemma {:induction false} SeededOnce(ss: seq<SectionState>, plan: seq<PlanSection>, told: seq<string>)
    requires Ids(ss) == Firsts(told, Itself)
    ensures Ids(SeedAll(ss, plan)) == Firsts(told + PlanIds(plan), Itself)
    decreases |plan|
  {
    if plan == [] {
      assert told + PlanIds(plan) == told;
    } else {
      var n := |plan| - 1;
      SeedSnoc(ss, plan);
      SeededOnce(ss, plan[..n], told);
      NamedOnce(SeedAll(ss, plan[..n]), plan[n].id, (s: SectionState) => Seed(plan[n], s), told + PlanIds(plan[..n]));
      assert told + PlanIds(plan[..n]) + [plan[n].id] == told + PlanIds(plan);
    }
  }

  lemma NamedStep(s: StreamState, d: Payload, told: seq<string>)
    requires Ids(s.sections) == Firsts(told, Itself)
    ensures Ids(ReduceEvent(s, d).sections) == Firsts(told + Named(d), Itself)
  {
    var ss := s.sections;
    hide UpsertSection, SeedAll, SetVerdicts, Ids, Firsts, PlanIds;
    match d {
      case Plan(_, plan) =>
        SeededOnce(ss, plan, told);
      case SectionStart(sid, title) =>
        NamedOnce(ss, sid, (x: SectionState) => x.(title := if title != "" then title else x.title, status := Active), told);
      case Search(sid, query) =>
        NamedOnce(ss, sid, (x: SectionState) => x.(status := if x.status == Complete then Complete else Active, searches := x.searches + [query]), told);
      case Found(sid, source) =>
        NamedOnce(ss, sid, (x: SectionState) => AddSource(x, source), told);
      case Note(sid, content) =>
        NamedOnce(ss, sid, (x: SectionState) => x.(notes := x.notes + [content]), told);
      case SectionDone(sid, summary, sourceCount) =>
        NamedOnce(ss, sid, (x: SectionState) => x.(summary := Some(summary), sourceCount := Some(sourceCount), status := Complete), told);
      case _ =>
        assert told + Named(d) == told;
    }
  }

  /** The sections shown are those the log names, in a plan or an event, each once, where it was named first. */
  lemma {:induction false} SectionsAreNamed(log: seq<Event>)
    ensures Ids(Fold(log).sections) == Firsts(Told(log, Named), Itself)
  {
    if log != [] {
      SectionsAreNamed(log[..|log| - 1]);
      NamedStep(Fold(log[..|log| - 1]), log[|log| - 1].data, Told(log[..|log| - 1], Named));
      hide ReduceEvent, Ids, Firsts, Named;
    }
  }

  // ----- claims and contradictions ---------------------------------------------------------------

  function ConflictTold(d: Payload): seq<ConflictState> {
    if d.Conflict? then [ConflictState(d.id, d.entity, d.attribute, d.claimIds, d.note)] else []
  }

  function ConflictId(c: ConflictState): string {
    c.id
  }

  lemma ConflictStep(s: StreamState, d: Payload)
    ensures ReduceEvent(s, d).contradictions
         == if d.Conflict? && !(exists i :: 0 <= i < |s.contradictions| && s.contradictions[i].id == d.id)
            then s.contradictions + ConflictTold(d) else s.contradictions
  {
    hide UpsertSection, SeedAll, SetVerdicts, AddSource;
    if d.Conflict? {
      if c :| c in s.contradictions && c.id == d.id {
        var i :| 0 <= i < |s.contradictions| && s.contradictions[i] == c;
      } else {
        assert forall i :: 0 <= i < |s.contradictions| ==> s.contradictions[i] in s.contradictions;
      }
    }
  }

  /** The contradictions shown are the log's conflict events, the first of each id, in order. */
  lemma {:induction false} ConflictsAreTold(log: seq<Event>)
    ensures Fold(log).contradictions == Firsts(Told(log, ConflictTold), ConflictId)
  {
    if log != [] {
      var init, d := log[..|log| - 1], log[|log| - 1].data;
      ConflictsAreTold(init);
      ConflictStep(Fold(init), d);
      hide ReduceEvent, Firsts;
      var told := Told(init, ConflictTold);
      if d.Conflict? {
        FirstsSnoc(told, ConflictId, ConflictTold(d)[0]);
      } else {
        assert told + [] == told;
      }
    }
  }

  /** A claim as its event tells it, before any verdict. */
  function ClaimTold(d: Payload): seq<ClaimState> {
    if d.Claimed?
    then [ClaimState(d.claimId, d.sectionId, d.text, d.entity, d.attribute, d.sourceIds, d.quote, None, None)]
    else []
  }

  function ClaimId(c: ClaimState): string {
    c.claimId
  }

  function VerdictOn(id: string): Payload -> seq<(Verdict, real)> {
    (d: Payload) => if d.Verified? && d.claimId == id then [(d.verdict, d.confidence)] else []
  }

  /** The claims without their verdicts. */
  function Bare(cs: seq<ClaimState>): (r: seq<ClaimState>)
    ensures |r| == |cs|
    ensures forall k :: 0 <= k < |cs| ==> r[k] == cs[k].(verdict := None, confidence := None)
  {
    seq(|cs|, k requires 0 <= k < |cs| => cs[k].(verdict := None, confidence := None))
  }

  /** Where the log claims that id for the first time; |log| when it does not. */
  function ClaimedAt(log: seq<Event>, id: string): (i: nat)
    ensures i <= |log|
    ensures i < |log| ==> log[i].data.Claimed? && log[i].data.claimId == id
    ensures forall k :: 0 <= k < i ==> !(log[k].data.Claimed? && log[k].data.claimId == id)
  {
    if log == [] || (log[0].data.Claimed? && log[0].data.claimId == id) then 0
    else
      assert forall k :: 1 <= k < |log| ==> log[1..][k - 1] == log[k];
      1 + ClaimedAt(log[1..], id)
  }

  /** A claim has the last verdict on it since it was claimed, or none. */
  ghost predicate JudgedLast(c: ClaimState, log: seq<Event>) {
    var i := ClaimedAt(log, c.claimId);
    && i < |log|
    && match Last(Told(log[i..], VerdictOn(c.claimId)))
       case None => c.verdict == None && c.confidence == None
       case Some(v) => c.verdict == Some(v.0) && c.confidence == Some(v.1)
  }

  lemma ClaimStep(s: StreamState, d: Payload)
    ensures var cs, ds := s.claims, ReduceEvent(s, d).claims;
            && (d.Claimed? && !(exists i :: 0 <= i < |cs| && cs[i].claimId == d.claimId) ==> ds == cs + ClaimTold(d))
            && (d.Claimed? && (exists i :: 0 <= i < |cs| && cs[i].claimId == d.claimId) ==> ds == cs)
            && (d.Verified? ==>
                  && |ds| == |cs|
                  && forall i :: 0 <= i < |cs| ==>
                       ds[i] == if cs[i].claimId == d.claimId
                                then cs[i].(verdict := Some(d.verdict), confidence := Some(d.confidence)) else cs[i])
            && (!d.Claimed? && !d.Verified? ==> ds == cs)
  {
    hide UpsertSection, SeedAll, AddSource;
    var cs := s.claims;
    if d.Claimed? {
      if c :| c in cs && c.claimId == d.claimId {
        var i :| 0 <= i < |cs| && cs[i] == c;
        assert cs[i].claimId == d.claimId;
      } else {
        assert forall i :: 0 <= i < |cs| ==> cs[i] in cs;
      }
    }
  }

  lemma BareSnoc(cs: seq<ClaimState>, c: ClaimState)
    ensures Bare(cs + [c]) == Bare(cs) + [c.(verdict := None, confidence := None)]
  {
  }

  /** Claiming adds the claim unless its id is there. */
  lemma ClaimAdded(cs: seq<ClaimState>, ds: seq<ClaimState>, told: seq<ClaimState>, c: ClaimState)
    requires Bare(cs) == Firsts(told, ClaimId) && c.verdict == None && c.confidence == None
    requires ds == if exists i :: 0 <= i < |cs| && cs[i].claimId == c.claimId then cs else cs + [c]
    ensures Bare(ds) == Firsts(told + [c], ClaimId)
  {
    FirstsSnoc(told, ClaimId, c);
    BareSnoc(cs, c);
    hide Firsts;
    assert forall i :: 0 <= i < |cs| ==> ClaimId(Bare(cs)[i]) == cs[i].claimId;
  }

  /** The claims shown are the log's claims, the first of each id, in order. */
  lemma {:induction false} ClaimsAreTold(log: seq<Event>)
    ensures Bare(Fold(log).claims) == Firsts(Told(log, ClaimTold), ClaimId)
  {
    if log != [] {
      var init, d := log[..|log| - 1], log[|log| - 1].data;
      ClaimsAreTold(init);
      ClaimStep(Fold(init), d);
      ToldSnoc(log, ClaimTold);
      var told, cs, ds := Told(init, ClaimTold), Fold(init).claims, Fold(log).claims;
      hide ReduceEvent, Firsts, Told;
      if d.Claimed? {
        ClaimAdded(cs, ds, told, ClaimTold(d)[0]);
      } else {
        assert told + [] == told;
        assert Bare(ds) == Bare(cs);
      }
    }
  }

  lemma ClaimedAtSnoc(log: seq<Event>, id: string)
    requires log != []
    ensures var n := |log| - 1;
            var i := ClaimedAt(log[..n], id);
            ClaimedAt(log, id) == if i < n || (log[n].data.Claimed? && log[n].data.claimId == id) then i else |log|
  {
    var n := |log| - 1;
    var i, j := ClaimedAt(log[..n], id), ClaimedAt(log, id);
    assert forall k :: 0 <= k < n ==> log[..n][k] == log[k];
    if j < n {
      assert log[..n][j] == log[j];
    }
  }

  lemma {:induction false} ClaimedIsThere(log: seq<Event>, id: string)
    requires ClaimedAt(log, id) < |log|
    ensures exists k :: 0 <= k < |Fold(log).claims| && Fold(log).claims[k].claimId == id
  {
    var n := |log| - 1;
    var init, d := log[..n], log[n].data;
    var cs, ds := Fold(init).claims, Fold(log).claims;
    ClaimStep(Fold(init), d);
    ClaimedAtSnoc(log, id);
    hide ReduceEvent, ClaimedAt;
    if ClaimedAt(init, id) < n {
      ClaimedIsThere(init, id);
      var k :| 0 <= k < |cs| && cs[k].claimId == id;
      assert ds[k].claimId == id;
    } else if i :| 0 <= i < |cs| && cs[i].claimId == id {
      assert ds[i].claimId == id;
    } else {
      assert ds[|cs|].claimId == id;
    }
  }

  lemma JudgedStep(b: ClaimState, c: ClaimState, log: seq<Event>)
    requires log != [] && JudgedLast(b, log[..|log| - 1])
    requires var d := log[|log| - 1].data;
             c == if d.Verified? && b.claimId == d.claimId
                  then b.(verdict := Some(d.verdict), confidence := Some(d.confidence)) else b
    ensures JudgedLast(c, log)
  {
    var n := |log| - 1;
    var i := ClaimedAt(log[..n], b.claimId);
    ClaimedAtSnoc(log, b.claimId);
    assert log[i..][..n - i] == log[..n][i..];
    LastSnoc(log[i..], VerdictOn(b.claimId));
    hide Told, ClaimedAt;
  }

  lemma NewIsUnjudged(cs: seq<ClaimState>, c: ClaimState, log: seq<Event>)
    requires log != [] && ClaimTold(log[|log| - 1].data) == [c] && cs == Fold(log[..|log| - 1]).claims
    requires forall k :: 0 <= k < |cs| ==> cs[k].claimId != c.claimId
    ensures JudgedLast(c, log)
  {
    var n := |log| - 1;
    if ClaimedAt(log[..n], c.claimId) < n {
      ClaimedIsThere(log[..n], c.claimId);
    }
    ClaimedAtSnoc(log, c.claimId);
    LastSnoc(log[n..], VerdictOn(c.claimId));
    assert log[n..][..0] == [];
    assert Told(log[n..][..0], VerdictOn(c.claimId)) == [];
    hide ClaimedAt, Fold;
  }

  /** Every claim shown has the last verdict the log gives on it after it was claimed. */
  lemma {:induction false} ClaimsAreJudged(log: seq<Event>)
    ensures forall c :: c in Fold(log).claims ==> JudgedLast(c, log)
  {
    if log != [] {
      var n := |log| - 1;
      var init, d := log[..n], log[n].data;
      ClaimsAreJudged(init);
      ClaimStep(Fold(init), d);
      var cs, ds := Fold(init).claims, Fold(log).claims;
      hide ReduceEvent, JudgedLast;
      forall c | c in ds
        ensures JudgedLast(c, log)
      {
        var k :| 0 <= k < |ds| && ds[k] == c;
        if k < |cs| {
          assert cs[k] in cs && JudgedLast(cs[k], init);
          JudgedStep(cs[k], c, log);
        } else {
          NewIsUnjudged(cs, c, log);
        }
      }
    }
  }

  // ----- the tables --------------------------------------------------------------------------------

  function Lookup<K, V>(m: map<K, V>, k: K): Option<V> {
    if k in m then Some(m[k]) else None
  }

  function SourceWith(id: nat): Payload -> seq<Source> {
    (d: Payload) => if d.Found? && d.source.id == id then [d.source] else []
  }

  function RowOf(id: string): Payload -> seq<P.ClaimRow> {
    (d: Payload) =>
      if d.Claimed? && d.claimId == id
      then [P.ClaimRow(d.sectionId, d.text, d.entity, d.attribute, d.sourceIds, d.quote)] else []
  }

  function MarkdownTold(d: Payload): seq<string> {
    if d.Report? then [d.markdown] else []
  }

  function ReportTitle(d: Payload): seq<string> {
    if d.Report? then [d.title] else []
  }

  /**
   * What the tables hold of any sequence of events: the run's row what was said last, a source as it was first found,
   * a claim as it was last told, a verdict as it was last given.
   */
  lemma {:induction false} TablesAreTold(log: seq<Event>, sourceId: nat, claimId: string)
    ensures var t := P.Stored(log);
            && t.status == Last(Told(log, StatusTold)).GetOr("queued")
            && t.error == Last(Told(log, ErrorTold))
            && t.report == Last(Told(log, MarkdownTold))
            && t.title == Last(Told(log, ReportTitle))
            && Lookup(t.sources, sourceId) == First(Told(log, SourceWith(sourceId)))
            && Lookup(t.claims, claimId) == Last(Told(log, RowOf(claimId)))
            && Lookup(t.verdicts, claimId) ==
               match Last(Told(log, VerdictOn(claimId)))
               case None => None
               case Some(v) => Some(P.VerdictRow(v.0, v.1))
  {
    if log != [] {
      var init, d := log[..|log| - 1], log[|log| - 1].data;
      TablesAreTold(init, sourceId, claimId);
      RowStep(P.Stored(init), d);
      TableStep(P.Stored(init), d, sourceId, claimId);
      LastSnoc(log, StatusTold);
      LastSnoc(log, ErrorTold);
      LastSnoc(log, MarkdownTold);
      LastSnoc(log, ReportTitle);
      FirstSnoc(log, SourceWith(sourceId));
      LastSnoc(log, RowOf(claimId));
      LastSnoc(log, VerdictOn(claimId));
      hide P.Persisted, Lookup, Told, StatusTold, ErrorTold, MarkdownTold, ReportTitle, SourceWith, RowOf, VerdictOn;
    }
  }

  lemma RowStep(t: P.Tables, d: Payload)
    ensures var u := P.Persisted(t, d);
            && u.status == Last(StatusTold(d)).GetOr(t.status)
            && u.error == Latest(ErrorTold(d), t.error)
            && u.report == Latest(MarkdownTold(d), t.report)
            && u.title == Latest(ReportTitle(d), t.title)
  {
  }

  lemma TableStep(t: P.Tables, d: Payload, sourceId: nat, claimId: string)
    ensures var u := P.Persisted(t, d);
            var had, got := Lookup(t.sources, sourceId), Last(VerdictOn(claimId)(d));
            && Lookup(u.sources, sourceId) == (if had.Some? then had else First(SourceWith(sourceId)(d)))
            && Lookup(u.claims, claimId) == Latest(RowOf(claimId)(d), Lookup(t.claims, claimId))
            && Lookup(u.verdicts, claimId) == (if got.Some? then Some(P.VerdictRow(got.value.0, got.value.1)) else Lookup(t.verdicts, claimId))
  {
  }

  // ----- the list of sources -----------------------------------------------------------------------

  /** The sources of all sections, section by section. */
  function Listed(sections: seq<SectionState>): seq<Source> {
    if sections == [] then [] else sections[0].sources + Listed(sections[1..])
  }

  predicate FirstWithId(sources: seq<Source>, k: int) {
    0 <= k < |sources| && forall j :: 0 <= j < k ==> sources[j].id != sources[k].id
  }

  lemma {:induction false} CollectAppend(m: map<nat, Source>, a: seq<Source>, b: seq<Source>)
    ensures P.Collect(m, a + b) == P.Collect(P.Collect(m, a), b)
    decreases |a|
  {
    if a == [] {
      assert a + b == b;
    } else {
      assert (a + b)[1..] == a[1..] + b;
      CollectAppend(if a[0].id in m then m else m[a[0].id := a[0]], a[1..], b);
    }
  }

  lemma {:induction false} CollectListed(m: map<nat, Source>, sections: seq<SectionState>)
    ensures P.CollectAll(m, sections) == P.Collect(m, Listed(sections))
    decreases |sections|
  {
    if sections != [] {
      CollectAppend(m, sections[0].sources, Listed(sections[1..]));
      CollectListed(P.Collect(m, sections[0].sources), sections[1..]);
    }
  }

  lemma {:induction false} CollectReads(m: map<nat, Source>, sources: seq<Source>)
    ensures forall k :: k in m ==> k in P.Collect(m, sources) && P.Collect(m, sources)[k] == m[k]
    ensures forall k :: FirstWithId(sources, k) && sources[k].id !in m ==>
              sources[k].id in P.Collect(m, sources) && P.Collect(m, sources)[sources[k].id] == sources[k]
    ensures forall id :: id in P.Collect(m, sources) ==> id in m || exists k :: FirstWithId(sources, k) && sources[k].id == id
    decreases |sources|
  {
    if sources != [] {
      var x, rest := sources[0], sources[1..];
      var n := if x.id in m then m else m[x.id := x];
      CollectReads(n, rest);
      var all := P.Collect(m, sources);
      assert all == P.Collect(n, rest);
      forall k | FirstWithId(sources, k) && sources[k].id !in m
        ensures sources[k].id in all && all[sources[k].id] == sources[k]
      {
        if k > 0 {
          assert FirstWithId(rest, k - 1);
        }
      }
      forall id | id in all && id !in m
        ensures exists k :: FirstWithId(sources, k) && sources[k].id == id
      {
        if id == x.id {
          assert FirstWithId(sources, 0);
        } else {
          var k :| FirstWithId(rest, k) && rest[k].id == id;
          assert FirstWithId(sources, k + 1);
        }
      }
    }
  }

  /** The flattened list shows, of each id, the source that comes first, section by section; whatever the sources are. */
  lemma SourceListReads(sections: seq<SectionState>)
    ensures var shown, all := P.InOrder(P.CollectAll(map[], sections)), Listed(sections);
            && (forall i, j :: 0 <= i < j < |shown| ==> shown[i].id < shown[j].id)
            && (forall x :: x in shown <==> exists k :: FirstWithId(all, k) && all[k] == x)
  {
    var all := Listed(sections);
    var m := P.CollectAll(map[], sections);
    CollectListed(map[], sections);
    CollectReads(map[], all);
    hide P.Collect, P.CollectAll, Listed;
    forall id | id in m
      ensures m[id].id == id && exists k :: FirstWithId(all, k) && all[k] == m[id]
    {
      var k :| FirstWithId(all, k) && all[k].id == id;
      assert all[k].id == id;
    }
    P.InOrderMeaning(m);
    hide P.InOrder;
    forall k | FirstWithId(all, k)
      ensures all[k].id in m && m[all[k].id] == all[k]
    {
    }
  }
}
