/**
 * The client's view of a run: `reduceEvent` and `upsertSection` of
 * frontend/lib/useResearchStream.ts.
 */
module Reducer {
  import opened Common
  import opened Wire

  datatype ClaimState = ClaimState(
    claimId: string, sectionId: string, text: string, entity: Option<string>, attribute: Option<string>,
    sourceIds: seq<nat>, quote: string, verdict: Option<Verdict>, confidence: Option<real>)

  datatype Progress = Pending | Active | Complete

  datatype SectionState = SectionState(
    id: string, title: string, goal: Option<string>, queries: seq<string>, searches: seq<string>,
    sources: seq<Source>, notes: seq<string>, summary: Option<string>, sourceCount: Option<nat>,
    status: Progress)

  datatype ConflictState = ConflictState(
    id: string, entity: Option<string>, attribute: Option<string>, claimIds: (string, string), note: string)

  datatype StreamState = StreamState(
    status: string, statusMessage: string, brief: Option<string>, planSections: seq<PlanSection>,
    awaitingPlan: bool, sections: seq<SectionState>, report: string, reportFinal: bool,
    title: Option<string>, sourceCount: Option<nat>, error: Option<string>,
    claims: seq<ClaimState>, contradictions: seq<ConflictState>, trust: Option<ConfidenceSummary>)

  const INITIAL := StreamState("queued", "", None, [], false, [], "", false, None, None, None, [], [], None)

  function EmptySection(id: string): SectionState {
    SectionState(id, "", None, [], [], [], [], None, None, Pending)
  }

  /** Index of the section with this id; |sections| when there is none. */
  function FindSection(sections: seq<SectionState>, id: string): (i: nat)
    ensures i <= |sections|
    ensures i < |sections| ==> sections[i].id == id
    ensures forall k :: 0 <= k < i ==> sections[k].id != id
  {
    if sections == [] || sections[0].id == id then 0 else 1 + FindSection(sections[1..], id)
  }

  function UpsertSection(sections: seq<SectionState>, id: string, update: SectionState -> SectionState): seq<SectionState> {
    var i := FindSection(sections, id);
    if i == |sections| then sections + [update(EmptySection(id))]
    else sections[i := update(sections[i])]
  }

  /** Seeding a section shell from the plan keeps whatever was streamed already. */
  function Seed(ps: PlanSection, s: SectionState): SectionState {
    s.(title := if s.title != "" then s.title else ps.title,
       goal := if s.goal.Some? then s.goal else Some(ps.goal),
       queries := if s.queries != [] then s.queries else ps.queries)
  }

  function SeedAll(sections: seq<SectionState>, plan: seq<PlanSection>): seq<SectionState>
    decreases |plan|
  {
    if plan == [] then sections
    else SeedAll(UpsertSection(sections, plan[0].id, (s: SectionState) => Seed(plan[0], s)), plan[1..])
  }

  function AddSource(s: SectionState, source: Source): SectionState {
    if exists x :: x in s.sources && x.id == source.id then s else s.(sources := s.sources + [source])
  }

  function SetVerdict(c: ClaimState, claimId: string, verdict: Verdict, confidence: real): ClaimState {
    if c.claimId == claimId then c.(verdict := Some(verdict), confidence := Some(confidence)) else c
  }

  function SetVerdicts(cs: seq<ClaimState>, claimId: string, verdict: Verdict, confidence: real): (r: seq<ClaimState>)
    ensures |r| == |cs|
    ensures forall i :: 0 <= i < |cs| ==> r[i] == SetVerdict(cs[i], claimId, verdict, confidence)
  {
    seq(|cs|, i requires 0 <= i < |cs| => SetVerdict(cs[i], claimId, verdict, confidence))
  }

  function ReduceEvent(s: StreamState, d: Payload): StreamState {
    match d
    case Status(stage, message) =>
      s.(status := stage, statusMessage := message, awaitingPlan := stage == "awaiting_plan")
    case Plan(brief, plan) =>
      s.(brief := Some(brief), planSections := plan, sections := SeedAll(s.sections, plan))
    case AwaitingPlan => s.(awaitingPlan := true, status := "awaiting_plan")
    case SectionStart(id, title) =>
      s.(sections := UpsertSection(s.sections, id,
           (x: SectionState) => x.(title := if title != "" then title else x.title, status := Active)))
    case Search(id, query) =>
      s.(sections := UpsertSection(s.sections, id,
           (x: SectionState) => x.(status := if x.status == Complete then Complete else Active, searches := x.searches + [query])))
    case Found(id, source) =>
      s.(sections := UpsertSection(s.sections, id, (x: SectionState) => AddSource(x, source)))
    case Claimed(id, sectionId, text, entity, attribute, sourceIds, quote) =>
      if exists c :: c in s.claims && c.claimId == id then s
      else s.(claims := s.claims + [ClaimState(id, sectionId, text, entity, attribute, sourceIds, quote, None, None)])
    case Verified(claimId, verdict, confidence, _) =>
      s.(claims := SetVerdicts(s.claims, claimId, verdict, confidence))
    case Conflict(id, entity, attribute, claimIds, note) =>
      if exists c :: c in s.contradictions && c.id == id then s
      else s.(contradictions := s.contradictions + [ConflictState(id, entity, attribute, claimIds, note)])
    case Note(id, content) =>
      s.(sections := UpsertSection(s.sections, id, (x: SectionState) => x.(notes := x.notes + [content])))
    case SectionDone(id, summary, sourceCount) =>
      s.(sections := UpsertSection(s.sections, id,
           (x: SectionState) => x.(summary := Some(summary), sourceCount := Some(sourceCount), status := Complete)))
    case ReportDelta(text) => s.(report := s.report + text)
    case Report(markdown, title, trust) =>
      s.(report := markdown, reportFinal := true, title := Some(title),
         trust := if trust.Some? then trust else s.trust)
    case Failed(message) => s.(error := Some(message), status := "error")
    case Done(title, sourceCount, trust) =>
      s.(status := "done", awaitingPlan := false, reportFinal := true, title := Some(title),
         sourceCount := Some(sourceCount), trust := if trust.Some? then trust else s.trust)
  }

  /** What applying a log event by event yields. */
  function Fold(events: seq<Event>): StreamState {
    if events == [] then INITIAL
    else ReduceEvent(Fold(events[..|events| - 1]), events[|events| - 1].data)
  }

  lemma FoldSnoc(events: seq<Event>, n: nat)
    requires n < |events|
    ensures Fold(events[..n + 1]) == ReduceEvent(Fold(events[..n]), events[n].data)
  {
    assert events[..n + 1][..n] == events[..n];
  }

  /** An event other than `report` and `report_delta` neither reads nor changes the report text. */
  lemma ReportCommutes(s: StreamState, d: Payload, text: string)
    requires !d.ReportDelta? && !d.Report?
    ensures ReduceEvent(s.(report := text), d) == ReduceEvent(s, d).(report := text)
    ensures ReduceEvent(s, d).report == s.report
  {
    hide UpsertSection, SeedAll, AddSource, SetVerdicts;
  }

  lemma ReduceDelta(s: StreamState, d: Payload)
    requires d.ReportDelta?
    ensures ReduceEvent(s, d) == s.(report := s.report + d.text)
  {
  }

  /** A full report replaces whatever text there was. */
  lemma ReduceReport(s: StreamState, t: StreamState, d: Payload)
    requires d.Report? && s.(report := "") == t.(report := "")
    ensures ReduceEvent(s, d) == ReduceEvent(t, d)
    ensures ReduceEvent(s, d).report == d.markdown
  {
  }
}
