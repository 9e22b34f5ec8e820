/** The run events that travel from the engine to the browser (backend/app/models/schemas.py). */
module Wire {
  import opened Common

  datatype Verdict = Supported | Partial | Unsupported | Contradicted

  datatype Source = Source(id: nat, title: string, url: string, snippet: string, sectionId: Option<string>)

  datatype PlanSection = PlanSection(id: string, title: string, goal: string, queries: seq<string>)

  datatype ConfidenceSummary = ConfidenceSummary(high: nat, medium: nat, low: nat, contradictions: nat)

  /** The type and the data of an event. */
  datatype Payload =
    | Status(stage: string, message: string)
    | Plan(brief: string, sections: seq<PlanSection>)
    | AwaitingPlan
    | SectionStart(sectionId: string, title: string)
    | Search(sectionId: string, query: string)
    | Found(sectionId: string, source: Source)
    | Claimed(claimId: string, sectionId: string, text: string, entity: Option<string>,
              attribute: Option<string>, sourceIds: seq<nat>, quote: string)
    | Verified(claimId: string, verdict: Verdict, confidence: real, rationale: string)
    | Conflict(id: string, entity: Option<string>, attribute: Option<string>,
               claimIds: (string, string), note: string)
    | Note(sectionId: string, content: string)
    | SectionDone(sectionId: string, summary: string, sourceCount: nat)
    | ReportDelta(text: string)
    | Report(markdown: string, title: string, trust: Option<ConfidenceSummary>)
    | Failed(message: string)
    | Done(title: string, sourceCount: nat, trust: Option<ConfidenceSummary>)

  datatype Event = Event(seqNo: nat, data: Payload)

  /** `_TERMINAL` of run_service.py: the events after which a stream ends. */
  predicate Terminal(data: Payload) {
    data.Done? || data.Failed?
  }

  const CANCELLED := Status("cancelled", "Cancelled")

  /** Sequence number of the last event, -1 when there is none. */
  function LastNo(events: seq<Event>): int {
    if events == [] then -1 else events[|events| - 1].seqNo
  }

  ghost predicate Increasing(events: seq<Event>) {
    forall i, j :: 0 <= i < j < |events| ==> events[i].seqNo < events[j].seqNo
  }
}
