/**
 * The events of a whole run, as a language: planning, plan, possibly a wait for approval, researching,
 * any shuffle of the sections' own languages, writing, pieces of the report, report, done; or a
 * beginning of that and then one error. Every interleaving keeps to it.
 */
module EngineTrace {
  import opened Common
  import opened Wire
  import opened SectionTrace
  import opened Engine

  datatype Stage = Start | Planned | Awaited | Ready4Research | Research | Drafting | Reported | Finished | Errored | Wrong

  /** How far the run is, and each section with it. `trust` and `title` are those of the report. */
  datatype Whole = Whole(stage: Stage, shapes: seq<Shape>, title: string, trust: Option<ConfidenceSummary>)

  const BEGIN := Whole(Start, [], "", None)

  /** One event, in a run of these sections. */
  function Take(w: Whole, e: Entry, approval: bool, sections: seq<PlanSection>): Whole {
    if e.owner.Of? then
      var k := e.owner.section;
      if w.stage == Research && k < |w.shapes| && k < |sections|
      then w.(shapes := w.shapes[k := Follow(w.shapes[k], e.data, sections[k].id)])
      else w.(stage := Wrong)
    else if e.data.Failed? && w.stage != Errored && w.stage != Wrong then w.(stage := Errored)
    else
      match w.stage
      case Start => w.(stage := if e.data == PLANNING then Planned else Wrong)
      case Planned => w.(stage := if !e.data.Plan? then Wrong else if approval then Awaited else Ready4Research)
      case Awaited => w.(stage := if e.data.AwaitingPlan? then Ready4Research else Wrong)
      case Ready4Research =>
        if e.data == RESEARCHING then w.(stage := Research, shapes := seq(|sections|, _ => Unborn)) else w.(stage := Wrong)
      case Research =>
        w.(stage := if e.data == WRITING && forall s :: s in w.shapes ==> s == Closed then Drafting else Wrong)
      case Drafting =>
        if e.data.ReportDelta? then w
        else if e.data.Report? then w.(stage := Reported, title := e.data.title, trust := e.data.trust)
        else w.(stage := Wrong)
      case Reported =>
        w.(stage := if e.data.Done? && e.data.title == w.title && e.data.trust == w.trust then Finished else Wrong)
      case Finished => w.(stage := Wrong)
      case Errored => w.(stage := Wrong)
      case Wrong => w
  }

  function TakeAll(log: seq<Entry>, approval: bool, sections: seq<PlanSection>): Whole {
    if log == [] then BEGIN else Take(TakeAll(log[..|log| - 1], approval, sections), log[|log| - 1], approval, sections)
  }

  /** The log keeps to the language: no event came where none of its kind may, and no section strayed. */
  predicate InLanguage(log: seq<Entry>, approval: bool, sections: seq<PlanSection>) {
    var w := TakeAll(log, approval, sections);
    w.stage != Wrong && forall s :: s in w.shapes ==> s != Broken
  }

  /** The owner's own events, in order. */
  function ByOwner(owner: Owner): Entry -> bool {
    (e: Entry) => e.owner == owner
  }

  function Data(entries: seq<Entry>): (r: seq<Payload>)
    ensures |r| == |entries| && forall i :: 0 <= i < |r| ==> r[i] == entries[i].data
  {
    seq(|entries|, i requires 0 <= i < |entries| => entries[i].data)
  }

  function EventsOf(log: seq<Entry>, owner: Owner): seq<Payload> {
    Data(Filter(log, ByOwner(owner)))
  }

  lemma EventsOfSnoc(log: seq<Entry>, e: Entry, owner: Owner)
    ensures EventsOf(log + [e], owner) == EventsOf(log, owner) + if e.owner == owner then [e.data] else []
  {
    assert (log + [e])[..|log|] == log;
  }

  predicate Early(stage: Stage) {
    stage.Start? || stage.Planned? || stage.Awaited? || stage.Ready4Research?
  }

  /** Sections have shapes from `researching` on. */
  predicate ShapeCount(w: Whole, sections: seq<PlanSection>) {
    if Early(w.stage) then w.shapes == []
    else |w.shapes| == |sections| || (w.stage.Errored? && w.shapes == [])
  }

  /** What one event does to section k's shape. */
  lemma TakeShape(w: Whole, e: Entry, approval: bool, sections: seq<PlanSection>, k: nat)
    requires ShapeCount(w, sections) && Take(w, e, approval, sections).stage != Wrong
    ensures w.stage != Wrong
    ensures var after := Take(w, e, approval, sections);
            && ShapeCount(after, sections)
            && (e.owner == Of(k) ==> k < |w.shapes| && |after.shapes| == |w.shapes| && after.shapes[k] == Follow(w.shapes[k], e.data, sections[k].id))
            && (e.owner != Of(k) && k < |w.shapes| ==> k < |after.shapes| && after.shapes[k] == w.shapes[k])
            && (e.owner != Of(k) && |w.shapes| <= k < |after.shapes| ==> after.shapes[k] == Unborn)
  {
  }

  /** In a log of the language each section's shape is the one its own events give. */
  lemma {:induction false} ShapesAreTheSections(log: seq<Entry>, approval: bool, sections: seq<PlanSection>, k: nat)
    requires TakeAll(log, approval, sections).stage != Wrong
    ensures var w := TakeAll(log, approval, sections);
            && ShapeCount(w, sections)
            && (k >= |w.shapes| ==> EventsOf(log, Of(k)) == [])
            && (k < |w.shapes| ==> w.shapes[k] == FollowAll(Unborn, EventsOf(log, Of(k)), sections[k].id))
  {
    if log == [] {
      assert EventsOf(log, Of(k)) == [];
    } else {
      var n := |log| - 1;
      var w, e, own := TakeAll(log[..n], approval, sections), log[n], EventsOf(log[..n], Of(k));
      assert w.stage != Wrong;
      ShapesAreTheSections(log[..n], approval, sections, k);
      TakeShape(w, e, approval, sections, k);
      assert log[..n] + [e] == log;
      EventsOfSnoc(log[..n], e, Of(k));
      hide Take, Filter;
      assert own + [] == own && (own + [e.data])[..|own|] == own;
    }
  }
}
