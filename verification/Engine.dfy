/**
 * A whole run of the engine: `ResearchEngine.run` and `_research_all` of backend/app/core/engine.py,
 * with the event emitter of backend/app/core/events.py. Sections run interleaved against one registry.
 */
module Engine {
  import opened Common
  import opened Wire
  import opened Findings
  import opened Trust
  import opened Section
  import R = Registry

  /** Who emitted an event: the engine itself or the section at this place in the plan. */
  datatype Owner = Main | Of(section: nat)

  datatype Entry = Entry(owner: Owner, data: Payload)

  datatype Phase = Planning | Approving | Launching | Researching | Writing | Finishing | Failing | Completed | Aborted

  /**
   * `pending` are the engine's own events being emitted, `down` the sections whose task raised, `texts` the page text
   * behind each source, and `claimIds` and `conflictIds` the ids handed out so far.
   */
  datatype Run = Run(
    approval: bool, maxIters: nat, phase: Phase, pending: seq<Payload>,
    sections: seq<PlanSection>, tasks: seq<Task>, down: set<nat>,
    registry: R.Registry, texts: seq<string>, claimIds: set<string>, conflictIds: set<string>, log: seq<Entry>)

  const PLANNING := Status("planning", "Planning research")
  const RESEARCHING := Status("researching", "Researching sections")
  const WRITING := Status("writing", "Writing report")

  function NewRun(approval: bool, maxIters: nat): Run {
    Run(approval, maxIters, Planning, [PLANNING], [], [], {}, R.EMPTY, [], {}, {}, [])
  }

  datatype Action =
    | EmitMain
    | PlanReady(brief: string, plan: seq<PlanSection>)
    | Approve(approved: seq<PlanSection>)
    | Launch
    | TaskEmit(k: nat)
    | TaskStep(k: nat, input: Input)
    | TaskFail(k: nat)                 // the section's task raises
    | Join
    | Delta(text: string)
    | Written(markdown: string, title: string)
    | Abort(message: string)           // an exception reaches `run`
    | Return

  ghost predicate Injective(ids: nat -> string) {
    forall i, j :: 0 <= i < j ==> ids(i) != ids(j)
  }

  /** `uuid4` never repeats itself. */
  ghost predicate IdsFresh(run: Run, input: Input) {
    match input
    case Extraction(_, ids) =>
      && (forall i, j :: 0 <= i < j < |ids| ==> ids[i] != ids[j])
      && (forall i :: 0 <= i < |ids| ==> ids[i] !in run.claimIds)
    case Answers(_, ids) => Injective(ids) && forall i: nat :: ids(i) !in run.conflictIds
    case _ => true
  }

  predicate Active(run: Run, k: nat) {
    run.phase.Researching? && run.pending == [] && k < |run.tasks| && k !in run.down
  }

  predicate Over(t: Task) {
    t.pc.Returned? && t.pending == []
  }

  predicate Live(phase: Phase) {
    !phase.Failing? && !phase.Completed? && !phase.Aborted?
  }

  ghost predicate Enabled(run: Run, a: Action) {
    match a
    case EmitMain => run.pending != []
    case PlanReady(_, plan) => run.phase.Planning? && run.pending == [] && plan != []
    case Approve(_) => run.phase.Approving? && run.pending == []
    case Launch => run.phase.Launching? && run.pending == []
    case TaskEmit(k) => Active(run, k) && run.tasks[k].pending != []
    case TaskStep(k, input) => Active(run, k) && Ready(run.tasks[k], input) && IdsFresh(run, input)
    case TaskFail(k) => Active(run, k) && !Over(run.tasks[k])
    case Join => run.phase.Researching? && run.pending == [] && run.down == {} && forall t :: t in run.tasks ==> Over(t)
    case Delta(_) => run.phase.Writing? && run.pending == []
    case Written(_, _) => run.phase.Writing? && run.pending == []
    case Abort(_) => Live(run.phase) && (run.phase.Researching? && run.pending == [] ==> run.down != {})
    case Return => (run.phase.Finishing? || run.phase.Failing?) && run.pending == []
  }

  // ----- the sections' results, in plan order -----------------------------------------------

  function ClaimsOf(tasks: seq<Task>): seq<Claim> {
    if tasks == [] then [] else ClaimsOf(tasks[..|tasks| - 1]) + tasks[|tasks| - 1].claims
  }

  function VerifsOf(tasks: seq<Task>): seq<Verification> {
    if tasks == [] then [] else VerifsOf(tasks[..|tasks| - 1]) + tasks[|tasks| - 1].verifs
  }

  function ConflictsOf(tasks: seq<Task>): seq<Contradiction> {
    if tasks == [] then [] else ConflictsOf(tasks[..|tasks| - 1]) + tasks[|tasks| - 1].conflicts
  }

  /** The trust summary, attached only when anything was claimed. */
  function TrustOf(tasks: seq<Task>): Option<ConfidenceSummary> {
    if ClaimsOf(tasks) == [] then None
    else Some(ServerSummary(ClaimsOf(tasks), VerifsOf(tasks), ConflictsOf(tasks)))
  }

  function LastEvents(run: Run, markdown: string, title: string): seq<Payload> {
    [Report(markdown, title, TrustOf(run.tasks)), Done(title, |run.registry.sources|, TrustOf(run.tasks))]
  }

  function NewTasks(sections: seq<PlanSection>): (r: seq<Task>)
    ensures |r| == |sections| && forall k :: 0 <= k < |r| ==> r[k] == NewTask(sections[k])
  {
    seq(|sections|, k requires 0 <= k < |sections| => NewTask(sections[k]))
  }

  function IdSet(claims: seq<Claim>): set<string> {
    set c | c in claims :: c.id
  }

  function ConflictIdSet(xs: seq<Contradiction>): set<string> {
    set x | x in xs :: x.id
  }

  function AfterStep(run: Run, k: nat, input: Input): Run
    requires k < |run.tasks| && Ready(run.tasks[k], input)
  {
    var t := run.tasks[k];
    var after := Step(t, run.registry, input, run.maxIters);
    run.(tasks := run.tasks[k := after], registry := Register(t, run.registry),
         texts := if AddsSource(t, run.registry) then run.texts + [t.pages[0].text] else run.texts,
         claimIds := if t.pc.Extracting? then run.claimIds + IdSet(after.pc.extracted) else run.claimIds,
         conflictIds := if t.pc.Concluding? then run.conflictIds + ConflictIdSet(after.conflicts) else run.conflictIds)
  }

  function Effect(run: Run, a: Action): Run
    requires Enabled(run, a)
  {
    match a
    case EmitMain => run.(log := run.log + [Entry(Main, run.pending[0])], pending := run.pending[1..])
    case PlanReady(brief, plan) =>
      run.(sections := plan, pending := [Plan(brief, plan)] + (if run.approval then [AwaitingPlan] else []),
           phase := if run.approval then Approving else Launching)
    case Approve(approved) => run.(sections := if approved != [] then approved else run.sections, phase := Launching)
    case Launch => run.(pending := [RESEARCHING], tasks := NewTasks(run.sections), phase := Researching)
    case TaskEmit(k) =>
      run.(log := run.log + [Entry(Of(k), run.tasks[k].pending[0])], tasks := run.tasks[k := EmitNext(run.tasks[k])])
    case TaskStep(k, input) => AfterStep(run, k, input)
    case TaskFail(k) => run.(down := run.down + {k})
    case Join => run.(pending := [WRITING], phase := Writing)
    case Delta(text) => run.(pending := [ReportDelta(text)])
    case Written(markdown, title) => run.(pending := LastEvents(run, markdown, title), phase := Finishing)
    case Abort(message) => run.(pending := [Payload.Failed(message)], phase := Failing)
    case Return => run.(phase := if run.phase.Finishing? then Completed else Aborted)
  }

  ghost function Next(run: Run, a: Action): Run {
    if Enabled(run, a) then Effect(run, a) else run
  }

  /** Any interleaving at all: actions that cannot happen are skipped. */
  ghost function RunAll(run: Run, actions: seq<Action>): Run
    decreases |actions|
  {
    if actions == [] then run else RunAll(Next(run, actions[0]), actions[1..])
  }

  /** The events as the emitter numbers them. */
  function Events(log: seq<Entry>): (r: seq<Event>)
    ensures |r| == |log| && forall i :: 0 <= i < |r| ==> r[i] == Event(i, log[i].data)
  {
    seq(|log|, i requires 0 <= i < |log| => Event(i, log[i].data))
  }

  /** `EventEmitter` with its `ListSink`: the number is taken before anything waits. */
  class EventEmitter {
    var nextSeq: nat
    var events: seq<Event>

    ghost predicate Valid()
      reads this
    {
      nextSeq == |events| && forall i :: 0 <= i < |events| ==> events[i].seqNo == i
    }

    constructor ()
      ensures Valid() && events == []
    {
      nextSeq, events := 0, [];
    }

    method Emit(data: Payload) returns (e: Event)
      requires Valid()
      modifies this
      ensures Valid() && e == Event(|old(events)|, data) && events == old(events) + [e]
      ensures forall log, owner :: old(events) == Events(log) ==> events == Events(log + [Entry(owner, data)])
    {
      e := Event(nextSeq, data);
      nextSeq := nextSeq + 1;
      events := events + [e];
    }
  }

  /** The engine's own coroutine as an object. `results` holds each section by its place in the plan. */
  class ResearchEngine {
    const approval: bool
    var phase: Phase
    var pending: seq<Payload>
    var sections: seq<PlanSection>
    var results: seq<Task>

    /** The engine object is where the run is. */
    ghost predicate Shows(run: Run)
      reads this
    {
      approval == run.approval && phase == run.phase && pending == run.pending && sections == run.sections && results == run.tasks
    }

    constructor (approval: bool)
      ensures this.approval == approval && phase == Planning && pending == [PLANNING] && sections == [] && results == []
      ensures forall maxIters :: Shows(NewRun(approval, maxIters))
    {
      this.approval := approval;
      phase, pending, sections, results := Planning, [PLANNING], [], [];
    }

    method PlanReady(brief: string, plan: seq<PlanSection>)
      modifies `sections, `pending, `phase
      ensures sections == plan
      ensures pending == if approval then [Plan(brief, plan), AwaitingPlan] else [Plan(brief, plan)]
      ensures phase == if approval then Approving else Launching
      ensures forall run | Enabled(run, Action.PlanReady(brief, plan)) && old(Shows(run)) :: Shows(Effect(run, Action.PlanReady(brief, plan)))
    {
      sections := plan;
      pending := [Plan(brief, plan)];
      phase := Launching;
      if approval {
        pending := pending + [AwaitingPlan];
        phase := Approving;
      }
    }

    method Approve(approved: seq<PlanSection>)
      modifies `sections, `phase
      ensures phase == Launching && sections == if approved != [] then approved else old(sections)
      ensures forall run | Enabled(run, Action.Approve(approved)) && old(Shows(run)) :: Shows(Effect(run, Action.Approve(approved)))
    {
      if approved != [] {
        sections := approved;
      }
      phase := Launching;
    }

    method Launch()
      modifies `pending, `phase, `results
      ensures phase == Researching && pending == [RESEARCHING] && results == NewTasks(sections)
      ensures forall run | Enabled(run, Action.Launch) && old(Shows(run)) :: Shows(Effect(run, Action.Launch))
    {
      results := [];
      for idx := 0 to |sections|
        invariant results == NewTasks(sections[..idx])
      {
        results := results + [NewTask(sections[idx])];
      }
      assert sections[..|sections|] == sections;
      pending := [RESEARCHING];
      phase := Researching;
    }

    /** The report is there: gather the sections' findings in plan order, count them, queue the last two events. */
    method Written(markdown: string, title: string, registry: R.SourceRegistry)
      modifies `pending, `phase
      ensures phase == Finishing
      ensures pending == [Report(markdown, title, TrustOf(results)), Done(title, |registry.sources|, TrustOf(results))]
      ensures forall run | Enabled(run, Action.Written(markdown, title)) && old(Shows(run)) && registry.sources == run.registry.sources ::
                Shows(Effect(run, Action.Written(markdown, title)))
    {
      var claims, verifs, conflicts := Gather();
      hide ClaimsOf, VerifsOf, ConflictsOf;
      var trust: Option<ConfidenceSummary> := None;
      if claims != [] {
        var summary := SummarizeConfidence(claims, verifs, conflicts);
        trust := Some(summary);
      }
      var n := registry.Len();
      pending := [Report(markdown, title, trust), Done(title, n, trust)];
      phase := Finishing;
    }

    /** The sections' findings in plan order. */
    method Gather() returns (claims: seq<Claim>, verifs: seq<Verification>, conflicts: seq<Contradiction>)
      ensures claims == ClaimsOf(results) && verifs == VerifsOf(results) && conflicts == ConflictsOf(results)
    {
      claims, verifs, conflicts := [], [], [];
      for i := 0 to |results|
        invariant claims == ClaimsOf(results[..i]) && verifs == VerifsOf(results[..i]) && conflicts == ConflictsOf(results[..i])
      {
        assert results[..i + 1][..i] == results[..i];
        claims := claims + results[i].claims;
        verifs := verifs + results[i].verifs;
        conflicts := conflicts + results[i].conflicts;
      }
      assert results[..|results|] == results;
    }
  }
}
