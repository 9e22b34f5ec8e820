/** Every run of the engine, under every interleaving and every failure, emits a log of the language. */
module EngineLanguage {
  import opened Wire
  import opened Section
  import opened SectionTrace
  import opened SectionBooks
  import opened Engine
  import opened EngineTrace
  import R = Registry

  function Mains(events: seq<Payload>): (r: seq<Entry>)
    ensures |r| == |events| && forall i :: 0 <= i < |r| ==> r[i] == Entry(Main, events[i])
  {
    seq(|events|, i requires 0 <= i < |events| => Entry(Main, events[i]))
  }

  /** Where the run is in the language once the engine's pending events are out. */
  function Heading(run: Run): Whole {
    TakeAll(run.log + Mains(run.pending), run.approval, run.sections)
  }

  predicate StageOf(phase: Phase, stage: Stage) {
    match phase
    case Planning => stage.Planned?
    case Approving => stage.Ready4Research?
    case Launching => stage.Ready4Research?
    case Researching => stage.Research?
    case Writing => stage.Drafting?
    case Finishing => stage.Finished?
    case Completed => stage.Finished?
    case Failing => stage.Errored?
    case Aborted => stage.Errored?
  }

  ghost predicate TasksOk(run: Run) {
    && (run.phase.Planning? || run.phase.Approving? || run.phase.Launching? ==> run.tasks == [])
    && (run.phase.Researching? || run.phase.Writing? || run.phase.Finishing? || run.phase.Completed? ==> |run.tasks| == |run.sections|)
    && (run.tasks != [] ==> |run.tasks| == |run.sections|)
    && (forall k :: 0 <= k < |run.tasks| ==> run.tasks[k].section == run.sections[k])
    && (run.phase.Writing? || run.phase.Finishing? || run.phase.Completed? ==> forall t :: t in run.tasks ==> Over(t))
    && (run.phase.Completed? || run.phase.Aborted? ==> run.pending == [])
  }

  function TraceOf(run: Run, k: nat): seq<Payload> {
    if k < |run.tasks| then run.tasks[k].trace else []
  }

  /** The log holds each section's own events, in order. */
  ghost predicate OwnEvents(run: Run) {
    forall k: nat :: EventsOf(run.log, Of(k)) == TraceOf(run, k)
  }

  ghost predicate AllBooks(run: Run) {
    forall k :: 0 <= k < |run.tasks| ==> BooksOk(run.tasks[k], run.maxIters)
  }

  ghost predicate LanguageOk(run: Run) {
    TasksOk(run) && OwnEvents(run) && AllBooks(run) && StageOf(run.phase, Heading(run).stage)
  }

  // ----- the log grows at its end ----------------------------------------------------------------

  lemma TakeSnoc(log: seq<Entry>, e: Entry, approval: bool, sections: seq<PlanSection>)
    ensures TakeAll(log + [e], approval, sections) == Take(TakeAll(log, approval, sections), e, approval, sections)
  {
    assert (log + [e])[..|log|] == log;
  }

  lemma MainsOne(d: Payload)
    ensures Mains([d]) == [Entry(Main, d)]
  {
  }

  /** Emitting a pending event changes nothing of where the run is heading. */
  lemma EmitHeading(run: Run)
    requires run.pending != []
    ensures Heading(run.(log := run.log + [Entry(Main, run.pending[0])], pending := run.pending[1..])) == Heading(run)
  {
    assert run.log + [Entry(Main, run.pending[0])] + Mains(run.pending[1..]) == run.log + Mains(run.pending);
  }

  /** Before research starts the sections do not matter to the language. */
  lemma {:induction false} EarlySame(log: seq<Entry>, approval: bool, s: seq<PlanSection>, u: seq<PlanSection>)
    requires Early(TakeAll(log, approval, s).stage)
    ensures TakeAll(log, approval, u) == TakeAll(log, approval, s)
  {
    if log != [] {
      var w := TakeAll(log[..|log| - 1], approval, s);
      assert Early(w.stage);
      EarlySame(log[..|log| - 1], approval, s, u);
    }
  }

  /** A log whose continuation is in order is in order. */
  lemma {:induction false} PrefixStage(log: seq<Entry>, more: seq<Entry>, approval: bool, sections: seq<PlanSection>)
    requires TakeAll(log + more, approval, sections).stage != Wrong
    ensures TakeAll(log, approval, sections).stage != Wrong
    ensures TakeAll(log + more, approval, sections).stage != Errored ==> TakeAll(log, approval, sections).stage != Errored
  {
    if more == [] {
      assert log + more == log;
    } else {
      var init := more[..|more| - 1];
      assert (log + more)[..|log + more| - 1] == log + init;
      PrefixStage(log, init, approval, sections);
    }
  }

  // ----- each action keeps it -----------------------------------------------------------------------

  lemma OwnEventsMain(run: Run, e: Entry)
    requires OwnEvents(run) && e.owner.Main?
    ensures forall k: nat :: EventsOf(run.log + [e], Of(k)) == TraceOf(run, k)
  {
    forall k: nat | true
      ensures EventsOf(run.log + [e], Of(k)) == TraceOf(run, k)
    {
      EventsOfSnoc(run.log, e, Of(k));
      assert EventsOf(run.log, Of(k)) + [] == EventsOf(run.log, Of(k));
    }
  }

  /** The heading depends on the log, the pending events, the approval setting and the sections only. */
  lemma SameHeading(run: Run, other: Run)
    requires run.log == other.log && run.pending == other.pending
    requires run.approval == other.approval && run.sections == other.sections
    ensures Heading(run) == Heading(other)
  {
  }

  lemma EmitMainKeeps(run: Run)
    requires LanguageOk(run) && Enabled(run, EmitMain)
    ensures LanguageOk(Next(run, EmitMain))
  {
    hide TakeAll, EventsOf, BooksOk, Heading;
    EmitHeading(run);
    OwnEventsMain(run, Entry(Main, run.pending[0]));
  }

  /** Queueing one engine event when none is pending. */
  lemma Queue(run: Run, d: Payload)
    requires run.pending == []
    ensures Heading(run.(pending := [d])) == Take(Heading(run), Entry(Main, d), run.approval, run.sections)
  {
    MainsOne(d);
    assert run.log + Mains([]) == run.log;
    TakeSnoc(run.log, Entry(Main, d), run.approval, run.sections);
  }

  lemma QueueTwo(run: Run, d: Payload, e: Payload)
    requires run.pending == []
    ensures Heading(run.(pending := [d, e]))
         == Take(Take(Heading(run), Entry(Main, d), run.approval, run.sections), Entry(Main, e), run.approval, run.sections)
  {
    hide Take;
    Queue(run, d);
    assert run.log + Mains([d, e]) == run.log + Mains([d]) + [Entry(Main, e)];
    TakeSnoc(run.log + Mains([d]), Entry(Main, e), run.approval, run.sections);
  }

  lemma PlanKeeps(run: Run, a: Action)
    requires LanguageOk(run) && a.PlanReady? && Enabled(run, a)
    ensures LanguageOk(Next(run, a))
  {
    hide TakeAll, EventsOf, BooksOk;
    var at := run.(sections := a.plan);
    assert run.log + Mains([]) == run.log;
    EarlySame(run.log, run.approval, run.sections, a.plan);
    var plan := Plan(a.brief, a.plan);
    if run.approval {
      QueueTwo(at, plan, AwaitingPlan);
      assert [plan] + [AwaitingPlan] == [plan, AwaitingPlan];
    } else {
      Queue(at, plan);
      assert [plan] + [] == [plan];
    }
  }

  lemma ApproveKeeps(run: Run, a: Action)
    requires LanguageOk(run) && a.Approve? && Enabled(run, a)
    ensures LanguageOk(Next(run, a))
  {
    hide TakeAll, EventsOf, BooksOk;
    EarlySame(run.log + Mains(run.pending), run.approval, run.sections, Next(run, a).sections);
  }

  lemma LaunchKeeps(run: Run, a: Action)
    requires LanguageOk(run) && a.Launch? && Enabled(run, a)
    ensures LanguageOk(Next(run, a))
  {
    hide TakeAll, EventsOf, BooksOk, Heading;
    var after := Next(run, a);
    Queue(run, RESEARCHING);
    SameHeading(after, run.(pending := [RESEARCHING]));
    forall k | 0 <= k < |after.tasks|
      ensures BooksOk(after.tasks[k], run.maxIters)
    {
      NewBooks(run.sections[k], run.maxIters);
    }
  }

  lemma TaskEmitStage(run: Run, a: Action)
    requires LanguageOk(run) && a.TaskEmit? && Enabled(run, a)
    ensures StageOf(Next(run, a).phase, Heading(Next(run, a)).stage)
  {
    hide TakeAll, BooksOk, EventsOf;
    var after := Next(run, a);
    assert run.log + Mains([]) == run.log && after.log + Mains([]) == after.log;
    TakeSnoc(run.log, Entry(Of(a.k), run.tasks[a.k].pending[0]), run.approval, run.sections);
    ShapesAreTheSections(run.log, run.approval, run.sections, a.k);
  }

  lemma TaskEmitKeeps(run: Run, a: Action)
    requires LanguageOk(run) && a.TaskEmit? && Enabled(run, a)
    ensures LanguageOk(Next(run, a))
  {
    hide TakeAll, BooksOk, EventsOf, Heading;
    var t, after := run.tasks[a.k], Next(run, a);
    var e := Entry(Of(a.k), t.pending[0]);
    EmitBooks(t, run.maxIters);
    forall k: nat | true
      ensures EventsOf(after.log, Of(k)) == TraceOf(after, k)
    {
      EventsOfSnoc(run.log, e, Of(k));
      assert EventsOf(run.log, Of(k)) + [] == EventsOf(run.log, Of(k));
    }
    TaskEmitStage(run, a);
  }

  lemma StepKeepsTrace(t: Task, r: R.Registry, input: Input, maxIters: nat)
    requires Ready(t, input)
    ensures Step(t, r, input, maxIters).trace == t.trace && Step(t, r, input, maxIters).section == t.section
  {
    hide CountFor, FollowUps, NotesOf;
  }

  lemma TaskStepKeeps(run: Run, a: Action)
    requires LanguageOk(run) && a.TaskStep? && Enabled(run, a)
    ensures LanguageOk(Next(run, a))
  {
    hide TakeAll, BooksOk, EventsOf, Step, Register, IdsFresh, AddsSource;
    var t, after := run.tasks[a.k], Next(run, a);
    StepBooks(t, run.registry, a.input, run.maxIters);
    StepKeepsTrace(t, run.registry, a.input, run.maxIters);
    assert forall k: nat :: TraceOf(after, k) == TraceOf(run, k);
    assert Heading(after) == Heading(run);
  }

  /** When every section is over, every shape is closed. */
  lemma AllClosed(run: Run)
    requires LanguageOk(run) && run.phase.Researching? && run.pending == [] && forall t :: t in run.tasks ==> Over(t)
    ensures forall s :: s in Heading(run).shapes ==> s == Closed
  {
    hide TakeAll, EventsOf, FollowAll;
    assert run.log + Mains([]) == run.log;
    forall s | s in Heading(run).shapes
      ensures s == Closed
    {
      var k :| 0 <= k < |Heading(run).shapes| && Heading(run).shapes[k] == s;
      ShapesAreTheSections(run.log, run.approval, run.sections, k);
      var t := run.tasks[k];
      assert t in run.tasks && Over(t) && BooksOk(t, run.maxIters);
      assert Told(t) == t.trace;
      assert EventsOf(run.log, Of(k)) == TraceOf(run, k);
    }
  }

  lemma JoinKeeps(run: Run, a: Action)
    requires LanguageOk(run) && a.Join? && Enabled(run, a)
    ensures LanguageOk(Next(run, a))
  {
    AllClosed(run);
    var after := Next(run, a);
    assert after == run.(pending := [WRITING], phase := Writing);
    assert forall t :: t in run.tasks ==> Over(t);
    assert Heading(run).stage.Research?;
    hide Next, Enabled, Over, Heading, TasksOk, OwnEvents, AllBooks;
    JoinHeads(run, after);
    JoinTasks(run, after);
    SameBooks(run, after);
  }

  lemma SameBooks(run: Run, after: Run)
    requires OwnEvents(run) && AllBooks(run) && after.log == run.log && after.tasks == run.tasks && after.maxIters == run.maxIters
    ensures OwnEvents(after) && AllBooks(after)
  {
    hide EventsOf, BooksOk;
    assert forall k: nat :: TraceOf(after, k) == TraceOf(run, k);
  }

  lemma JoinTasks(run: Run, after: Run)
    requires TasksOk(run) && run.phase.Researching? && forall t :: t in run.tasks ==> Over(t)
    requires after == run.(pending := [WRITING], phase := Writing)
    ensures TasksOk(after)
  {
    hide Over;
  }

  lemma JoinHeads(run: Run, after: Run)
    requires run.pending == [] && after == run.(pending := [WRITING], phase := Writing)
    requires Heading(run).stage.Research? && forall s :: s in Heading(run).shapes ==> s == Closed
    ensures Heading(after).stage.Drafting?
  {
    hide TakeAll, Heading;
    Queue(run, WRITING);
    SameHeading(after, run.(pending := [WRITING]));
  }

  lemma WriteKeeps(run: Run, a: Action)
    requires LanguageOk(run) && (a.Delta? || a.Written?) && Enabled(run, a)
    ensures LanguageOk(Next(run, a))
  {
    hide TakeAll, BooksOk, EventsOf, Heading, TrustOf;
    var after := Next(run, a);
    if a.Delta? {
      Queue(run, ReportDelta(a.text));
    } else {
      QueueTwo(run, LastEvents(run, a.markdown, a.title)[0], LastEvents(run, a.markdown, a.title)[1]);
    }
    SameHeading(after, run.(pending := after.pending));
  }

  lemma AbortKeeps(run: Run, a: Action)
    requires LanguageOk(run) && a.Abort? && Enabled(run, a)
    ensures LanguageOk(Next(run, a))
  {
    hide TakeAll, BooksOk, EventsOf;
    var bare := run.(pending := []);
    PrefixStage(run.log, Mains(run.pending), run.approval, run.sections);
    assert run.log + Mains([]) == run.log;
    Queue(bare, Payload.Failed(a.message));
  }

  lemma ReturnKeeps(run: Run, a: Action)
    requires LanguageOk(run) && (a.Return? || a.TaskFail?) && Enabled(run, a)
    ensures LanguageOk(Next(run, a))
  {
    hide TakeAll, BooksOk, EventsOf;
    assert Heading(Next(run, a)) == Heading(run);
    assert forall k: nat :: TraceOf(Next(run, a), k) == TraceOf(run, k);
  }

  lemma NextLanguage(run: Run, a: Action)
    requires LanguageOk(run)
    ensures LanguageOk(Next(run, a))
  {
    hide LanguageOk, Enabled, Effect;
    if Enabled(run, a) {
      match a
      case EmitMain => EmitMainKeeps(run);
      case PlanReady(_, _) => PlanKeeps(run, a);
      case Approve(_) => ApproveKeeps(run, a);
      case Launch => LaunchKeeps(run, a);
      case TaskEmit(_) => TaskEmitKeeps(run, a);
      case TaskStep(_, _) => TaskStepKeeps(run, a);
      case Join => JoinKeeps(run, a);
      case Delta(_) => WriteKeeps(run, a);
      case Written(_, _) => WriteKeeps(run, a);
      case Abort(_) => AbortKeeps(run, a);
      case TaskFail(_) => ReturnKeeps(run, a);
      case Return => ReturnKeeps(run, a);
    }
  }

  lemma StartLanguage(approval: bool, maxIters: nat)
    ensures LanguageOk(NewRun(approval, maxIters))
  {
    var run := NewRun(approval, maxIters);
    MainsOne(PLANNING);
    TakeSnoc([], Entry(Main, PLANNING), approval, []);
    assert [] + [Entry(Main, PLANNING)] == [Entry(Main, PLANNING)];
    forall k: nat | true
      ensures EventsOf([], Of(k)) == []
    {
    }
  }

  lemma {:induction false} RunLanguage(run: Run, actions: seq<Action>)
    requires LanguageOk(run)
    ensures LanguageOk(RunAll(run, actions))
    decreases |actions|
  {
    hide LanguageOk, Next;
    if actions != [] {
      NextLanguage(run, actions[0]);
      RunLanguage(Next(run, actions[0]), actions[1..]);
    }
  }

  // ----- what that means ----------------------------------------------------------------------------------

  /** What a section holds of its language. */
  lemma SectionPartial(t: Task, maxIters: nat)
    requires BooksOk(t, maxIters)
    ensures PartialTrace(t.trace, t.section.id)
    ensures Over(t) ==> CompleteTrace(t.trace, t.section.id)
  {
    hide FollowAll;
    assert FollowAll(Unborn, Told(t), t.section.id) != Broken;
    PartialPrefix(t.trace, t.pending, t.section.id);
    assert t.pending == [] ==> Told(t) == t.trace;
  }

  lemma NothingFollowed(id: string)
    ensures FollowAll(Unborn, [], id) == Unborn
  {
  }

  lemma LogInLanguage(run: Run)
    requires LanguageOk(run)
    ensures InLanguage(run.log, run.approval, run.sections)
  {
    hide TakeAll, EventsOf, FollowAll, BooksOk;
    PrefixStage(run.log, Mains(run.pending), run.approval, run.sections);
    var w := TakeAll(run.log, run.approval, run.sections);
    forall s | s in w.shapes
      ensures s != Broken
    {
      var k :| 0 <= k < |w.shapes| && w.shapes[k] == s;
      ShapesAreTheSections(run.log, run.approval, run.sections, k);
      assert EventsOf(run.log, Of(k)) == TraceOf(run, k);
      if k < |run.tasks| {
        SectionPartial(run.tasks[k], run.maxIters);
      } else {
        NothingFollowed(run.sections[k].id);
      }
    }
  }

  /**
   * Under every interleaving of the sections and every failure, the log keeps to the language, and each
   * section's own events are the beginning of one section's language.
   */
  lemma EveryLogIsInLanguage(approval: bool, maxIters: nat, actions: seq<Action>)
    ensures var run := RunAll(NewRun(approval, maxIters), actions);
            && InLanguage(run.log, run.approval, run.sections)
            && forall k :: 0 <= k < |run.tasks| ==>
                 k < |run.sections| && PartialTrace(EventsOf(run.log, Of(k)), run.sections[k].id)
  {
    hide InLanguage, EventsOf, BooksOk;
    StartLanguage(approval, maxIters);
    RunLanguage(NewRun(approval, maxIters), actions);
    var run := RunAll(NewRun(approval, maxIters), actions);
    LogInLanguage(run);
    forall k | 0 <= k < |run.tasks|
      ensures k < |run.sections| && PartialTrace(EventsOf(run.log, Of(k)), run.sections[k].id)
    {
      SectionPartial(run.tasks[k], run.maxIters);
      assert EventsOf(run.log, Of(k)) == TraceOf(run, k);
    }
  }

  /** A run that completes has been through the whole language, every section included. */
  lemma CompletedLogIsWhole(approval: bool, maxIters: nat, actions: seq<Action>)
    requires RunAll(NewRun(approval, maxIters), actions).phase.Completed?
    ensures var run := RunAll(NewRun(approval, maxIters), actions);
            && TakeAll(run.log, run.approval, run.sections).stage == Finished
            && |run.tasks| == |run.sections|
            && forall k :: 0 <= k < |run.sections| ==> CompleteTrace(EventsOf(run.log, Of(k)), run.sections[k].id)
  {
    hide TakeAll, EventsOf, BooksOk;
    StartLanguage(approval, maxIters);
    RunLanguage(NewRun(approval, maxIters), actions);
    var run := RunAll(NewRun(approval, maxIters), actions);
    assert run.log + Mains([]) == run.log;
    forall k | 0 <= k < |run.sections|
      ensures CompleteTrace(EventsOf(run.log, Of(k)), run.sections[k].id)
    {
      assert run.tasks[k] in run.tasks;
      SectionPartial(run.tasks[k], run.maxIters);
      assert EventsOf(run.log, Of(k)) == TraceOf(run, k);
    }
  }

  /** A run that fails has emitted a beginning of the language and then one error, which is last. */
  lemma AbortedLogEndsInOneError(approval: bool, maxIters: nat, actions: seq<Action>)
    requires RunAll(NewRun(approval, maxIters), actions).phase.Aborted?
    ensures var run := RunAll(NewRun(approval, maxIters), actions);
            && run.log != [] && run.log[|run.log| - 1].owner.Main? && run.log[|run.log| - 1].data.Failed?
            && InLanguage(run.log[..|run.log| - 1], run.approval, run.sections)
            && forall i :: 0 <= i < |run.log| - 1 && run.log[i].owner.Main? ==> !run.log[i].data.Failed?
  {
    hide EventsOf, BooksOk, InLanguage;
    StartLanguage(approval, maxIters);
    RunLanguage(NewRun(approval, maxIters), actions);
    var run := RunAll(NewRun(approval, maxIters), actions);
    LogInLanguage(run);
    assert run.log + Mains([]) == run.log;
    hide TakeAll;
    ErrorIsLast(run.log, run.approval, run.sections);
  }

  lemma ErrorIsLast(log: seq<Entry>, approval: bool, sections: seq<PlanSection>)
    requires InLanguage(log, approval, sections) && TakeAll(log, approval, sections).stage.Errored?
    ensures log != [] && log[|log| - 1].owner.Main? && log[|log| - 1].data.Failed?
    ensures InLanguage(log[..|log| - 1], approval, sections)
    ensures forall i :: 0 <= i < |log| - 1 && log[i].owner.Main? ==> !log[i].data.Failed?
  {
    NoErrorBefore(log[..|log| - 1], approval, sections);
  }

  lemma {:induction false} NoErrorBefore(log: seq<Entry>, approval: bool, sections: seq<PlanSection>)
    requires TakeAll(log, approval, sections).stage != Wrong && TakeAll(log, approval, sections).stage != Errored
    ensures forall i :: 0 <= i < |log| && log[i].owner.Main? ==> !log[i].data.Failed?
  {
    if log != [] {
      TakesNoError(TakeAll(log[..|log| - 1], approval, sections), log[|log| - 1], approval, sections);
      hide Take;
      NoErrorBefore(log[..|log| - 1], approval, sections);
    }
  }

  lemma TakesNoError(w: Whole, e: Entry, approval: bool, sections: seq<PlanSection>)
    requires var stage := Take(w, e, approval, sections).stage; stage != Wrong && stage != Errored
    ensures w.stage != Wrong && w.stage != Errored && (e.owner.Main? ==> !e.data.Failed?)
  {
  }
}
