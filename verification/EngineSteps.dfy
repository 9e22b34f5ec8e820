/** What each of the engine's own actions does, and what the plan and a failing section mean for the run (model: Engine.dfy). */
module EngineSteps {
  import opened Common
  import opened Wire
  import opened Findings
  import opened Trust
  import opened Section
  import opened Engine
  import R = Registry

  // ----- single actions ---------------------------------------------------------------------------

  /** The plan is told as it is; what is researched is the plan, unless it goes to the user first. */
  lemma PlanIsTold(run: Run, brief: string, plan: seq<PlanSection>)
    requires Enabled(run, PlanReady(brief, plan))
    ensures var after := Next(run, PlanReady(brief, plan));
            && after.sections == plan && after.log == run.log
            && (run.approval ==> after.phase.Approving? && after.pending == [Plan(brief, plan), AwaitingPlan])
            && (!run.approval ==> after.phase.Launching? && after.pending == [Plan(brief, plan)])
  {
  }

  /** The user's sections replace the plan's, if there are any. */
  lemma UserDecides(run: Run, approved: seq<PlanSection>)
    requires Enabled(run, Approve(approved))
    ensures var after := Next(run, Approve(approved));
            && after.phase.Launching? && after.pending == []
            && (approved != [] ==> after.sections == approved)
            && (approved == [] ==> after.sections == run.sections)
  {
  }

  /** One task for each section, in order, none of which has done anything. */
  lemma EachSectionStarts(run: Run)
    requires Enabled(run, Launch)
    ensures var after := Next(run, Launch);
            && after.phase.Researching? && after.pending == [Status("researching", "Researching sections")]
            && |after.tasks| == |run.sections|
            && forall k :: 0 <= k < |after.tasks| ==>
                 && after.tasks[k].section == run.sections[k] && after.tasks[k].pc.Waiting?
                 && after.tasks[k].pending == [] && after.tasks[k].seen == [] && after.tasks[k].claims == [] && after.tasks[k].round == 0
  {
  }

  /** Writing starts if and only if every section has returned and told all it had to tell, and none has failed. */
  lemma JoinIff(run: Run)
    requires run.phase.Researching? && run.pending == []
    ensures Enabled(run, Join) <==>
              run.down == {} && forall k :: 0 <= k < |run.tasks| ==> run.tasks[k].pc.Returned? && run.tasks[k].pending == []
    ensures Enabled(run, Join) ==>
              Next(run, Join).phase.Writing? && Next(run, Join).pending == [Status("writing", "Writing report")]
  {
    assert forall k :: 0 <= k < |run.tasks| ==> run.tasks[k] in run.tasks;
  }

  /** The piece of report text streamed is told as it is. */
  lemma DeltaIsTold(run: Run, text: string)
    requires Enabled(run, Delta(text))
    ensures Next(run, Delta(text)).pending == [ReportDelta(text)] && Next(run, Delta(text)).phase.Writing?
  {
  }

  function Each<T>(tasks: seq<Task>, part: Task -> seq<T>): (r: seq<seq<T>>)
    ensures |r| == |tasks| && forall k :: 0 <= k < |r| ==> r[k] == part(tasks[k])
  {
    seq(|tasks|, k requires 0 <= k < |tasks| => part(tasks[k]))
  }

  lemma EachSnoc<T>(tasks: seq<Task>, part: Task -> seq<T>)
    requires tasks != []
    ensures Flatten(Each(tasks, part)) == Flatten(Each(tasks[..|tasks| - 1], part)) + part(tasks[|tasks| - 1])
  {
    assert Each(tasks, part) == Each(tasks[..|tasks| - 1], part) + [part(tasks[|tasks| - 1])];
    FlattenSnoc(Each(tasks[..|tasks| - 1], part), part(tasks[|tasks| - 1]));
  }

  function ClaimsIn(t: Task): seq<Claim> {
    t.claims
  }

  function VerdictsIn(t: Task): seq<Verification> {
    t.verifs
  }

  function ConflictsIn(t: Task): seq<Contradiction> {
    t.conflicts
  }

  /** All the sections' claims, verdicts and contradictions, section by section in plan order. */
  lemma {:induction false} GatheredInOrder(tasks: seq<Task>)
    ensures ClaimsOf(tasks) == Flatten(Each(tasks, ClaimsIn))
    ensures VerifsOf(tasks) == Flatten(Each(tasks, VerdictsIn))
    ensures ConflictsOf(tasks) == Flatten(Each(tasks, ConflictsIn))
  {
    if tasks != [] {
      GatheredInOrder(tasks[..|tasks| - 1]);
      EachSnoc(tasks, ClaimsIn);
      EachSnoc(tasks, VerdictsIn);
      EachSnoc(tasks, ConflictsIn);
      hide Flatten, Each;
    }
  }

  /** The report goes out whole, and then the end; both carry the trust summary if and only if something was claimed. */
  lemma ReportIsTold(run: Run, markdown: string, title: string)
    requires Enabled(run, Written(markdown, title))
    ensures var after, trust := Next(run, Written(markdown, title)), TrustOf(run.tasks);
            && after.phase.Finishing?
            && after.pending == [Report(markdown, title, trust), Done(title, |run.registry.sources|, trust)]
            && (trust.Some? <==> exists k :: 0 <= k < |run.tasks| && run.tasks[k].claims != [])
            && (trust.Some? ==>
                  trust.value == Tally(ServerLevels(ClaimsOf(run.tasks), VerifsOf(run.tasks)), |ConflictsOf(run.tasks)|))
  {
    ClaimedSomething(run.tasks);
  }

  lemma {:induction false} ClaimedSomething(tasks: seq<Task>)
    ensures ClaimsOf(tasks) != [] <==> exists k :: 0 <= k < |tasks| && tasks[k].claims != []
  {
    if tasks != [] {
      var n := |tasks| - 1;
      ClaimedSomething(tasks[..n]);
      if k :| 0 <= k < n && tasks[k].claims != [] {
        assert tasks[..n][k].claims != [];
      }
      if k :| 0 <= k < n && tasks[..n][k].claims != [] {
        assert tasks[k].claims != [];
      }
    }
  }

  /** An exception is told as one error and ends the run, as far as it had come; nothing is told after. */
  lemma FailureIsTold(run: Run, message: string)
    requires Enabled(run, Abort(message))
    ensures var after := Next(run, Abort(message));
            && after.phase.Failing? && after.pending == [Payload.Failed(message)] && after.log == run.log
            && var told := Next(after, EmitMain);
               && told.log == run.log + [Entry(Main, Payload.Failed(message))]
               && Enabled(told, Return) && Next(told, Return).phase.Aborted?
  {
  }

  /** A section that raises is down for good, the sections cannot be joined any more, and the error is the engine's to tell. */
  lemma SectionRaises(run: Run, k: nat, message: string)
    requires Enabled(run, TaskFail(k))
    ensures var after := Next(run, TaskFail(k));
            && after.down == run.down + {k} && after.tasks == run.tasks && after.log == run.log
            && !Enabled(after, Join) && Enabled(after, Abort(message))
            && !Enabled(run.(down := {}), Abort(message))
  {
  }

  /** The oldest event waiting is the next one in the log, the engine's own or a section's, under its owner. */
  lemma OldestIsNext(run: Run, k: nat)
    ensures Enabled(run, EmitMain) ==>
              var after := Next(run, EmitMain);
              && after.log == run.log + [Entry(Main, run.pending[0])] && after.pending == run.pending[1..]
              && after.tasks == run.tasks && after.phase == run.phase
    ensures Enabled(run, TaskEmit(k)) ==>
              var after := Next(run, TaskEmit(k));
              && after.log == run.log + [Entry(Of(k), run.tasks[k].pending[0])]
              && after.tasks[k].pending == run.tasks[k].pending[1..]
              && (forall j :: 0 <= j < |run.tasks| && j != k ==> after.tasks[j] == run.tasks[j])
              && after.pending == [] && after.phase == run.phase
  {
  }

  /** With nothing left to tell, a run that wrote its report is completed, and one that failed is over without. */
  lemma RunReturns(run: Run)
    requires Enabled(run, Return)
    ensures Next(run, Return).phase.Completed? <==> run.phase.Finishing?
    ensures Next(run, Return).phase.Aborted? <==> run.phase.Failing?
    ensures Next(run, Return).log == run.log
  {
  }

  /** Nothing follows the end of a run. */
  lemma OverIsOver(run: Run, a: Action)
    requires (run.phase.Completed? || run.phase.Aborted?) && run.pending == []
    ensures Next(run, a) == run
  {
  }

  /** A section that failed takes no further step and tells nothing more. */
  lemma FailedSectionStops(run: Run, k: nat, input: Input)
    requires k in run.down
    ensures Next(run, TaskEmit(k)) == run && Next(run, TaskStep(k, input)) == run
    ensures forall a :: Enabled(run, a) ==> k in Next(run, a).down
  {
  }

  // ----- whole runs -----------------------------------------------------------------------------------

  /** The plan told, in the log or on its way there, is the one researched. */
  ghost predicate ToldPlan(run: Run, sections: seq<PlanSection>) {
    && (forall e :: e in run.log && e.data.Plan? ==> e.data.sections == sections)
    && (forall d :: d in run.pending && d.Plan? ==> d.sections == sections)
  }

  predicate Joined(phase: Phase) {
    phase.Writing? || phase.Finishing? || phase.Completed?
  }

  ghost predicate PlanOk(run: Run) {
    && (run.phase.Planning? ==> (forall e :: e in run.log ==> !e.data.Plan?) && (forall d :: d in run.pending ==> !d.Plan?))
    && (!run.approval ==> ToldPlan(run, run.sections) && !run.phase.Approving?)
    && (run.phase.Planning? || run.phase.Approving? || run.phase.Launching? ==> run.tasks == [])
    && (run.phase.Researching? || Joined(run.phase) ==> |run.tasks| == |run.sections|)
    && |run.tasks| <= |run.sections|
    && (forall k :: 0 <= k < |run.tasks| ==> run.tasks[k].section == run.sections[k])
    && (forall k, d :: 0 <= k < |run.tasks| && d in run.tasks[k].pending ==> !d.Plan?)
    && (Joined(run.phase) ==> run.down == {})
    && (run.phase.Planning? || run.phase.Approving? || run.phase.Launching? ==> run.down == {})
  }

  lemma SameSection(t: Task, r: R.Registry, input: Input, maxIters: nat)
    requires Ready(t, input)
    ensures Step(t, r, input, maxIters).section == t.section
    ensures forall d :: d in Step(t, r, input, maxIters).pending ==> !d.Plan?
  {
  }

  lemma TaskPlan(run: Run, a: Action)
    requires PlanOk(run) && Enabled(run, a) && (a.TaskStep? || a.TaskEmit? || a.TaskFail?)
    ensures PlanOk(Next(run, a)) && Next(run, a).approval == run.approval
  {
    hide Step, Register, AddsSource, IdsFresh, IdSet, ConflictIdSet;
    match a {
      case TaskStep(k, input) => SameSection(run.tasks[k], run.registry, input, run.maxIters);
      case TaskEmit(k) => assert run.tasks[k].pending[0] in run.tasks[k].pending;
      case _ =>
    }
  }

  lemma EmitPlan(run: Run)
    requires PlanOk(run) && Enabled(run, EmitMain)
    ensures PlanOk(Next(run, EmitMain)) && Next(run, EmitMain).approval == run.approval
  {
    assert run.pending[0] in run.pending;
  }

  lemma NextPlan(run: Run, a: Action)
    requires PlanOk(run)
    ensures PlanOk(Next(run, a)) && Next(run, a).approval == run.approval
  {
    hide Step, IdsFresh, TrustOf, CountFor;
    if Enabled(run, a) {
      if a.TaskStep? || a.TaskEmit? || a.TaskFail? {
        TaskPlan(run, a);
      } else if a.EmitMain? {
        EmitPlan(run);
      }
    }
  }

  lemma {:induction false} RunPlan(run: Run, actions: seq<Action>)
    requires PlanOk(run)
    ensures PlanOk(RunAll(run, actions)) && RunAll(run, actions).approval == run.approval
    decreases |actions|
  {
    hide PlanOk, Next;
    if actions != [] {
      NextPlan(run, actions[0]);
      RunPlan(Next(run, actions[0]), actions[1..]);
    }
  }

  /** Without approval, what is researched in any run is the plan it told, a task for each section in order. */
  lemma PlanIsResearched(maxIters: nat, actions: seq<Action>)
    ensures var run := RunAll(NewRun(false, maxIters), actions);
            && (forall e :: e in run.log && e.data.Plan? ==> e.data.sections == run.sections)
            && (run.phase.Researching? || Joined(run.phase) ==>
                  && |run.tasks| == |run.sections|
                  && forall k :: 0 <= k < |run.tasks| ==> run.tasks[k].section == run.sections[k])
  {
    RunPlan(NewRun(false, maxIters), actions);
  }

  /** A run one of whose sections failed never writes a report: however it goes on, it can only end in an error. */
  lemma FailedSectionFailsRun(approval: bool, maxIters: nat, actions: seq<Action>)
    ensures var run := RunAll(NewRun(approval, maxIters), actions);
            run.down != {} ==> run.phase.Researching? || run.phase.Failing? || run.phase.Aborted?
  {
    RunPlan(NewRun(approval, maxIters), actions);
  }
}
