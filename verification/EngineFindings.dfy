/**
 * What every run keeps, however its sections interleave: one registry entry and one mining per url, claims that quote
 * their page and cite its source, ids that never clash, one verdict per claim in the claims' order.
 */
module EngineFindings {
  import opened Common
  import opened Wire
  import opened Findings
  import opened Section
  import opened SectionBooks
  import opened Engine
  import G = Grounding
  import C = Contradictions
  import V = Verifier
  import R = Registry
  import Text

  function FoundOf(tasks: seq<Task>): seq<Source> {
    if tasks == [] then [] else FoundOf(tasks[..|tasks| - 1]) + tasks[|tasks| - 1].found
  }

  function MinedOf(tasks: seq<Task>): seq<Source> {
    if tasks == [] then [] else MinedOf(tasks[..|tasks| - 1]) + tasks[|tasks| - 1].mined
  }

  /** What the sections found, together, is what is registered. */
  ghost predicate SourcesOk(run: Run) {
    && R.Consistent(run.registry) && |run.texts| == |run.registry.sources|
    && multiset(FoundOf(run.tasks)) == multiset(run.registry.sources)
  }

  /** The claim cites one registered source and quotes words of its page. */
  ghost predicate ClaimOk(c: Claim, texts: seq<string>) {
    && |c.sourceIds| == 1 && 0 < c.sourceIds[0] <= |texts|
    && G.Norm(c.quote) != "" && Text.Contains(G.Norm(texts[c.sourceIds[0] - 1]), G.Norm(c.quote))
  }

  ghost predicate TaskGrounded(t: Task, texts: seq<string>) {
    && (forall c :: c in AllClaims(t) ==> ClaimOk(c, texts))
    && (t.pc.Extracting? ==> 0 < t.pc.source.id <= |texts| && texts[t.pc.source.id - 1] == t.pc.page.text)
  }

  ghost predicate Grounded(run: Run) {
    forall k :: 0 <= k < |run.tasks| ==> TaskGrounded(run.tasks[k], run.texts)
  }

  /** No id is given to two claims, or to two contradictions. */
  ghost predicate IdsOk(run: Run) {
    && (forall k :: 0 <= k < |run.tasks| ==>
          && DistinctIds(AllClaims(run.tasks[k])) && IdSet(AllClaims(run.tasks[k])) <= run.claimIds
          && DistinctConflictIds(run.tasks[k].conflicts) && ConflictIdSet(run.tasks[k].conflicts) <= run.conflictIds)
    && (forall k, l :: 0 <= k < l < |run.tasks| ==>
          && IdSet(AllClaims(run.tasks[k])) !! IdSet(AllClaims(run.tasks[l]))
          && ConflictIdSet(run.tasks[k].conflicts) !! ConflictIdSet(run.tasks[l].conflicts))
  }

  ghost predicate NoTasksYet(run: Run) {
    run.phase.Planning? || run.phase.Approving? || run.phase.Launching? ==> run.tasks == []
  }

  ghost predicate FindingsOk(run: Run) {
    SourcesOk(run) && Grounded(run) && IdsOk(run) && NoTasksYet(run)
  }

  // ----- one section's step -------------------------------------------------------------------

  lemma ClaimsAfterExtraction(t: Task, r: R.Registry, input: Input, maxIters: nat)
    requires Ready(t, input) && t.pc.Extracting?
    ensures AllClaims(Step(t, r, input, maxIters)) == AllClaims(t) + Extracted(Step(t, r, input, maxIters).pc)
  {
    hide PageClaims;
    var after := Step(t, r, input, maxIters);
    assert after.claims == t.claims && after.roundClaims == t.roundClaims && Going(after.pc);
    hide Step;
    assert AllClaims(t) == t.claims + t.roundClaims + [];
  }

  lemma ClaimsAfterVerification(t: Task, r: R.Registry, input: Input, maxIters: nat)
    requires Ready(t, input) && t.pc.Verifying?
    ensures AllClaims(Step(t, r, input, maxIters)) == AllClaims(t)
  {
    hide V.Verdicts;
    var after := Step(t, r, input, maxIters);
    assert after.claims == t.claims && after.roundClaims == t.roundClaims + t.pc.extracted && after.pc.NextPage?;
    hide Step;
    assert AllClaims(after) == t.claims + (t.roundClaims + t.pc.extracted) + [];
  }

  lemma ClaimsAfterConclusion(t: Task, r: R.Registry, input: Input, maxIters: nat)
    requires Ready(t, input) && t.pc.Concluding?
    ensures AllClaims(Step(t, r, input, maxIters)) == AllClaims(t)
  {
    hide C.Detected, NotesOf;
  }

  /** Claims are added by extraction only. */
  lemma AllClaimsStep(t: Task, r: R.Registry, input: Input, maxIters: nat)
    requires Ready(t, input)
    ensures AllClaims(Step(t, r, input, maxIters)) == AllClaims(t) + Extracted(if t.pc.Extracting? then Step(t, r, input, maxIters).pc else Waiting)
  {
    hide Step, AllClaims;
    var claims := AllClaims(t);
    assert claims + [] == claims;
    if t.pc.Extracting? {
      ClaimsAfterExtraction(t, r, input, maxIters);
    } else if t.pc.Verifying? {
      ClaimsAfterVerification(t, r, input, maxIters);
    } else if t.pc.Concluding? {
      ClaimsAfterConclusion(t, r, input, maxIters);
    } else {
      PlainStep(t, r, input, maxIters);
    }
  }

  lemma FoundStepIs(t: Task, r: R.Registry, input: Input, maxIters: nat)
    requires Ready(t, input)
    ensures Step(t, r, input, maxIters).found == t.found + if AddsSource(t, r) then [Register(t, r).sources[|r.sources|]] else []
    ensures Register(t, r).sources == r.sources + if AddsSource(t, r) then [Register(t, r).sources[|r.sources|]] else []
    ensures AddsSource(t, r) ==> |Register(t, r).sources| == |r.sources| + 1
  {
    hide CountFor, FollowUps, C.Detected, G.Extracted, NotesOf;
  }

  lemma {:induction false} FoundOfUpdate(tasks: seq<Task>, k: nat, after: Task, more: seq<Source>)
    requires k < |tasks| && after.found == tasks[k].found + more
    ensures multiset(FoundOf(tasks[k := after])) == multiset(FoundOf(tasks)) + multiset(more)
  {
    hide FoundOf;
    var n := |tasks| - 1;
    var init, last := tasks[..n], tasks[n];
    FoundOfLast(tasks);
    FoundOfLast(tasks[k := after]);
    if k == n {
      assert tasks[k := after][..n] == init;
      MultisetOfThree(FoundOf(init), last.found, more);
    } else {
      assert tasks[k := after][..n] == init[k := after];
      FoundOfUpdate(init, k, after, more);
      MultisetOfTwo(FoundOf(init[k := after]), last.found);
      MultisetOfTwo(FoundOf(init), last.found);
    }
  }

  lemma FoundOfLast(tasks: seq<Task>)
    requires tasks != []
    ensures FoundOf(tasks) == FoundOf(tasks[..|tasks| - 1]) + tasks[|tasks| - 1].found
  {
  }

  lemma MultisetOfTwo(a: seq<Source>, b: seq<Source>)
    ensures multiset(a + b) == multiset(a) + multiset(b)
  {
  }

  lemma MultisetOfThree(a: seq<Source>, b: seq<Source>, c: seq<Source>)
    ensures multiset(a + (b + c)) == multiset(a + b) + multiset(c)
  {
    assert a + (b + c) == a + b + c;
  }

  lemma StepSources(run: Run, a: Action)
    requires SourcesOk(run) && a.TaskStep? && Enabled(run, a)
    ensures SourcesOk(Next(run, a))
  {
    hide FoundOf, Step, R.Consistent;
    var t, r := run.tasks[a.k], run.registry;
    FoundStepIs(t, r, a.input, run.maxIters);
    var more := if AddsSource(t, r) then [Register(t, r).sources[|r.sources|]] else [];
    FoundOfUpdate(run.tasks, a.k, Step(t, r, a.input, run.maxIters), more);
    assert Register(t, r).sources == r.sources + more;
    if AddsSource(t, r) {
      R.AddedConsistent(r, t.pages[0].url, t.pages[0].title, t.pages[0].snippet, t.section.id);
    }
  }

  lemma TextsGrow(c: Claim, texts: seq<string>, more: seq<string>)
    requires ClaimOk(c, texts)
    ensures ClaimOk(c, texts + more)
  {
  }

  /** Extraction yields grounded claims. */
  lemma ExtractedGrounded(t: Task, r: R.Registry, input: Input, maxIters: nat, texts: seq<string>)
    requires Ready(t, input) && t.pc.Extracting? && TaskGrounded(t, texts)
    ensures forall c :: c in Step(t, r, input, maxIters).pc.extracted ==> ClaimOk(c, texts)
  {
    var claims := Step(t, r, input, maxIters).pc.extracted;
    hide G.Extracted, G.Norm;
    forall c | c in claims
      ensures ClaimOk(c, texts)
    {
      G.ClaimsAreGrounded(input.claims.GetOr([]), t.pc.page.text, t.pc.source.id, t.section.id, input.ids, c);
    }
  }

  lemma StepOneGrounded(run: Run, a: Action)
    requires SourcesOk(run) && Grounded(run) && a.TaskStep? && Enabled(run, a)
    ensures TaskGrounded(Next(run, a).tasks[a.k], Next(run, a).texts)
  {
    hide ClaimOk, CountFor, FollowUps, C.Detected, G.Extracted, NotesOf, AllClaims;
    var t, r, after := run.tasks[a.k], run.registry, Next(run, a);
    var more := if AddsSource(t, r) then [t.pages[0].text] else [];
    assert TaskGrounded(t, run.texts);
    AllClaimsStep(t, r, a.input, run.maxIters);
    if t.pc.Extracting? {
      ExtractedGrounded(t, r, a.input, run.maxIters, run.texts);
    }
    assert after.texts == run.texts + more;
    forall c | c in AllClaims(after.tasks[a.k])
      ensures ClaimOk(c, after.texts)
    {
      assert ClaimOk(c, run.texts);
      TextsGrow(c, run.texts, more);
    }
  }

  lemma StepGrounded(run: Run, a: Action)
    requires SourcesOk(run) && Grounded(run) && a.TaskStep? && Enabled(run, a)
    ensures Grounded(Next(run, a))
  {
    StepOneGrounded(run, a);
    hide ClaimOk, AllClaims, Step;
    var after := Next(run, a);
    var t, r := run.tasks[a.k], run.registry;
    var more := if AddsSource(t, r) then [t.pages[0].text] else [];
    assert after.texts == run.texts + more;
    forall k | 0 <= k < |after.tasks| && k != a.k
      ensures TaskGrounded(after.tasks[k], after.texts)
    {
      assert TaskGrounded(run.tasks[k], run.texts);
      forall c | c in AllClaims(run.tasks[k])
        ensures ClaimOk(c, after.texts)
      {
        TextsGrow(c, run.texts, more);
      }
    }
  }

  // ----- ids --------------------------------------------------------------------------------------

  lemma IdSetAppend(a: seq<Claim>, b: seq<Claim>)
    ensures IdSet(a + b) == IdSet(a) + IdSet(b)
  {
    assert forall c :: c in a + b <==> c in a || c in b;
  }

  /** New claims under new ids keep ids distinct. */
  lemma DistinctAppend(a: seq<Claim>, b: seq<Claim>)
    requires DistinctIds(a) && DistinctIds(b) && IdSet(a) !! IdSet(b)
    ensures DistinctIds(a + b)
  {
    forall i, j | 0 <= i < j < |a + b|
      ensures (a + b)[i].id != (a + b)[j].id
    {
      if i < |a| <= j {
        assert a[i].id in IdSet(a) && b[j - |a|].id in IdSet(b);
      }
    }
  }

  lemma ExtractedIds(t: Task, r: R.Registry, input: Input, maxIters: nat, run: Run)
    requires Ready(t, input) && t.pc.Extracting? && IdsFresh(run, input)
    ensures var claims := Step(t, r, input, maxIters).pc.extracted;
            DistinctIds(claims) && IdSet(claims) !! run.claimIds
  {
    hide G.Kept, V.Verdicts, C.Detected, NotesOf, CountFor, FollowUps;
    var claims := Step(t, r, input, maxIters).pc.extracted;
    forall c | c in claims
      ensures c.id !in run.claimIds
    {
      var k :| 0 <= k < |claims| && claims[k] == c;
      assert c.id == input.ids[k];
    }
  }

  lemma {:induction false} ReportIds(pairs: seq<(Claim, Claim)>, answers: nat -> C.Answer, ids: nat -> string)
    ensures forall m :: 0 <= m < |C.Reports(pairs, answers, ids)| ==> C.Reports(pairs, answers, ids)[m].id == ids(m)
  {
    if pairs != [] {
      ReportIds(pairs[..|pairs| - 1], answers, ids);
    }
  }

  lemma ConflictIds(t: Task, r: R.Registry, input: Input, maxIters: nat, run: Run)
    requires Ready(t, input) && t.pc.Concluding? && IdsFresh(run, input)
    ensures var xs := Step(t, r, input, maxIters).conflicts;
            DistinctConflictIds(xs) && ConflictIdSet(xs) !! run.conflictIds
  {
    var xs := Step(t, r, input, maxIters).conflicts;
    C.PairsInRange(t.claims, SupportedIds(t.verifs));
    var pairs := C.PairsAt(t.claims, C.Adjudicated(t.claims, SupportedIds(t.verifs)));
    ReportIds(pairs, input.answers, input.conflictIds);
    assert xs == C.Reports(pairs, input.answers, input.conflictIds);
    forall x | x in xs
      ensures x.id !in run.conflictIds
    {
      var m: nat :| m < |xs| && xs[m] == x;
      assert x.id == input.conflictIds(m);
    }
  }

  lemma ConflictsStep(t: Task, r: R.Registry, input: Input, maxIters: nat)
    requires Ready(t, input)
    ensures !t.pc.Concluding? ==> Step(t, r, input, maxIters).conflicts == t.conflicts
  {
    hide CountFor, FollowUps, C.Detected, G.Extracted, NotesOf;
  }

  /** One section's ids after its step, against the run's. */
  lemma StepOwnIds(run: Run, a: Action)
    requires IdsOk(run) && a.TaskStep? && Enabled(run, a)
    ensures var t, u := run.tasks[a.k], Next(run, a).tasks[a.k];
            && DistinctIds(AllClaims(u)) && IdSet(AllClaims(u)) <= Next(run, a).claimIds
            && DistinctConflictIds(u.conflicts) && ConflictIdSet(u.conflicts) <= Next(run, a).conflictIds
            && IdSet(AllClaims(u)) <= IdSet(AllClaims(t)) + (Next(run, a).claimIds - run.claimIds)
            && ConflictIdSet(u.conflicts) <= ConflictIdSet(t.conflicts) + (Next(run, a).conflictIds - run.conflictIds)
  {
    var t, r := run.tasks[a.k], run.registry;
    var u := Next(run, a).tasks[a.k];
    assert t.pc.Extracting? ==> u.pc.Verifying?;
    hide AllClaims, Step, IdSet, ConflictIdSet, DistinctIds, DistinctConflictIds, IdsFresh;
    AllClaimsStep(t, r, a.input, run.maxIters);
    ConflictsStep(t, r, a.input, run.maxIters);
    if t.pc.Extracting? {
      ExtractedIds(t, r, a.input, run.maxIters, run);
      IdSetAppend(AllClaims(t), u.pc.extracted);
      DistinctAppend(AllClaims(t), u.pc.extracted);
    } else {
      assert AllClaims(t) + [] == AllClaims(t);
    }
    if t.pc.Concluding? {
      ConflictIds(t, r, a.input, run.maxIters, run);
    }
  }

  lemma StepIds(run: Run, a: Action)
    requires IdsOk(run) && a.TaskStep? && Enabled(run, a)
    ensures IdsOk(Next(run, a))
  {
    hide AllClaims, Step, IdSet, ConflictIdSet, DistinctIds, DistinctConflictIds;
    StepOwnIds(run, a);
  }

  // ----- every action -------------------------------------------------------------------------------

  /** Two lists of tasks hold the same. */
  ghost predicate SameHoldings(a: seq<Task>, b: seq<Task>) {
    && |a| == |b|
    && forall k :: 0 <= k < |a| ==>
         AllClaims(a[k]) == AllClaims(b[k]) && a[k].conflicts == b[k].conflicts && a[k].found == b[k].found && a[k].pc == b[k].pc
  }

  lemma {:induction false} SameFound(a: seq<Task>, b: seq<Task>)
    requires SameHoldings(a, b)
    ensures FoundOf(a) == FoundOf(b)
  {
    if a != [] {
      hide AllClaims;
      SameFound(a[..|a| - 1], b[..|b| - 1]);
    }
  }

  lemma SameFindings(run: Run, after: Run)
    requires FindingsOk(run) && SameHoldings(run.tasks, after.tasks) && NoTasksYet(after)
    requires after.registry == run.registry && after.texts == run.texts
    requires after.claimIds == run.claimIds && after.conflictIds == run.conflictIds
    ensures FindingsOk(after)
  {
    hide AllClaims, FoundOf, R.Consistent, ClaimOk, IdSet, ConflictIdSet, DistinctIds, DistinctConflictIds;
    SameFound(run.tasks, after.tasks);
    forall k | 0 <= k < |after.tasks|
      ensures TaskGrounded(after.tasks[k], after.texts)
    {
      assert TaskGrounded(run.tasks[k], run.texts);
    }
  }

  lemma NewTasksHoldNothing(sections: seq<PlanSection>)
    ensures forall k :: 0 <= k < |sections| ==>
              var t := NewTasks(sections)[k];
              AllClaims(t) == [] && t.conflicts == [] && !t.pc.Extracting?
  {
  }

  lemma NoIds()
    ensures IdSet([]) == {} && ConflictIdSet([]) == {} && DistinctIds([]) && DistinctConflictIds([])
  {
  }

  lemma LaunchSources(run: Run, a: Action)
    requires SourcesOk(run) && NoTasksYet(run) && a.Launch? && Enabled(run, a)
    ensures SourcesOk(Next(run, a))
  {
    hide R.Consistent, NewTask;
    assert run.tasks == [];
    NothingFound(run.sections);
  }

  lemma LaunchFindings(run: Run, a: Action)
    requires FindingsOk(run) && a.Launch? && Enabled(run, a)
    ensures FindingsOk(Next(run, a))
  {
    hide IdSet, ConflictIdSet, DistinctIds, DistinctConflictIds, AllClaims, SourcesOk, ClaimOk, NewTask;
    var after := Next(run, a);
    LaunchSources(run, a);
    NewTasksHoldNothing(run.sections);
    assert Grounded(after);
    hide Grounded;
    NoIds();
    assert IdsOk(after);
  }

  lemma {:induction false} NothingFound(sections: seq<PlanSection>)
    ensures FoundOf(NewTasks(sections)) == []
  {
    if sections != [] {
      NothingFound(sections[..|sections| - 1]);
      assert NewTasks(sections)[..|sections| - 1] == NewTasks(sections[..|sections| - 1]);
    }
  }

  lemma NextFindings(run: Run, a: Action)
    requires FindingsOk(run)
    ensures FindingsOk(Next(run, a))
  {
    hide FoundOf, R.Consistent, ClaimOk, IdSet, ConflictIdSet, DistinctIds, DistinctConflictIds, Step, IdsFresh, TrustOf;
    if Enabled(run, a) {
      if a.TaskStep? {
        StepSources(run, a);
        StepGrounded(run, a);
        StepIds(run, a);
        assert NoTasksYet(Next(run, a));
      } else if a.Launch? {
        LaunchFindings(run, a);
      } else {
        hide SourcesOk, Grounded, IdsOk;
        assert SameHoldings(run.tasks, Next(run, a).tasks);
        assert NoTasksYet(Next(run, a));
        hide AllClaims, Enabled;
        SameFindings(run, Next(run, a));
      }
    }
  }

  lemma {:induction false} RunFindings(run: Run, actions: seq<Action>)
    requires FindingsOk(run)
    ensures FindingsOk(RunAll(run, actions))
    decreases |actions|
  {
    hide FindingsOk, Next;
    if actions != [] {
      NextFindings(run, actions[0]);
      RunFindings(Next(run, actions[0]), actions[1..]);
    }
  }

  lemma StartFindings(approval: bool, maxIters: nat)
    ensures FindingsOk(NewRun(approval, maxIters))
  {
  }

  // ----- what that means: sources ----------------------------------------------------------------------

  /** A list that together with another makes up the registry never repeats a url. */
  lemma NoUrlTwice(mined: seq<Source>, rest: multiset<Source>, r: R.Registry)
    requires R.Consistent(r) && multiset(mined) + rest == multiset(r.sources)
    ensures forall i, j :: 0 <= i < j < |mined| ==> mined[i].url != mined[j].url
  {
    forall i, j | 0 <= i < j < |mined|
      ensures mined[i].url != mined[j].url
    {
      var s := mined[i];
      assert multiset(mined)[s] <= 1 by {
        assert s in multiset(mined) && s in multiset(r.sources) && s in r.sources;
        var m :| 0 <= m < |r.sources| && r.sources[m] == s;
        forall n | 0 <= n < |r.sources| && r.sources[n] == s
          ensures n == m
        {
          R.OneSourcePerUrl(r, n, m);
        }
        CountOnce(r.sources, m);
      }
      if mined[i].url == mined[j].url {
        assert mined[j] in multiset(r.sources) && mined[i] in multiset(r.sources);
        var m :| 0 <= m < |r.sources| && r.sources[m] == mined[i];
        var n :| 0 <= n < |r.sources| && r.sources[n] == mined[j];
        R.OneSourcePerUrl(r, n, m);
        TwiceCounted(mined, i, j);
      }
    }
  }

  lemma TwiceCounted<T>(s: seq<T>, i: nat, j: nat)
    requires i < j < |s| && s[i] == s[j]
    ensures multiset(s)[s[i]] >= 2
  {
    assert s == s[..i] + [s[i]] + s[i + 1..j] + [s[j]] + s[j + 1..];
  }

  /** What was found but is not mined yet: at most one source per section. */
  function Unmined(tasks: seq<Task>): multiset<Source> {
    if tasks == [] then multiset{}
    else Unmined(tasks[..|tasks| - 1])
         + if tasks[|tasks| - 1].pc.Extracting? then multiset{tasks[|tasks| - 1].pc.source} else multiset{}
  }

  lemma {:induction false} MinedIsFound(tasks: seq<Task>)
    requires forall k :: 0 <= k < |tasks| ==> MinedOk(tasks[k])
    ensures multiset(MinedOf(tasks)) + Unmined(tasks) == multiset(FoundOf(tasks))
    ensures (forall k :: 0 <= k < |tasks| ==> !tasks[k].pc.Extracting?) ==> Unmined(tasks) == multiset{}
  {
    if tasks != [] {
      var init, t := tasks[..|tasks| - 1], tasks[|tasks| - 1];
      MinedIsFound(init);
      assert MinedOf(tasks) == MinedOf(init) + t.mined && FoundOf(tasks) == FoundOf(init) + t.found;
      assert multiset(t.found) == multiset(t.mined) + if t.pc.Extracting? then multiset{t.pc.source} else multiset{};
    }
  }

  /** New sources, counted round by round in every section. */
  function NewSourceTotal(tasks: seq<Task>): nat {
    if tasks == [] then 0
    else
      var t := tasks[|tasks| - 1];
      NewSourceTotal(tasks[..|tasks| - 1]) + Sum(t.counts) + if Going(t.pc) then t.newSources else 0
  }

  lemma {:induction false} TotalIsFound(tasks: seq<Task>)
    requires forall k :: 0 <= k < |tasks| ==> MinedOk(tasks[k])
    ensures NewSourceTotal(tasks) == |FoundOf(tasks)|
  {
    if tasks != [] {
      TotalIsFound(tasks[..|tasks| - 1]);
    }
  }
}
