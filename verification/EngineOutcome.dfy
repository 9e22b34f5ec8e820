/** What can be relied on of every reachable run: the properties of EngineFindings.dfy and SectionBooks.dfy put together. */
module EngineOutcome {
  import opened Common
  import opened Wire
  import opened Findings
  import opened Section
  import opened SectionTrace
  import opened SectionBooks
  import opened Engine
  import opened EngineTrace
  import opened EngineLanguage
  import opened EngineFindings
  import R = Registry

  /** Some interleaving leads to this state. */
  ghost predicate Reachable(run: Run, approval: bool, maxIters: nat, actions: seq<Action>) {
    run == RunAll(NewRun(approval, maxIters), actions)
  }

  lemma NextIters(run: Run, a: Action)
    ensures Next(run, a).maxIters == run.maxIters
  {
    hide Step, TrustOf, IdsFresh;
  }

  lemma {:induction false} SameIters(run: Run, actions: seq<Action>)
    ensures RunAll(run, actions).maxIters == run.maxIters
    decreases |actions|
  {
    hide Next;
    if actions != [] {
      NextIters(run, actions[0]);
      SameIters(Next(run, actions[0]), actions[1..]);
    }
  }

  lemma ReachableOk(run: Run, approval: bool, maxIters: nat, actions: seq<Action>)
    requires Reachable(run, approval, maxIters, actions)
    ensures LanguageOk(run) && FindingsOk(run) && run.maxIters == maxIters
  {
    hide LanguageOk, FindingsOk;
    StartLanguage(approval, maxIters);
    RunLanguage(NewRun(approval, maxIters), actions);
    StartFindings(approval, maxIters);
    RunFindings(NewRun(approval, maxIters), actions);
    SameIters(NewRun(approval, maxIters), actions);
  }

  lemma BooksOf(run: Run, k: nat)
    requires LanguageOk(run) && k < |run.tasks|
    ensures BooksOk(run.tasks[k], run.maxIters)
  {
    hide BooksOk, Heading;
    assert AllBooks(run);
  }

  lemma MinedBooks(run: Run, k: nat)
    requires LanguageOk(run) && k < |run.tasks|
    ensures MinedOk(run.tasks[k])
  {
    hide LanguageOk;
    BooksOf(run, k);
  }

  // ----- sources ---------------------------------------------------------------------------------

  /**
   * In every interleaving: source ids are 1..n and the url map is inverse to the list; no url goes
   * through claim extraction twice in the whole run; the rounds' new-source counts, over all sections,
   * add up to the size of the registry; and once all sections are done every source has been mined.
   */
  lemma EachUrlIsMinedOnce(run: Run, approval: bool, maxIters: nat, actions: seq<Action>)
    requires Reachable(run, approval, maxIters, actions)
    ensures R.Consistent(run.registry)
    ensures forall i, j :: 0 <= i < j < |MinedOf(run.tasks)| ==> MinedOf(run.tasks)[i].url != MinedOf(run.tasks)[j].url
    ensures NewSourceTotal(run.tasks) == |run.registry.sources|
    ensures run.phase.Completed? ==> multiset(MinedOf(run.tasks)) == multiset(run.registry.sources)
  {
    ReachableOk(run, approval, maxIters, actions);
    hide BooksOk, R.Consistent, Heading, Reachable, ClaimOk, AllClaims, NewSourceTotal, FoundOf, MinedOf, Unmined;
    forall k | 0 <= k < |run.tasks|
      ensures MinedOk(run.tasks[k])
    {
      MinedBooks(run, k);
    }
    MinedIsFound(run.tasks);
    TotalIsFound(run.tasks);
    NoUrlTwice(MinedOf(run.tasks), Unmined(run.tasks), run.registry);
    assert |FoundOf(run.tasks)| == |multiset(FoundOf(run.tasks))| && |run.registry.sources| == |multiset(run.registry.sources)|;
    if run.phase.Completed? {
      forall k | 0 <= k < |run.tasks|
        ensures !run.tasks[k].pc.Extracting?
      {
        assert run.tasks[k] in run.tasks;
      }
    }
  }

  // ----- rounds and queries -----------------------------------------------------------------------------

  /**
   * In every interleaving, in every section: a round without a new source has no claim, every round but the
   * last found one, rounds never exceed max(1, max_iters) nor one more than the sources the section
   * added, and no query is searched twice.
   */
  lemma RoundsStop(run: Run, approval: bool, maxIters: nat, actions: seq<Action>, k: nat)
    requires Reachable(run, approval, maxIters, actions) && k < |run.tasks|
    ensures var t := run.tasks[k];
            && (t.newSources == 0 ==> t.roundClaims == [])
            && (t.counts != [] ==> AllPositive(t.counts[..|t.counts| - 1]))
            && |t.counts| <= Max1(maxIters) && |t.counts| <= 1 + |t.found|
  {
    ReachableOk(run, approval, maxIters, actions);
    BooksOf(run, k);
    hide ShapeOk, Ledger, LanguageOk, FindingsOk, Reachable;
    RoundBound(run.tasks[k], maxIters);
  }

  lemma QueriesAreNew(run: Run, approval: bool, maxIters: nat, actions: seq<Action>, k: nat, i: nat, j: nat)
    requires Reachable(run, approval, maxIters, actions) && k < |run.tasks|
    requires i < j < |EventsOf(run.log, Of(k))|
    requires EventsOf(run.log, Of(k))[i].Search? && EventsOf(run.log, Of(k))[j].Search?
    ensures EventsOf(run.log, Of(k))[i].query != EventsOf(run.log, Of(k))[j].query
  {
    ReachableOk(run, approval, maxIters, actions);
    BooksOf(run, k);
    hide ShapeOk, Reachable, EventsOf, Filter, FollowAll, FindingsOk, Heading, RoundsOk, MinedOk, AlignOk, ConclusionOk;
    var t := run.tasks[k];
    assert EventsOf(run.log, Of(k)) == TraceOf(run, k) == t.trace;
    assert Filter(Told(t), OfKind(Searches)) == Held(t, Searches);
    var di, dj := t.trace[i], t.trace[j];
    assert Told(t)[i] == di && Told(t)[j] == dj;
    var m, n := FilterKeepsOrder(Told(t), OfKind(Searches), i, j);
    assert Held(t, Searches)[m] == Search(t.section.id, t.seen[m]) && Held(t, Searches)[n] == Search(t.section.id, t.seen[n]);
  }

  /** Two members at different places of a list are at different places of its filtering. */
  lemma {:induction false} FilterKeepsOrder<T>(s: seq<T>, p: T -> bool, i: nat, j: nat) returns (a: nat, b: nat)
    requires i < j < |s| && p(s[i]) && p(s[j])
    ensures a < b < |Filter(s, p)| && Filter(s, p)[a] == s[i] && Filter(s, p)[b] == s[j]
  {
    var n := |s| - 1;
    if j < n {
      a, b := FilterKeepsOrder(s[..n], p, i, j);
    } else {
      a := FilterPlace(s[..n], p, i);
      b := |Filter(s[..n], p)|;
    }
  }

  lemma {:induction false} FilterPlace<T>(s: seq<T>, p: T -> bool, i: nat) returns (m: nat)
    requires i < |s| && p(s[i])
    ensures m < |Filter(s, p)| && Filter(s, p)[m] == s[i]
  {
    var n := |s| - 1;
    if i < n {
      m := FilterPlace(s[..n], p, i);
    } else {
      m := |Filter(s[..n], p)|;
    }
  }

  // ----- claims, verdicts and notes -------------------------------------------------------------------------

  lemma {:induction false} AlignedAcross(tasks: seq<Task>)
    requires forall k :: 0 <= k < |tasks| ==> AlignOk(tasks[k])
    ensures Aligned(ClaimsOf(tasks), VerifsOf(tasks))
  {
    if tasks != [] {
      var init, t := tasks[..|tasks| - 1], tasks[|tasks| - 1];
      AlignedAcross(init);
      assert AlignOk(t);
      AlignedAppend(ClaimsOf(init), VerifsOf(init), t.claims, t.verifs);
    }
  }

  lemma {:induction false} ClaimsOfMember(tasks: seq<Task>, c: Claim)
    ensures c in ClaimsOf(tasks) <==> exists k :: 0 <= k < |tasks| && c in tasks[k].claims
  {
    if tasks != [] {
      var n := |tasks| - 1;
      ClaimsOfMember(tasks[..n], c);
      if k :| 0 <= k < |tasks| && c in tasks[k].claims {
        assert k < n ==> c in tasks[..n][k].claims;
      }
      if k :| 0 <= k < n && c in tasks[..n][k].claims {
        assert c in tasks[k].claims;
      }
      assert c in tasks[n].claims ==> c in ClaimsOf(tasks);
    }
  }

  /** What a section holds is part of all it claims. */
  lemma ClaimsAreAll(t: Task)
    ensures forall c :: c in t.claims ==> c in AllClaims(t)
    ensures DistinctIds(AllClaims(t)) ==> DistinctIds(t.claims)
    ensures IdSet(t.claims) <= IdSet(AllClaims(t))
  {
    var all, n := AllClaims(t), |t.claims|;
    assert all[..n] == t.claims;
    assert forall i :: 0 <= i < n ==> all[i] == t.claims[i];
    assert forall c :: c in t.claims ==> c in all;
  }

  lemma {:induction false} DistinctAcross(tasks: seq<Task>)
    requires forall k :: 0 <= k < |tasks| ==> DistinctIds(AllClaims(tasks[k]))
    requires forall k, l :: 0 <= k < l < |tasks| ==> IdSet(AllClaims(tasks[k])) !! IdSet(AllClaims(tasks[l]))
    ensures DistinctIds(ClaimsOf(tasks))
    ensures forall id :: id in IdSet(ClaimsOf(tasks)) ==> exists k :: 0 <= k < |tasks| && id in IdSet(AllClaims(tasks[k]))
  {
    hide DistinctIds, AllClaims, IdSet;
    if tasks == [] {
      NoIds();
    } else {
      var n := |tasks| - 1;
      var init, t := tasks[..n], tasks[n];
      DistinctAcross(init);
      ClaimsAreAll(t);
      assert IdSet(ClaimsOf(init)) !! IdSet(t.claims);
      DistinctAppend(ClaimsOf(init), t.claims);
      IdSetAppend(ClaimsOf(init), t.claims);
      forall id | id in IdSet(ClaimsOf(tasks))
        ensures exists k :: 0 <= k < |tasks| && id in IdSet(AllClaims(tasks[k]))
      {
        if id in IdSet(ClaimsOf(init)) {
          var k :| 0 <= k < n && id in IdSet(AllClaims(init[k]));
          assert id in IdSet(AllClaims(tasks[k]));
        } else {
          assert id in IdSet(AllClaims(tasks[n]));
        }
      }
    }
  }

  /**
   * In every interleaving, whatever the model replies: the run's verdicts match its claims position by position,
   * claim ids are distinct, and every claim cites one registered source and quotes words of that source's page.
   */
  lemma ClaimsAreAlignedAndGrounded(run: Run, approval: bool, maxIters: nat, actions: seq<Action>)
    requires Reachable(run, approval, maxIters, actions)
    ensures Aligned(ClaimsOf(run.tasks), VerifsOf(run.tasks)) && DistinctIds(ClaimsOf(run.tasks))
    ensures |run.texts| == |run.registry.sources|
    ensures forall c :: c in ClaimsOf(run.tasks) ==> ClaimOk(c, run.texts)
  {
    ReachableOk(run, approval, maxIters, actions);
    hide Reachable, ClaimOk, AllClaims, R.Consistent, Heading, FoundOf, IdSet, DistinctIds, Aligned;
    forall k | 0 <= k < |run.tasks|
      ensures AlignOk(run.tasks[k])
    {
      BooksOf(run, k);
    }
    hide BooksOk;
    AlignedAcross(run.tasks);
    DistinctAcross(run.tasks);
    forall c | c in ClaimsOf(run.tasks)
      ensures ClaimOk(c, run.texts)
    {
      ClaimsOfMember(run.tasks, c);
      var k :| 0 <= k < |run.tasks| && c in run.tasks[k].claims;
      ClaimsAreAll(run.tasks[k]);
      assert TaskGrounded(run.tasks[k], run.texts);
    }
  }

  /** A finished section's note events are exactly its supported claims, in order. */
  lemma NotesAreTheSupportedClaims(run: Run, approval: bool, maxIters: nat, actions: seq<Action>, k: nat)
    requires Reachable(run, approval, maxIters, actions) && k < |run.tasks| && Over(run.tasks[k])
    ensures var t := run.tasks[k];
            Filter(EventsOf(run.log, Of(k)), OfKind(Notes)) == NoteEvents(t.section.id, NotesOf(t.claims, SupportedIds(t.verifs)))
  {
    ReachableOk(run, approval, maxIters, actions);
    BooksOf(run, k);
    var t := run.tasks[k];
    assert Ledger(t) && ConclusionOk(t);
    hide ShapeOk, Reachable, EventsOf, Filter, FollowAll, FindingsOk, Heading, RoundsOk, MinedOk, AlignOk, NotesOf, BooksOk;
    assert EventsOf(run.log, Of(k)) == TraceOf(run, k) == t.trace == Told(t);
    assert Filter(Told(t), OfKind(Notes)) == Held(t, Notes);
  }

  // ----- the count a section announces ------------------------------------------------------------------------

  function BySection(id: string): Source -> bool {
    (s: Source) => s.sectionId == Some(id)
  }

  lemma {:induction false} CountIsFilter(sources: seq<Source>, id: string)
    ensures CountFor(sources, id) == |Filter(sources, BySection(id))|
  {
    if sources != [] {
      CountIsFilter(sources[..|sources| - 1], id);
    }
  }

  /** The order of the sources does not matter to the count. */
  lemma CountByContent(a: seq<Source>, b: seq<Source>, id: string)
    requires multiset(a) == multiset(b)
    ensures CountFor(a, id) == CountFor(b, id)
  {
    CountIsFilter(a, id);
    CountIsFilter(b, id);
    var fa, fb := Filter(a, BySection(id)), Filter(b, BySection(id));
    forall x: Source | true
      ensures multiset(fa)[x] == multiset(fb)[x]
    {
      FilterCounts(a, BySection(id), x);
      FilterCounts(b, BySection(id), x);
    }
    assert multiset(fa) == multiset(fb);
    assert |fa| == |multiset(fa)| && |fb| == |multiset(fb)|;
  }

  lemma CountAcross(a: seq<Source>, b: seq<Source>, id: string)
    ensures CountFor(a + b, id) == CountFor(a, id) + CountFor(b, id)
  {
    CountIsFilter(a + b, id);
    CountIsFilter(a, id);
    CountIsFilter(b, id);
    FilterAppend(a, b, BySection(id));
  }

  lemma {:induction false} CountAllOrNone(sources: seq<Source>, own: string, id: string)
    requires forall k :: 0 <= k < |sources| ==> sources[k].sectionId == Some(own)
    ensures CountFor(sources, id) == if own == id then |sources| else 0
  {
    if sources != [] {
      CountAllOrNone(sources[..|sources| - 1], own, id);
    }
  }

  lemma {:induction false} CountOwn(tasks: seq<Task>, k: nat)
    requires forall j :: 0 <= j < |tasks| ==> MinedOk(tasks[j])
    requires forall i, j :: 0 <= i < j < |tasks| ==> tasks[i].section.id != tasks[j].section.id
    requires k < |tasks|
    ensures CountFor(FoundOf(tasks), tasks[k].section.id) == |tasks[k].found|
  {
    hide CountFor;
    var n, id := |tasks| - 1, tasks[k].section.id;
    CountAcross(FoundOf(tasks[..n]), tasks[n].found, id);
    CountAllOrNone(tasks[n].found, tasks[n].section.id, id);
    if k < n {
      CountOwn(tasks[..n], k);
    } else {
      CountOther(tasks[..n], id);
    }
  }

  lemma {:induction false} CountOther(tasks: seq<Task>, id: string)
    requires forall j :: 0 <= j < |tasks| ==> MinedOk(tasks[j]) && tasks[j].section.id != id
    ensures CountFor(FoundOf(tasks), id) == 0
  {
    if tasks != [] {
      var n := |tasks| - 1;
      CountAcross(FoundOf(tasks[..n]), tasks[n].found, id);
      CountAllOrNone(tasks[n].found, tasks[n].section.id, id);
      CountOther(tasks[..n], id);
    }
  }

  /** With distinct section ids, the source count a section announces at its end is the number of sources it added itself. */
  lemma SectionCountIsItsOwn(run: Run, approval: bool, maxIters: nat, actions: seq<Action>, k: nat, text: string)
    requires Reachable(run, approval, maxIters, actions) && k < |run.tasks|
    requires forall i, j :: 0 <= i < j < |run.sections| ==> run.sections[i].id != run.sections[j].id
    requires Ready(run.tasks[k], Summary(text)) && run.tasks[k].pc.Compressing?
    ensures var t := run.tasks[k];
            Step(t, run.registry, Summary(text), run.maxIters).pending == [SectionDone(t.section.id, text, |t.found|)]
  {
    hide Reachable, LanguageOk, FindingsOk, CountFor;
    ReachableOk(run, approval, maxIters, actions);
    OwnCount(run, k);
  }

  lemma OwnCount(run: Run, k: nat)
    requires LanguageOk(run) && FindingsOk(run) && k < |run.tasks|
    requires forall i, j :: 0 <= i < j < |run.sections| ==> run.sections[i].id != run.sections[j].id
    ensures CountFor(run.registry.sources, run.tasks[k].section.id) == |run.tasks[k].found|
  {
    hide BooksOk, R.Consistent, Heading, FoundOf, CountFor, MinedOk, Grounded, IdsOk, OwnEvents;
    forall j | 0 <= j < |run.tasks|
      ensures MinedOk(run.tasks[j])
    {
      MinedBooks(run, j);
    }
    CountOwn(run.tasks, k);
    CountByContent(FoundOf(run.tasks), run.registry.sources, run.tasks[k].section.id);
  }
}
