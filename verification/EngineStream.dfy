/**
 * The logs the engine makes, seen by those who read them: they meet what the server's tables and the
 * client rely on, so that on a completed run both sides show the same.
 */
module EngineStream {
  import opened Common
  import opened Wire
  import opened Findings
  import opened Trust
  import opened Section
  import opened SectionTrace
  import opened SectionBooks
  import opened Engine
  import opened EngineTrace
  import opened EngineLanguage
  import opened EngineFindings
  import opened EngineOutcome
  import P = Projection
  import Reducer
  import R = Registry

  /** Events that only a section emits. */
  predicate FromSection(d: Payload) {
    d.Found? || d.Claimed? || d.Verified? || d.Conflict? || d.Note? || d.Search?
  }

  lemma InOwnEvents(log: seq<Entry>, i: nat)
    requires i < |log|
    ensures log[i].data in EventsOf(log, log[i].owner)
  {
    var m := FilterPlace(log, ByOwner(log[i].owner), i);
    assert EventsOf(log, log[i].owner)[m] == log[i].data;
  }

  lemma InLog(log: seq<Entry>, owner: Owner, d: Payload) returns (i: nat)
    requires d in EventsOf(log, owner)
    ensures i < |log| && log[i] == Entry(owner, d)
  {
    var own := Filter(log, ByOwner(owner));
    FilterMembers(log, ByOwner(owner));
    var m :| 0 <= m < |own| && EventsOf(log, owner)[m] == d;
    assert own[m] in own;
    i :| 0 <= i < |log| && log[i] == own[m];
  }

  lemma MainTakesNone(w: Whole, e: Entry, approval: bool, sections: seq<PlanSection>)
    requires FromSection(e.data) && Take(w, e, approval, sections).stage != Wrong
    ensures e.owner.Of?
  {
  }

  /** The engine itself never emits such an event. */
  lemma SectionsOwn(run: Run, i: nat) returns (k: nat)
    requires LanguageOk(run) && i < |run.log| && FromSection(run.log[i].data)
    ensures run.log[i].owner == Of(k) && k < |run.tasks| && run.log[i].data in run.tasks[k].trace
  {
    hide EventsOf, BooksOk, FollowAll;
    var e := run.log[i];
    var upto := run.log[..i];
    assert run.log + Mains(run.pending) == (upto + [e]) + (run.log[i + 1..] + Mains(run.pending));
    PrefixStage(upto + [e], run.log[i + 1..] + Mains(run.pending), run.approval, run.sections);
    TakeSnoc(upto, e, run.approval, run.sections);
    MainTakesNone(TakeAll(upto, run.approval, run.sections), e, run.approval, run.sections);
    hide TakeAll, Take;
    k := e.owner.section;
    InOwnEvents(run.log, i);
    assert EventsOf(run.log, Of(k)) == TraceOf(run, k);
  }

  /** An event of a kind told by a section is one of its holdings of that kind. */
  lemma ToldIsHeld(t: Task, kind: Kind, d: Payload) returns (m: nat)
    requires Ledger(t) && d in Told(t) && OfKind(kind)(d)
    ensures m < |Held(t, kind)| && Held(t, kind)[m] == d
  {
    hide Held, Filter;
    FilterMembers(Told(t), OfKind(kind));
    assert d in Filter(Told(t), OfKind(kind));
    assert d in Held(t, kind);
    m :| 0 <= m < |Held(t, kind)| && Held(t, kind)[m] == d;
  }

  lemma HeldIsTold(t: Task, kind: Kind, m: nat)
    requires Ledger(t) && m < |Held(t, kind)|
    ensures Held(t, kind)[m] in Told(t)
  {
    hide Held, Filter;
    FilterMembers(Told(t), OfKind(kind));
    assert Held(t, kind)[m] in Filter(Told(t), OfKind(kind));
  }

  // ----- sources ------------------------------------------------------------------------------

  lemma {:induction false} FoundOfMember(tasks: seq<Task>, k: nat, s: Source)
    requires k < |tasks| && s in tasks[k].found
    ensures s in FoundOf(tasks)
  {
    if k < |tasks| - 1 {
      FoundOfMember(tasks[..|tasks| - 1], k, s);
    }
  }

  lemma LedgerOf(run: Run, k: nat)
    requires LanguageOk(run) && k < |run.tasks|
    ensures Ledger(run.tasks[k])
  {
    hide LanguageOk, Ledger;
    BooksOf(run, k);
  }

  lemma AnnouncedIsRegistered(run: Run, i: nat)
    requires LanguageOk(run) && SourcesOk(run) && i < |run.log| && run.log[i].data.Found?
    ensures run.log[i].data.source in run.registry.sources
  {
    hide LanguageOk, FoundOf, Ledger;
    var k := SectionsOwn(run, i);
    LedgerOf(run, k);
    var t, d := run.tasks[k], run.log[i].data;
    var m := ToldIsHeld(t, Sources, d);
    assert d.source == t.found[m] && t.found[m] in t.found;
    FoundOfMember(run.tasks, k, t.found[m]);
    assert d.source in multiset(FoundOf(run.tasks));
    assert d.source in multiset(run.registry.sources);
  }

  lemma {:induction false} AnnouncedMember(log: seq<Event>, s: Source) returns (i: nat)
    requires s in P.Announced(log)
    ensures i < |log| && log[i].data.Found? && log[i].data.source == s
  {
    var n := |log| - 1;
    if log[n].data.Found? && log[n].data.source == s {
      i := n;
    } else {
      i := AnnouncedMember(log[..n], s);
    }
  }

  /** In every engine log one id stands for one source. */
  lemma LogHasOneSourcePerId(run: Run)
    requires LanguageOk(run) && SourcesOk(run)
    ensures P.OneSourcePerId(Events(run.log))
  {
    hide LanguageOk, FoundOf;
    var log := Events(run.log);
    forall x, y | x in P.Announced(log) && y in P.Announced(log) && x.id == y.id
      ensures x == y
    {
      var i := AnnouncedMember(log, x);
      var j := AnnouncedMember(log, y);
      AnnouncedIsRegistered(run, i);
      AnnouncedIsRegistered(run, j);
      var m :| 0 <= m < |run.registry.sources| && run.registry.sources[m] == x;
      var n :| 0 <= n < |run.registry.sources| && run.registry.sources[n] == y;
      R.OneSourcePerUrl(run.registry, m, n);
    }
  }

  // ----- claims ---------------------------------------------------------------------------------

  function ClaimedIds(trace: seq<Payload>): set<string> {
    set d | d in trace && d.Claimed? :: d.claimId
  }

  function WaitingIds(s: Shape): seq<string> {
    match s
    case Listing(_, ids) => ids
    case Judging(left) => left
    case _ => []
  }

  lemma ClaimedIdsSnoc(trace: seq<Payload>, d: Payload)
    ensures ClaimedIds(trace + [d]) == ClaimedIds(trace) + if d.Claimed? then {d.claimId} else {}
  {
    assert forall x :: x in trace + [d] <==> x in trace || x == d;
  }

  /** Whatever waits for a verdict has been claimed. */
  lemma {:induction false} WaitingWasClaimed(trace: seq<Payload>, id: string)
    ensures forall x :: x in WaitingIds(FollowAll(Unborn, trace, id)) ==> x in ClaimedIds(trace)
  {
    if trace != [] {
      var init, d := trace[..|trace| - 1], trace[|trace| - 1];
      WaitingWasClaimed(init, id);
      assert init + [d] == trace;
      ClaimedIdsSnoc(init, d);
      var s := FollowAll(Unborn, init, id);
      forall x | x in WaitingIds(Follow(s, d, id))
        ensures x in WaitingIds(s) || (d.Claimed? && d.claimId == x)
      {
      }
    }
  }

  /** In the language a verdict follows its claim. */
  lemma VerdictAfterClaim(trace: seq<Payload>, v: Payload, id: string)
    requires PartialTrace(trace + [v], id) && v.Verified?
    ensures v.claimId in ClaimedIds(trace)
  {
    FollowAppend(Unborn, trace, [v], id);
    OneFollows(FollowAll(Unborn, trace, id), v, id);
    WaitingWasClaimed(trace, id);
    var s := FollowAll(Unborn, trace, id);
    hide FollowAll;
    assert v.claimId in WaitingIds(s);
  }

  lemma EventsOfAppend(a: seq<Entry>, b: seq<Entry>, owner: Owner)
    ensures EventsOf(a + b, owner) == EventsOf(a, owner) + EventsOf(b, owner)
  {
    FilterAppend(a, b, ByOwner(owner));
  }

  lemma OwnTrace(run: Run, k: nat)
    requires LanguageOk(run) && k < |run.tasks|
    ensures EventsOf(run.log, Of(k)) == run.tasks[k].trace
  {
    hide EventsOf, AllBooks, Heading;
    assert EventsOf(run.log, Of(k)) == TraceOf(run, k);
  }

  lemma ClaimComesFirst(run: Run, j: nat) returns (i: nat)
    requires LanguageOk(run) && j < |run.log| && run.log[j].data.Verified?
    ensures i < j && run.log[i].data.Claimed? && run.log[i].data.claimId == run.log[j].data.claimId
  {
    hide LanguageOk, EventsOf, FollowAll, BooksOk;
    var k := SectionsOwn(run, j);
    var t, v := run.tasks[k], run.log[j].data;
    var before := run.log[..j];
    BooksOf(run, k);
    SectionPartial(t, run.maxIters);
    OwnTrace(run, k);
    assert run.log == (before + [run.log[j]]) + run.log[j + 1..];
    EventsOfAppend(before + [run.log[j]], run.log[j + 1..], Of(k));
    EventsOfSnoc(before, run.log[j], Of(k));
    PartialPrefix(EventsOf(before, Of(k)) + [v], EventsOf(run.log[j + 1..], Of(k)), t.section.id);
    VerdictAfterClaim(EventsOf(before, Of(k)), v, t.section.id);
    var d :| d in EventsOf(before, Of(k)) && d.Claimed? && d.claimId == v.claimId;
    i := InLog(before, Of(k), d);
  }

  lemma ClaimIdsDiffer(run: Run, i: nat, j: nat)
    requires LanguageOk(run) && IdsOk(run) && i < j < |run.log| && run.log[i].data.Claimed? && run.log[j].data.Claimed?
    ensures run.log[i].data.claimId != run.log[j].data.claimId
  {
    hide LanguageOk, EventsOf, BooksOk, Ledger, AllClaims;
    var k := SectionsOwn(run, i);
    var l := SectionsOwn(run, j);
    LedgerOf(run, k);
    LedgerOf(run, l);
    var m := ToldIsHeld(run.tasks[k], Claims, run.log[i].data);
    var n := ToldIsHeld(run.tasks[l], Claims, run.log[j].data);
    var a, b := AllClaims(run.tasks[k])[m], AllClaims(run.tasks[l])[n];
    assert a in AllClaims(run.tasks[k]) && b in AllClaims(run.tasks[l]);
    assert a.id in IdSet(AllClaims(run.tasks[k])) && b.id in IdSet(AllClaims(run.tasks[l]));
    if k == l {
      SameSectionDiffers(run, i, j, k);
    }
  }

  lemma SameSectionDiffers(run: Run, i: nat, j: nat, k: nat)
    requires LanguageOk(run) && i < j < |run.log| && run.log[i].data.Claimed? && run.log[j].data.Claimed?
    requires k < |run.tasks| && run.log[i].owner == Of(k) && run.log[j].owner == Of(k) && DistinctIds(AllClaims(run.tasks[k]))
    ensures run.log[i].data.claimId != run.log[j].data.claimId
  {
    hide LanguageOk, AllClaims, Filter, BooksOk;
    var t := run.tasks[k];
    LedgerOf(run, k);
    OwnTrace(run, k);
    var a, b := FilterKeepsOrder(run.log, ByOwner(Of(k)), i, j);
    assert t.trace[a] == run.log[i].data && t.trace[b] == run.log[j].data;
    assert Told(t)[a] == t.trace[a] && Told(t)[b] == t.trace[b];
    var m, n := FilterKeepsOrder(Told(t), OfKind(Claims), a, b);
    assert Filter(Told(t), OfKind(Claims)) == Held(t, Claims) == ClaimEvents(AllClaims(t));
  }

  /** In every engine log claim ids are new when they appear, and a verdict comes after its claim. */
  lemma LogHasClaimsFirst(run: Run)
    requires LanguageOk(run) && IdsOk(run)
    ensures P.ClaimsFirst(Events(run.log))
  {
    hide LanguageOk, IdsOk;
    var log := Events(run.log);
    forall i, j | 0 <= i < j < |log| && log[i].data.Claimed? && log[j].data.Claimed?
      ensures log[i].data.claimId != log[j].data.claimId
    {
      ClaimIdsDiffer(run, i, j);
    }
    forall j | 0 <= j < |log| && log[j].data.Verified?
      ensures exists i :: 0 <= i < j && log[i].data.Claimed? && log[i].data.claimId == log[j].data.claimId
    {
      var i := ClaimComesFirst(run, j);
      assert log[i].data == run.log[i].data;
    }
  }

  // ----- a completed run ------------------------------------------------------------------------------

  lemma {:induction false} ConflictsOfMember(tasks: seq<Task>, k: nat, x: Contradiction)
    requires k < |tasks| && x in tasks[k].conflicts
    ensures x in ConflictsOf(tasks)
  {
    if k < |tasks| - 1 {
      ConflictsOfMember(tasks[..|tasks| - 1], k, x);
    }
  }

  lemma {:induction false} ConflictsOfOrigin(tasks: seq<Task>, x: Contradiction) returns (k: nat)
    requires x in ConflictsOf(tasks)
    ensures k < |tasks| && x in tasks[k].conflicts
  {
    var n := |tasks| - 1;
    if x in tasks[n].conflicts {
      k := n;
    } else {
      k := ConflictsOfOrigin(tasks[..n], x);
    }
  }

  lemma {:induction false} VerifsOfMember(tasks: seq<Task>, k: nat, v: Verification)
    requires k < |tasks| && v in tasks[k].verifs
    ensures v in VerifsOf(tasks)
  {
    if k < |tasks| - 1 {
      VerifsOfMember(tasks[..|tasks| - 1], k, v);
    }
  }

  lemma {:induction false} VerifsOfOrigin(tasks: seq<Task>, v: Verification) returns (k: nat)
    requires v in VerifsOf(tasks)
    ensures k < |tasks| && v in tasks[k].verifs
  {
    var n := |tasks| - 1;
    if v in tasks[n].verifs {
      k := n;
    } else {
      k := VerifsOfOrigin(tasks[..n], v);
    }
  }

  lemma DistinctConflictsAppend(a: seq<Contradiction>, b: seq<Contradiction>)
    requires DistinctConflictIds(a) && DistinctConflictIds(b) && ConflictIdSet(a) !! ConflictIdSet(b)
    ensures DistinctConflictIds(a + b)
    ensures ConflictIdSet(a + b) == ConflictIdSet(a) + ConflictIdSet(b)
  {
    forall i, j | 0 <= i < j < |a + b|
      ensures (a + b)[i].id != (a + b)[j].id
    {
      if i < |a| <= j {
        assert a[i].id in ConflictIdSet(a) && b[j - |a|].id in ConflictIdSet(b);
      }
    }
    assert forall x :: x in a + b <==> x in a || x in b;
  }

  lemma {:induction false} DistinctConflictsAcross(tasks: seq<Task>)
    requires forall k :: 0 <= k < |tasks| ==> DistinctConflictIds(tasks[k].conflicts)
    requires forall k, l :: 0 <= k < l < |tasks| ==> ConflictIdSet(tasks[k].conflicts) !! ConflictIdSet(tasks[l].conflicts)
    ensures DistinctConflictIds(ConflictsOf(tasks))
    ensures forall id :: id in ConflictIdSet(ConflictsOf(tasks)) ==> exists k :: 0 <= k < |tasks| && id in ConflictIdSet(tasks[k].conflicts)
  {
    hide DistinctConflictIds, ConflictIdSet;
    if tasks == [] {
      NoIds();
    } else {
      var n := |tasks| - 1;
      var init, t := tasks[..n], tasks[n];
      DistinctConflictsAcross(init);
      assert ConflictIdSet(ConflictsOf(init)) !! ConflictIdSet(t.conflicts);
      DistinctConflictsAppend(ConflictsOf(init), t.conflicts);
      forall id | id in ConflictIdSet(ConflictsOf(tasks))
        ensures exists k :: 0 <= k < |tasks| && id in ConflictIdSet(tasks[k].conflicts)
      {
        if id in ConflictIdSet(ConflictsOf(init)) {
          var k :| 0 <= k < n && id in ConflictIdSet(init[k].conflicts);
          assert id in ConflictIdSet(tasks[k].conflicts);
        } else {
          assert id in ConflictIdSet(tasks[n].conflicts);
        }
      }
    }
  }

  /** A section that is over holds no more than its results. */
  lemma OverHolds(t: Task)
    requires Over(t)
    ensures AllClaims(t) == t.claims && AllVerifs(t) == t.verifs && Told(t) == t.trace
  {
  }

  /** An event of a completed run's log is among its results, and each result has its event. */
  lemma ToldByResults(run: Run, d: Payload)
    requires LanguageOk(run) && run.phase.Completed? && d in Said(Events(run.log))
    ensures d.Claimed? ==> exists c :: c in ClaimsOf(run.tasks) && d == ClaimedAs(c)
    ensures d.Verified? ==> exists v :: v in VerifsOf(run.tasks) && d == VerifiedAs(v)
    ensures d.Conflict? ==> exists x :: x in ConflictsOf(run.tasks) && d == ConflictAs(x)
  {
    SaidMeaning(Events(run.log), d);
    var i :| 0 <= i < |run.log| && Events(run.log)[i].data == d;
    if d.Claimed? || d.Verified? || d.Conflict? {
      var k := SectionsOwn(run, i);
      var t := run.tasks[k];
      assert t in run.tasks && Over(t);
      hide LanguageOk, Ledger, Said;
      OverHolds(t);
      LedgerOf(run, k);
      if d.Claimed? {
        var m := ToldIsHeld(t, Claims, d);
        assert t.claims[m] in t.claims;
        ClaimsOfMember(run.tasks, t.claims[m]);
      } else if d.Verified? {
        var m := ToldIsHeld(t, Verdicts, d);
        VerifsOfMember(run.tasks, k, t.verifs[m]);
      } else {
        var m := ToldIsHeld(t, Conflicts, d);
        ConflictsOfMember(run.tasks, k, t.conflicts[m]);
      }
    }
  }

  lemma TraceIsSaid(run: Run, k: nat, d: Payload)
    requires LanguageOk(run) && k < |run.tasks| && d in run.tasks[k].trace
    ensures d in Said(Events(run.log))
  {
    hide EventsOf, Said, Heading, AllBooks;
    assert EventsOf(run.log, Of(k)) == TraceOf(run, k);
    var i := InLog(run.log, Of(k), d);
    assert Events(run.log)[i].data == d;
    SaidMeaning(Events(run.log), d);
  }

  lemma OverTask(run: Run, k: nat)
    requires LanguageOk(run) && run.phase.Completed? && k < |run.tasks|
    ensures Over(run.tasks[k]) && Ledger(run.tasks[k])
    ensures AllClaims(run.tasks[k]) == run.tasks[k].claims && AllVerifs(run.tasks[k]) == run.tasks[k].verifs
    ensures Told(run.tasks[k]) == run.tasks[k].trace
  {
    assert run.tasks[k] in run.tasks;
    hide LanguageOk, Ledger;
    OverHolds(run.tasks[k]);
    LedgerOf(run, k);
  }

  lemma ResultsAreTold(run: Run)
    requires LanguageOk(run) && run.phase.Completed?
    ensures forall c :: c in ClaimsOf(run.tasks) ==> ClaimedAs(c) in Said(Events(run.log))
    ensures forall v :: v in VerifsOf(run.tasks) ==> VerifiedAs(v) in Said(Events(run.log))
    ensures forall x :: x in ConflictsOf(run.tasks) ==> ConflictAs(x) in Said(Events(run.log))
  {
    hide LanguageOk, Said, Ledger, ClaimedAs, VerifiedAs, ConflictAs;
    forall c | c in ClaimsOf(run.tasks)
      ensures ClaimedAs(c) in Said(Events(run.log))
    {
      ClaimsOfMember(run.tasks, c);
      var k :| 0 <= k < |run.tasks| && c in run.tasks[k].claims;
      var m :| 0 <= m < |run.tasks[k].claims| && run.tasks[k].claims[m] == c;
      OverTask(run, k);
      HeldIsTold(run.tasks[k], Claims, m);
      TraceIsSaid(run, k, ClaimedAs(c));
    }
    forall v | v in VerifsOf(run.tasks)
      ensures VerifiedAs(v) in Said(Events(run.log))
    {
      var k := VerifsOfOrigin(run.tasks, v);
      var m :| 0 <= m < |run.tasks[k].verifs| && run.tasks[k].verifs[m] == v;
      OverTask(run, k);
      HeldIsTold(run.tasks[k], Verdicts, m);
      TraceIsSaid(run, k, VerifiedAs(v));
    }
    forall x | x in ConflictsOf(run.tasks)
      ensures ConflictAs(x) in Said(Events(run.log))
    {
      var k := ConflictsOfOrigin(run.tasks, x);
      var m :| 0 <= m < |run.tasks[k].conflicts| && run.tasks[k].conflicts[m] == x;
      OverTask(run, k);
      HeldIsTold(run.tasks[k], Conflicts, m);
      TraceIsSaid(run, k, ConflictAs(x));
    }
  }

  lemma CompletedOnlyFrom(run: Run)
    requires LanguageOk(run) && run.phase.Completed?
    ensures OnlyFrom(Said(Events(run.log)), ClaimsOf(run.tasks), VerifsOf(run.tasks), ConflictsOf(run.tasks))
  {
    hide LanguageOk, Said, ClaimedAs, VerifiedAs, ConflictAs;
    forall d | d in Said(Events(run.log))
      ensures d.Claimed? ==> exists k :: 0 <= k < |ClaimsOf(run.tasks)| && d == ClaimedAs(ClaimsOf(run.tasks)[k])
      ensures d.Verified? ==> exists k :: 0 <= k < |VerifsOf(run.tasks)| && d == VerifiedAs(VerifsOf(run.tasks)[k])
      ensures d.Conflict? ==> exists k :: 0 <= k < |ConflictsOf(run.tasks)| && d == ConflictAs(ConflictsOf(run.tasks)[k])
    {
      ToldByResults(run, d);
    }
  }

  /** The log of a completed run tells exactly the claims, verdicts and contradictions the engine reports on. */
  lemma CompletedLogTells(run: Run, approval: bool, maxIters: nat, actions: seq<Action>)
    requires Reachable(run, approval, maxIters, actions) && run.phase.Completed?
    ensures Tells(Events(run.log), ClaimsOf(run.tasks), VerifsOf(run.tasks), ConflictsOf(run.tasks))
  {
    hide Reachable, LanguageOk, Said, ClaimedAs, VerifiedAs, ConflictAs, DistinctIds, Aligned, P.ClaimsFirst,
         SourcesOk, Grounded, ClaimOk, AllClaims, OnlyFrom;
    ReachableOk(run, approval, maxIters, actions);
    ClaimsAreAlignedAndGrounded(run, approval, maxIters, actions);
    LogHasClaimsFirst(run);
    DistinctConflictsAcross(run.tasks);
    ResultsAreTold(run);
    CompletedOnlyFrom(run);
  }

  // ----- the last two events --------------------------------------------------------------------------

  /** Once the report is written, the log with what is pending ends in the report and `done`. */
  ghost predicate TailOk(run: Run) {
    run.phase.Finishing? || run.phase.Completed? ==>
      exists init, markdown, title :: run.log + Mains(run.pending) == init + Mains(LastEvents(run, markdown, title))
  }

  lemma NextTail(run: Run, a: Action)
    requires TailOk(run)
    ensures TailOk(Next(run, a))
  {
    var after := Next(run, a);
    if Enabled(run, a) && (after.phase.Finishing? || after.phase.Completed?) {
      if a.Written? {
        hide IdsFresh, TrustOf;
        assert after.log + Mains(after.pending) == run.log + Mains(LastEvents(after, a.markdown, a.title));
      } else {
        TailStays(run, a);
        hide Next, Enabled, Mains, LastEvents;
        var init, markdown, title :| run.log + Mains(run.pending) == init + Mains(LastEvents(run, markdown, title));
        assert after.log + Mains(after.pending) == init + Mains(LastEvents(after, markdown, title));
      }
    }
  }

  /** After the report is written nothing changes but that the pending events go out. */
  lemma TailStays(run: Run, a: Action)
    requires Enabled(run, a) && !a.Written? && (Next(run, a).phase.Finishing? || Next(run, a).phase.Completed?)
    ensures var after := Next(run, a);
            && (run.phase.Finishing? || run.phase.Completed?)
            && after.log + Mains(after.pending) == run.log + Mains(run.pending)
            && forall markdown, title :: LastEvents(after, markdown, title) == LastEvents(run, markdown, title)
  {
    hide Step, IdsFresh, TrustOf, NewTasks, IdSet, ConflictIdSet, Register;
    assert a.EmitMain? || a.Return?;
    if a.EmitMain? {
      assert run.log + [Entry(Main, run.pending[0])] + Mains(run.pending[1..]) == run.log + Mains(run.pending);
    }
  }

  lemma {:induction false} RunTail(run: Run, actions: seq<Action>)
    requires TailOk(run)
    ensures TailOk(RunAll(run, actions))
    decreases |actions|
  {
    hide TailOk, Next;
    if actions != [] {
      NextTail(run, actions[0]);
      RunTail(Next(run, actions[0]), actions[1..]);
    }
  }

  predicate Final(d: Payload) {
    d.Report? || d.Done?
  }

  lemma {:induction false} SectionsNeverFinish(trace: seq<Payload>, id: string)
    requires PartialTrace(trace, id)
    ensures forall d :: d in trace ==> !Final(d)
  {
    if trace != [] {
      var n := |trace| - 1;
      assert FollowAll(Unborn, trace[..n], id) != Broken;
      SectionsNeverFinish(trace[..n], id);
      assert forall d :: d in trace <==> d in trace[..n] || d == trace[n];
    }
  }

  predicate BeforeReport(stage: Stage) {
    Early(stage) || stage.Research? || stage.Drafting?
  }

  lemma TakesNoFinal(w: Whole, e: Entry, approval: bool, sections: seq<PlanSection>)
    requires BeforeReport(Take(w, e, approval, sections).stage)
    ensures BeforeReport(w.stage) && (e.owner.Main? ==> !Final(e.data))
  {
  }

  /** Up to the drafting of the report the engine has emitted neither a report nor a `done`. */
  lemma {:induction false} NotYetFinal(log: seq<Entry>, approval: bool, sections: seq<PlanSection>)
    requires BeforeReport(TakeAll(log, approval, sections).stage)
    ensures forall i :: 0 <= i < |log| && log[i].owner.Main? ==> !Final(log[i].data)
  {
    if log != [] {
      hide Take, BeforeReport, Final;
      var n := |log| - 1;
      assert TakeAll(log, approval, sections) == Take(TakeAll(log[..n], approval, sections), log[n], approval, sections);
      hide TakeAll;
      TakesNoFinal(TakeAll(log[..n], approval, sections), log[n], approval, sections);
      NotYetFinal(log[..n], approval, sections);
    }
  }

  /** A log of the language that went through all of it ends in the report and `done`, the first of their kind. */
  lemma FinalComesLast(init: seq<Entry>, report: Payload, done: Payload, approval: bool, sections: seq<PlanSection>)
    requires TakeAll(init + Mains([report, done]), approval, sections).stage == Finished && report.Report? && done.Done?
    ensures forall i :: 0 <= i < |init| && init[i].owner.Main? ==> !Final(init[i].data)
  {
    assert init + Mains([report, done]) == init + [Entry(Main, report)] + [Entry(Main, done)];
    TakeSnoc(init + [Entry(Main, report)], Entry(Main, done), approval, sections);
    TakeSnoc(init, Entry(Main, report), approval, sections);
    var w := TakeAll(init, approval, sections);
    hide TakeAll;
    assert w.stage == Drafting;
    NotYetFinal(init, approval, sections);
  }

  /** A completed run's log is one that ended well: one report with the run's trust summary, then its `done`. */
  lemma CompletedLogEnds(run: Run, approval: bool, maxIters: nat, actions: seq<Action>) returns (markdown: string, title: string)
    requires Reachable(run, approval, maxIters, actions) && run.phase.Completed?
    ensures P.Completed(Events(run.log), markdown, title, TrustOf(run.tasks))
    ensures Events(run.log)[|run.log| - 1].data == Done(title, |run.registry.sources|, TrustOf(run.tasks))
  {
    ReachableOk(run, approval, maxIters, actions);
    RunTail(NewRun(approval, maxIters), actions);
    hide TakeAll, TrustOf, AllBooks, OwnEvents, FindingsOk, Reachable, EventsOf;
    assert run.pending == [] && run.log + Mains([]) == run.log;
    var init, m, t :| run.log + Mains(run.pending) == init + Mains(LastEvents(run, m, t));
    markdown, title := m, t;
    var trust := TrustOf(run.tasks);
    LogEnds(run, init, Report(markdown, title, trust), Done(title, |run.registry.sources|, trust));
    hide Mains, LanguageOk, P.Completed;
    EndsCompleted(run.log, |init|, markdown, title, trust, |run.registry.sources|);
  }

  lemma EndsCompleted(log: seq<Entry>, n: nat, markdown: string, title: string, trust: Option<ConfidenceSummary>, sources: nat)
    requires |log| == n + 2 && log[n].data == Report(markdown, title, trust) && log[n + 1].data == Done(title, sources, trust)
    requires forall i :: 0 <= i < n ==> !Final(log[i].data)
    ensures P.Completed(Events(log), markdown, title, trust) && Events(log)[n + 1].data == Done(title, sources, trust)
  {
  }

  lemma LogEnds(run: Run, init: seq<Entry>, report: Payload, done: Payload)
    requires LanguageOk(run) && run.phase.Completed? && run.log == init + Mains([report, done]) && report.Report? && done.Done?
    ensures |run.log| == |init| + 2 && run.log[|init|].data == report && run.log[|init| + 1].data == done
    ensures forall i :: 0 <= i < |init| ==> !Final(run.log[i].data)
  {
    hide TakeAll, AllBooks, OwnEvents;
    assert run.log + Mains([]) == run.log;
    FinalComesLast(init, report, done, run.approval, run.sections);
    forall i | 0 <= i < |init|
      ensures !Final(run.log[i].data)
    {
      assert run.log[i] == init[i];
      if run.log[i].owner.Of? {
        SectionEventsNotFinal(run, i);
      }
    }
  }

  lemma SectionEventsNotFinal(run: Run, i: nat)
    requires LanguageOk(run) && i < |run.log| && run.log[i].owner.Of?
    ensures !Final(run.log[i].data)
  {
    hide TakeAll, EventsOf, FollowAll, BooksOk, Heading;
    var k := run.log[i].owner.section;
    InOwnEvents(run.log, i);
    assert EventsOf(run.log, Of(k)) == TraceOf(run, k);
    BooksOf(run, k);
    SectionPartial(run.tasks[k], run.maxIters);
    SectionsNeverFinish(run.tasks[k].trace, run.tasks[k].section.id);
  }

  // ----- both sides of a completed run -------------------------------------------------------------------

  lemma SingleSources(run: Run, approval: bool, maxIters: nat, actions: seq<Action>)
    requires Reachable(run, approval, maxIters, actions)
    ensures forall k :: 0 <= k < |ClaimsOf(run.tasks)| ==> |ClaimsOf(run.tasks)[k].sourceIds| == 1
  {
    hide Reachable;
    ClaimsAreAlignedAndGrounded(run, approval, maxIters, actions);
    forall k | 0 <= k < |ClaimsOf(run.tasks)|
      ensures |ClaimsOf(run.tasks)[k].sourceIds| == 1
    {
      assert ClaimsOf(run.tasks)[k] in ClaimsOf(run.tasks);
    }
  }

  /** The counts the client derives from the claims it was told are the engine's own. */
  lemma DerivedCountsAgree(run: Run, approval: bool, maxIters: nat, actions: seq<Action>)
    requires Reachable(run, approval, maxIters, actions) && run.phase.Completed?
    ensures ClientSummary(Reducer.Fold(Events(run.log)))
         == ServerSummary(ClaimsOf(run.tasks), VerifsOf(run.tasks), ConflictsOf(run.tasks))
  {
    hide Reachable, Tells, ClientSummary, ServerSummary, Reducer.Fold;
    CompletedLogTells(run, approval, maxIters, actions);
    SingleSources(run, approval, maxIters, actions);
    SingleSourceAgrees(Events(run.log), ClaimsOf(run.tasks), VerifsOf(run.tasks), ConflictsOf(run.tasks));
  }

  /** The stored tables and the client's state show the same outcome, with this trust summary and this many sources. */
  ghost predicate SameShown(log: seq<Event>, trust: Option<ConfidenceSummary>, n: nat) {
    var server, client := P.Stored(log), Reducer.Fold(log);
    && server.status == client.status == "done"
    && server.report == Some(client.report)
    && server.title == client.title && client.title.Some?
    && P.LastTrust(log) == client.trust == trust
    && client.sourceCount == Some(n)
    && P.InOrder(P.CollectAll(map[], client.sections)) == P.InOrder(server.sources)
  }

  /**
   * On every completed run of the engine, however its sections interleaved, the server's tables and the client
   * that applied the log show the same status, report, title, trust summary and sources, and the counts the
   * client derives from the claims it saw are the summary the engine attached.
   */
  lemma BothSidesAgree(run: Run, approval: bool, maxIters: nat, actions: seq<Action>)
    requires Reachable(run, approval, maxIters, actions) && run.phase.Completed?
    ensures SameShown(Events(run.log), TrustOf(run.tasks), |run.registry.sources|)
    ensures TrustOf(run.tasks).Some? ==> ClientSummary(Reducer.Fold(Events(run.log))) == TrustOf(run.tasks).value
  {
    ReachableOk(run, approval, maxIters, actions);
    hide Reachable, SameShown, Reducer.Fold, ClientSummary, ServerSummary, ClaimsOf, VerifsOf, ConflictsOf;
    OutcomeShown(run, approval, maxIters, actions);
    DerivedCountsAgree(run, approval, maxIters, actions);
  }

  lemma OutcomeShown(run: Run, approval: bool, maxIters: nat, actions: seq<Action>)
    requires Reachable(run, approval, maxIters, actions) && run.phase.Completed?
    ensures SameShown(Events(run.log), TrustOf(run.tasks), |run.registry.sources|)
  {
    hide Reachable, LanguageOk, SourcesOk, Grounded, IdsOk, P.OneSourcePerId, P.Completed, SameShown, TrustOf;
    ReachableOk(run, approval, maxIters, actions);
    var markdown, title := CompletedLogEnds(run, approval, maxIters, actions);
    LogHasOneSourcePerId(run);
    ShownAlike(Events(run.log), markdown, title, TrustOf(run.tasks), |run.registry.sources|);
  }

  lemma ShownAlike(log: seq<Event>, markdown: string, title: string, trust: Option<ConfidenceSummary>, n: nat)
    requires P.Completed(log, markdown, title, trust) && log[|log| - 1].data == Done(title, n, trust)
    requires P.OneSourcePerId(log)
    ensures SameShown(log, trust, n)
  {
    hide P.Stored, Reducer.Fold, P.OneSourcePerId, P.Completed, P.LastTrust, P.InOrder, P.CollectAll;
    CompletedAgreesWith(log, markdown, title, trust, n);
    P.SourcesAgree(log);
  }

  lemma CompletedAgreesWith(log: seq<Event>, markdown: string, title: string, trust: Option<ConfidenceSummary>, n: nat)
    requires P.Completed(log, markdown, title, trust) && log[|log| - 1].data == Done(title, n, trust)
    ensures P.Stored(log).status == Reducer.Fold(log).status == "done"
    ensures P.Stored(log).report == Some(Reducer.Fold(log).report)
    ensures P.Stored(log).title == Reducer.Fold(log).title == Some(title)
    ensures P.LastTrust(log) == Reducer.Fold(log).trust == trust
    ensures Reducer.Fold(log).sourceCount == Some(n)
  {
    P.CompletedAgrees(log, markdown, title, trust);
    hide P.Stored, P.LastTrust, Reducer.ReduceEvent, P.Completed;
    FoldOfDone(Reducer.Fold(log[..|log| - 1]), log[|log| - 1].data);
  }

  lemma FoldOfDone(s: Reducer.StreamState, d: Payload)
    requires d.Done?
    ensures Reducer.ReduceEvent(s, d).sourceCount == Some(d.sourceCount)
  {
  }
}
