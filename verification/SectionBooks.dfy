/**
 * What every step of a section keeps: claims and verdicts stay aligned, what the events tell is what the
 * section holds, each source it finds is mined once, and only a round that found a source is followed by another.
 */
module SectionBooks {
  import opened Common
  import opened Wire
  import opened Findings
  import opened Section
  import opened SectionTrace
  import G = Grounding
  import V = Verifier
  import C = Contradictions
  import R = Registry

  /** Within a round of queries. */
  predicate Going(pc: Pc) {
    pc.Waiting? || pc.NextQuery? || pc.Searching? || pc.NextPage? || pc.Extracting? || pc.Verifying?
  }

  function Extracted(pc: Pc): seq<Claim> {
    if pc.Verifying? then pc.extracted else []
  }

  /** Everything the section has claimed so far. */
  function AllClaims(t: Task): seq<Claim> {
    t.claims + (if Going(t.pc) then t.roundClaims else []) + Extracted(t.pc)
  }

  function AllVerifs(t: Task): seq<Verification> {
    t.verifs + (if Going(t.pc) then t.roundVerifs else [])
  }

  // ----- verdicts ------------------------------------------------------------------------------

  ghost predicate AlignOk(t: Task) {
    Aligned(t.claims, t.verifs) && Aligned(t.roundClaims, t.roundVerifs)
  }

  lemma StepAlign(t: Task, r: R.Registry, input: Input, maxIters: nat)
    requires Ready(t, input) && AlignOk(t)
    ensures AlignOk(Step(t, r, input, maxIters))
  {
    hide Aligned, Filter, CountFor;
    match t.pc
    case Verifying(claims) =>
      AlignedAppend(t.roundClaims, t.roundVerifs, claims, V.Verdicts(claims, input.verdicts.GetOr([])));
    case NextQuery => AlignedAppend(t.claims, t.verifs, t.roundClaims, t.roundVerifs);
    case Reflecting => NothingAligned();
    case _ =>
  }

  // ----- rounds -----------------------------------------------------------------------------------

  function Sum(counts: seq<nat>): nat {
    if counts == [] then 0 else Sum(counts[..|counts| - 1]) + counts[|counts| - 1]
  }

  ghost predicate AllPositive(counts: seq<nat>) {
    forall k :: 0 <= k < |counts| ==> counts[k] > 0
  }

  /** A round without a new source has no claim, and every round but a concluding one found a source. */
  ghost predicate RoundsOk(t: Task, maxIters: nat) {
    && t.round < Max1(maxIters)
    && (t.newSources == 0 ==> t.roundClaims == [] && !t.pc.Extracting? && !t.pc.Verifying?)
    && match t.pc
       case Reflecting => |t.counts| == t.round + 1 < Max1(maxIters) && AllPositive(t.counts)
       case Concluding => |t.counts| == t.round + 1 && AllPositive(t.counts[..t.round])
       case Compressing => |t.counts| == t.round + 1 && AllPositive(t.counts[..t.round])
       case Returned => |t.counts| == t.round + 1 && AllPositive(t.counts[..t.round])
       case _ => |t.counts| == t.round && AllPositive(t.counts)
  }

  lemma StepRounds(t: Task, r: R.Registry, input: Input, maxIters: nat)
    requires Ready(t, input) && AlignOk(t) && RoundsOk(t, maxIters)
    ensures RoundsOk(Step(t, r, input, maxIters), maxIters)
  {
    hide Filter, CountFor;
    if t.pc.NextQuery? && t.queries == [] {
      assert EndRound(t, maxIters).counts[..t.round] == t.counts;
      assert t.newSources == 0 ==> t.roundVerifs == [];
    }
  }

  lemma {:induction false} SumAtLeastLength(counts: seq<nat>)
    requires AllPositive(counts)
    ensures Sum(counts) >= |counts|
  {
    if counts != [] {
      SumAtLeastLength(counts[..|counts| - 1]);
    }
  }

  /** Rounds never exceed the configured number, nor one more than the sources the section added. */
  lemma RoundBound(t: Task, maxIters: nat)
    requires RoundsOk(t, maxIters)
    ensures |t.counts| <= Max1(maxIters) && |t.counts| <= 1 + Sum(t.counts)
  {
    if t.counts != [] {
      var init := t.counts[..|t.counts| - 1];
      assert AllPositive(init);
      SumAtLeastLength(init);
    }
  }

  // ----- sources --------------------------------------------------------------------------------------

  /** The sources found are the rounds' new ones; each one's page is mined, once, right after it is announced. */
  ghost predicate MinedOk(t: Task) {
    && |t.found| == Sum(t.counts) + (if Going(t.pc) then t.newSources else 0)
    && t.found == t.mined + (if t.pc.Extracting? then [t.pc.source] else [])
    && forall k :: 0 <= k < |t.found| ==> t.found[k].sectionId == Some(t.section.id)
  }

  lemma StepMined(t: Task, r: R.Registry, input: Input, maxIters: nat)
    requires Ready(t, input) && MinedOk(t)
    ensures MinedOk(Step(t, r, input, maxIters))
  {
    hide MinedOk, EndRound, TakeQuery, TakePage, AfterReflection, Concluded, PageClaims, CountFor;
    match t.pc
    case NextQuery =>
      if t.queries == [] {
        MinedAtRoundEnd(t, maxIters);
      } else {
        MinedAfterQuery(t);
      }
    case NextPage =>
      if t.pages != [] {
        MinedAfterPage(t, r);
      } else {
        MinedStays(t, Step(t, r, input, maxIters));
      }
    case Extracting(_, _) => MinedAfterExtraction(t, Step(t, r, input, maxIters));
    case Reflecting => MinedAfterReflection(t, input.reply);
    case Concluding => MinedAfterConclusion(t, input.answers, input.conflictIds);
    case _ => MinedStays(t, Step(t, r, input, maxIters));
  }

  /** A step that leaves the sources alone and stays within, or outside, a round. */
  lemma MinedStays(t: Task, u: Task)
    requires MinedOk(t) && u.section == t.section && u.found == t.found && u.mined == t.mined && u.counts == t.counts
    requires Going(u.pc) ==> u.newSources == if Going(t.pc) then t.newSources else 0
    requires Going(t.pc) && !Going(u.pc) ==> t.newSources == 0
    requires !t.pc.Extracting? && !u.pc.Extracting?
    ensures MinedOk(u)
  {
  }

  lemma MinedAtRoundEnd(t: Task, maxIters: nat)
    requires MinedOk(t) && t.pc.NextQuery?
    ensures MinedOk(EndRound(t, maxIters))
  {
    assert (t.counts + [t.newSources])[..|t.counts|] == t.counts;
    assert Sum(t.counts + [t.newSources]) == Sum(t.counts) + t.newSources;
  }

  lemma MinedAfterQuery(t: Task)
    requires MinedOk(t) && t.pc.NextQuery? && t.queries != []
    ensures MinedOk(TakeQuery(t))
  {
    MinedStays(t, TakeQuery(t));
  }

  lemma MinedAfterPage(t: Task, r: R.Registry)
    requires MinedOk(t) && t.pc.NextPage? && t.pages != []
    ensures MinedOk(TakePage(t, r))
  {
    hide Sum;
  }

  lemma MinedAfterExtraction(t: Task, u: Task)
    requires MinedOk(t) && t.pc.Extracting? && u.pc.Verifying?
    requires u.section == t.section && u.found == t.found && u.counts == t.counts && u.newSources == t.newSources
    requires u.mined == t.mined + [t.pc.source]
    ensures MinedOk(u)
  {
    hide Sum;
  }

  lemma MinedAfterReflection(t: Task, reply: Option<(bool, seq<string>)>)
    requires MinedOk(t) && t.pc.Reflecting?
    ensures MinedOk(AfterReflection(t, reply))
  {
    hide FollowUps;
    MinedStays(t, AfterReflection(t, reply));
  }

  lemma MinedAfterConclusion(t: Task, answers: nat -> C.Answer, conflictIds: nat -> string)
    requires MinedOk(t) && t.pc.Concluding?
    ensures MinedOk(Concluded(t, answers, conflictIds))
  {
    hide C.Detected, NotesOf;
    MinedStays(t, Concluded(t, answers, conflictIds));
  }

  // ----- what the events tell ---------------------------------------------------------------------------

  datatype Kind = Claims | Verdicts | Conflicts | Notes | Searches | Sources

  function OfKind(kind: Kind): Payload -> bool {
    (d: Payload) => match kind
      case Claims => d.Claimed?
      case Verdicts => d.Verified?
      case Conflicts => d.Conflict?
      case Notes => d.Note?
      case Searches => d.Search?
      case Sources => d.Found?
  }

  function SearchEvents(sectionId: string, queries: seq<string>): (r: seq<Payload>)
    ensures |r| == |queries| && forall k :: 0 <= k < |r| ==> r[k] == Search(sectionId, queries[k])
  {
    seq(|queries|, k requires 0 <= k < |queries| => Search(sectionId, queries[k]))
  }

  function FoundEvents(sectionId: string, sources: seq<Source>): (r: seq<Payload>)
    ensures |r| == |sources| && forall k :: 0 <= k < |r| ==> r[k] == Found(sectionId, sources[k])
  {
    seq(|sources|, k requires 0 <= k < |sources| => Found(sectionId, sources[k]))
  }

  /** What the section holds, told as events of one kind. */
  function Held(t: Task, kind: Kind): seq<Payload> {
    match kind
    case Claims => ClaimEvents(AllClaims(t))
    case Verdicts => VerdictEvents(AllVerifs(t))
    case Conflicts => ConflictEvents(t.conflicts)
    case Notes => NoteEvents(t.section.id, t.notes)
    case Searches => SearchEvents(t.section.id, t.seen)
    case Sources => FoundEvents(t.section.id, t.found)
  }

  /** Of each kind the events told are exactly what the section holds, in order. */
  ghost predicate Ledger(t: Task) {
    forall kind :: Filter(Told(t), OfKind(kind)) == Held(t, kind)
  }

  /** Contradictions and notes come last: the notes are the supported claims, in order. */
  ghost predicate ConclusionOk(t: Task) {
    if t.pc.Compressing? || t.pc.Returned? then t.notes == NotesOf(t.claims, SupportedIds(t.verifs))
    else t.notes == [] && t.conflicts == []
  }

  lemma StepConclusion(t: Task, r: R.Registry, input: Input, maxIters: nat)
    requires Ready(t, input) && ConclusionOk(t)
    ensures ConclusionOk(Step(t, r, input, maxIters))
  {
    hide Filter, CountFor;
  }

  /** No query is searched twice. */
  ghost predicate SeenOk(t: Task) {
    forall i, j :: 0 <= i < j < |t.seen| ==> t.seen[i] != t.seen[j]
  }

  lemma StepSeen(t: Task, r: R.Registry, input: Input, maxIters: nat)
    requires Ready(t, input) && SeenOk(t)
    ensures SeenOk(Step(t, r, input, maxIters))
  {
    hide Filter, CountFor;
  }

  // ----- the ledger is kept ---------------------------------------------------------------------------------

  lemma ClaimEventsAppend(a: seq<Claim>, b: seq<Claim>)
    ensures ClaimEvents(a + b) == ClaimEvents(a) + ClaimEvents(b)
  {
  }

  lemma VerdictEventsAppend(a: seq<Verification>, b: seq<Verification>)
    ensures VerdictEvents(a + b) == VerdictEvents(a) + VerdictEvents(b)
  {
  }

  /** Events all of one kind. */
  lemma Uniform(events: seq<Payload>, own: Kind, kind: Kind)
    requires forall k :: 0 <= k < |events| ==> OfKind(own)(events[k])
    ensures Filter(events, OfKind(kind)) == if kind == own then events else []
  {
    if kind == own {
      FilterAll(events, OfKind(kind));
    } else {
      FilterNone(events, OfKind(kind));
    }
  }

  /** Holdings of a kind depend on one field only. */
  lemma HeldSame(t: Task, u: Task, kind: Kind)
    requires t.section == u.section
    requires kind == Claims ==> AllClaims(t) == AllClaims(u)
    requires kind == Verdicts ==> AllVerifs(t) == AllVerifs(u)
    requires kind == Conflicts ==> t.conflicts == u.conflicts
    requires kind == Notes ==> t.notes == u.notes
    requires kind == Searches ==> t.seen == u.seen
    requires kind == Sources ==> t.found == u.found
    ensures Held(t, kind) == Held(u, kind)
  {
  }

  lemma OneEvent(d: Payload, kind: Kind)
    ensures Filter([d], OfKind(kind)) == if OfKind(kind)(d) then [d] else []
  {
    assert [d][..0] == [];
  }

  /** Steps that extract, judge and conclude nothing leave claims, verdicts, contradictions and notes alone. */
  lemma PlainStep(t: Task, r: R.Registry, input: Input, maxIters: nat)
    requires Ready(t, input) && !t.pc.Extracting? && !t.pc.Verifying? && !t.pc.Concluding?
    ensures var after := Step(t, r, input, maxIters);
            && AllClaims(after) == AllClaims(t) && AllVerifs(after) == AllVerifs(t)
            && after.conflicts == t.conflicts && after.notes == t.notes && after.section == t.section
  {
    hide CountFor, FollowUps;
  }

  /** The steps that tell no event of any kind hold nothing new. */
  lemma QuietStep(t: Task, r: R.Registry, input: Input, maxIters: nat, kind: Kind)
    requires Ready(t, input) && !t.pc.Extracting? && !t.pc.Verifying? && !t.pc.Concluding?
    requires t.pc.Waiting? || t.pc.Compressing? || Step(t, r, input, maxIters).pending == []
    ensures Held(Step(t, r, input, maxIters), kind) == Held(t, kind)
    ensures Filter(Step(t, r, input, maxIters).pending, OfKind(kind)) == []
  {
    hide CountFor, FollowUps, Held, AllClaims, AllVerifs;
    var after := Step(t, r, input, maxIters);
    assert after.seen == t.seen && after.found == t.found;
    hide EndRound;
    PlainStep(t, r, input, maxIters);
    HeldSame(t, after, kind);
    if after.pending != [] {
      assert after.pending == [after.pending[0]];
      OneEvent(after.pending[0], kind);
    }
  }

  lemma SearchStep(t: Task, r: R.Registry, input: Input, maxIters: nat, kind: Kind)
    requires Ready(t, input) && t.pc.NextQuery? && Step(t, r, input, maxIters).pending != []
    ensures var after := Step(t, r, input, maxIters);
            Held(after, kind) == Held(t, kind) + Filter(after.pending, OfKind(kind))
  {
    hide AllClaims, AllVerifs, Filter;
    var after := Step(t, r, input, maxIters);
    var q := t.queries[0];
    assert after.pending == [Search(t.section.id, q)] && after.seen == t.seen + [q] && after.found == t.found;
    hide EndRound;
    PlainStep(t, r, input, maxIters);
    OneEvent(Search(t.section.id, q), kind);
    hide Step;
    if kind == Searches {
      assert SearchEvents(t.section.id, t.seen + [q]) == SearchEvents(t.section.id, t.seen) + [Search(t.section.id, q)];
    } else {
      hide Held;
      HeldSame(t, after, kind);
    }
  }

  lemma FoundStep(t: Task, r: R.Registry, input: Input, maxIters: nat, kind: Kind)
    requires Ready(t, input) && t.pc.NextPage? && Step(t, r, input, maxIters).pending != []
    ensures var after := Step(t, r, input, maxIters);
            Held(after, kind) == Held(t, kind) + Filter(after.pending, OfKind(kind))
  {
    hide AllClaims, AllVerifs, Filter;
    var after := Step(t, r, input, maxIters);
    var source := after.pc.source;
    assert after.pending == [Found(t.section.id, source)] && after.found == t.found + [source] && after.seen == t.seen;
    PlainStep(t, r, input, maxIters);
    OneEvent(Found(t.section.id, source), kind);
    hide Step;
    if kind == Sources {
      assert FoundEvents(t.section.id, t.found + [source]) == FoundEvents(t.section.id, t.found) + [Found(t.section.id, source)];
    } else {
      hide Held;
      HeldSame(t, after, kind);
    }
  }

  lemma ExtractStep(t: Task, r: R.Registry, input: Input, maxIters: nat, kind: Kind)
    requires Ready(t, input) && t.pc.Extracting?
    ensures var after := Step(t, r, input, maxIters);
            Held(after, kind) == Held(t, kind) + Filter(after.pending, OfKind(kind))
  {
    hide G.Extracted;
    var after := Step(t, r, input, maxIters);
    var claims := after.pc.extracted;
    assert after.pending == ClaimEvents(claims);
    assert AllClaims(after) == AllClaims(t) + claims && AllVerifs(after) == AllVerifs(t);
    hide AllClaims, AllVerifs, Filter;
    Uniform(after.pending, Claims, kind);
    if kind == Claims {
      ClaimEventsAppend(AllClaims(t), claims);
    } else {
      HeldSame(t, after, kind);
    }
  }

  lemma VerifyStep(t: Task, r: R.Registry, input: Input, maxIters: nat, kind: Kind)
    requires Ready(t, input) && t.pc.Verifying?
    ensures var after := Step(t, r, input, maxIters);
            Held(after, kind) == Held(t, kind) + Filter(after.pending, OfKind(kind))
  {
    var after := Step(t, r, input, maxIters);
    var verifs := V.Verdicts(t.pc.extracted, input.verdicts.GetOr([]));
    hide V.Verdicts;
    assert after.pending == VerdictEvents(verifs);
    assert AllClaims(after) == AllClaims(t) && AllVerifs(after) == AllVerifs(t) + verifs;
    hide AllClaims, AllVerifs, Filter;
    Uniform(after.pending, Verdicts, kind);
    if kind == Verdicts {
      VerdictEventsAppend(AllVerifs(t), verifs);
    } else {
      HeldSame(t, after, kind);
    }
  }

  lemma ConclusionEvents(xs: seq<Contradiction>, sectionId: string, notes: seq<string>, kind: Kind)
    ensures Filter(ConflictEvents(xs) + NoteEvents(sectionId, notes), OfKind(kind))
         == if kind == Conflicts then ConflictEvents(xs) else if kind == Notes then NoteEvents(sectionId, notes) else []
  {
    hide Filter;
    Uniform(ConflictEvents(xs), Conflicts, kind);
    Uniform(NoteEvents(sectionId, notes), Notes, kind);
    FilterAppend(ConflictEvents(xs), NoteEvents(sectionId, notes), OfKind(kind));
  }

  lemma ConcludeStep(t: Task, r: R.Registry, input: Input, maxIters: nat, kind: Kind)
    requires Ready(t, input) && t.pc.Concluding? && ConclusionOk(t)
    ensures var after := Step(t, r, input, maxIters);
            Held(after, kind) == Held(t, kind) + Filter(after.pending, OfKind(kind))
  {
    hide C.Detected, NotesOf, Filter, OfKind;
    var after := Step(t, r, input, maxIters);
    assert after.pending == ConflictEvents(after.conflicts) + NoteEvents(t.section.id, after.notes);
    assert AllClaims(after) == AllClaims(t) && AllVerifs(after) == AllVerifs(t) && after.section == t.section;
    assert after.seen == t.seen && after.found == t.found;
    ConclusionEvents(after.conflicts, t.section.id, after.notes, kind);
    hide AllClaims, AllVerifs, Step;
    if kind == Conflicts || kind == Notes {
      assert Held(t, kind) == [];
    } else {
      HeldSame(t, after, kind);
    }
  }

  lemma StepHolds(t: Task, r: R.Registry, input: Input, maxIters: nat, kind: Kind)
    requires Ready(t, input) && ConclusionOk(t)
    ensures var after := Step(t, r, input, maxIters);
            Held(after, kind) == Held(t, kind) + Filter(after.pending, OfKind(kind))
  {
    var after := Step(t, r, input, maxIters);
    if t.pc.Extracting? {
      ExtractStep(t, r, input, maxIters, kind);
    } else if t.pc.Verifying? {
      VerifyStep(t, r, input, maxIters, kind);
    } else if t.pc.Concluding? {
      ConcludeStep(t, r, input, maxIters, kind);
    } else if t.pc.NextQuery? && after.pending != [] {
      SearchStep(t, r, input, maxIters, kind);
    } else if t.pc.NextPage? && after.pending != [] {
      FoundStep(t, r, input, maxIters, kind);
    } else {
      QuietStep(t, r, input, maxIters, kind);
    }
  }

  lemma StepLedger(t: Task, r: R.Registry, input: Input, maxIters: nat)
    requires Ready(t, input) && ConclusionOk(t) && Ledger(t)
    ensures Ledger(Step(t, r, input, maxIters))
  {
    hide Held, Filter, OfKind;
    var after := Step(t, r, input, maxIters);
    assert Told(t) == t.trace && Told(after) == Told(t) + after.pending;
    forall kind | true
      ensures Filter(Told(after), OfKind(kind)) == Held(after, kind)
    {
      StepHolds(t, r, input, maxIters, kind);
      FilterAppend(Told(t), after.pending, OfKind(kind));
    }
  }

  // ----- all of it ---------------------------------------------------------------------------------------------

  ghost predicate BooksOk(t: Task, maxIters: nat) {
    ShapeOk(t) && AlignOk(t) && RoundsOk(t, maxIters) && MinedOk(t) && ConclusionOk(t) && SeenOk(t) && Ledger(t)
  }

  lemma NewBooks(section: PlanSection, maxIters: nat)
    ensures BooksOk(NewTask(section), maxIters)
  {
  }

  lemma StepBooks(t: Task, r: R.Registry, input: Input, maxIters: nat)
    requires Ready(t, input) && BooksOk(t, maxIters)
    ensures BooksOk(Step(t, r, input, maxIters), maxIters)
  {
    hide Step, ShapeOk, AlignOk, RoundsOk, MinedOk, ConclusionOk, SeenOk, Ledger;
    StepShape(t, r, input, maxIters);
    StepAlign(t, r, input, maxIters);
    StepRounds(t, r, input, maxIters);
    StepMined(t, r, input, maxIters);
    StepConclusion(t, r, input, maxIters);
    StepSeen(t, r, input, maxIters);
    StepLedger(t, r, input, maxIters);
  }

  lemma EmitBooks(t: Task, maxIters: nat)
    requires t.pending != [] && BooksOk(t, maxIters)
    ensures BooksOk(EmitNext(t), maxIters)
  {
    hide FollowAll, Filter;
    EmitTells(t);
    assert forall kind :: Held(EmitNext(t), kind) == Held(t, kind);
    hide Held;
  }
}
