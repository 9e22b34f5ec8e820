/**
 * The events of one section, as a language: a start, then searches, each followed by sources,
 * each source by its claims and then by one verdict per claim in the claims' order, then
 * contradictions, notes and the section's end. Every step of a section keeps to it.
 */
module SectionTrace {
  import opened Common
  import opened Wire
  import opened Findings
  import opened Trust
  import opened Section
  import G = Grounding
  import V = Verifier
  import R = Registry

  /** How far a section's events have come. `ids` are the claims listed for a source, `left` those not judged yet. */
  datatype Shape =
    | Unborn | Open | Searched
    | Listing(source: nat, ids: seq<string>)
    | Judging(left: seq<string>)
    | Conflicting | Noting | Closed | Broken

  /** What may come next when no claim waits for its verdict. */
  function Beyond(d: Payload, id: string): Shape {
    match d
    case Search(sectionId, _) => if sectionId == id then Searched else Broken
    case Conflict(_, _, _, _, _) => Conflicting
    case Note(sectionId, _) => if sectionId == id then Noting else Broken
    case SectionDone(sectionId, _, _) => if sectionId == id then Closed else Broken
    case _ => Broken
  }

  function AfterSearch(d: Payload, id: string): Shape {
    if d.Found? && d.sectionId == id && d.source.sectionId == Some(id) then Listing(d.source.id, []) else Beyond(d, id)
  }

  function Judged(left: seq<string>): Shape {
    if left == [] then Searched else Judging(left)
  }

  /** One event of the section with this id. A claim cites exactly the source it is listed for. */
  function Follow(s: Shape, d: Payload, id: string): Shape {
    match s
    case Unborn => if d.SectionStart? && d.sectionId == id then Open else Broken
    case Open => Beyond(d, id)
    case Searched => AfterSearch(d, id)
    case Listing(source, ids) =>
      if d.Claimed? && d.sectionId == id && d.sourceIds == [source] then Listing(source, ids + [d.claimId])
      else if ids == [] then AfterSearch(d, id)
      else if d.Verified? && d.claimId == ids[0] then Judged(ids[1..])
      else Broken
    case Judging(left) => if d.Verified? && left != [] && d.claimId == left[0] then Judged(left[1..]) else Broken
    case Conflicting => if d.Search? then Broken else Beyond(d, id)
    case Noting => if d.Search? || d.Conflict? then Broken else Beyond(d, id)
    case Closed => Broken
    case Broken => Broken
  }

  function FollowAll(s: Shape, trace: seq<Payload>, id: string): Shape {
    if trace == [] then s else Follow(FollowAll(s, trace[..|trace| - 1], id), trace[|trace| - 1], id)
  }

  /** A whole section's events, and the beginning of one's. */
  predicate CompleteTrace(trace: seq<Payload>, id: string) {
    FollowAll(Unborn, trace, id) == Closed
  }

  predicate PartialTrace(trace: seq<Payload>, id: string) {
    FollowAll(Unborn, trace, id) != Broken
  }

  lemma {:induction false} FollowAppend(s: Shape, a: seq<Payload>, b: seq<Payload>, id: string)
    ensures FollowAll(s, a + b, id) == FollowAll(FollowAll(s, a, id), b, id)
  {
    if b == [] {
      assert a + b == a;
    } else {
      assert (a + b)[..|a + b| - 1] == a + b[..|b| - 1];
      FollowAppend(s, a, b[..|b| - 1], id);
    }
  }

  lemma {:induction false} BrokenStays(trace: seq<Payload>, id: string)
    ensures FollowAll(Broken, trace, id) == Broken
  {
    if trace != [] {
      BrokenStays(trace[..|trace| - 1], id);
    }
  }

  /** A beginning of a beginning is one. */
  lemma PartialPrefix(a: seq<Payload>, b: seq<Payload>, id: string)
    requires PartialTrace(a + b, id)
    ensures PartialTrace(a, id)
  {
    FollowAppend(Unborn, a, b, id);
    BrokenStays(b, id);
  }

  // ----- runs of like events -------------------------------------------------------------------

  function Ids(claims: seq<Claim>): (r: seq<string>)
    ensures |r| == |claims| && forall k :: 0 <= k < |r| ==> r[k] == claims[k].id
  {
    seq(|claims|, k requires 0 <= k < |claims| => claims[k].id)
  }

  predicate AtRest(s: Shape) {
    s.Open? || s.Searched? || (s.Listing? && s.ids == [])
  }

  lemma ClaimEventsLast(claims: seq<Claim>)
    requires claims != []
    ensures var init, c := claims[..|claims| - 1], claims[|claims| - 1];
            ClaimEvents(claims) == ClaimEvents(init) + [ClaimedAs(c)] && Ids(claims) == Ids(init) + [c.id]
  {
    hide ClaimedAs;
  }

  lemma {:induction false} ClaimsFollow(source: nat, claims: seq<Claim>, id: string)
    requires forall k :: 0 <= k < |claims| ==> claims[k].sectionId == id && claims[k].sourceIds == [source]
    ensures FollowAll(Listing(source, []), ClaimEvents(claims), id) == Listing(source, Ids(claims))
  {
    if claims != [] {
      var init := claims[..|claims| - 1];
      ClaimsFollow(source, init, id);
      hide ClaimEvents, Ids, FollowAll;
      ClaimEventsLast(claims);
      FollowAppend(Listing(source, []), ClaimEvents(init), [ClaimedAs(claims[|init|])], id);
      OneFollows(Listing(source, Ids(init)), ClaimedAs(claims[|init|]), id);
    } else {
      assert Ids(claims) == [];
    }
  }

  /** The verdicts so far take the claims off the list one by one. */
  lemma {:induction false} VerdictsFollow(source: nat, ids: seq<string>, verifs: seq<Verification>, id: string)
    requires ids != [] && |verifs| <= |ids| && forall k :: 0 <= k < |verifs| ==> verifs[k].claimId == ids[k]
    ensures FollowAll(Listing(source, ids), VerdictEvents(verifs), id)
         == if verifs == [] then Listing(source, ids) else Judged(ids[|verifs|..])
  {
    if verifs != [] {
      var n := |verifs| - 1;
      VerdictsFollow(source, ids, verifs[..n], id);
      assert VerdictEvents(verifs)[..n] == VerdictEvents(verifs[..n]);
      assert ids[n..][1..] == ids[n + 1..];
    }
  }

  lemma ConflictEventsLast(xs: seq<Contradiction>)
    requires xs != []
    ensures ConflictEvents(xs) == ConflictEvents(xs[..|xs| - 1]) + [ConflictAs(xs[|xs| - 1])]
  {
    hide ConflictAs;
  }

  lemma ConflictFollows(s: Shape, x: Contradiction, id: string)
    requires AtRest(s) || s == Conflicting
    ensures FollowAll(s, [ConflictAs(x)], id) == Conflicting
  {
    hide FollowAll;
    OneFollows(s, ConflictAs(x), id);
  }

  lemma {:induction false} ConflictsFollow(s: Shape, xs: seq<Contradiction>, id: string)
    requires AtRest(s)
    ensures FollowAll(s, ConflictEvents(xs), id) == if xs == [] then s else Conflicting
  {
    if xs != [] {
      var init := xs[..|xs| - 1];
      ConflictsFollow(s, init, id);
      hide ConflictEvents, FollowAll;
      ConflictEventsLast(xs);
      FollowAppend(s, ConflictEvents(init), [ConflictAs(xs[|init|])], id);
      ConflictFollows(FollowAll(s, ConflictEvents(init), id), xs[|init|], id);
    }
  }

  lemma {:induction false} NotesFollow(s: Shape, notes: seq<string>, id: string)
    requires AtRest(s) || s.Conflicting?
    ensures FollowAll(s, NoteEvents(id, notes), id) == if notes == [] then s else Noting
  {
    if notes != [] {
      var init := notes[..|notes| - 1];
      NotesFollow(s, init, id);
      assert NoteEvents(id, notes)[..|init|] == NoteEvents(id, init);
    }
  }

  // ----- the section keeps to the language ------------------------------------------------------------

  /** What the events emitted and about to be emitted amount to, by the point the coroutine is at. */
  predicate Expected(pc: Pc, s: Shape) {
    match pc
    case Waiting => s.Unborn?
    case NextQuery => AtRest(s)
    case Searching => s.Searched?
    case NextPage => s.Searched? || (s.Listing? && s.ids == [])
    case Extracting(_, source) => s == Listing(source.id, [])
    case Verifying(claims) => s.Listing? && s.ids == Ids(claims)
    case Reflecting => AtRest(s)
    case Concluding => AtRest(s)
    case Compressing => AtRest(s) || s.Conflicting? || s.Noting?
    case Returned => s.Closed?
  }

  function Told(t: Task): seq<Payload> {
    t.trace + t.pending
  }

  predicate ShapeOk(t: Task) {
    Expected(t.pc, FollowAll(Unborn, Told(t), t.section.id))
  }

  lemma OneFollows(s: Shape, d: Payload, id: string)
    ensures FollowAll(s, [d], id) == Follow(s, d, id)
  {
    assert [d][..0] == [];
  }

  lemma ExtractedFollow(t: Task, r: R.Registry, input: Input, maxIters: nat)
    requires Ready(t, input) && t.pc.Extracting?
    ensures var after := Step(t, r, input, maxIters);
            FollowAll(Listing(t.pc.source.id, []), after.pending, t.section.id) == Listing(t.pc.source.id, Ids(after.pc.extracted))
  {
    var claims := Step(t, r, input, maxIters).pc.extracted;
    forall k | 0 <= k < |claims|
      ensures claims[k].sectionId == t.section.id && claims[k].sourceIds == [t.pc.source.id]
    {
      assert claims[k] in claims;
      G.ClaimsAreGrounded(input.claims.GetOr([]), t.pc.page.text, t.pc.source.id, t.section.id, input.ids, claims[k]);
    }
    ClaimsFollow(t.pc.source.id, claims, t.section.id);
  }

  lemma VerdictsAllFollow(source: nat, claims: seq<Claim>, verifs: seq<Verification>, id: string)
    requires Aligned(claims, verifs)
    ensures FollowAll(Listing(source, Ids(claims)), VerdictEvents(verifs), id)
         == if claims == [] then Listing(source, []) else Searched
  {
    if claims != [] {
      VerdictsFollow(source, Ids(claims), verifs, id);
      assert Ids(claims)[|verifs|..] == [];
    } else {
      assert Ids(claims) == [];
    }
  }

  lemma ConcludingFollows(t: Task, r: R.Registry, input: Input, maxIters: nat, s: Shape)
    requires Ready(t, input) && t.pc.Concluding? && AtRest(s)
    ensures var end := FollowAll(s, Step(t, r, input, maxIters).pending, t.section.id);
            AtRest(end) || end.Conflicting? || end.Noting?
  {
    var after := Step(t, r, input, maxIters);
    var id := t.section.id;
    FollowAppend(s, ConflictEvents(after.conflicts), NoteEvents(id, after.notes), id);
    ConflictsFollow(s, after.conflicts, id);
    NotesFollow(FollowAll(s, ConflictEvents(after.conflicts), id), after.notes, id);
  }

  /** The steps that add at most one event. */
  lemma SmallStepFollows(t: Task, r: R.Registry, input: Input, maxIters: nat, s: Shape)
    requires Ready(t, input) && Expected(t.pc, s)
    requires !t.pc.Extracting? && !t.pc.Verifying? && !t.pc.Concluding?
    ensures var after := Step(t, r, input, maxIters);
            Expected(after.pc, FollowAll(s, after.pending, t.section.id))
  {
    var after := Step(t, r, input, maxIters);
    assert FollowAll(s, [], t.section.id) == s;
    if after.pending != [] {
      OneFollows(s, after.pending[0], t.section.id);
    }
  }

  /** The events a step adds lead from the shape expected before it to the one expected after it. */
  lemma StepFollows(t: Task, r: R.Registry, input: Input, maxIters: nat, s: Shape)
    requires Ready(t, input) && Expected(t.pc, s)
    ensures var after := Step(t, r, input, maxIters);
            Expected(after.pc, FollowAll(s, after.pending, t.section.id))
  {
    hide FollowAll;
    match t.pc
    case Extracting(_, _) => ExtractedFollow(t, r, input, maxIters);
    case Verifying(claims) =>
      VerdictsAllFollow(s.source, claims, V.Verdicts(claims, input.verdicts.GetOr([])), t.section.id);
    case Concluding => ConcludingFollows(t, r, input, maxIters, s);
    case _ => SmallStepFollows(t, r, input, maxIters, s);
  }

  lemma StepShape(t: Task, r: R.Registry, input: Input, maxIters: nat)
    requires Ready(t, input) && ShapeOk(t)
    ensures ShapeOk(Step(t, r, input, maxIters))
  {
    hide FollowAll, Expected;
    var after := Step(t, r, input, maxIters);
    assert Told(t) == t.trace;
    StepFollows(t, r, input, maxIters, FollowAll(Unborn, t.trace, t.section.id));
    assert after.trace == t.trace && after.section == t.section;
    FollowAppend(Unborn, t.trace, after.pending, t.section.id);
  }

  lemma EmitTells(t: Task)
    requires t.pending != []
    ensures Told(EmitNext(t)) == Told(t)
  {
  }
}
