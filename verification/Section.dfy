/**
 * One section's research as a coroutine: `_research_v2`, `_run_queries_v2` and `_finish_section`
 * of backend/app/core/researcher.py. A step is the stretch between two waits; what a wait brings
 * (search results, model replies, new ids) is the step's input and may be anything.
 */
module Section {
  import opened Common
  import opened Wire
  import opened Findings
  import opened Trust
  import G = Grounding
  import V = Verifier
  import C = Contradictions
  import R = Registry
  import Text

  /** A search result together with what fetching it gave. */
  datatype Page = Page(url: string, title: string, snippet: string, ok: bool, text: string)

  /** Where the coroutine waits, or what it does next. */
  datatype Pc =
    | Waiting | NextQuery | Searching | NextPage
    | Extracting(page: Page, source: Source)
    | Verifying(extracted: seq<Claim>)
    | Reflecting | Concluding | Compressing | Returned

  /**
   * `pending` are the events it is emitting one by one. `found` are the sources it registered, `mined` those
   * whose page went through claim extraction, `counts` the new sources of each finished round, `trace` its events so far.
   */
  datatype Task = Task(
    section: PlanSection, pc: Pc, pending: seq<Payload>, round: nat,
    queries: seq<string>, seen: seq<string>, pages: seq<Page>, newSources: nat,
    roundClaims: seq<Claim>, roundVerifs: seq<Verification>,
    claims: seq<Claim>, verifs: seq<Verification>, conflicts: seq<Contradiction>, notes: seq<string>,
    found: seq<Source>, mined: seq<Source>, counts: seq<nat>, trace: seq<Payload>)

  function NewTask(section: PlanSection): Task {
    Task(section, Waiting, [], 0, [], [], [], 0, [], [], [], [], [], [], [], [], [], [])
  }

  datatype Input =
    | Go
    | Results(pages: seq<Page>)
    | Extraction(claims: Option<seq<G.Item>>, ids: seq<string>)
    | Judgements(verdicts: Option<seq<V.Item>>)
    | Reflection(reply: Option<(bool, seq<string>)>)
    | Answers(answers: nat -> C.Answer, conflictIds: nat -> string)
    | Summary(text: string)

  /** The coroutine is at rest between its emits and this is what it waits for. */
  predicate Ready(t: Task, input: Input) {
    && t.pending == []
    && match t.pc
       case Waiting => input.Go?
       case NextQuery => input.Go?
       case Searching => input.Results?
       case NextPage => input.Go?
       case Extracting(_, _) => input.Extraction? && |input.ids| == |input.claims.GetOr([])|
       case Verifying(_) => input.Judgements?
       case Reflecting => input.Reflection?
       case Concluding => input.Answers?
       case Compressing => input.Summary?
       case Returned => false
  }

  function ClaimEvents(claims: seq<Claim>): (r: seq<Payload>)
    ensures |r| == |claims| && forall k :: 0 <= k < |r| ==> r[k] == ClaimedAs(claims[k])
  {
    seq(|claims|, k requires 0 <= k < |claims| => ClaimedAs(claims[k]))
  }

  function VerdictEvents(verifs: seq<Verification>): (r: seq<Payload>)
    ensures |r| == |verifs| && forall k :: 0 <= k < |r| ==> r[k] == VerifiedAs(verifs[k])
  {
    seq(|verifs|, k requires 0 <= k < |verifs| => VerifiedAs(verifs[k]))
  }

  function ConflictEvents(xs: seq<Contradiction>): (r: seq<Payload>)
    ensures |r| == |xs| && forall k :: 0 <= k < |r| ==> r[k] == ConflictAs(xs[k])
  {
    seq(|xs|, k requires 0 <= k < |xs| => ConflictAs(xs[k]))
  }

  function NoteEvents(sectionId: string, notes: seq<string>): (r: seq<Payload>)
    ensures |r| == |notes| && forall k :: 0 <= k < |r| ==> r[k] == Note(sectionId, notes[k])
  {
    seq(|notes|, k requires 0 <= k < |notes| => Note(sectionId, notes[k]))
  }

  function Digits(n: nat): string {
    if n < 10 then ["0123456789"[n]] else Digits(n / 10) + ["0123456789"[n % 10]]
  }

  /** The citation marks `[1][2]`. */
  function Cites(ids: seq<nat>): string {
    if ids == [] then "" else "[" + Digits(ids[0]) + "]" + Cites(ids[1..])
  }

  function NoteText(c: Claim): string {
    Text.Strip(c.text + " " + Cites(c.sourceIds))
  }

  function InSet(ids: set<string>): Claim -> bool {
    (c: Claim) => c.id in ids
  }

  /** What a note says of a claim whose text has no white space around it: the text, then the mark of its source. */
  lemma NoteReads(c: Claim, id: nat)
    requires c.sourceIds == [id] && c.text != "" && Text.Strip(c.text) == c.text
    ensures NoteText(c) == c.text + " [" + Digits(id) + "]"
  {
    var note := c.text + " [" + Digits(id) + "]";
    assert Cites([id]) == "[" + Digits(id) + "]" + Cites([]);
    assert c.text + " " + Cites([id]) == note;
    Text.StrippedEnds(c.text);
    Text.SolidStays(note);
  }

  /** The supported claims, in order, as notes. */
  function NotesOf(claims: seq<Claim>, supported: set<string>): (r: seq<string>)
    ensures |r| == |Filter(claims, InSet(supported))|
    ensures forall k :: 0 <= k < |r| ==> r[k] == NoteText(Filter(claims, InSet(supported))[k])
  {
    var kept := Filter(claims, InSet(supported));
    seq(|kept|, k requires 0 <= k < |kept| => NoteText(kept[k]))
  }

  function Max1(n: nat): nat {
    if n == 0 then 1 else n
  }

  predicate LearnedNothing(t: Task) {
    t.newSources == 0 && forall v :: v in t.roundVerifs ==> v.verdict != Supported
  }

  /** The queries are used up: close the round's books and decide whether to go on. */
  function EndRound(t: Task, maxIters: nat): Task {
    t.(claims := t.claims + t.roundClaims, verifs := t.verifs + t.roundVerifs, counts := t.counts + [t.newSources],
       pc := if LearnedNothing(t) || t.round == Max1(maxIters) - 1 then Concluding else Reflecting)
  }

  function TakeQuery(t: Task): Task
    requires t.queries != []
  {
    var q, rest := t.queries[0], t.queries[1..];
    if q == "" || q in t.seen then t.(queries := rest)
    else t.(queries := rest, seen := t.seen + [q], pending := [Search(t.section.id, q)], pc := Searching)
  }

  /** The page at hand adds a source. */
  predicate AddsSource(t: Task, r: R.Registry) {
    t.pc.NextPage? && t.pages != [] && t.pages[0].ok && t.pages[0].text != "" && t.pages[0].url !in r.byUrl
  }

  function TakePage(t: Task, r: R.Registry): Task
    requires t.pc.NextPage? && t.pages != []
  {
    var page, rest := t.pages[0], t.pages[1..];
    if !AddsSource(t, r) then t.(pages := rest)
    else
      var source := R.NewSource(r, page.url, page.title, page.snippet, t.section.id);
      t.(pages := rest, newSources := t.newSources + 1, found := t.found + [source],
         pending := [Found(t.section.id, source)], pc := Extracting(page, source))
  }

  function Unseen(seen: seq<string>): string -> bool {
    (q: string) => q != "" && q !in seen
  }

  /** The next round's queries; none when the reflection wants no more. */
  function FollowUps(t: Task, reply: Option<(bool, seq<string>)>): seq<string> {
    if reply.None? || !reply.value.0 then [] else Filter(reply.value.1, Unseen(t.seen))
  }

  /** Another round, or the section's conclusion. */
  function AfterReflection(t: Task, reply: Option<(bool, seq<string>)>): Task {
    var follow := FollowUps(t, reply);
    if follow == [] then t.(pc := Concluding)
    else t.(round := t.round + 1, queries := follow, newSources := 0, roundClaims := [], roundVerifs := [], pc := NextQuery)
  }

  function CountFor(sources: seq<Source>, sectionId: string): nat {
    if sources == [] then 0
    else CountFor(sources[..|sources| - 1], sectionId) + if sources[|sources| - 1].sectionId == Some(sectionId) then 1 else 0
  }

  function PageClaims(page: Page, sourceId: nat, sectionId: string, items: seq<G.Item>, ids: seq<string>): seq<Claim>
    requires |ids| >= |items|
  {
    if page.ok then G.Extracted(items, page.text, sourceId, sectionId, ids) else []
  }

  /** Contradictions over the whole section, then the verified findings. */
  function Concluded(t: Task, answers: nat -> C.Answer, conflictIds: nat -> string): Task {
    var conflicts := C.Detected(t.claims, t.verifs, answers, conflictIds);
    var notes := NotesOf(t.claims, SupportedIds(t.verifs));
    t.(conflicts := conflicts, notes := notes, pc := Compressing,
       pending := ConflictEvents(conflicts) + NoteEvents(t.section.id, notes))
  }

  /** One step of the coroutine. */
  function Step(t: Task, r: R.Registry, input: Input, maxIters: nat): Task
    requires Ready(t, input)
  {
    match t.pc
    case Waiting =>
      t.(pending := [SectionStart(t.section.id, t.section.title)], pc := NextQuery,
         queries := if t.section.queries != [] then t.section.queries else [t.section.title])
    case NextQuery => if t.queries == [] then EndRound(t, maxIters) else TakeQuery(t)
    case Searching => t.(pages := input.pages, pc := NextPage)
    case NextPage => if t.pages == [] then t.(pc := NextQuery) else TakePage(t, r)
    case Extracting(page, source) =>
      var claims := PageClaims(page, source.id, t.section.id, input.claims.GetOr([]), input.ids);
      t.(mined := t.mined + [source], pending := ClaimEvents(claims), pc := Verifying(claims))
    case Verifying(claims) =>
      var verifs := V.Verdicts(claims, input.verdicts.GetOr([]));
      t.(pending := VerdictEvents(verifs), roundClaims := t.roundClaims + claims, roundVerifs := t.roundVerifs + verifs, pc := NextPage)
    case Reflecting => AfterReflection(t, input.reply)
    case Concluding => Concluded(t, input.answers, input.conflictIds)
    case Compressing =>
      t.(pending := [SectionDone(t.section.id, input.text, CountFor(r.sources, t.section.id))], pc := Returned)
  }

  /** What the step does to the registry. */
  function Register(t: Task, r: R.Registry): R.Registry {
    if t.pending == [] && AddsSource(t, r)
    then R.Added(r, t.pages[0].url, t.pages[0].title, t.pages[0].snippet, t.section.id) else r
  }

  function EmitNext(t: Task): Task
    requires t.pending != []
  {
    t.(trace := t.trace + [t.pending[0]], pending := t.pending[1..])
  }

  // ----- the coroutine as an object -----------------------------------------------------------

  class SectionRun {
    const section: PlanSection
    var pc: Pc
    var pending: seq<Payload>
    var round: nat
    var queries: seq<string>
    var seen: seq<string>
    var pages: seq<Page>
    var newSources: nat
    var roundClaims: seq<Claim>
    var roundVerifs: seq<Verification>
    var claims: seq<Claim>
    var verifs: seq<Verification>
    var conflicts: seq<Contradiction>
    var notes: seq<string>
    var found: seq<Source>
    var mined: seq<Source>
    var counts: seq<nat>
    var trace: seq<Payload>

    ghost function View(): Task
      reads this
    {
      Task(section, pc, pending, round, queries, seen, pages, newSources, roundClaims, roundVerifs,
           claims, verifs, conflicts, notes, found, mined, counts, trace)
    }

    constructor (section: PlanSection)
      ensures View() == NewTask(section)
    {
      this.section := section;
      pc, pending, round, queries, seen, pages, newSources := Waiting, [], 0, [], [], [], 0;
      roundClaims, roundVerifs, claims, verifs, conflicts, notes := [], [], [], [], [], [];
      found, mined, counts, trace := [], [], [], [];
    }

    method Emit() returns (d: Payload)
      requires pending != []
      modifies this`trace, this`pending
      ensures d == old(pending)[0] && View() == EmitNext(old(View()))
    {
      d := pending[0];
      trace := trace + [d];
      pending := pending[1..];
    }

    method Begin()
      requires Ready(View(), Go) && pc.Waiting?
      modifies this`pending, this`queries, this`pc
      ensures View() == Step(old(View()), R.EMPTY, Go, 0)
    {
      pending := [SectionStart(section.id, section.title)];
      queries := if section.queries != [] then section.queries else [section.title];
      pc := Pc.NextQuery;
    }

    /** The head of `for query in queries`. */
    method NextQuery(maxIters: nat)
      requires Ready(View(), Go) && pc.NextQuery?
      modifies this
      ensures View() == if old(queries) == [] then EndRound(old(View()), maxIters) else TakeQuery(old(View()))
    {
      if queries == [] {
        FinishRound(maxIters);
        return;
      }
      var q := queries[0];
      queries := queries[1..];
      if q == "" || q in seen {
        return;
      }
      seen := seen + [q];
      pending := [Search(section.id, q)];
      pc := Searching;
    }

    method FinishRound(maxIters: nat)
      modifies this`claims, this`verifs, this`counts, this`pc
      ensures View() == EndRound(old(View()), maxIters)
    {
      var newSupported := CountSupported();
      assert LearnedNothing(View()) <==> newSources == 0 && newSupported == 0;
      hide LearnedNothing;
      claims := claims + roundClaims;
      verifs := verifs + roundVerifs;
      counts := counts + [newSources];
      var last := (if maxIters > 1 then maxIters else 1) - 1;
      pc := if (newSources == 0 && newSupported == 0) || round == last then Concluding else Reflecting;
    }

    method CountSupported() returns (n: nat)
      ensures n == 0 <==> forall v :: v in roundVerifs ==> v.verdict != Supported
    {
      n := 0;
      for i := 0 to |roundVerifs|
        invariant n == 0 <==> forall k :: 0 <= k < i ==> roundVerifs[k].verdict != Supported
      {
        if roundVerifs[i].verdict == Supported {
          n := n + 1;
        }
      }
    }

    method ResultsArrive(results: seq<Page>)
      requires Ready(View(), Results(results))
      modifies this`pages, this`pc
      ensures View() == Step(old(View()), R.EMPTY, Results(results), 0)
    {
      pages := results;
      pc := Pc.NextPage;
    }

    /** The end of `for result, page in zip(top, pages)`. */
    method PagesDone()
      requires Ready(View(), Go) && pc.NextPage? && pages == []
      modifies this`pc
      ensures View() == Step(old(View()), R.EMPTY, Go, 0)
    {
      pc := Pc.NextQuery;
    }

    /** One turn of it, up to the source event. */
    method NextPage(registry: R.SourceRegistry)
      requires Ready(View(), Go) && pc.NextPage? && pages != [] && registry.Valid()
      modifies this, registry
      ensures registry.Valid() && registry.View() == Register(old(View()), old(registry.View()))
      ensures View() == TakePage(old(View()), old(registry.View()))
    {
      hide R.Consistent;
      var page := pages[0];
      pages := pages[1..];
      if !page.ok || page.text == "" {
        return;
      }
      var before := registry.Len();
      R.AddedConsistent(registry.View(), page.url, page.title, page.snippet, section.id);
      var source := registry.Add(page.url, page.title, page.snippet, section.id);
      var after := registry.Len();
      if after == before {
        return;
      }
      Cite(page, source);
    }

    method Cite(page: Page, source: Source)
      modifies this
      ensures View() == old(View()).(newSources := old(newSources) + 1, found := old(found) + [source],
                                     pending := [Found(section.id, source)], pc := Extracting(page, source))
    {
      newSources := newSources + 1;
      found := found + [source];
      pending := [Found(section.id, source)];
      pc := Extracting(page, source);
    }

    method Extract(reply: Option<seq<G.Item>>, ids: seq<string>)
      requires Ready(View(), Extraction(reply, ids))
      modifies this`mined, this`pending, this`pc
      ensures View() == Step(old(View()), R.EMPTY, Extraction(reply, ids), 0)
    {
      var extracted := G.ExtractClaims(pc.page.ok, pc.page.text, reply, pc.source.id, section.id, ids);
      mined := mined + [pc.source];
      pending := ClaimEvents(extracted);
      pc := Verifying(extracted);
    }

    method Verify(reply: Option<seq<V.Item>>)
      requires Ready(View(), Judgements(reply))
      modifies this`pending, this`roundClaims, this`roundVerifs, this`pc
      ensures View() == Step(old(View()), R.EMPTY, Judgements(reply), 0)
    {
      var judged := V.VerifyClaims(pc.extracted, reply);
      pending := VerdictEvents(judged);
      roundClaims := roundClaims + pc.extracted;
      roundVerifs := roundVerifs + judged;
      pc := Pc.NextPage;
    }

    method Reflect(reply: Option<(bool, seq<string>)>)
      requires Ready(View(), Reflection(reply))
      modifies this
      ensures View() == AfterReflection(old(View()), reply)
      ensures pc.NextQuery? ==> reply.Some? && reply.value.0 && queries != [] && queries == Filter(reply.value.1, Unseen(seen))
      ensures !pc.NextQuery? ==> pc.Concluding? && (reply.None? || !reply.value.0 || Filter(reply.value.1, Unseen(seen)) == [])
    {
      hide Filter;
      var needMore := reply.Some? && reply.value.0;
      var follow := if needMore then Filter(reply.value.1, Unseen(seen)) else [];
      if follow == [] {
        pc := Concluding;
      } else {
        StartRound(follow);
      }
    }

    method StartRound(follow: seq<string>)
      modifies `round, `queries, `newSources, `roundClaims, `roundVerifs, `pc
      ensures round == old(round) + 1 && queries == follow && newSources == 0
      ensures roundClaims == [] && roundVerifs == [] && pc == Pc.NextQuery
    {
      round := round + 1;
      queries := follow;
      newSources := 0;
      roundClaims := [];
      roundVerifs := [];
      pc := Pc.NextQuery;
    }

    method Conclude(answers: nat -> C.Answer, conflictIds: nat -> string)
      requires Ready(View(), Answers(answers, conflictIds))
      modifies this`conflicts, this`notes, this`pending, this`pc
      ensures View() == Concluded(old(View()), answers, conflictIds)
    {
      hide C.Detected, NotesOf, NoteEvents, ConflictEvents, SupportedIds;
      conflicts, notes, pending := WeighFindings(answers, conflictIds);
      pc := Compressing;
    }

    /** The section's contradictions and notes, and the events that tell them. */
    method WeighFindings(answers: nat -> C.Answer, conflictIds: nat -> string)
      returns (xs: seq<Contradiction>, written: seq<string>, events: seq<Payload>)
      ensures xs == C.Detected(claims, verifs, answers, conflictIds) && written == NotesOf(claims, SupportedIds(verifs))
      ensures events == ConflictEvents(xs) + NoteEvents(section.id, written)
    {
      hide C.Detected, C.Adjudicated, C.PairsAt, NotesOf, SupportedIds, ClaimedAs, ConflictAs;
      var calls;
      xs, calls := C.DetectContradictions(claims, verifs, answers, conflictIds);
      var noteEvents;
      written, noteEvents := WriteNotes(SupportedIds(verifs));
      events := ConflictEvents(xs) + noteEvents;
    }

    method WriteNotes(supportedIds: set<string>) returns (written: seq<string>, events: seq<Payload>)
      ensures written == NotesOf(claims, supportedIds) && events == NoteEvents(section.id, written)
    {
      written, events := [], [];
      for i := 0 to |claims|
        invariant written == NotesOf(claims[..i], supportedIds) && events == NoteEvents(section.id, written)
      {
        assert claims[..i + 1][..i] == claims[..i];
        if claims[i].id in supportedIds {
          var note := NoteText(claims[i]);
          written := written + [note];
          events := events + [Note(section.id, note)];
        }
      }
      assert claims[..|claims|] == claims;
    }

    method Finish(summary: string, registry: R.SourceRegistry)
      requires Ready(View(), Summary(summary))
      modifies this`pending, this`pc
      ensures View() == Step(old(View()), old(registry.View()), Summary(summary), 0)
    {
      var all := registry.All();
      var count := 0;
      for i := 0 to |all|
        invariant count == CountFor(all[..i], section.id)
      {
        assert all[..i + 1][..i] == all[..i];
        if all[i].sectionId == Some(section.id) {
          count := count + 1;
        }
      }
      assert all[..|all|] == all;
      pending := [SectionDone(section.id, summary, count)];
      pc := Returned;
    }
  }
}
