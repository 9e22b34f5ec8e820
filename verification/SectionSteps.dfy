/** What each step of a section decides, from what it is given and what the section holds (model: Section.dfy). */
module SectionSteps {
  import opened Common
  import opened Wire
  import opened Findings
  import opened Trust
  import opened Section
  import G = Grounding
  import V = Verifier
  import C = Contradictions
  import R = Registry
  import Text

  /** A section starts with its planned queries, or with its title when it has none. */
  lemma StartsWithPlan(t: Task, r: R.Registry, maxIters: nat)
    requires t.pc.Waiting? && t.pending == []
    ensures var after := Step(t, r, Go, maxIters);
            && after.pc.NextQuery? && after.pending == [SectionStart(t.section.id, t.section.title)]
            && (t.section.queries != [] ==> after.queries == t.section.queries)
            && (t.section.queries == [] ==> after.queries == [t.section.title])
  {
  }

  /** The next query is searched if and only if it is no blank and was not searched before; it is gone either way. */
  lemma SearchesIff(t: Task, r: R.Registry, maxIters: nat)
    requires t.pc.NextQuery? && t.pending == [] && t.queries != []
    ensures var after := Step(t, r, Go, maxIters);
            && after.queries == t.queries[1..]
            && (after.pc.Searching? <==> |t.queries[0]| > 0 && t.queries[0] !in t.seen)
            && (after.pc.Searching? ==> after.seen == t.seen + [t.queries[0]] && after.pending == [Search(t.section.id, t.queries[0])])
            && (!after.pc.Searching? ==> after.pc.NextQuery? && after.seen == t.seen && after.pending == [])
  {
  }

  /**
   * With no query left the section asks for a reflection if and only if the round brought a new source or a supported
   * claim and is not the last; otherwise it concludes. The round's claims and verdicts join the section's.
   */
  lemma ReflectsIff(t: Task, r: R.Registry, maxIters: nat)
    requires t.pc.NextQuery? && t.pending == [] && t.queries == []
    ensures var after := Step(t, r, Go, maxIters);
            && (after.pc.Reflecting? <==>
                  && (t.newSources > 0 || exists k :: 0 <= k < |t.roundVerifs| && t.roundVerifs[k].verdict == Supported)
                  && t.round + 1 != (if maxIters > 1 then maxIters else 1))
            && (!after.pc.Reflecting? ==> after.pc.Concluding?)
            && after.claims == t.claims + t.roundClaims && after.verifs == t.verifs + t.roundVerifs
  {
    assert forall v :: v in t.roundVerifs ==> exists k :: 0 <= k < |t.roundVerifs| && t.roundVerifs[k] == v;
    assert forall k :: 0 <= k < |t.roundVerifs| ==> t.roundVerifs[k] in t.roundVerifs;
  }

  /** A query of the reply that can still be asked. */
  predicate Asks(reply: (bool, seq<string>), seen: seq<string>, k: int) {
    0 <= k < |reply.1| && |reply.1[k]| > 0 && reply.1[k] !in seen
  }

  /**
   * Another round follows a reflection if and only if the reply is there, wants more, and has a query that is no blank
   * and was not searched; then exactly those queries are next, in order. Otherwise the section concludes.
   */
  lemma AnotherRoundIff(t: Task, r: R.Registry, reply: Option<(bool, seq<string>)>, maxIters: nat)
    requires t.pc.Reflecting? && t.pending == []
    ensures var after := Step(t, r, Reflection(reply), maxIters);
            && (after.pc.NextQuery? <==> reply.Some? && reply.value.0 && exists k :: Asks(reply.value, t.seen, k))
            && (after.pc.NextQuery? ==>
                  && after.round == t.round + 1 && after.newSources == 0 && after.roundClaims == [] && after.roundVerifs == []
                  && after.queries == Filter(reply.value.1, (q: string) => |q| > 0 && q !in t.seen))
            && (!after.pc.NextQuery? ==> after.pc.Concluding? && after.round == t.round)
  {
    if reply.Some? && reply.value.0 {
      var queries := reply.value.1;
      var asked := (q: string) => |q| > 0 && q !in t.seen;
      FilterSame(queries, Unseen(t.seen), asked);
      FilterMembers(queries, asked);
      var kept := Filter(queries, asked);
      if k :| Asks(reply.value, t.seen, k) {
        assert queries[k] in kept;
      } else if kept != [] {
        assert kept[0] in kept;
        var k :| 0 <= k < |queries| && queries[k] == kept[0];
        assert Asks(reply.value, t.seen, k);
      }
    }
  }

  /** The results of a search are gone through one by one, all of them. */
  lemma ResultsAreRead(t: Task, r: R.Registry, pages: seq<Page>, maxIters: nat)
    requires t.pc.Searching? && t.pending == []
    ensures var after := Step(t, r, Results(pages), maxIters);
            after.pc.NextPage? && after.pages == pages && after.pending == []
  {
  }

  /** A result is mined if and only if its page was fetched with a text and its url is new to the whole run. */
  lemma MinesIff(t: Task, r: R.Registry, maxIters: nat)
    requires t.pc.NextPage? && t.pending == [] && t.pages != []
    ensures var after, page := Step(t, r, Go, maxIters), t.pages[0];
            && after.pages == t.pages[1..]
            && (after.pc.Extracting? <==> page.ok && |page.text| > 0 && page.url !in r.byUrl)
            && (after.pc.Extracting? ==>
                  var source := Source(|r.sources| + 1, page.title, page.url, page.snippet, Some(t.section.id));
                  && after.pc == Extracting(page, source) && after.pending == [Found(t.section.id, source)]
                  && after.newSources == t.newSources + 1 && Register(t, r).sources == r.sources + [source])
            && (!after.pc.Extracting? ==> after.pc.NextPage? && after.pending == [] && Register(t, r) == r)
  {
  }

  lemma SearchIsOver(t: Task, r: R.Registry, maxIters: nat)
    requires t.pc.NextPage? && t.pending == [] && t.pages == []
    ensures Step(t, r, Go, maxIters).pc.NextQuery? && Step(t, r, Go, maxIters).pending == [] && Register(t, r) == r
  {
  }

  /** The claims told are those of the page, under the source just announced, and go to the verifier next. */
  lemma TellsClaims(t: Task, r: R.Registry, items: Option<seq<G.Item>>, ids: seq<string>, maxIters: nat)
    requires t.pc.Extracting? && t.pending == [] && |ids| == |items.GetOr([])|
    ensures var after, claims := Step(t, r, Extraction(items, ids), maxIters),
                                 G.Extracted(items.GetOr([]), t.pc.page.text, t.pc.source.id, t.section.id, ids);
            t.pc.page.ok ==>
              && after.pc == Verifying(claims) && |after.pending| == |claims|
              && forall k :: 0 <= k < |claims| ==>
                   after.pending[k] == Claimed(claims[k].id, claims[k].sectionId, claims[k].text, claims[k].entity,
                                               claims[k].attribute, claims[k].sourceIds, claims[k].quote)
  {
    hide G.Extracted;
  }

  /** The verdicts told are the verifier's on those claims, and both join the round. */
  lemma TellsVerdicts(t: Task, r: R.Registry, items: Option<seq<V.Item>>, maxIters: nat)
    requires t.pc.Verifying? && t.pending == []
    ensures var after, verifs := Step(t, r, Judgements(items), maxIters), V.Verdicts(t.pc.extracted, items.GetOr([]));
            && after.pc.NextPage? && |after.pending| == |verifs|
            && after.roundClaims == t.roundClaims + t.pc.extracted && after.roundVerifs == t.roundVerifs + verifs
            && forall k :: 0 <= k < |verifs| ==>
                 after.pending[k] == Verified(verifs[k].claimId, verifs[k].verdict, verifs[k].confidence, verifs[k].rationale)
  {
    hide V.Verdicts;
  }

  /** The conclusion tells the contradictions among all the section's claims, then a note for each supported claim. */
  lemma TellsConclusion(t: Task, r: R.Registry, answers: nat -> C.Answer, ids: nat -> string, maxIters: nat)
    requires t.pc.Concluding? && t.pending == []
    ensures var after, xs := Step(t, r, Answers(answers, ids), maxIters), C.Detected(t.claims, t.verifs, answers, ids);
            && after.pc.Compressing? && after.conflicts == xs && |after.pending| == |xs| + |after.notes|
            && (forall k :: 0 <= k < |xs| ==>
                  after.pending[k] == Conflict(xs[k].id, Some(xs[k].entity), Some(xs[k].attribute), (xs[k].claimIdA, xs[k].claimIdB), xs[k].note))
            && forall k :: 0 <= k < |after.notes| ==> after.pending[|xs| + k] == Note(t.section.id, after.notes[k])
  {
    hide C.Detected, NotesOf;
  }

  /** The notes are the supported claims' texts, in order, each with the marks of its sources. */
  lemma NotesTell(t: Task, r: R.Registry, answers: nat -> C.Answer, ids: nat -> string, maxIters: nat)
    requires t.pc.Concluding? && t.pending == []
    ensures var after := Step(t, r, Answers(answers, ids), maxIters);
            var backed := Filter(t.claims, (c: Claim) => exists k :: 0 <= k < |t.verifs| && t.verifs[k].claimId == c.id && t.verifs[k].verdict == Supported);
            && |after.notes| == |backed|
            && forall k :: 0 <= k < |backed| ==> after.notes[k] == Text.Strip(backed[k].text + " " + Cites(backed[k].sourceIds))
  {
    hide C.Detected;
    var ok := (c: Claim) => exists k :: 0 <= k < |t.verifs| && t.verifs[k].claimId == c.id && t.verifs[k].verdict == Supported;
    forall c: Claim
      ensures InSet(SupportedIds(t.verifs))(c) == ok(c)
    {
      if v :| v in t.verifs && v.verdict == Supported && v.claimId == c.id {
        var k :| 0 <= k < |t.verifs| && t.verifs[k] == v;
      }
      if k :| 0 <= k < |t.verifs| && t.verifs[k].claimId == c.id && t.verifs[k].verdict == Supported {
        assert t.verifs[k] in t.verifs;
      }
    }
    FilterSame(t.claims, InSet(SupportedIds(t.verifs)), ok);
  }

  /** The section's last event carries the summary and how many registered sources are the section's. */
  lemma TellsEnd(t: Task, r: R.Registry, summary: string, maxIters: nat)
    requires t.pc.Compressing? && t.pending == []
    ensures var after := Step(t, r, Summary(summary), maxIters);
            && after.pc.Returned?
            && after.pending == [SectionDone(t.section.id, summary, |Filter(r.sources, (s: Source) => s.sectionId == Some(t.section.id))|)]
  {
    CountIsFilter(r.sources, t.section.id);
  }

  lemma {:induction false} CountIsFilter(sources: seq<Source>, id: string)
    ensures CountFor(sources, id) == |Filter(sources, (s: Source) => s.sectionId == Some(id))|
  {
    if sources != [] {
      CountIsFilter(sources[..|sources| - 1], id);
      FilterSame(sources[..|sources| - 1], (s: Source) => s.sectionId == Some(id), (s: Source) => s.sectionId == Some(id));
    }
  }

  /** The marks of the sources: their numbers in decimal, each in brackets. */
  lemma CitesRead(id: nat, rest: seq<nat>)
    ensures Cites([id] + rest) == "[" + Digits(id) + "]" + Cites(rest) && Cites([]) == ""
  {
    assert ([id] + rest)[1..] == rest;
  }

  /** The value of a decimal numeral. */
  function ValueOf(digits: string): int {
    if digits == "" then 0 else 10 * ValueOf(digits[..|digits| - 1]) + (digits[|digits| - 1] as int - '0' as int)
  }

  lemma {:induction false} DigitsRead(n: nat)
    ensures ValueOf(Digits(n)) == n && Digits(n) != ""
    ensures forall k :: 0 <= k < |Digits(n)| ==> '0' <= Digits(n)[k] <= '9'
    ensures n > 0 ==> Digits(n)[0] != '0'
  {
    if n >= 10 {
      DigitsRead(n / 10);
      var s := Digits(n);
      assert s[..|s| - 1] == Digits(n / 10);
      DigitRead(n % 10);
      assert s[|s| - 1] == "0123456789"[n % 10];
    } else {
      DigitRead(n);
      assert Digits(n)[..0] == "";
    }
  }

  lemma DigitRead(d: nat)
    requires d < 10
    ensures "0123456789"[d] as int - '0' as int == d && '0' <= "0123456789"[d] <= '9'
  {
    assert d == 0 || d == 1 || d == 2 || d == 3 || d == 4 || d == 5 || d == 6 || d == 7 || d == 8 || d == 9;
  }
}
