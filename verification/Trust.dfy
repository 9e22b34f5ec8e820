/**
 * The trust counts on both sides: `summarize_confidence` of backend/app/core/synthesizer.py and
 * `deriveConfidenceSummary` of frontend/components/run/confidence-summary.tsx.
 */
module Trust {
  import opened Common
  import opened Wire
  import opened Findings
  import opened Verifier
  import opened Reducer
  import P = Projection

  function Tally(levels: seq<Level>, conflicts: nat): ConfidenceSummary {
    ConfidenceSummary(multiset(levels)[High], multiset(levels)[Medium], multiset(levels)[Low], conflicts)
  }

  function ServerLevels(claims: seq<Claim>, verifs: seq<Verification>): (r: seq<Level>)
    ensures |r| == |claims| && forall k :: 0 <= k < |r| ==> r[k] == Confidence(claims[k], verifs)
  {
    seq(|claims|, k requires 0 <= k < |claims| => Confidence(claims[k], verifs))
  }

  function ClientLevel(c: ClaimState): Level {
    if c.verdict == Some(Supported) then (if |c.sourceIds| >= 2 then High else Medium) else Low
  }

  function ClientLevels(claims: seq<ClaimState>): (r: seq<Level>)
    ensures |r| == |claims| && forall k :: 0 <= k < |r| ==> r[k] == ClientLevel(claims[k])
  {
    seq(|claims|, k requires 0 <= k < |claims| => ClientLevel(claims[k]))
  }

  function OfClaim(id: string): Verification -> bool {
    (v: Verification) => v.claimId == id
  }

  // ----- the two programs -------------------------------------------------------------------

  method SummarizeConfidence(claims: seq<Claim>, verifs: seq<Verification>, conflicts: seq<Contradiction>)
    returns (summary: ConfidenceSummary)
    ensures summary == Tally(ServerLevels(claims, verifs), |conflicts|)
  {
    var byId := GroupVerdicts(verifs);
    hide FirstFor, Confidence, Filter;
    var high, medium, low := 0, 0, 0;
    ghost var levels := ServerLevels(claims, verifs);
    for k := 0 to |claims|
      invariant high == multiset(levels[..k])[High] && medium == multiset(levels[..k])[Medium] && low == multiset(levels[..k])[Low]
    {
      TallyStep(levels, k);
      ConfidenceOfClaim(claims[k], verifs);
      var mine := VerdictsOn(byId, claims[k].id);
      match Confidence(claims[k], mine)
      case High => high := high + 1;
      case Medium => medium := medium + 1;
      case Low => low := low + 1;
    }
    assert levels[..|claims|] == levels;
    summary := ConfidenceSummary(high, medium, low, |conflicts|);
  }

  /** A claim's own group of verdicts decides as the whole list does. */
  lemma ConfidenceOfClaim(claim: Claim, verifs: seq<Verification>)
    ensures Confidence(claim, Filter(verifs, OfClaim(claim.id))) == Confidence(claim, verifs)
  {
    FirstOfClaim(verifs, claim.id);
  }

  lemma TallyStep(levels: seq<Level>, k: nat)
    requires k < |levels|
    ensures forall x :: multiset(levels[..k + 1])[x] == multiset(levels[..k])[x] + if levels[k] == x then 1 else 0
  {
    assert levels[..k + 1] == levels[..k] + [levels[k]];
  }

  function VerdictsOn(byId: map<string, seq<Verification>>, id: string): seq<Verification> {
    if id in byId then byId[id] else []
  }

  /** `by_id.setdefault(v.claim_id, []).append(v)`. */
  method GroupVerdicts(verifs: seq<Verification>) returns (byId: map<string, seq<Verification>>)
    ensures forall id :: VerdictsOn(byId, id) == Filter(verifs, OfClaim(id))
  {
    byId := map[];
    for i := 0 to |verifs|
      invariant forall id :: VerdictsOn(byId, id) == Filter(verifs[..i], OfClaim(id))
    {
      assert verifs[..i + 1][..i] == verifs[..i];
      var id := verifs[i].claimId;
      if id !in byId {
        byId := byId[id := []];
      }
      byId := byId[id := byId[id] + [verifs[i]]];
    }
    assert verifs[..|verifs|] == verifs;
  }

  lemma {:induction false} FirstForSnoc(verifs: seq<Verification>, v: Verification, id: string)
    ensures FirstFor(verifs + [v], id)
         == if FirstFor(verifs, id).Some? then FirstFor(verifs, id) else if v.claimId == id then Some(v) else None
  {
    if verifs != [] {
      assert (verifs + [v])[1..] == verifs[1..] + [v];
      FirstForSnoc(verifs[1..], v, id);
    }
  }

  /** The first verdict on a claim is the first of its group. */
  lemma {:induction false} FirstOfClaim(verifs: seq<Verification>, id: string)
    ensures FirstFor(Filter(verifs, OfClaim(id)), id) == FirstFor(verifs, id)
  {
    if verifs != [] {
      var init, v := verifs[..|verifs| - 1], verifs[|verifs| - 1];
      FirstOfClaim(init, id);
      FirstForSnoc(init, v, id);
      FirstForSnoc(Filter(init, OfClaim(id)), v, id);
      assert init + [v] == verifs;
      assert Filter(init, OfClaim(id)) + [] == Filter(init, OfClaim(id));
    }
  }

  method DeriveConfidenceSummary(claims: seq<ClaimState>, contradictions: seq<ConflictState>) returns (summary: ConfidenceSummary)
    ensures summary == Tally(ClientLevels(claims), |contradictions|)
  {
    var high, medium, low := 0, 0, 0;
    ghost var levels := ClientLevels(claims);
    for k := 0 to |claims|
      invariant high == multiset(levels[..k])[High] && medium == multiset(levels[..k])[Medium] && low == multiset(levels[..k])[Low]
    {
      TallyStep(levels, k);
      if claims[k].verdict == Some(Supported) {
        if |claims[k].sourceIds| >= 2 {
          high := high + 1;
        } else {
          medium := medium + 1;
        }
      } else {
        low := low + 1;
      }
    }
    assert levels[..|claims|] == levels;
    summary := ConfidenceSummary(high, medium, low, |contradictions|);
  }

  // ----- what is counted ----------------------------------------------------------------------------

  /** The places of a level. */
  function Places(levels: seq<Level>, level: Level): set<nat> {
    set k: nat | k < |levels| && levels[k] == level
  }

  lemma {:induction false} CountIsPlaces(levels: seq<Level>, level: Level)
    ensures multiset(levels)[level] == |Places(levels, level)|
  {
    var all := Places(levels, level);
    if levels == [] {
      assert all == {};
    } else {
      var n := |levels| - 1;
      var before := Places(levels[..n], level);
      CountIsPlaces(levels[..n], level);
      CountSnoc(levels, level);
      assert before == set k | k in all && k != n;
      assert n in all ==> all == before + {n};
      assert n !in all ==> all == before;
    }
  }

  /** The first verdict on claim k is that one. */
  predicate Judged(claims: seq<Claim>, verifs: seq<Verification>, k: nat, verdict: Verdict)
    requires k < |claims|
  {
    FirstFor(verifs, claims[k].id).Some? && FirstFor(verifs, claims[k].id).value.verdict == verdict
  }

  /** The server counts: high, supported by two sources or more; medium, supported by one or partly by two; low, the rest. */
  lemma ServerCounted(claims: seq<Claim>, verifs: seq<Verification>, conflicts: nat)
    ensures var summary := Tally(ServerLevels(claims, verifs), conflicts);
            var high := set k: nat | k < |claims| && Judged(claims, verifs, k, Supported) && |claims[k].sourceIds| >= 2;
            var medium := set k: nat | k < |claims| && ((Judged(claims, verifs, k, Supported) && |claims[k].sourceIds| < 2)
                                                     || (Judged(claims, verifs, k, Partial) && |claims[k].sourceIds| >= 2));
            && summary.high == |high| && summary.medium == |medium|
            && summary.low == |set k: nat | k < |claims| && k !in high && k !in medium|
            && summary.contradictions == conflicts
  {
    var levels := ServerLevels(claims, verifs);
    forall k: nat | k < |claims|
      ensures levels[k] == High <==> Judged(claims, verifs, k, Supported) && |claims[k].sourceIds| >= 2
      ensures levels[k] == Medium <==> ((Judged(claims, verifs, k, Supported) && |claims[k].sourceIds| < 2)
                                     || (Judged(claims, verifs, k, Partial) && |claims[k].sourceIds| >= 2))
    {
      ConfidenceReads(claims[k], verifs);
    }
    hide Confidence, FirstFor, Judged;
    CountIsPlaces(levels, High);
    CountIsPlaces(levels, Medium);
    CountIsPlaces(levels, Low);
    var high := set k: nat | k < |claims| && Judged(claims, verifs, k, Supported) && |claims[k].sourceIds| >= 2;
    var medium := set k: nat | k < |claims| && ((Judged(claims, verifs, k, Supported) && |claims[k].sourceIds| < 2)
                                             || (Judged(claims, verifs, k, Partial) && |claims[k].sourceIds| >= 2));
    assert Places(levels, High) == high;
    assert Places(levels, Medium) == medium;
    assert Places(levels, Low) == set k: nat | k < |claims| && k !in high && k !in medium;
  }

  /** The client counts: high, supported by two sources or more; medium, supported by fewer; low, the rest. */
  lemma ClientCounted(claims: seq<ClaimState>, conflicts: nat)
    ensures var summary := Tally(ClientLevels(claims), conflicts);
            && summary.high == |set k: nat | k < |claims| && claims[k].verdict == Some(Supported) && |claims[k].sourceIds| >= 2|
            && summary.medium == |set k: nat | k < |claims| && claims[k].verdict == Some(Supported) && |claims[k].sourceIds| < 2|
            && summary.low == |set k: nat | k < |claims| && claims[k].verdict != Some(Supported)|
            && summary.contradictions == conflicts
  {
    var levels := ClientLevels(claims);
    CountIsPlaces(levels, High);
    CountIsPlaces(levels, Medium);
    CountIsPlaces(levels, Low);
    assert Places(levels, High) == set k: nat | k < |claims| && claims[k].verdict == Some(Supported) && |claims[k].sourceIds| >= 2;
    assert Places(levels, Medium) == set k: nat | k < |claims| && claims[k].verdict == Some(Supported) && |claims[k].sourceIds| < 2;
    assert Places(levels, Low) == set k: nat | k < |claims| && claims[k].verdict != Some(Supported);
  }

  // ----- a log that tells the engine's lists --------------------------------------------------------

  function ClaimedAs(c: Claim): Payload {
    Claimed(c.id, c.sectionId, c.text, c.entity, c.attribute, c.sourceIds, c.quote)
  }

  function VerifiedAs(v: Verification): Payload {
    Verified(v.claimId, v.verdict, v.confidence, v.rationale)
  }

  function ConflictAs(x: Contradiction): Payload {
    Conflict(x.id, Some(x.entity), Some(x.attribute), (x.claimIdA, x.claimIdB), x.note)
  }

  function Said(log: seq<Event>): set<Payload> {
    if log == [] then {} else Said(log[..|log| - 1]) + {log[|log| - 1].data}
  }

  /** Every claim, verdict and contradiction event is one of the lists' own. */
  ghost predicate OnlyFrom(said: set<Payload>, claims: seq<Claim>, verifs: seq<Verification>, conflicts: seq<Contradiction>) {
    && (forall d :: d in said && d.Claimed? ==> exists k :: 0 <= k < |claims| && d == ClaimedAs(claims[k]))
    && (forall d :: d in said && d.Verified? ==> exists k :: 0 <= k < |verifs| && d == VerifiedAs(verifs[k]))
    && (forall d :: d in said && d.Conflict? ==> exists k :: 0 <= k < |conflicts| && d == ConflictAs(conflicts[k]))
  }

  /** And each of theirs is in the log. */
  ghost predicate AllOf(said: set<Payload>, claims: seq<Claim>, verifs: seq<Verification>, conflicts: seq<Contradiction>) {
    && (forall k :: 0 <= k < |claims| ==> ClaimedAs(claims[k]) in said)
    && (forall k :: 0 <= k < |verifs| ==> VerifiedAs(verifs[k]) in said)
    && (forall k :: 0 <= k < |conflicts| ==> ConflictAs(conflicts[k]) in said)
  }

  /** The engine's lists are what the log tells, in whatever order the sections' events interleaved. */
  ghost predicate Tells(log: seq<Event>, claims: seq<Claim>, verifs: seq<Verification>, conflicts: seq<Contradiction>) {
    && DistinctIds(claims) && Aligned(claims, verifs) && DistinctConflictIds(conflicts)
    && P.ClaimsFirst(log)
    && OnlyFrom(Said(log), claims, verifs, conflicts) && AllOf(Said(log), claims, verifs, conflicts)
  }

  /** The client's record of claim k, as far as the log has told it. */
  ghost predicate Mirrors(c: ClaimState, claim: Claim, v: Verification, said: set<Payload>) {
    && c.claimId == claim.id && c.sourceIds == claim.sourceIds
    && c.verdict == if VerifiedAs(v) in said then Some(v.verdict) else None
  }

  ghost predicate MirrorsOne(c: ClaimState, claims: seq<Claim>, verifs: seq<Verification>, said: set<Payload>)
    requires |verifs| == |claims|
  {
    exists k :: 0 <= k < |claims| && Mirrors(c, claims[k], verifs[k], said)
  }

  ghost predicate Known(cs: seq<ClaimState>, id: string) {
    exists i :: 0 <= i < |cs| && cs[i].claimId == id
  }

  ghost predicate Reflects(cs: seq<ClaimState>, claims: seq<Claim>, verifs: seq<Verification>, said: set<Payload>)
    requires |verifs| == |claims|
  {
    && (forall i, j :: 0 <= i < j < |cs| ==> cs[i].claimId != cs[j].claimId)
    && (forall i :: 0 <= i < |cs| ==> MirrorsOne(cs[i], claims, verifs, said))
    && (forall k :: 0 <= k < |claims| && ClaimedAs(claims[k]) in said ==> Known(cs, claims[k].id))
  }

  /** An event that is not a verdict on the claim leaves its record right. */
  lemma MirrorKept(c: ClaimState, claims: seq<Claim>, verifs: seq<Verification>, said: set<Payload>, d: Payload)
    requires Aligned(claims, verifs) && MirrorsOne(c, claims, verifs, said)
    requires d.Verified? ==> d.claimId != c.claimId
    ensures MirrorsOne(c, claims, verifs, said + {d})
  {
    var k :| 0 <= k < |claims| && Mirrors(c, claims[k], verifs[k], said);
    assert Mirrors(c, claims[k], verifs[k], said + {d});
  }

  lemma VerdictMirrored(c: ClaimState, claims: seq<Claim>, verifs: seq<Verification>, said: set<Payload>, m: nat)
    requires DistinctIds(claims) && Aligned(claims, verifs) && MirrorsOne(c, claims, verifs, said) && m < |claims|
    ensures var v := verifs[m];
            MirrorsOne(SetVerdict(c, v.claimId, v.verdict, v.confidence), claims, verifs, said + {VerifiedAs(v)})
  {
    var v := verifs[m];
    if c.claimId == v.claimId {
      var k :| 0 <= k < |claims| && Mirrors(c, claims[k], verifs[k], said);
      assert k == m;
      assert Mirrors(SetVerdict(c, v.claimId, v.verdict, v.confidence), claims[m], v, said + {VerifiedAs(v)});
    } else {
      MirrorKept(c, claims, verifs, said, VerifiedAs(v));
    }
  }

  /** What one event does to the client's claims. */
  lemma ReflectsStep(s: StreamState, d: Payload, claims: seq<Claim>, verifs: seq<Verification>, said: set<Payload>)
    requires DistinctIds(claims) && Aligned(claims, verifs) && Reflects(s.claims, claims, verifs, said)
    requires d.Claimed? ==> exists k :: 0 <= k < |claims| && d == ClaimedAs(claims[k]) && VerifiedAs(verifs[k]) !in said
    requires d.Verified? ==> exists k :: 0 <= k < |claims| && d == VerifiedAs(verifs[k])
    ensures Reflects(ReduceEvent(s, d).claims, claims, verifs, said + {d})
  {
    hide ReduceEvent, Reflects;
    P.ReduceClaims(s, d);
    if d.Claimed? {
      var m :| 0 <= m < |claims| && d == ClaimedAs(claims[m]) && VerifiedAs(verifs[m]) !in said;
      ClaimReflected(s.claims, claims, verifs, said, m);
    } else if d.Verified? {
      var m :| 0 <= m < |claims| && d == VerifiedAs(verifs[m]);
      VerdictReflected(s.claims, claims, verifs, said, m);
    } else {
      OtherReflected(s.claims, d, claims, verifs, said);
    }
  }

  lemma OtherReflected(cs: seq<ClaimState>, d: Payload, claims: seq<Claim>, verifs: seq<Verification>, said: set<Payload>)
    requires Aligned(claims, verifs) && Reflects(cs, claims, verifs, said) && !d.Claimed? && !d.Verified?
    ensures Reflects(cs, claims, verifs, said + {d})
  {
    hide MirrorsOne, Known;
    forall i | 0 <= i < |cs|
      ensures MirrorsOne(cs[i], claims, verifs, said + {d})
    {
      MirrorKept(cs[i], claims, verifs, said, d);
    }
  }

  lemma KnownSnoc(cs: seq<ClaimState>, c: ClaimState, id: string)
    ensures Known(cs + [c], id) <==> Known(cs, id) || c.claimId == id
  {
    if Known(cs, id) {
      var i :| 0 <= i < |cs| && cs[i].claimId == id;
      assert (cs + [c])[i].claimId == id;
    }
    if c.claimId == id {
      assert (cs + [c])[|cs|].claimId == id;
    }
  }

  lemma ClaimReflected(cs: seq<ClaimState>, claims: seq<Claim>, verifs: seq<Verification>, said: set<Payload>, m: nat)
    requires DistinctIds(claims) && Aligned(claims, verifs) && Reflects(cs, claims, verifs, said)
    requires m < |claims| && VerifiedAs(verifs[m]) !in said
    ensures var d := ClaimedAs(claims[m]);
            var after := if exists c :: c in cs && c.claimId == d.claimId then cs
                         else cs + [ClaimState(d.claimId, d.sectionId, d.text, d.entity, d.attribute, d.sourceIds, d.quote, None, None)];
            Reflects(after, claims, verifs, said + {d})
  {
    var d := ClaimedAs(claims[m]);
    var c := ClaimState(d.claimId, d.sectionId, d.text, d.entity, d.attribute, d.sourceIds, d.quote, None, None);
    var now := said + {d};
    forall i | 0 <= i < |cs|
      ensures MirrorsOne(cs[i], claims, verifs, now)
    {
      MirrorKept(cs[i], claims, verifs, said, d);
    }
    assert MirrorsOne(c, claims, verifs, now) by {
      assert Mirrors(c, claims[m], verifs[m], now);
    }
    assert Known(cs, d.claimId) <==> exists x :: x in cs && x.claimId == d.claimId;
    hide MirrorsOne, Mirrors;
    if Known(cs, d.claimId) {
      hide Known;
      assert Reflects(cs, claims, verifs, now);
    } else {
      assert forall i :: 0 <= i < |cs| ==> cs[i].claimId != d.claimId;
      hide Known;
      forall k | 0 <= k < |claims| && ClaimedAs(claims[k]) in now
        ensures Known(cs + [c], claims[k].id)
      {
        KnownSnoc(cs, c, claims[k].id);
      }
      assert Reflects(cs + [c], claims, verifs, now);
    }
  }

  lemma VerdictReflected(cs: seq<ClaimState>, claims: seq<Claim>, verifs: seq<Verification>, said: set<Payload>, m: nat)
    requires DistinctIds(claims) && Aligned(claims, verifs) && Reflects(cs, claims, verifs, said)
    requires m < |claims|
    ensures Reflects(SetVerdicts(cs, verifs[m].claimId, verifs[m].verdict, verifs[m].confidence), claims, verifs, said + {VerifiedAs(verifs[m])})
  {
    var v := verifs[m];
    var now, after := said + {VerifiedAs(v)}, SetVerdicts(cs, v.claimId, v.verdict, v.confidence);
    assert forall i :: 0 <= i < |cs| ==> after[i].claimId == cs[i].claimId;
    forall id | Known(cs, id)
      ensures Known(after, id)
    {
      var i :| 0 <= i < |cs| && cs[i].claimId == id;
      assert after[i].claimId == id;
    }
    assert forall k :: 0 <= k < |claims| && ClaimedAs(claims[k]) in now ==> ClaimedAs(claims[k]) in said;
    hide MirrorsOne, Mirrors, Known, ClaimedAs, VerifiedAs, DistinctIds, Aligned, SetVerdict;
    forall i | 0 <= i < |cs|
      ensures MirrorsOne(after[i], claims, verifs, now)
    {
      VerdictMirrored(cs[i], claims, verifs, said, m);
    }
  }

  lemma {:induction false} SaidMeaning(log: seq<Event>, d: Payload)
    ensures d in Said(log) <==> exists i :: 0 <= i < |log| && log[i].data == d
  {
    if log != [] {
      var n := |log| - 1;
      SaidMeaning(log[..n], d);
      if i :| 0 <= i < n && log[..n][i].data == d {
        assert log[i].data == d;
      }
      if i :| 0 <= i < |log| && log[i].data == d {
        assert i < n ==> log[..n][i].data == d;
      }
    }
  }

  lemma ClaimsFirstPrefix(log: seq<Event>, n: nat)
    requires P.ClaimsFirst(log) && n <= |log|
    ensures P.ClaimsFirst(log[..n])
  {
    var init := log[..n];
    forall j | 0 <= j < n && init[j].data.Verified?
      ensures exists i :: 0 <= i < j && init[i].data.Claimed? && init[i].data.claimId == init[j].data.claimId
    {
      var i :| 0 <= i < j && log[i].data.Claimed? && log[i].data.claimId == log[j].data.claimId;
      assert init[i] == log[i];
    }
  }

  /** A new claim has no verdict yet. */
  lemma NotYetJudged(log: seq<Event>, v: Verification)
    requires P.ClaimsFirst(log) && log != [] && log[|log| - 1].data.Claimed? && log[|log| - 1].data.claimId == v.claimId
    ensures VerifiedAs(v) !in Said(log[..|log| - 1])
  {
    var n := |log| - 1;
    SaidMeaning(log[..n], VerifiedAs(v));
    forall j | 0 <= j < n && log[j].data.Verified?
      ensures log[j].data.claimId != v.claimId
    {
      var i :| 0 <= i < j && log[i].data.Claimed? && log[i].data.claimId == log[j].data.claimId;
    }
  }

  /** The client's claims after a log that tells of these lists only. */
  lemma {:induction false} FoldReflects(log: seq<Event>, claims: seq<Claim>, verifs: seq<Verification>, conflicts: seq<Contradiction>)
    requires DistinctIds(claims) && Aligned(claims, verifs)
    requires P.ClaimsFirst(log) && OnlyFrom(Said(log), claims, verifs, conflicts)
    ensures Reflects(Fold(log).claims, claims, verifs, Said(log))
  {
    if log != [] {
      hide P.ClaimsFirst, Reflects, ReduceEvent;
      var n := |log| - 1;
      var d, said := log[n].data, Said(log[..n]);
      assert d in Said(log);
      ClaimsFirstPrefix(log, n);
      FoldReflects(log[..n], claims, verifs, conflicts);
      if d.Claimed? {
        var k :| 0 <= k < |claims| && d == ClaimedAs(claims[k]);
        NotYetJudged(log, verifs[k]);
      }
      ReflectsStep(Fold(log[..n]), d, claims, verifs, said);
    }
  }

  // ----- counting ------------------------------------------------------------------------------------

  type Keyed = (string, Level)

  ghost predicate DistinctKeys(xs: seq<Keyed>) {
    forall i, j :: 0 <= i < j < |xs| ==> xs[i].0 != xs[j].0
  }

  function Values(xs: seq<Keyed>): (r: seq<Level>)
    ensures |r| == |xs| && forall k :: 0 <= k < |r| ==> r[k] == xs[k].1
  {
    seq(|xs|, k requires 0 <= k < |xs| => xs[k].1)
  }

  lemma ValuesAppend(xs: seq<Keyed>, ys: seq<Keyed>)
    ensures Values(xs + ys) == Values(xs) + Values(ys)
  {
  }

  lemma Without(ys: seq<Keyed>, k: nat) returns (rest: seq<Keyed>)
    requires DistinctKeys(ys) && k < |ys|
    ensures DistinctKeys(rest) && |rest| == |ys| - 1
    ensures forall x :: x in rest <==> x in ys && x != ys[k]
    ensures multiset(Values(ys)) == multiset(Values(rest)) + multiset{ys[k].1}
  {
    rest := ys[..k] + ys[k + 1..];
    assert ys == ys[..k] + [ys[k]] + ys[k + 1..];
    assert ys[k] !in ys[..k] && ys[k] !in ys[k + 1..];
    ValuesAppend(ys[..k], ys[k + 1..]);
    ValuesAppend(ys[..k], [ys[k]]);
    ValuesAppend(ys[..k] + [ys[k]], ys[k + 1..]);
    assert Values([ys[k]]) == [ys[k].1];
  }

  lemma Member(ys: seq<Keyed>) returns (y: Keyed)
    requires ys != []
    ensures y in ys
  {
    y := ys[0];
  }

  /** Two listings of the same keyed levels have the same counts, in whatever order they list them. */
  lemma {:induction false} SameCounts(xs: seq<Keyed>, ys: seq<Keyed>)
    requires DistinctKeys(xs) && DistinctKeys(ys)
    requires forall x :: x in xs <==> x in ys
    ensures |xs| == |ys| && multiset(Values(xs)) == multiset(Values(ys))
    decreases |xs|
  {
    if xs == [] {
      if ys != [] {
        var y := Member(ys);
      }
    } else {
      hide DistinctKeys;
      var m := |xs| - 1;
      var x := xs[m];
      assert x in ys;
      var k :| 0 <= k < |ys| && ys[k] == x;
      var xrest := Without(xs, m);
      var yrest := Without(ys, k);
      SameCounts(xrest, yrest);
    }
  }

  /** How the client would rate claim k of the engine's lists. */
  function ClientReading(claim: Claim, v: Verification): Level {
    if v.verdict == Supported then (if |claim.sourceIds| >= 2 then High else Medium) else Low
  }

  function KeyedClaims(claims: seq<Claim>, verifs: seq<Verification>): (r: seq<Keyed>)
    requires |verifs| == |claims|
    ensures |r| == |claims| && forall k :: 0 <= k < |r| ==> r[k] == (claims[k].id, ClientReading(claims[k], verifs[k]))
  {
    seq(|claims|, k requires 0 <= k < |claims| => (claims[k].id, ClientReading(claims[k], verifs[k])))
  }

  function KeyedStates(cs: seq<ClaimState>): (r: seq<Keyed>)
    ensures |r| == |cs| && forall k :: 0 <= k < |r| ==> r[k] == (cs[k].claimId, ClientLevel(cs[k]))
  {
    seq(|cs|, k requires 0 <= k < |cs| => (cs[k].claimId, ClientLevel(cs[k])))
  }

  lemma MirroredLevel(c: ClaimState, claims: seq<Claim>, verifs: seq<Verification>, said: set<Payload>) returns (k: nat)
    requires |verifs| == |claims| && MirrorsOne(c, claims, verifs, said)
    requires forall k :: 0 <= k < |verifs| ==> VerifiedAs(verifs[k]) in said
    ensures k < |claims| && (c.claimId, ClientLevel(c)) == (claims[k].id, ClientReading(claims[k], verifs[k]))
  {
    k :| 0 <= k < |claims| && Mirrors(c, claims[k], verifs[k], said);
  }

  /** Once all is told, the client holds exactly the engine's claims, rated as it rates them. */
  lemma SameKeyed(cs: seq<ClaimState>, claims: seq<Claim>, verifs: seq<Verification>, said: set<Payload>)
    requires DistinctIds(claims) && Aligned(claims, verifs) && Reflects(cs, claims, verifs, said)
    requires forall k :: 0 <= k < |claims| ==> ClaimedAs(claims[k]) in said && VerifiedAs(verifs[k]) in said
    ensures DistinctKeys(KeyedStates(cs)) && DistinctKeys(KeyedClaims(claims, verifs))
    ensures forall x :: x in KeyedStates(cs) <==> x in KeyedClaims(claims, verifs)
  {
    hide MirrorsOne;
    var xs, ys := KeyedStates(cs), KeyedClaims(claims, verifs);
    forall x | x in xs
      ensures x in ys
    {
      var i :| 0 <= i < |xs| && xs[i] == x;
      var k := MirroredLevel(cs[i], claims, verifs, said);
      assert ys[k] == x;
    }
    forall y | y in ys
      ensures y in xs
    {
      var k :| 0 <= k < |ys| && ys[k] == y;
      assert Known(cs, claims[k].id);
      var i :| 0 <= i < |cs| && cs[i].claimId == claims[k].id;
      var m := MirroredLevel(cs[i], claims, verifs, said);
      assert m == k && xs[i] == y;
    }
  }

  /** A verdict the two sides count differently: partial, on a claim with two sources or more. */
  predicate Disputed(claim: Claim, v: Verification) {
    v.verdict == Partial && |claim.sourceIds| >= 2
  }

  function Disputes(claims: seq<Claim>, verifs: seq<Verification>): (r: seq<bool>)
    requires |verifs| == |claims|
    ensures |r| == |claims| && forall k :: 0 <= k < |r| ==> r[k] == Disputed(claims[k], verifs[k])
  {
    seq(|claims|, k requires 0 <= k < |claims| => Disputed(claims[k], verifs[k]))
  }

  /** Two ratings that differ at the marked places only, medium for low there. */
  lemma {:induction false} MovedCounts(server: seq<Level>, client: seq<Level>, disputed: seq<bool>)
    requires |server| == |client| == |disputed|
    requires forall k :: 0 <= k < |server| ==> if disputed[k] then server[k] == Medium && client[k] == Low else server[k] == client[k]
    ensures multiset(server)[High] == multiset(client)[High]
    ensures multiset(server)[Medium] == multiset(client)[Medium] + multiset(disputed)[true]
    ensures multiset(client)[Low] == multiset(server)[Low] + multiset(disputed)[true]
  {
    if server != [] {
      var n := |server| - 1;
      MovedCounts(server[..n], client[..n], disputed[..n]);
      CountSnoc(server, High);
      CountSnoc(server, Medium);
      CountSnoc(server, Low);
      CountSnoc(client, High);
      CountSnoc(client, Medium);
      CountSnoc(client, Low);
      CountSnoc(disputed, true);
    }
  }

  /** What the client shows after a log that tells the engine's lists. */
  lemma ClientCounts(log: seq<Event>, claims: seq<Claim>, verifs: seq<Verification>, conflicts: seq<Contradiction>)
    requires Tells(log, claims, verifs, conflicts)
    ensures multiset(ClientLevels(Fold(log).claims)) == multiset(Values(KeyedClaims(claims, verifs)))
  {
    var cs := Fold(log).claims;
    FoldReflects(log, claims, verifs, conflicts);
    SameKeyed(cs, claims, verifs, Said(log));
    SameCounts(KeyedStates(cs), KeyedClaims(claims, verifs));
    assert Values(KeyedStates(cs)) == ClientLevels(cs);
  }

  // ----- contradictions ---------------------------------------------------------------------------------

  function KeyedConflicts(xs: seq<ConflictState>): (r: seq<Keyed>)
    ensures |r| == |xs| && forall k :: 0 <= k < |r| ==> r[k] == (xs[k].id, Low)
  {
    seq(|xs|, k requires 0 <= k < |xs| => (xs[k].id, Low))
  }

  /** The engine's contradictions as the client would hold them. */
  function Shown(xs: seq<Contradiction>): (r: seq<ConflictState>)
    ensures |r| == |xs| && forall k :: 0 <= k < |r| ==> r[k].id == xs[k].id
  {
    seq(|xs|, k requires 0 <= k < |xs| =>
      ConflictState(xs[k].id, Some(xs[k].entity), Some(xs[k].attribute), (xs[k].claimIdA, xs[k].claimIdB), xs[k].note))
  }

  ghost predicate ConflictsReflect(xs: seq<ConflictState>, said: set<Payload>) {
    && DistinctKeys(KeyedConflicts(xs))
    && forall id :: (id, Low) in KeyedConflicts(xs) <==> exists d :: d in said && d.Conflict? && d.id == id
  }

  lemma ReduceConflicts(s: StreamState, d: Payload)
    ensures ReduceEvent(s, d).contradictions ==
            if d.Conflict? && !(exists c :: c in s.contradictions && c.id == d.id)
            then s.contradictions + [ConflictState(d.id, d.entity, d.attribute, d.claimIds, d.note)]
            else s.contradictions
  {
    hide UpsertSection, SeedAll, AddSource;
  }

  lemma KeyedHasIds(xs: seq<ConflictState>)
    ensures forall id :: (id, Low) in KeyedConflicts(xs) <==> exists c :: c in xs && c.id == id
  {
    forall id | (id, Low) in KeyedConflicts(xs)
      ensures exists c :: c in xs && c.id == id
    {
      var i :| 0 <= i < |xs| && KeyedConflicts(xs)[i] == (id, Low);
      assert xs[i] in xs;
    }
    forall c | c in xs
      ensures (c.id, Low) in KeyedConflicts(xs)
    {
      var i :| 0 <= i < |xs| && xs[i] == c;
      assert KeyedConflicts(xs)[i] == (c.id, Low);
    }
  }

  lemma ConflictsStep(s: StreamState, d: Payload, said: set<Payload>)
    requires ConflictsReflect(s.contradictions, said)
    ensures ConflictsReflect(ReduceEvent(s, d).contradictions, said + {d})
  {
    hide ReduceEvent;
    ReduceConflicts(s, d);
    var xs, after := s.contradictions, ReduceEvent(s, d).contradictions;
    var now := said + {d};
    KeyedHasIds(xs);
    if after != xs {
      assert KeyedConflicts(after) == KeyedConflicts(xs) + [(d.id, Low)];
    }
    forall id | true
      ensures (id, Low) in KeyedConflicts(after) <==> exists e :: e in now && e.Conflict? && e.id == id
    {
      if d.Conflict? && d.id == id {
        assert d in now;
      }
    }
  }

  lemma {:induction false} FoldConflicts(log: seq<Event>)
    ensures ConflictsReflect(Fold(log).contradictions, Said(log))
  {
    if log != [] {
      hide ReduceEvent, ConflictsReflect;
      FoldConflicts(log[..|log| - 1]);
      ConflictsStep(Fold(log[..|log| - 1]), log[|log| - 1].data, Said(log[..|log| - 1]));
    }
  }

  lemma ConflictCount(log: seq<Event>, claims: seq<Claim>, verifs: seq<Verification>, conflicts: seq<Contradiction>)
    requires Tells(log, claims, verifs, conflicts)
    ensures |Fold(log).contradictions| == |conflicts|
  {
    var xs, ys := KeyedConflicts(Fold(log).contradictions), KeyedConflicts(Shown(conflicts));
    FoldConflicts(log);
    forall x | x in xs
      ensures x in ys
    {
      var d :| d in Said(log) && d.Conflict? && d.id == x.0;
      var k :| 0 <= k < |conflicts| && d == ConflictAs(conflicts[k]);
      assert ys[k] == x;
    }
    forall y | y in ys
      ensures y in xs
    {
      var k :| 0 <= k < |ys| && ys[k] == y;
      assert ConflictAs(conflicts[k]) in Said(log);
    }
    SameCounts(xs, ys);
  }

  // ----- the comparison -------------------------------------------------------------------------------------

  function ServerSummary(claims: seq<Claim>, verifs: seq<Verification>, conflicts: seq<Contradiction>): ConfidenceSummary {
    Tally(ServerLevels(claims, verifs), |conflicts|)
  }

  function ClientSummary(s: StreamState): ConfidenceSummary {
    Tally(ClientLevels(s.claims), |s.contradictions|)
  }

  lemma RatedApart(claims: seq<Claim>, verifs: seq<Verification>)
    requires DistinctIds(claims) && Aligned(claims, verifs)
    ensures forall k :: 0 <= k < |claims| ==>
              if Disputes(claims, verifs)[k]
              then ServerLevels(claims, verifs)[k] == Medium && Values(KeyedClaims(claims, verifs))[k] == Low
              else ServerLevels(claims, verifs)[k] == Values(KeyedClaims(claims, verifs))[k]
  {
    forall k | 0 <= k < |claims|
      ensures Confidence(claims[k], verifs) == if Disputed(claims[k], verifs[k]) then Medium else ClientReading(claims[k], verifs[k])
    {
      LookupsCoincide(claims, verifs, k);
    }
  }

  lemma TalliesEqualIff(server: seq<Level>, client: seq<Level>, disputed: seq<bool>, n: nat)
    requires |server| == |client| == |disputed|
    requires forall k :: 0 <= k < |server| ==> if disputed[k] then server[k] == Medium && client[k] == Low else server[k] == client[k]
    ensures Tally(client, n) == Tally(server, n) <==> true !in disputed
  {
    MovedCounts(server, client, disputed);
    assert multiset(disputed)[true] == 0 <==> true !in multiset(disputed);
  }

  /**
   * The counts the client derives from the stream are the server's summary exactly when no partial
   * verdict is on a claim with two or more sources; each such claim is medium for the server, low for the client.
   */
  lemma TrustCountsAgreeIff(log: seq<Event>, claims: seq<Claim>, verifs: seq<Verification>, conflicts: seq<Contradiction>)
    requires Tells(log, claims, verifs, conflicts)
    ensures ClientSummary(Fold(log)) == ServerSummary(claims, verifs, conflicts)
       <==> forall k :: 0 <= k < |claims| ==> !Disputed(claims[k], verifs[k])
  {
    assert DistinctIds(claims) && Aligned(claims, verifs);
    hide Tells, Fold, Confidence, Disputed;
    ClientCounts(log, claims, verifs, conflicts);
    ConflictCount(log, claims, verifs, conflicts);
    RatedApart(claims, verifs);
    TalliesEqualIff(ServerLevels(claims, verifs), Values(KeyedClaims(claims, verifs)), Disputes(claims, verifs), |conflicts|);
    assert true in Disputes(claims, verifs) <==> exists k :: 0 <= k < |claims| && Disputed(claims[k], verifs[k]) by {
      if k :| 0 <= k < |claims| && Disputed(claims[k], verifs[k]) {
        assert Disputes(claims, verifs)[k];
      }
    }
  }

  /** Extraction cites one source per claim, so for the engine's claims the two sides always agree. */
  lemma SingleSourceAgrees(log: seq<Event>, claims: seq<Claim>, verifs: seq<Verification>, conflicts: seq<Contradiction>)
    requires Tells(log, claims, verifs, conflicts)
    requires forall k :: 0 <= k < |claims| ==> |claims[k].sourceIds| == 1
    ensures ClientSummary(Fold(log)) == ServerSummary(claims, verifs, conflicts)
  {
    TrustCountsAgreeIff(log, claims, verifs, conflicts);
  }
}
