/** Claims, verdicts and contradictions (backend/app/models/schemas.py), and looking a verdict up by claim id. */
module Findings {
  import opened Common
  import opened Wire

  datatype Claim = Claim(
    id: string, text: string, quote: string, sourceIds: seq<nat>, sectionId: string,
    entity: Option<string>, attribute: Option<string>)

  datatype Verification = Verification(claimId: string, verdict: Verdict, confidence: real, rationale: string)

  datatype Contradiction = Contradiction(
    id: string, claimIdA: string, claimIdB: string, entity: string, attribute: string, note: string)

  /** Python's truth of an optional string. */
  predicate Truthy(s: Option<string>) {
    s.Some? && s.value != ""
  }

  ghost predicate DistinctIds(claims: seq<Claim>) {
    forall i, j :: 0 <= i < j < |claims| ==> claims[i].id != claims[j].id
  }

  ghost predicate DistinctConflictIds(xs: seq<Contradiction>) {
    forall i, j :: 0 <= i < j < |xs| ==> xs[i].id != xs[j].id
  }

  /** One verdict per claim, in the claims' order. */
  ghost predicate Aligned(claims: seq<Claim>, verifs: seq<Verification>) {
    && |verifs| == |claims|
    && forall i :: 0 <= i < |claims| ==> verifs[i].claimId == claims[i].id
  }

  lemma AlignedAppend(c: seq<Claim>, v: seq<Verification>, d: seq<Claim>, w: seq<Verification>)
    requires Aligned(c, v) && Aligned(d, w)
    ensures Aligned(c + d, v + w)
  {
  }

  lemma NothingAligned()
    ensures Aligned([], [])
  {
  }

  function SupportedIds(verifs: seq<Verification>): set<string> {
    set v | v in verifs && v.verdict == Supported :: v.claimId
  }

  /** `next(v for v in verifications if v.claim_id == id)`, the lookup by scanning. */
  function FirstFor(verifs: seq<Verification>, id: string): Option<Verification> {
    if verifs == [] then None
    else if verifs[0].claimId == id then Some(verifs[0])
    else FirstFor(verifs[1..], id)
  }

  /** `{v.claim_id: v for v in verifications}`, the lookup by dictionary: a later entry replaces an earlier one. */
  function ById(verifs: seq<Verification>): map<string, Verification> {
    if verifs == [] then map[]
    else ById(verifs[..|verifs| - 1])[verifs[|verifs| - 1].claimId := verifs[|verifs| - 1]]
  }

  lemma {:induction false} FirstForMeaning(verifs: seq<Verification>, id: string)
    ensures FirstFor(verifs, id).None? <==> forall v :: v in verifs ==> v.claimId != id
    ensures FirstFor(verifs, id).Some? ==>
              exists i :: 0 <= i < |verifs| && verifs[i] == FirstFor(verifs, id).value && verifs[i].claimId == id
                       && forall j :: 0 <= j < i ==> verifs[j].claimId != id
  {
    if verifs != [] && verifs[0].claimId != id {
      FirstForMeaning(verifs[1..], id);
      assert forall v :: v in verifs <==> v == verifs[0] || v in verifs[1..];
      if FirstFor(verifs, id).Some? {
        var i :| 0 <= i < |verifs[1..]| && verifs[1..][i] == FirstFor(verifs[1..], id).value && verifs[1..][i].claimId == id
              && forall j :: 0 <= j < i ==> verifs[1..][j].claimId != id;
        assert verifs[i + 1] == verifs[1..][i];
        assert forall j :: 0 < j < i + 1 ==> verifs[j] == verifs[1..][j - 1];
      }
    }
  }

  /** An id is in the dictionary when some verdict has it. */
  lemma {:induction false} ByIdHas(verifs: seq<Verification>, i: nat)
    requires i < |verifs|
    ensures verifs[i].claimId in ById(verifs)
  {
    if i < |verifs| - 1 {
      ByIdHas(verifs[..|verifs| - 1], i);
    }
  }

  /** And what it leads to is the last verdict that has it. */
  lemma {:induction false} ByIdLast(verifs: seq<Verification>, id: string) returns (i: nat)
    requires id in ById(verifs)
    ensures i < |verifs| && verifs[i] == ById(verifs)[id] && verifs[i].claimId == id
    ensures forall j :: i < j < |verifs| ==> verifs[j].claimId != id
  {
    i := |verifs| - 1;
    if verifs[i].claimId != id {
      var init := verifs[..i];
      i := ByIdLast(init, id);
      assert forall j :: 0 <= j < |init| ==> init[j] == verifs[j];
    }
  }

  /** With distinct claim ids and one verdict each, both lookups find exactly the claim's own verdict, and never fail. */
  lemma LookupsCoincide(claims: seq<Claim>, verifs: seq<Verification>, k: nat)
    requires DistinctIds(claims) && Aligned(claims, verifs) && k < |claims|
    ensures FirstFor(verifs, claims[k].id) == Some(verifs[k])
    ensures claims[k].id in ById(verifs) && ById(verifs)[claims[k].id] == verifs[k]
    ensures claims[k].id in SupportedIds(verifs) <==> verifs[k].verdict == Supported
  {
    var id := claims[k].id;
    assert forall i :: 0 <= i < |verifs| && verifs[i].claimId == id ==> i == k;
    assert verifs[k] in verifs;
    FirstForMeaning(verifs, id);
    ByIdHas(verifs, k);
    var last := ByIdLast(verifs, id);
  }
}
