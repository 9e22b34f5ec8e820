/**
 * One verdict per claim, failing closed: `verify_claims` and `confidence` of
 * backend/app/core/verifier.py. The model's reply is arbitrary data; letters are lowered as ASCII.
 */
module Verifier {
  import opened Common
  import opened Wire
  import opened Findings
  import opened Text

  /** An entry of the reply's `verifications` list. */
  datatype Item = NotDict | Item(claimId: string, verdict: string, confidence: real, rationale: string)

  function ParseVerdict(s: string): Option<Verdict> {
    if s == "supported" then Some(Supported)
    else if s == "partial" then Some(Partial)
    else if s == "unsupported" then Some(Unsupported)
    else if s == "contradicted" then Some(Contradicted)
    else None
  }

  predicate Judges(item: Item, id: string) {
    item.Item? && ParseVerdict(Lower(item.verdict)).Some? && item.claimId == id
  }

  function Judgement(item: Item): Verification
    requires item.Item? && ParseVerdict(Lower(item.verdict)).Some?
  {
    Verification(item.claimId, ParseVerdict(Lower(item.verdict)).value, item.confidence, item.rationale)
  }

  /** The fail-closed verdict on a claim the reply does not judge. */
  function Ignored(id: string): Verification {
    Verification(id, Unsupported, 0.0, "verifier returned no judgement")
  }

  /** The judgement that counts for a claim: the reply's last one about it. */
  function VerdictFor(items: seq<Item>, id: string): Verification {
    if items == [] then Ignored(id)
    else if Judges(items[|items| - 1], id) then Judgement(items[|items| - 1])
    else VerdictFor(items[..|items| - 1], id)
  }

  function Verdicts(claims: seq<Claim>, items: seq<Item>): (r: seq<Verification>)
    ensures Aligned(claims, r)
    ensures forall i :: 0 <= i < |claims| ==> r[i] == VerdictFor(items, claims[i].id)
  {
    VerdictForNames(items);
    seq(|claims|, i requires 0 <= i < |claims| => VerdictFor(items, claims[i].id))
  }

  lemma {:induction false} VerdictForNames(items: seq<Item>)
    ensures forall id :: VerdictFor(items, id).claimId == id
  {
    if items != [] {
      VerdictForNames(items[..|items| - 1]);
    }
  }

  /** `reply` is None when the text held no JSON object. */
  method VerifyClaims(claims: seq<Claim>, reply: Option<seq<Item>>) returns (out: seq<Verification>)
    ensures out == Verdicts(claims, reply.GetOr([]))
  {
    out := [];
    if claims == [] {
      return;
    }
    var items := reply.GetOr([]);
    var byId: map<string, Verification> := map[];
    for i := 0 to |items|
      invariant forall id :: (if id in byId then byId[id] else Ignored(id)) == VerdictFor(items[..i], id)
    {
      assert items[..i + 1][..i] == items[..i];
      if items[i].Item? && ParseVerdict(Lower(items[i].verdict)).Some? {
        byId := byId[items[i].claimId := Judgement(items[i])];
      }
    }
    assert items[..|items|] == items;
    for i := 0 to |claims|
      invariant |out| == i
      invariant forall k :: 0 <= k < i ==> out[k] == VerdictFor(items, claims[k].id)
    {
      out := out + [if claims[i].id in byId then byId[claims[i].id] else Ignored(claims[i].id)];
    }
  }

  /** Item k is the reply's last word on the claim. */
  ghost predicate Decides(items: seq<Item>, id: string, k: int) {
    && 0 <= k < |items| && Judges(items[k], id)
    && forall j :: k < j < |items| ==> !Judges(items[j], id)
  }

  /** The last well-formed item about a claim decides, whatever else the reply omits, repeats, misspells or invents. */
  lemma {:induction false} LastItemDecides(items: seq<Item>, id: string, k: int)
    requires Decides(items, id, k)
    ensures VerdictFor(items, id) == Judgement(items[k])
  {
    var n := |items| - 1;
    if k < n {
      assert Decides(items[..n], id, k);
      LastItemDecides(items[..n], id, k);
    }
  }

  /** A claim no well-formed item is about is unsupported. */
  lemma {:induction false} OmittedIsUnsupported(items: seq<Item>, id: string)
    requires forall k :: 0 <= k < |items| ==> !Judges(items[k], id)
    ensures VerdictFor(items, id) == Ignored(id)
  {
    if items != [] {
      OmittedIsUnsupported(items[..|items| - 1], id);
    }
  }

  lemma {:induction false} SomeItemDecides(items: seq<Item>, id: string, k: nat) returns (d: int)
    requires k < |items| && Judges(items[k], id)
    ensures Decides(items, id, d)
  {
    d := |items| - 1;
    if !Judges(items[d], id) {
      var init := items[..d];
      d := SomeItemDecides(init, id, k);
      assert forall j :: 0 <= j < |init| ==> init[j] == items[j];
    }
  }

  /** A claim is supported if and only if the reply's last word on it is "supported", in whatever case. */
  lemma {:induction false} SupportedIff(items: seq<Item>, id: string)
    ensures VerdictFor(items, id).verdict == Supported
       <==> exists k :: Decides(items, id, k) && Lower(items[k].verdict) == "supported"
  {
    if exists k :: 0 <= k < |items| && Judges(items[k], id) {
      var k :| 0 <= k < |items| && Judges(items[k], id);
      var d := SomeItemDecides(items, id, k);
      LastItemDecides(items, id, d);
      assert forall e :: Decides(items, id, e) ==> e == d;
    } else {
      OmittedIsUnsupported(items, id);
      assert forall e :: !Decides(items, id, e);
    }
  }

  /** Item k is the reply's last one about the claim that uses one of the four words, in whatever case. */
  ghost predicate LastWord(items: seq<Item>, id: string, k: int) {
    && 0 <= k < |items| && UsesWord(items[k], id)
    && forall j :: k < j < |items| ==> !UsesWord(items[j], id)
  }

  predicate UsesWord(item: Item, id: string) {
    item.Item? && item.claimId == id && Lower(item.verdict) in {"supported", "partial", "unsupported", "contradicted"}
  }

  /**
   * The verdict on a claim is that item's: the verdict its word names, its confidence and its rationale. Without one
   * the claim is unsupported, with confidence zero.
   */
  lemma VerdictReads(items: seq<Item>, id: string)
    ensures VerdictFor(items, id).claimId == id
    ensures forall k :: LastWord(items, id, k) ==>
              var v, word := VerdictFor(items, id), Lower(items[k].verdict);
              && (v.verdict == Supported <==> word == "supported")
              && (v.verdict == Partial <==> word == "partial")
              && (v.verdict == Unsupported <==> word == "unsupported")
              && (v.verdict == Contradicted <==> word == "contradicted")
              && v.confidence == items[k].confidence && v.rationale == items[k].rationale
    ensures (forall k :: 0 <= k < |items| ==> !UsesWord(items[k], id)) ==>
              VerdictFor(items, id) == Verification(id, Unsupported, 0.0, "verifier returned no judgement")
  {
    VerdictForNames(items);
    assert forall k :: 0 <= k < |items| ==> (UsesWord(items[k], id) <==> Judges(items[k], id));
    hide UsesWord, Judges, VerdictFor;
    forall k | LastWord(items, id, k)
      ensures VerdictFor(items, id) == Judgement(items[k])
    {
      LastItemDecides(items, id, k);
    }
    if forall k :: 0 <= k < |items| ==> !UsesWord(items[k], id) {
      OmittedIsUnsupported(items, id);
    }
  }

  datatype Level = High | Medium | Low

  /** `confidence`: the first verdict on the claim and the number of its sources decide. */
  function Confidence(claim: Claim, verifs: seq<Verification>): Level {
    var first := FirstFor(verifs, claim.id);
    if first.None? || first.value.verdict == Unsupported || first.value.verdict == Contradicted then Low
    else if first.value.verdict == Supported then (if |claim.sourceIds| >= 2 then High else Medium)
    else if |claim.sourceIds| >= 2 then Medium
    else Low
  }

  /** What the levels mean. */
  lemma ConfidenceReads(claim: Claim, verifs: seq<Verification>)
    ensures var first, n := FirstFor(verifs, claim.id), |claim.sourceIds|;
            && (Confidence(claim, verifs) == High <==> first.Some? && first.value.verdict == Supported && n >= 2)
            && (Confidence(claim, verifs) == Medium <==>
                  && first.Some?
                  && ((first.value.verdict == Supported && n < 2) || (first.value.verdict == Partial && n >= 2)))
  {
  }
}
