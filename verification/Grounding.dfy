/**
 * Claims are kept only with a quote found on the page: `_norm`, `_is_grounded` and
 * `extract_claims` of backend/app/core/claims.py.
 */
module Grounding {
  import opened Common
  import opened Findings
  import opened Text

  /** `re.sub(r"\s+", " ", s)`: a run of white space becomes one space. */
  function Collapse(s: string): string {
    if s == "" then ""
    else if !IsSpace(s[0]) then [s[0]] + Collapse(s[1..])
    else if |s| > 1 && IsSpace(s[1]) then Collapse(s[1..])
    else [' '] + Collapse(s[1..])
  }

  /** `_norm`. */
  function Norm(s: string): string {
    Lower(Strip(Collapse(s)))
  }

  /** `_is_grounded`. */
  predicate IsGrounded(quote: string, page: string) {
    Norm(quote) != "" && Contains(Norm(page), Norm(quote))
  }

  // ----- the normal form, character by character ------------------------------------------

  /** The normal form with one leading space left in when the text starts with white space. */
  function Tail(s: string): string {
    if s == "" then ""
    else
      var t := Tail(s[1..]);
      if !IsSpace(s[0]) then [LowerChar(s[0])] + t
      else if t == "" || t[0] == ' ' then t
      else [' '] + t
  }

  /** How many leading spaces that is. */
  function Lead(s: string): (n: nat)
    ensures n <= |Tail(s)|
  {
    if Tail(s) != "" && Tail(s)[0] == ' ' then 1 else 0
  }

  function Chop(t: string): string {
    if t != "" && t[0] == ' ' then t[1..] else t
  }

  lemma {:induction false} TailShape(s: string)
    ensures Tail(s) != "" ==> !IsSpace(Tail(s)[|Tail(s)| - 1])
    ensures Tail(s) != "" && IsSpace(Tail(s)[0]) ==> Tail(s)[0] == ' ' && |Tail(s)| > 1 && !IsSpace(Tail(s)[1])
    ensures s != "" ==> (IsSpace(s[0]) <==> Tail(s) == "" || Tail(s)[0] == ' ')
  {
    if s != "" {
      TailShape(s[1..]);
    }
  }

  lemma {:induction false} TailIsStripped(s: string)
    ensures Lower(StripEnd(Collapse(s))) == Tail(s)
  {
    if s != "" {
      hide StripEnd, Lower;
      TailIsStripped(s[1..]);
      TailShape(s[1..]);
      var rest := Collapse(s[1..]);
      StripEndCons(s[0], rest);
      StripEndCons(' ', rest);
      LowerCons(s[0], StripEnd(rest));
      LowerCons(' ', StripEnd(rest));
    }
  }

  lemma ChopLower(t: string)
    requires t != "" && IsSpace(t[0]) ==> t[0] == ' ' && |t| > 1 && !IsSpace(t[1])
    ensures Lower(StripStart(t)) == Chop(Lower(t))
  {
    if t != "" {
      assert StripStart(t) == if IsSpace(t[0]) then t[1..] else t;
      assert Lower(t[1..]) == Lower(t)[1..];
    }
  }

  lemma NormIsTail(s: string)
    ensures Norm(s) == Chop(Tail(s)) == Tail(s)[Lead(s)..]
    ensures Norm(s) != "" ==> !IsSpace(Norm(s)[0]) && !IsSpace(Norm(s)[|Norm(s)| - 1])
  {
    TailShape(s);
    TailIsStripped(s);
    StripCommutes(Collapse(s));
    ChopLower(StripEnd(Collapse(s)));
  }

  // ----- spans of the page and parts of its normal form ------------------------------------

  lemma {:induction false} TailOfPrefix(s: string, j: nat)
    requires j <= |s|
    ensures Tail(s[..j]) <= Tail(s)
  {
    if j > 0 {
      assert s[..j][1..] == s[1..][..j - 1];
      TailOfPrefix(s[1..], j - 1);
    }
  }

  lemma {:induction false} TailOfSuffix(s: string, i: nat)
    requires i <= |s|
    ensures |Tail(s[i..])| <= |Tail(s)| && Tail(s)[|Tail(s)| - |Tail(s[i..])|..] == Tail(s[i..])
  {
    if i == 0 {
      assert s[0..] == s;
    } else {
      assert s[i..] == s[1..][i - 1..];
      TailOfSuffix(s[1..], i - 1);
    }
  }

  lemma SpanTailIsInside(page: string, i: nat, j: nat) returns (k: int)
    requires i <= j <= |page|
    ensures FoundAt(Tail(page), Tail(page[i..j]), k)
  {
    hide Tail;
    TailOfSuffix(page, i);
    assert page[i..j] == page[i..][..j - i];
    TailOfPrefix(page[i..], j - i);
    k := |Tail(page)| - |Tail(page[i..])|;
    assert Tail(page)[k..][..|Tail(page[i..j])|] == Tail(page)[k..k + |Tail(page[i..j])|];
  }

  /** A span of a text has its normal form inside the text's normal form. */
  lemma SpanNormIsInside(page: string, i: nat, j: nat)
    requires i <= j <= |page|
    ensures Contains(Norm(page), Norm(page[i..j]))
  {
    hide Tail, Norm, Chop;
    var n := Norm(page[i..j]);
    NormIsTail(page);
    NormIsTail(page[i..j]);
    var k := SpanTailIsInside(page, i, j);
    FoundPart(Tail(page), Tail(page[i..j]), k, Lead(page[i..j]));
    var at := k + Lead(page[i..j]);
    if n == "" {
      assert FoundAt(Norm(page), n, 0);
    } else {
      assert n[0] == Tail(page)[at..at + |n|][0] == Tail(page)[at];
      FoundDrop(Tail(page), Lead(page), n, at - Lead(page));
      assert FoundAt(Norm(page), n, at - Lead(page));
    }
  }

  /** Where the normal form has a visible character, the page has a suffix with that normal form. */
  lemma {:induction false} SuffixAt(s: string, k: nat) returns (i: nat)
    requires k < |Tail(s)| && !IsSpace(Tail(s)[k])
    ensures i <= |s| && Tail(s[i..]) == Tail(s)[k..]
  {
    TailShape(s);
    if k == 0 {
      i := 0;
      assert s[0..] == s;
    } else {
      var t := Tail(s[1..]);
      var back := |Tail(s)| - |t|;
      assert Tail(s)[back..] == t;
      i := SuffixAt(s[1..], k - back);
      assert s[1..][i..] == s[i + 1..];
      assert Tail(s)[k..] == t[k - back..];
      i := i + 1;
    }
  }

  lemma {:induction false} PrefixAt(s: string, m: nat) returns (j: nat)
    requires 0 < m <= |Tail(s)| && !IsSpace(Tail(s)[m - 1])
    ensures j <= |s| && Tail(s[..j]) == Tail(s)[..m]
  {
    var t := Tail(s[1..]);
    var front := |Tail(s)| - |t|;
    if front == 1 && m == 1 {
      j := 1;
      assert s[..1][1..] == "";
    } else {
      j := PrefixAt(s[1..], m - front);
      assert s[..j + 1][1..] == s[1..][..j];
      j := j + 1;
    }
  }

  lemma GroundedHasSpan(quote: string, page: string) returns (i: nat, j: nat)
    requires IsGrounded(quote, page)
    ensures i <= j <= |page| && Norm(page[i..j]) == Norm(quote)
  {
    var n, all := Norm(quote), Tail(page);
    NormIsTail(quote);
    NormIsTail(page);
    hide Tail, Norm, Chop;
    var k :| FoundAt(Norm(page), n, k);
    FoundDrop(all, Lead(page), n, k);
    var at := k + Lead(page);
    assert n[0] == all[at..at + |n|][0] == all[at];
    i := SuffixAt(page, at);
    assert Tail(page[i..])[..|n|] == n;
    j := PrefixWithNorm(page[i..], n);
    assert page[i..][..j] == page[i..i + j];
    j := i + j;
  }

  lemma PrefixWithNorm(rest: string, n: string) returns (j: nat)
    requires n != "" && !IsSpace(n[0]) && !IsSpace(n[|n| - 1]) && n <= Tail(rest)
    ensures j <= |rest| && Norm(rest[..j]) == n
  {
    hide Tail, Norm;
    j := PrefixAt(rest, |n|);
    NormIsTail(rest[..j]);
  }

  /** A quote is grounded exactly when the page has a span that differs from it in white space and letter case only. */
  lemma GroundedIff(quote: string, page: string)
    ensures IsGrounded(quote, page)
       <==> Norm(quote) != "" && exists i, j :: 0 <= i <= j <= |page| && Norm(page[i..j]) == Norm(quote)
  {
    if IsGrounded(quote, page) {
      var i, j := GroundedHasSpan(quote, page);
      assert Norm(page[i..j]) == Norm(quote);
    }
    if exists i, j :: 0 <= i <= j <= |page| && Norm(page[i..j]) == Norm(quote) {
      var i, j :| 0 <= i <= j <= |page| && Norm(page[i..j]) == Norm(quote);
      SpanNormIsInside(page, i, j);
    }
  }

  lemma {:induction false} TailOfNormal(s: string)
    ensures Tail(Tail(s)) == Tail(s)
  {
    if s != "" {
      TailOfNormal(s[1..]);
      TailShape(s[1..]);
      var t := Tail(s[1..]);
      assert ([LowerChar(s[0])] + t)[1..] == t && ([' '] + t)[1..] == t;
    }
  }

  /** Normalising twice is normalising once. */
  lemma NormIdempotent(s: string)
    ensures Norm(Norm(s)) == Norm(s)
  {
    TailShape(s);
    NormIsTail(s);
    NormIsTail(Norm(s));
    TailOfNormal(s);
    var t := Tail(s);
    if t != "" && t[0] == ' ' {
      assert Tail(t) == Tail([' '] + t[1..]);
    }
  }

  // ----- extracting claims ---------------------------------------------------------------------

  /** An entry of the reply's `claims` list; `or None` has been applied to entity and attribute. */
  datatype Item = NotDict | Item(text: string, quote: string, entity: Option<string>, attribute: Option<string>)

  predicate Keeps(item: Item, page: string) {
    item.Item? && Strip(item.text) != "" && IsGrounded(Strip(item.quote), page)
  }

  /** The items that become claims, in order. */
  function Kept(items: seq<Item>, page: string): (r: seq<Item>)
    ensures |r| <= |items|
    ensures forall k :: 0 <= k < |r| ==> Keeps(r[k], page)
  {
    if items == [] then []
    else
      var init, last := Kept(items[..|items| - 1], page), items[|items| - 1];
      if Keeps(last, page) then init + [last] else init
  }

  /** Which items those are. */
  lemma {:induction false} KeptIff(items: seq<Item>, page: string, x: Item)
    ensures x in Kept(items, page) <==> x in items && Keeps(x, page)
  {
    if items != [] {
      KeptIff(items[..|items| - 1], page, x);
      assert x in items <==> x in items[..|items| - 1] || x == items[|items| - 1];
    }
  }

  function ClaimOf(item: Item, id: string, sourceId: nat, sectionId: string): Claim
    requires item.Item?
  {
    Claim(id, Strip(item.text), Strip(item.quote), [sourceId], sectionId, item.entity, item.attribute)
  }

  /** The k-th kept item, under the k-th new id. */
  function Extracted(items: seq<Item>, page: string, sourceId: nat, sectionId: string, ids: seq<string>): (r: seq<Claim>)
    requires |ids| >= |items|
    ensures |r| == |Kept(items, page)|
    ensures forall k :: 0 <= k < |r| ==> r[k] == ClaimOf(Kept(items, page)[k], ids[k], sourceId, sectionId)
  {
    var kept := Kept(items, page);
    seq(|kept|, k requires 0 <= k < |kept| => ClaimOf(kept[k], ids[k], sourceId, sectionId))
  }

  /** `ids` are what `uuid4` yields; `reply` is None when the text held no JSON object. */
  method ExtractClaims(ok: bool, page: string, reply: Option<seq<Item>>, sourceId: nat, sectionId: string, ids: seq<string>)
    returns (claims: seq<Claim>)
    requires |ids| >= |reply.GetOr([])|
    ensures claims == if ok then Extracted(reply.GetOr([]), page, sourceId, sectionId, ids) else []
  {
    hide IsGrounded, Norm, Strip;
    claims := [];
    if !ok {
      return;
    }
    if Strip(page) == "" {
      BlankPage(page, reply.GetOr([]));
      return;
    }
    var items := reply.GetOr([]);
    for i := 0 to |items|
      invariant |claims| <= i
      invariant claims == Extracted(items[..i], page, sourceId, sectionId, ids)
    {
      assert items[..i + 1][..i] == items[..i];
      if items[i].NotDict? {
        continue;
      }
      var text, quote := Strip(items[i].text), Strip(items[i].quote);
      if text == "" || !IsGrounded(quote, page) {
        continue;
      }
      claims := claims + [Claim(ids[|claims|], text, quote, [sourceId], sectionId, items[i].entity, items[i].attribute)];
    }
    assert items[..|items|] == items;
  }

  lemma {:induction false} BlankTail(s: string)
    requires Tail(s) != ""
    ensures exists k :: 0 <= k < |s| && !IsSpace(s[k])
  {
    if IsSpace(s[0]) {
      BlankTail(s[1..]);
      var k :| 0 <= k < |s[1..]| && !IsSpace(s[1..][k]);
      assert !IsSpace(s[k + 1]);
    } else {
      assert !IsSpace(s[0]);
    }
  }

  lemma {:induction false} VisibleStays(s: string, k: nat)
    requires k < |s| && !IsSpace(s[k])
    ensures Strip(s) != ""
  {
    if IsSpace(s[0]) {
      VisibleStays(s[1..], k - 1);
    } else {
      assert s == [s[0]] + s[1..];
      StripEndCons(s[0], s[1..]);
    }
  }

  /** Nothing is grounded on a blank page, so returning early only saves a call. */
  lemma BlankPage(page: string, items: seq<Item>)
    requires Strip(page) == ""
    ensures Kept(items, page) == []
  {
    NormIsTail(page);
    if Tail(page) != "" {
      BlankTail(page);
      var k :| 0 <= k < |page| && !IsSpace(page[k]);
      VisibleStays(page, k);
    }
    assert Norm(page) == "";
    assert forall x: Item :: !Keeps(x, page);
  }

  /** Every claim kept cites its one source, has a text, and quotes words that are on the page. */
  lemma ClaimsAreGrounded(items: seq<Item>, page: string, sourceId: nat, sectionId: string, ids: seq<string>, c: Claim)
    requires |ids| >= |items| && c in Extracted(items, page, sourceId, sectionId, ids)
    ensures c.sourceIds == [sourceId] && c.sectionId == sectionId && c.text != ""
    ensures Norm(c.quote) != "" && Contains(Norm(page), Norm(c.quote))
  {
    var claims := Extracted(items, page, sourceId, sectionId, ids);
    var k :| 0 <= k < |claims| && claims[k] == c;
    assert Keeps(Kept(items, page)[k], page);
  }

  lemma {:induction false} KeptIsFilter(items: seq<Item>, page: string)
    ensures Kept(items, page)
         == Filter(items, (x: Item) => x.Item? && Strip(x.text) != "" && IsGrounded(Strip(x.quote), page))
  {
    hide Strip, IsGrounded;
    if items != [] {
      KeptIsFilter(items[..|items| - 1], page);
    }
  }

  /** The claims field by field: one for each item with a text and a grounded quote, in order. */
  lemma ExtractedReads(items: seq<Item>, page: string, sourceId: nat, sectionId: string, ids: seq<string>)
    requires |ids| >= |items|
    ensures var claims := Extracted(items, page, sourceId, sectionId, ids);
            var kept := Filter(items, (x: Item) => x.Item? && Strip(x.text) != "" && IsGrounded(Strip(x.quote), page));
            && |claims| == |kept| <= |ids|
            && forall k :: 0 <= k < |claims| ==>
                 && kept[k].Item?
                 && claims[k].id == ids[k] && claims[k].text == Strip(kept[k].text) && claims[k].quote == Strip(kept[k].quote)
                 && claims[k].entity == kept[k].entity && claims[k].attribute == kept[k].attribute
                 && claims[k].sourceIds == [sourceId] && claims[k].sectionId == sectionId
  {
    KeptIsFilter(items, page);
    hide Strip, IsGrounded, Filter;
  }

  // ----- the normal form, word by word -------------------------------------------------------------

  /** The words of a text: its longest runs without white space. */
  function Words(s: string): (ws: seq<string>)
    ensures s != "" && !IsSpace(s[0]) ==> ws != []
  {
    if s == "" then []
    else
      var rest := Words(s[1..]);
      if IsSpace(s[0]) then rest
      else if |s| == 1 || IsSpace(s[1]) then [[s[0]]] + rest
      else [[s[0]] + rest[0]] + rest[1..]
  }

  /** Joined by single spaces. */
  function Spaced(ws: seq<string>): string {
    if ws == [] then "" else if |ws| == 1 then ws[0] else ws[0] + " " + Spaced(ws[1..])
  }

  lemma NewWord(c: char, ws: seq<string>)
    ensures Spaced([[c]] + ws) == [c] + (if ws == [] then "" else " " + Spaced(ws))
  {
    var vs := [[c]] + ws;
    assert vs[0] == [c] && vs[1..] == ws && |vs| == 1 + |ws|;
  }

  lemma LongerWord(c: char, ws: seq<string>)
    requires ws != []
    ensures Spaced([[c] + ws[0]] + ws[1..]) == [c] + Spaced(ws)
  {
    var vs := [[c] + ws[0]] + ws[1..];
    assert vs[0] == [c] + ws[0] && vs[1..] == ws[1..] && |vs| == |ws|;
    SpacedStep(vs);
    SpacedStep(ws);
    hide Spaced;
    assert [c] + ws[0] + " " + Spaced(ws[1..]) == [c] + (ws[0] + " " + Spaced(ws[1..]));
  }

  lemma SpacedStep(ws: seq<string>)
    requires ws != []
    ensures Spaced(ws) == if |ws| == 1 then ws[0] else ws[0] + " " + Spaced(ws[1..])
  {
  }

  lemma {:induction false} TailIsWords(s: string)
    ensures Tail(s) == (if s != "" && IsSpace(s[0]) && Words(s) != [] then " " else "") + Lower(Spaced(Words(s)))
    ensures Words(s) == [] ==> Tail(s) == ""
  {
    if s == "" {
    } else {
      TailIsWords(s[1..]);
      TailShape(s[1..]);
      if !IsSpace(s[0]) {
        VisibleWord(s);
      } else {
        hide Lower, Spaced;
      }
    }
  }

  lemma VisibleWord(s: string)
    requires s != "" && !IsSpace(s[0])
    requires var rest := s[1..];
             Tail(rest) == (if rest != "" && IsSpace(rest[0]) && Words(rest) != [] then " " else "") + Lower(Spaced(Words(rest)))
    requires Words(s[1..]) == [] ==> Tail(s[1..]) == ""
    ensures Tail(s) == Lower(Spaced(Words(s)))
  {
    var c, rest := s[0], s[1..];
    var ws := Words(rest);
    if |s| == 1 || IsSpace(s[1]) {
      NewWord(c, ws);
      LowerCons(c, if ws == [] then "" else " " + Spaced(ws));
      LowerCons(' ', Spaced(ws));
    } else {
      LongerWord(c, ws);
      LowerCons(c, Spaced(ws));
    }
    hide Lower, Spaced;
  }

  /** The normal form is the words of the text, in small letters, joined by single spaces. */
  lemma NormReads(s: string)
    ensures Norm(s) == Lower(Spaced(Words(s)))
  {
    NormIsTail(s);
    TailIsWords(s);
    TailShape(s);
  }
}
