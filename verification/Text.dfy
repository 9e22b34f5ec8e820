/** The string operations the backend uses: `str.strip`, `str.lower` (for ASCII letters) and `in`. */
module Text {

  /** What Python's `str.strip` removes and `\s` matches. */
  predicate IsSpace(c: char) {
    c in {' ', '\t', '\n', '\r', '\U{0B}', '\U{0C}', '\U{1C}', '\U{1D}', '\U{1E}', '\U{1F}', '\U{85}', '\U{A0}',
          '\U{1680}', '\U{2028}', '\U{2029}', '\U{202F}', '\U{205F}', '\U{3000}'}
    || '\U{2000}' <= c <= '\U{200A}'
  }

  function LowerChar(c: char): (r: char)
    ensures IsSpace(r) <==> IsSpace(c)
    ensures r == ' ' <==> c == ' '
  {
    if 'A' <= c <= 'Z' then c - 'A' + 'a' else c
  }

  function Lower(s: string): (r: string)
    ensures |r| == |s|
    ensures forall i :: 0 <= i < |s| ==> r[i] == LowerChar(s[i])
  {
    seq(|s|, i requires 0 <= i < |s| => LowerChar(s[i]))
  }

  lemma LowerCons(c: char, s: string)
    ensures Lower([c] + s) == [LowerChar(c)] + Lower(s)
  {
  }

  function StripStart(s: string): string {
    if s != "" && IsSpace(s[0]) then StripStart(s[1..]) else s
  }

  function StripEnd(s: string): string {
    if s != "" && IsSpace(s[|s| - 1]) then StripEnd(s[..|s| - 1]) else s
  }

  function Strip(s: string): string {
    StripEnd(StripStart(s))
  }

  lemma {:induction false} StripStartShrinks(s: string)
    ensures |StripStart(s)| <= |s|
    ensures s != "" && IsSpace(s[0]) ==> |StripStart(s)| < |s|
  {
    if s != "" && IsSpace(s[0]) {
      StripStartShrinks(s[1..]);
    }
  }

  lemma {:induction false} StripEndShrinks(s: string)
    ensures |StripEnd(s)| <= |s|
  {
    if s != "" && IsSpace(s[|s| - 1]) {
      StripEndShrinks(s[..|s| - 1]);
    }
  }

  /** A stripped text starts with a visible character. */
  lemma StrippedEnds(s: string)
    requires s != "" && Strip(s) == s
    ensures !IsSpace(s[0])
  {
    StripStartShrinks(s);
    StripEndShrinks(StripStart(s));
  }

  /** A text with visible characters at both ends is stripped already. */
  lemma SolidStays(s: string)
    requires s != "" && !IsSpace(s[0]) && !IsSpace(s[|s| - 1])
    ensures Strip(s) == s
  {
  }

  predicate FoundAt(text: string, part: string, k: int) {
    0 <= k <= |text| - |part| && text[k..k + |part|] == part
  }

  /** `part in text`. */
  predicate Contains(text: string, part: string) {
    exists k | 0 <= k <= |text| - |part| :: FoundAt(text, part, k)
  }

  lemma {:induction false} StripEndCons(c: char, s: string)
    ensures StripEnd([c] + s) == if StripEnd(s) == "" && IsSpace(c) then "" else [c] + StripEnd(s)
  {
    var t := [c] + s;
    if s != "" && IsSpace(s[|s| - 1]) {
      assert t[..|t| - 1] == [c] + s[..|s| - 1];
      StripEndCons(c, s[..|s| - 1]);
    } else if s == "" {
      assert t[..|t| - 1] == "";
    }
  }

  /** The two ends are stripped independently. */
  lemma {:induction false} StripCommutes(s: string)
    ensures Strip(s) == StripStart(StripEnd(s))
  {
    if s != "" {
      assert s == [s[0]] + s[1..];
      StripEndCons(s[0], s[1..]);
      if IsSpace(s[0]) {
        StripCommutes(s[1..]);
      }
    }
  }

  lemma FoundDrop(text: string, m: nat, part: string, k: int)
    requires m <= |text|
    ensures FoundAt(text[m..], part, k) <==> 0 <= k && FoundAt(text, part, k + m)
  {
    if 0 <= k <= |text| - m - |part| {
      assert text[m..][k..k + |part|] == text[k + m..k + m + |part|];
    }
  }

  lemma FoundPart(text: string, part: string, k: int, from: nat)
    requires FoundAt(text, part, k) && from <= |part|
    ensures FoundAt(text, part[from..], k + from)
  {
    assert text[k..k + |part|][from..] == text[k + from..k + |part|];
  }

  // ----- what the operations do -----------------------------------------------------------------------

  /** Each capital letter becomes its small one, any other character stays: by code point. */
  lemma LowerReads(c: char)
    ensures LowerChar(c) as int == if 65 <= c as int <= 90 then c as int + 32 else c as int
  {
  }

  /** White space, by code point. */
  lemma SpaceReads(c: char)
    ensures var n := c as int;
            IsSpace(c) <==>
              || 9 <= n <= 13 || 28 <= n <= 32 || n == 0x85 || n == 0xA0 || n == 0x1680 || 0x2000 <= n <= 0x200A
              || n == 0x2028 || n == 0x2029 || n == 0x202F || n == 0x205F || n == 0x3000
  {
  }

  predicate AllSpace(s: string) {
    forall k :: 0 <= k < |s| ==> IsSpace(s[k])
  }

  lemma {:induction false} StripStartReads(s: string) returns (i: nat)
    ensures i <= |s| && StripStart(s) == s[i..] && AllSpace(s[..i])
    ensures StripStart(s) != "" ==> !IsSpace(StripStart(s)[0])
  {
    i := 0;
    if s != "" && IsSpace(s[0]) {
      i := StripStartReads(s[1..]);
      assert s[1..][i..] == s[i + 1..];
      assert forall k :: 1 <= k < i + 1 ==> s[k] == s[1..][..i][k - 1];
      i := i + 1;
    }
  }

  lemma {:induction false} StripEndReads(s: string) returns (j: nat)
    ensures j <= |s| && StripEnd(s) == s[..j] && AllSpace(s[j..])
    ensures StripEnd(s) != "" ==> !IsSpace(StripEnd(s)[|StripEnd(s)| - 1])
  {
    j := |s|;
    if s != "" && IsSpace(s[|s| - 1]) {
      var init := s[..|s| - 1];
      j := StripEndReads(init);
      assert init[..j] == s[..j];
      assert forall k :: j <= k < |s| - 1 ==> s[k] == init[j..][k - j];
    }
  }

  /** Stripping takes the white space off both ends, all of it and nothing else. */
  lemma StripReads(s: string) returns (i: nat, j: nat)
    ensures i <= j <= |s| && Strip(s) == s[i..j] && AllSpace(s[..i]) && AllSpace(s[j..])
    ensures Strip(s) != "" ==> !IsSpace(Strip(s)[0]) && !IsSpace(Strip(s)[|Strip(s)| - 1])
  {
    i := StripStartReads(s);
    var rest := s[i..];
    j := StripEndReads(rest);
    assert rest[..j] == s[i..i + j] && rest[j..] == s[i + j..];
    j := i + j;
  }
}
