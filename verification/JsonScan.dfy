/**
 * Recovering a JSON object from model output: backend/app/providers/json_utils.py.
 */
module JsonScan {
  import opened Common
  import Text

  // ----- the scanner ------------------------------------------------------------

  /** The scanner's three variables. */
  datatype Scan = Scan(depth: int, inString: bool, escaped: bool)

  const START := Scan(0, false, false)

  function Step(st: Scan, ch: char): Scan {
    if st.inString then
      if st.escaped then st.(escaped := false)
      else if ch == '\\' then st.(escaped := true)
      else if ch == '"' then st.(inString := false)
      else st
    else if ch == '"' then st.(inString := true)
    else if ch == '{' then st.(depth := st.depth + 1)
    else if ch == '}' then st.(depth := st.depth - 1)
    else st
  }

  function Advance(st: Scan, s: string): Scan
    decreases |s|
  {
    if s == "" then st else Advance(Step(st, s[0]), s[1..])
  }

  lemma {:induction false} AdvanceAppend(st: Scan, a: string, b: string)
    ensures Advance(st, a + b) == Advance(Advance(st, a), b)
    decreases |a|
  {
    if a == "" {
      assert a + b == b;
    } else {
      assert (a + b)[1..] == a[1..] + b;
      AdvanceAppend(Step(st, a[0]), a[1..], b);
    }
  }

  lemma AdvanceSnoc(st: Scan, a: string, c: char)
    ensures Advance(st, a + [c]) == Step(Advance(st, a), c)
  {
    AdvanceAppend(st, a, [c]);
    assert [c][1..] == "";
    assert Advance(Advance(st, a), [c]) == Advance(Step(Advance(st, a), c), "");
  }

  // ----- what a balanced block is -------------------------------------------------

  /** The text after the string literal whose body `s` starts; empty when it never ends. */
  function AfterString(s: string): (r: string)
    ensures |r| <= |s|
  {
    if s == "" then ""
    else if s[0] == '"' then s[1..]
    else if s[0] == '\\' then (if |s| == 1 then "" else AfterString(s[2..]))
    else AfterString(s[1..])
  }

  /** The characters of `s` that are outside its string literals. */
  function Visible(s: string): string
    decreases |s|
  {
    if s == "" then ""
    else if s[0] == '"' then Visible(AfterString(s[1..]))
    else [s[0]] + Visible(s[1..])
  }

  /** Opening minus closing braces. */
  function Braces(s: string): int {
    if s == "" then 0
    else (if s[0] == '{' then 1 else if s[0] == '}' then -1 else 0) + Braces(s[1..])
  }

  function Depth(s: string): int {
    Braces(Visible(s))
  }

  /** `b` opens with a brace, balances, and balances nowhere earlier. */
  ghost predicate IsBlock(b: string) {
    && b != "" && b[0] == '{'
    && Depth(b) == 0
    && forall k :: 0 < k < |b| ==> Depth(b[..k]) > 0
  }

  lemma {:induction false} AdvanceInString(d: int, s: string)
    ensures Advance(Scan(d, true, false), s).depth == Advance(Scan(d, false, false), AfterString(s)).depth
    decreases |s|
  {
    if s != "" && s[0] == '\\' && |s| > 1 {
      assert s[1..][0] == s[1] && s[1..][1..] == s[2..];
      AdvanceInString(d, s[2..]);
    } else if s != "" && s[0] == '\\' {
      assert s[1..] == "";
    } else if s != "" && s[0] != '"' {
      AdvanceInString(d, s[1..]);
    }
  }

  /** The scanner's depth is the brace balance of the text outside string literals. */
  lemma {:induction false} DepthIsBalance(d: int, s: string)
    ensures Advance(Scan(d, false, false), s).depth == d + Depth(s)
    decreases |s|
  {
    if s == "" {
    } else if s[0] == '"' {
      AdvanceInString(d, s[1..]);
      DepthIsBalance(d, AfterString(s[1..]));
    } else {
      var rest := s[1..];
      DepthIsBalance(Step(Scan(d, false, false), s[0]).depth, rest);
      assert ([s[0]] + Visible(rest))[1..] == Visible(rest);
    }
  }

  // ----- _find_object ---------------------------------------------------------------

  function IndexOf(s: string, c: char): (i: nat)
    ensures i <= |s|
    ensures i < |s| ==> s[i] == c
    ensures forall k :: 0 <= k < i ==> s[k] != c
  {
    if s == "" || s[0] == c then 0 else 1 + IndexOf(s[1..], c)
  }

  /** First position after `i` where the block opened at `start` balances; none when it never does. */
  function CloseFrom(text: string, start: nat, i: nat): (e: Option<nat>)
    requires start < i <= |text|
    ensures e.Some? ==> i <= e.value <= |text|
    decreases |text| - i
  {
    if Depth(text[start..i]) == 0 then Some(i)
    else if i == |text| then None
    else CloseFrom(text, start, i + 1)
  }

  lemma SliceSnoc(text: string, start: nat, i: nat)
    requires start <= i < |text|
    ensures text[start..i + 1] == text[start..i] + [text[i]]
  {
  }

  function FindBlock(text: string): Option<string> {
    var start := IndexOf(text, '{');
    if start == |text| then None
    else
      var e := CloseFrom(text, start, start + 1);
      if e.None? then None else Some(text[start..e.value])
  }

  /** One more character scanned, and what that says of the block's end. */
  lemma ScanOne(text: string, start: nat, i: nat)
    requires start <= i < |text|
    ensures Advance(START, text[start..i + 1]) == Step(Advance(START, text[start..i]), text[i])
    ensures Advance(START, text[start..i + 1]).depth == 0 ==> CloseFrom(text, start, i + 1) == Some(i + 1)
    ensures start < i && Advance(START, text[start..i]).depth != 0 ==> CloseFrom(text, start, i) == CloseFrom(text, start, i + 1)
  {
    hide Depth;
    SliceSnoc(text, start, i);
    AdvanceSnoc(START, text[start..i], text[i]);
    DepthIsBalance(0, text[start..i + 1]);
    DepthIsBalance(0, text[start..i]);
  }

  /** The body of the scanning loop; `closed` when this character closes the block. */
  method ScanChar(ch: char, st: Scan) returns (depth: int, inString: bool, escaped: bool, closed: bool)
    ensures Scan(depth, inString, escaped) == Step(st, ch)
    ensures closed <==> !st.inString && ch == '}' && depth == 0
  {
    depth, inString, escaped, closed := st.depth, st.inString, st.escaped, false;
    if inString {
      if escaped {
        escaped := false;
      } else if ch == '\\' {
        escaped := true;
      } else if ch == '"' {
        inString := false;
      }
      return;
    }
    if ch == '"' {
      inString := true;
    } else if ch == '{' {
      depth := depth + 1;
    } else if ch == '}' {
      depth := depth - 1;
      closed := depth == 0;
    }
  }

  /** Depth stays positive until the character that closes the block; the opening brace makes it so. */
  lemma StepFromPositive(st: Scan, ch: char)
    requires st.depth > 0 || (st == START && ch == '{')
    ensures Step(st, ch).depth > 0 || (!st.inString && ch == '}' && Step(st, ch).depth == 0)
  {
  }

  /** `_find_object`: the answer is FindBlock, and its meaning is spelled out. */
  method FindObject(text: string) returns (block: Option<string>)
    ensures block == FindBlock(text)
  {
    var start := IndexOf(text, '{');
    if start == |text| {
      return None;
    }
    block := CloseBlock(text, start);
  }

  /** The scanning loop, from the opening brace on. */
  method CloseBlock(text: string, start: nat) returns (block: Option<string>)
    requires start < |text| && text[start] == '{'
    ensures var e := CloseFrom(text, start, start + 1);
            block == if e.None? then None else Some(text[start..e.value])
  {
    assert Advance(START, text[start..start]) == START;
    hide Depth, Advance;
    var depth, inString, escaped := 0, false, false;
    for i := start to |text|
      invariant Scan(depth, inString, escaped) == Advance(START, text[start..i])
      invariant i == start ==> Scan(depth, inString, escaped) == START
      invariant i > start ==> depth > 0
      invariant i > start ==> CloseFrom(text, start, start + 1) == CloseFrom(text, start, i)
    {
      hide CloseFrom, Step;
      ScanOne(text, start, i);
      StepFromPositive(Scan(depth, inString, escaped), text[i]);
      var closed;
      depth, inString, escaped, closed := ScanChar(text[i], Scan(depth, inString, escaped));
      if closed {
        return Some(text[start..i + 1]);
      }
    }
    DepthIsBalance(0, text[start..|text|]);
    return None;
  }

  lemma DepthStep(s: string, c: char)
    ensures Depth(s + [c]) >= Depth(s) - 1
  {
    DepthIsBalance(0, s);
    DepthIsBalance(0, s + [c]);
    AdvanceSnoc(START, s, c);
  }

  lemma {:induction false} CloseFromIsShortest(text: string, start: nat, i: nat)
    requires start < i <= |text|
    requires forall k :: start < k < i ==> Depth(text[start..k]) > 0
    requires i > start + 1 || Depth(text[start..i]) > 0
    ensures var e := CloseFrom(text, start, i);
            if e.Some? then
              Depth(text[start..e.value]) == 0 && forall k :: start < k < e.value ==> Depth(text[start..k]) > 0
            else forall k :: start < k <= |text| ==> Depth(text[start..k]) > 0
    decreases |text| - i
  {
    hide Depth;
    if i > start + 1 {
      SliceSnoc(text, start, i - 1);
      DepthStep(text[start..i - 1], text[i - 1]);
    }
    if Depth(text[start..i]) != 0 && i < |text| {
      CloseFromIsShortest(text, start, i + 1);
    }
  }

  lemma DepthOfBrace()
    ensures Depth("{") == 1
  {
    assert "{"[1..] == "";
    assert Visible("{") == ['{'] + Visible("");
  }

  /** Of two texts that start at the same place, at most one is a block. */
  lemma BlockUnique(text: string, start: nat, e: nat, f: nat)
    requires start < e < f <= |text|
    ensures IsBlock(text[start..f]) ==> !IsBlock(text[start..e])
  {
    hide Depth;
    assert text[start..f][..e - start] == text[start..e];
  }

  /** What CloseFrom answers, as a block. */
  lemma CloseFromIsBlock(text: string, start: nat)
    requires start < |text| && text[start] == '{'
    ensures var c := CloseFrom(text, start, start + 1);
            if c.Some? then start < c.value && IsBlock(text[start..c.value])
            else forall e :: start < e <= |text| ==> !IsBlock(text[start..e])
  {
    hide Depth;
    DepthOfBrace();
    assert text[start..start + 1] == "{";
    CloseFromIsShortest(text, start, start + 1);
    var c := CloseFrom(text, start, start + 1);
    if c.Some? {
      var found := text[start..c.value];
      forall k | 0 < k < |found|
        ensures Depth(found[..k]) > 0
      {
        assert found[..k] == text[start..start + k];
      }
    }
  }

  /** The result is the shortest balanced block at the first brace, and there is one exactly when any exists. */
  lemma FindBlockIsShortest(text: string, b: string)
    ensures FindBlock(text) == Some(b) <==>
            exists e :: IndexOf(text, '{') < e <= |text| && b == text[IndexOf(text, '{')..e] && IsBlock(b)
  {
    hide IsBlock, Depth;
    var start := IndexOf(text, '{');
    if start < |text| {
      CloseFromIsBlock(text, start);
      var c := CloseFrom(text, start, start + 1);
      forall e | c.Some? && start < e <= |text| && e != c.value
        ensures !IsBlock(text[start..e])
      {
        if e < c.value {
          BlockUnique(text, start, e, c.value);
        } else {
          BlockUnique(text, start, c.value, e);
        }
      }
    }
  }

  // ----- printed JSON objects -----------------------------------------------------

  /** A JSON value; a number is kept as its text. */
  datatype Json =
    | Null
    | Bool(b: bool)
    | Number(text: string)
    | Str(s: string)
    | Array(items: seq<Json>)
    | Object(members: seq<(string, Json)>)

  /** Characters a JSON number is written with. */
  predicate NumberText(s: string) {
    forall c :: c in s ==> '0' <= c <= '9' || c in {'+', '-', '.', 'e', 'E'}
  }

  predicate WellFormed(v: Json) {
    match v
    case Number(t) => NumberText(t)
    case Array(items) => forall x :: x in items ==> WellFormed(x)
    case Object(members) => forall m :: m in members ==> WellFormed(m.1)
    case _ => true
  }

  /** Insignificant white space (section 2 of RFC 8259). */
  predicate WhiteSpace(ws: string) {
    forall c :: c in ws ==> c in {' ', '\t', '\n', '\r'}
  }

  const HEX := "0123456789abcdef"

  /** One character of a string, escaped as section 7 of RFC 8259 requires. */
  function EscapeChar(c: char): string {
    if c == '"' then "\\\""
    else if c == '\\' then "\\\\"
    else if c < ' ' then "\\u00" + [HEX[c as int / 16], HEX[c as int % 16]]
    else [c]
  }

  function Escape(s: string): string {
    if s == "" then "" else EscapeChar(s[0]) + Escape(s[1..])
  }

  function Quote(s: string): string {
    "\"" + Escape(s) + "\""
  }

  /** The printed text, with `ws` placed around every structural character (section 4 of RFC 8259). */
  function Print(v: Json, ws: string): string
    decreases v, 1
  {
    match v
    case Null => "null"
    case Bool(b) => if b then "true" else "false"
    case Number(t) => t
    case Str(s) => Quote(s)
    case Array(items) => "[" + ws + PrintItems(items, ws) + ws + "]"
    case Object(members) => "{" + ws + PrintMembers(members, ws) + ws + "}"
  }

  function PrintItems(items: seq<Json>, ws: string): string
    decreases items, 0
  {
    if items == [] then ""
    else if |items| == 1 then Print(items[0], ws)
    else Print(items[0], ws) + ws + "," + ws + PrintItems(items[1..], ws)
  }

  function PrintMember(m: (string, Json), ws: string): string
    decreases m, 2
  {
    Quote(m.0) + ws + ":" + ws + Print(m.1, ws)
  }

  function PrintMembers(members: seq<(string, Json)>, ws: string): string
    decreases members, 0
  {
    if members == [] then ""
    else if |members| == 1 then PrintMember(members[0], ws)
    else PrintMember(members[0], ws) + ws + "," + ws + PrintMembers(members[1..], ws)
  }

  /** `s` leaves the scanner as it found it and never takes the depth below where it started. */
  ghost predicate Neutral(st: Scan, s: string) {
    && Advance(st, s) == st
    && forall k :: 0 <= k <= |s| ==> Advance(st, s[..k]).depth >= st.depth
  }

  lemma NeutralEmpty(st: Scan)
    ensures Neutral(st, "")
  {
  }

  lemma NeutralChar(st: Scan, c: char)
    requires Step(st, c) == st
    ensures Neutral(st, [c])
  {
    assert [c][1..] == "" && [c][..0] == "" && [c][..1] == [c];
    assert Advance(st, [c]) == Advance(Step(st, c), "");
  }

  lemma NeutralAppend(st: Scan, a: string, b: string)
    requires Neutral(st, a) && Neutral(st, b)
    ensures Neutral(st, a + b)
  {
    hide Step, Advance;
    AdvanceAppend(st, a, b);
    forall k | 0 <= k <= |a + b|
      ensures Advance(st, (a + b)[..k]).depth >= st.depth
    {
      if k <= |a| {
        assert (a + b)[..k] == a[..k];
      } else {
        assert (a + b)[..k] == a + b[..k - |a|];
        AdvanceAppend(st, a, b[..k - |a|]);
      }
    }
  }

  /** A bracketed text: `open` moves the scanner to `inner`, `close` moves it back. */
  lemma Sandwich(st: Scan, inner: Scan, open: char, s: string, close: char)
    requires Step(st, open) == inner && Step(inner, close) == st && Neutral(inner, s)
    ensures var whole := [open] + s + [close];
            && Advance(st, whole) == st
            && forall k :: 0 < k < |whole| ==> Advance(st, whole[..k]).depth >= inner.depth
  {
    hide Step, Advance;
    var whole := [open] + s + [close];
    AdvanceOne(st, open);
    AdvanceAppend(st, [open], s);
    AdvanceSnoc(st, [open] + s, close);
    forall k | 0 < k < |whole|
      ensures Advance(st, whole[..k]).depth >= inner.depth
    {
      assert whole[..k] == [open] + s[..k - 1];
      AdvanceAppend(st, [open], s[..k - 1]);
    }
  }

  lemma AdvanceOne(st: Scan, c: char)
    ensures Advance(st, [c]) == Step(st, c)
  {
    assert [c][1..] == "";
    assert Advance(st, [c]) == Advance(Step(st, c), "");
  }

  lemma NeutralSandwich(st: Scan, inner: Scan, open: char, s: string, close: char)
    requires Step(st, open) == inner && Step(inner, close) == st && Neutral(inner, s)
    requires inner.depth >= st.depth
    ensures Neutral(st, [open] + s + [close])
  {
    hide Step, Advance;
    var whole := [open] + s + [close];
    Sandwich(st, inner, open, s, close);
    forall k | 0 <= k <= |whole|
      ensures Advance(st, whole[..k]).depth >= st.depth
    {
      if k == 0 {
        EmptyAdvance(st);
        assert whole[..0] == "";
      } else if k == |whole| {
        assert whole[..k] == whole;
      }
    }
  }

  lemma EmptyAdvance(st: Scan)
    ensures Advance(st, "") == st
  {
  }

  /** Text without quotes and braces changes nothing outside strings. */
  lemma {:induction false} PlainIsNeutral(d: int, s: string)
    requires forall c :: c in s ==> c != '"' && c != '{' && c != '}'
    ensures Neutral(Scan(d, false, false), s)
    decreases |s|
  {
    var st := Scan(d, false, false);
    if s == "" {
      NeutralEmpty(st);
    } else {
      assert s[0] in s;
      NeutralChar(st, s[0]);
      forall c | c in s[1..]
        ensures c != '"' && c != '{' && c != '}'
      {
        assert c in s;
      }
      PlainIsNeutral(d, s[1..]);
      NeutralAppend(st, [s[0]], s[1..]);
      assert s == [s[0]] + s[1..];
    }
  }

  lemma EscapeCharIsNeutral(d: int, c: char)
    ensures Neutral(Scan(d, true, false), EscapeChar(c))
  {
    var st := Scan(d, true, false);
    var e := EscapeChar(c);
    if e == [c] {
      NeutralChar(st, c);
    } else {
      // a backslash, the character it escapes, and perhaps hexadecimal digits
      var esc := Scan(d, true, true);
      assert Step(st, e[0]) == esc && Step(esc, e[1]) == st;
      NeutralEmpty(esc);
      NeutralSandwich(st, esc, e[0], "", e[1]);
      assert [e[0]] + "" + [e[1]] == e[..2];
      if |e| == 6 {
        NeutralChar(st, e[2]);
        NeutralChar(st, e[3]);
        NeutralChar(st, e[4]);
        NeutralChar(st, e[5]);
        NeutralAppend(st, [e[2]], [e[3]]);
        NeutralAppend(st, [e[4]], [e[5]]);
        NeutralAppend(st, [e[2]] + [e[3]], [e[4]] + [e[5]]);
        NeutralAppend(st, e[..2], [e[2]] + [e[3]] + ([e[4]] + [e[5]]));
        assert e == e[..2] + ([e[2]] + [e[3]] + ([e[4]] + [e[5]]));
      } else {
        assert e == e[..2];
      }
    }
  }

  lemma {:induction false} EscapeIsNeutral(d: int, s: string)
    ensures Neutral(Scan(d, true, false), Escape(s))
  {
    hide Neutral, EscapeChar;
    if s == "" {
      NeutralEmpty(Scan(d, true, false));
    } else {
      EscapeCharIsNeutral(d, s[0]);
      EscapeIsNeutral(d, s[1..]);
      NeutralAppend(Scan(d, true, false), EscapeChar(s[0]), Escape(s[1..]));
    }
  }

  /** A string literal hides whatever it contains, braces and quotes included. */
  lemma QuoteIsNeutral(d: int, s: string)
    ensures Neutral(Scan(d, false, false), Quote(s))
  {
    hide Neutral, Escape;
    EscapeIsNeutral(d, s);
    NeutralSandwich(Scan(d, false, false), Scan(d, true, false), '"', Escape(s), '"');
  }

  lemma Neutral3(st: Scan, a: string, b: string, c: string)
    requires Neutral(st, a) && Neutral(st, b) && Neutral(st, c)
    ensures Neutral(st, a + b + c)
  {
    hide Neutral;
    NeutralAppend(st, a, b);
    NeutralAppend(st, a + b, c);
  }

  /** Any printed value is neutral outside strings. */
  lemma {:induction false} PrintIsNeutral(d: int, v: Json, ws: string)
    requires WellFormed(v) && WhiteSpace(ws)
    ensures Neutral(Scan(d, false, false), Print(v, ws))
    decreases v, 1
  {
    hide Neutral, Quote;
    var st := Scan(d, false, false);
    match v
    case Null => PlainIsNeutral(d, "null");
    case Bool(b) => PlainIsNeutral(d, if b then "true" else "false");
    case Number(t) => PlainIsNeutral(d, t);
    case Str(s) => QuoteIsNeutral(d, s);
    case Array(items) =>
      PlainIsNeutral(d, ws);
      PrintItemsIsNeutral(d, items, ws);
      Neutral3(st, ws, PrintItems(items, ws), ws);
      NeutralSandwich(st, st, '[', ws + PrintItems(items, ws) + ws, ']');
      assert "[" + ws + PrintItems(items, ws) + ws + "]" == ['['] + (ws + PrintItems(items, ws) + ws) + [']'];
    case Object(members) =>
      var inner := Scan(d + 1, false, false);
      PlainIsNeutral(d + 1, ws);
      PrintMembersIsNeutral(d + 1, members, ws);
      Neutral3(inner, ws, PrintMembers(members, ws), ws);
      NeutralSandwich(st, inner, '{', ws + PrintMembers(members, ws) + ws, '}');
      PrintObject(members, ws);
  }

  lemma PrintObject(members: seq<(string, Json)>, ws: string)
    ensures Print(Object(members), ws) == ['{'] + (ws + PrintMembers(members, ws) + ws) + ['}']
  {
  }

  lemma {:induction false} PrintItemsIsNeutral(d: int, items: seq<Json>, ws: string)
    requires (forall x :: x in items ==> WellFormed(x)) && WhiteSpace(ws)
    ensures Neutral(Scan(d, false, false), PrintItems(items, ws))
    decreases items, 0
  {
    hide Neutral;
    var st := Scan(d, false, false);
    if items == [] {
      NeutralEmpty(st);
    } else {
      PrintIsNeutral(d, items[0], ws);
      if |items| > 1 {
        PlainIsNeutral(d, ws);
        PlainIsNeutral(d, ",");
        PrintItemsIsNeutral(d, items[1..], ws);
        Neutral3(st, Print(items[0], ws), ws, ",");
        Neutral3(st, Print(items[0], ws) + ws + ",", ws, PrintItems(items[1..], ws));
      }
    }
  }

  lemma {:induction false} PrintMemberIsNeutral(d: int, m: (string, Json), ws: string)
    requires WellFormed(m.1) && WhiteSpace(ws)
    ensures Neutral(Scan(d, false, false), PrintMember(m, ws))
    decreases m, 2
  {
    hide Neutral, Quote;
    var st := Scan(d, false, false);
    QuoteIsNeutral(d, m.0);
    PlainIsNeutral(d, ws);
    PlainIsNeutral(d, ":");
    PrintIsNeutral(d, m.1, ws);
    Neutral3(st, Quote(m.0), ws, ":");
    Neutral3(st, Quote(m.0) + ws + ":", ws, Print(m.1, ws));
  }

  lemma {:induction false} PrintMembersIsNeutral(d: int, members: seq<(string, Json)>, ws: string)
    requires (forall m :: m in members ==> WellFormed(m.1)) && WhiteSpace(ws)
    ensures Neutral(Scan(d, false, false), PrintMembers(members, ws))
    decreases members, 0
  {
    hide Neutral, PrintMember;
    var st := Scan(d, false, false);
    if members == [] {
      NeutralEmpty(st);
    } else {
      PrintMemberIsNeutral(d, members[0], ws);
      if |members| > 1 {
        PlainIsNeutral(d, ws);
        PlainIsNeutral(d, ",");
        PrintMembersIsNeutral(d, members[1..], ws);
        Neutral3(st, PrintMember(members[0], ws), ws, ",");
        Neutral3(st, PrintMember(members[0], ws) + ws + ",", ws, PrintMembers(members[1..], ws));
      }
    }
  }

  /** A printed object is a balanced block, and no proper part from its start is. */
  lemma PrintedObjectIsBlock(members: seq<(string, Json)>, ws: string)
    requires WellFormed(Object(members)) && WhiteSpace(ws)
    ensures IsBlock(Print(Object(members), ws))
  {
    hide Neutral, Depth, Advance, Print, PrintMembers, WellFormed, WhiteSpace;
    var inner := Scan(1, false, false);
    var body := ws + PrintMembers(members, ws) + ws;
    var text := Print(Object(members), ws);
    PrintObject(members, ws);
    assert Neutral(inner, body) by { BodyIsNeutral(1, members, ws); }
    Sandwich(START, inner, '{', body, '}');
    DepthIsBalance(0, text);
    forall k | 0 < k < |text|
      ensures Depth(text[..k]) > 0
    {
      DepthIsBalance(0, text[..k]);
    }
  }

  lemma BodyIsNeutral(d: int, members: seq<(string, Json)>, ws: string)
    requires WellFormed(Object(members)) && WhiteSpace(ws)
    ensures Neutral(Scan(d, false, false), ws + PrintMembers(members, ws) + ws)
  {
    hide Neutral;
    PlainIsNeutral(d, ws);
    PrintMembersIsNeutral(d, members, ws);
    Neutral3(Scan(d, false, false), ws, PrintMembers(members, ws), ws);
  }

  /** The scanner inverts the printer, whatever surrounds the object. */
  lemma FindPrintedObject(before: string, members: seq<(string, Json)>, ws: string, after: string)
    requires WellFormed(Object(members)) && WhiteSpace(ws)
    requires '{' !in before
    ensures FindBlock(before + Print(Object(members), ws) + after) == Some(Print(Object(members), ws))
  {
    hide IsBlock, FindBlock, Print, WellFormed, WhiteSpace;
    var block := Print(Object(members), ws);
    var text := before + block + after;
    PrintedObjectIsBlock(members, ws);
    PrintObject(members, ws);
    var start := IndexOf(text, '{');
    assert text[|before|] == '{';
    forall k | 0 <= k < |before|
      ensures text[k] != '{'
    {
      assert text[k] == before[k] && before[k] in before;
    }
    assert start == |before|;
    var e := start + |block|;
    assert start < e <= |text| && block == text[start..e];
    assert exists f :: IndexOf(text, '{') < f <= |text| && block == text[IndexOf(text, '{')..f] && IsBlock(block);
    FindBlockIsShortest(text, block);
  }

  // ----- extract_json ---------------------------------------------------------------

  const FENCE := "```"

  /** Position of the first fence mark at or after `i`; |s| when there is none. */
  function FenceFrom(s: string, i: nat): (j: nat)
    requires i <= |s|
    ensures i <= j <= |s|
    ensures j < |s| ==> FENCE <= s[j..]
    decreases |s| - i
  {
    if i == |s| || FENCE <= s[i..] then i else FenceFrom(s, i + 1)
  }

  predicate StartsWithJsonTag(s: string) {
    && |s| >= 4
    && s[0] in {'j', 'J'} && s[1] in {'s', 'S'} && s[2] in {'o', 'O'} && s[3] in {'n', 'N'}
  }

  /** What the fence pattern captures between two fence marks. */
  function FenceBody(inside: string): string {
    var untagged := if StartsWithJsonTag(inside) then inside[4..] else inside;
    Text.Strip(untagged)
  }

  /** The bodies of all fenced blocks, left to right. */
  function FenceBodies(s: string): seq<string>
    decreases |s|
  {
    var i := FenceFrom(s, 0);
    if i == |s| then []
    else
      var j := FenceFrom(s, i + 3);
      if j == |s| then []
      else [FenceBody(s[i + 3..j])] + FenceBodies(s[j + 3..])
  }

  /** The blocks found in `texts`, in order, texts without one left out. */
  function Blocks(texts: seq<string>): seq<string> {
    if texts == [] then []
    else
      var b := FindBlock(texts[0]);
      (if b.Some? then [b.value] else []) + Blocks(texts[1..])
  }

  /** The first candidate that loads as an object. */
  function FirstObject(candidates: seq<string>, loads: string -> Option<Json>): Option<Json> {
    if candidates == [] then None
    else
      var v := loads(candidates[0]);
      if v.Some? && v.value.Object? then v else FirstObject(candidates[1..], loads)
  }

  /** The growing candidate list. */
  method CollectBlocks(bodies: seq<string>) returns (candidates: seq<string>)
    ensures candidates == Blocks(bodies)
  {
    hide FindBlock;
    candidates := [];
    for i := 0 to |bodies|
      invariant Blocks(bodies) == candidates + Blocks(bodies[i..])
    {
      assert bodies[i..][1..] == bodies[i + 1..];
      var block := FindObject(bodies[i]);
      if block.Some? {
        candidates := candidates + [block.value];
      }
    }
    assert candidates + [] == candidates;
  }

  /** `extract_json`, with the JSON library as a parameter; None stands for JSONParseError. */
  method ExtractJson(text: string, loads: string -> Option<Json>) returns (r: Option<Json>)
    ensures r == FirstObject(Blocks(FenceBodies(text) + [text]), loads)
  {
    hide FindBlock, Blocks, FenceBodies;
    var candidates := CollectBlocks(FenceBodies(text) + [text]);
    for i := 0 to |candidates|
      invariant FirstObject(candidates, loads) == FirstObject(candidates[i..], loads)
    {
      assert candidates[i..][1..] == candidates[i + 1..];
      var v := loads(candidates[i]);
      if v.Some? && v.value.Object? {
        return v;
      }
    }
    return None;
  }

  /** Text without a fence mark: the printed object comes back, whatever prose surrounds it. */
  lemma ExtractUnfenced(before: string, members: seq<(string, Json)>, ws: string, after: string,
                        loads: string -> Option<Json>)
    requires WellFormed(Object(members)) && WhiteSpace(ws)
    requires '{' !in before
    requires loads(Print(Object(members), ws)) == Some(Object(members))
    ensures var text := before + Print(Object(members), ws) + after;
            FenceFrom(text, 0) == |text| ==>
              FirstObject(Blocks(FenceBodies(text) + [text]), loads) == Some(Object(members))
  {
    hide FindBlock, FenceFrom, Print, WellFormed, WhiteSpace;
    var text := before + Print(Object(members), ws) + after;
    if FenceFrom(text, 0) == |text| {
      FindPrintedObject(before, members, ws, after);
      assert FenceBodies(text) == [];
      assert FenceBodies(text) + [text] == [text];
      assert Blocks([text]) == [Print(Object(members), ws)] + Blocks([text][1..]);
    }
  }

  /** The same when the model fences the object, as long as the object holds no fence mark itself. */
  lemma ExtractFenced(before: string, members: seq<(string, Json)>, ws: string, after: string,
                      loads: string -> Option<Json>)
    requires WellFormed(Object(members)) && WhiteSpace(ws)
    requires loads(Print(Object(members), ws)) == Some(Object(members))
    requires FenceFrom(before + FENCE, 0) == |before|
    requires var block := Print(Object(members), ws);
             FenceFrom("json\n" + block + "\n" + FENCE, 0) == |block| + 6
    ensures var text := before + FENCE + "json\n" + Print(Object(members), ws) + "\n" + FENCE + after;
            FirstObject(Blocks(FenceBodies(text) + [text]), loads) == Some(Object(members))
  {
    hide FindBlock, Print, WellFormed, WhiteSpace, FenceFrom, FenceBody, FenceBodies, Text.Strip, Blocks, FirstObject;
    var block := Print(Object(members), ws);
    var inside := "json\n" + block + "\n";
    var text := before + FENCE + "json\n" + block + "\n" + FENCE + after;
    assert text == before + FENCE + (inside + FENCE + after);
    assert "json\n" + block + "\n" + FENCE == inside + FENCE;
    FencedFirst(before, inside, after);
    FenceBodyOf(members, ws);
    var rest := FenceBodies(after) + [text];
    assert FenceBodies(text) + [text] == [block] + rest;
    FindPrintedObject("", members, ws, "");
    assert "" + block + "" == block;
    FirstBlockLoads(block, block, rest, Object(members), loads);
  }

  /** The first body is what stands between the first two fence marks. */
  lemma FencedFirst(before: string, inside: string, after: string)
    requires FenceFrom(before + FENCE, 0) == |before|
    requires FenceFrom(inside + FENCE, 0) == |inside|
    ensures FenceBodies(before + FENCE + (inside + FENCE + after)) == [FenceBody(inside)] + FenceBodies(after)
  {
    hide FenceFrom, FenceBody, FenceBodies;
    var text := before + FENCE + (inside + FENCE + after);
    var i := |before|;
    var j := i + 3 + |inside|;
    FencePlaces(before, inside, after, text);
    CutOut(text, before, FENCE, inside, after, i + 3, j);
    FirstFence(text, i, j);
  }

  lemma FencePlaces(before: string, inside: string, after: string, text: string)
    requires FenceFrom(before + FENCE, 0) == |before|
    requires FenceFrom(inside + FENCE, 0) == |inside|
    requires text == before + FENCE + (inside + FENCE + after)
    ensures |text| >= |before| + |inside| + 6
    ensures FenceFrom(text, 0) == |before| && FenceFrom(text, |before| + 3) == |before| + 3 + |inside|
  {
    assert |FENCE| == 3;
    hide FenceFrom, FENCE;
    FenceStable(before, inside + FENCE + after);
    FenceShift(before + FENCE, inside + FENCE + after);
    FenceStable(inside, after);
  }

  lemma CutOut(text: string, before: string, mark: string, inside: string, after: string, i: nat, j: nat)
    requires text == before + mark + (inside + mark + after) && |mark| == 3
    requires i == |before| + 3 && j == i + |inside|
    ensures j + 3 <= |text| && text[i..j] == inside && text[j + 3..] == after
  {
  }

  lemma FirstFence(s: string, i: nat, j: nat)
    requires FenceFrom(s, 0) == i && i + 3 <= |s| && FenceFrom(s, i + 3) == j && j + 3 <= |s|
    ensures i + 3 <= j && FenceBodies(s) == [FenceBody(s[i + 3..j])] + FenceBodies(s[j + 3..])
  {
    hide FenceBody, FenceFrom, FENCE;
  }

  /** The first candidate whose first block loads as an object decides. */
  lemma FirstBlockLoads(candidate: string, block: string, rest: seq<string>, value: Json, loads: string -> Option<Json>)
    requires FindBlock(candidate) == Some(block) && loads(block) == Some(value) && value.Object?
    ensures FirstObject(Blocks([candidate] + rest), loads) == Some(value)
  {
    hide FindBlock;
    assert ([candidate] + rest)[1..] == rest;
    assert Blocks([candidate] + rest) == [block] + Blocks(rest);
  }

  /** Text after a fence mark does not move it. */
  lemma {:induction false} FenceStableFrom(s: string, t: string, i: nat)
    requires i <= |s|
    requires FenceFrom(s + FENCE, i) == |s|
    ensures FenceFrom(s + FENCE + t, i) == |s|
    decreases |s| - i
  {
    var short, long := s + FENCE, s + FENCE + t;
    assert short[i..] <= long[i..];
    if i < |s| {
      assert !(FENCE <= short[i..]);
      assert |short[i..]| >= 3;
      FenceStableFrom(s, t, i + 1);
    }
  }

  lemma FenceStable(s: string, t: string)
    requires FenceFrom(s + FENCE, 0) == |s|
    ensures FenceFrom(s + FENCE + t, 0) == |s|
  {
    FenceStableFrom(s, t, 0);
  }

  /** Searching from inside a text is searching its tail. */
  lemma {:induction false} FenceSame(s: string, k: nat, t: string, i: nat)
    requires k <= |s| && i <= |t| && s[k..] == t[i..]
    ensures FenceFrom(s, k) - k == FenceFrom(t, i) - i
    decreases |t| - i
  {
    assert |s| - k == |t| - i;
    if i < |t| && !(FENCE <= t[i..]) {
      assert s[k + 1..] == s[k..][1..] == t[i..][1..] == t[i + 1..];
      FenceSame(s, k + 1, t, i + 1);
    }
  }

  lemma FenceShift(s: string, t: string)
    ensures FenceFrom(s + t, |s|) == |s| + FenceFrom(t, 0)
  {
    assert (s + t)[|s|..] == t[0..];
    FenceSame(s + t, |s|, t, 0);
  }

  lemma FenceBodyOf(members: seq<(string, Json)>, ws: string)
    ensures FenceBody("json\n" + Print(Object(members), ws) + "\n") == Print(Object(members), ws)
  {
    hide Print, PrintMembers;
    var block := Print(Object(members), ws);
    PrintObject(members, ws);
    var whole := "json\n" + block + "\n";
    assert StartsWithJsonTag(whole);
    var t := "\n" + block + "\n";
    assert whole[4..] == t;
    assert t[1..] == block + "\n";
    assert Text.StripStart(t) == Text.StripStart(block + "\n") == block + "\n";
    assert (block + "\n")[..|block|] == block;
    assert Text.StripEnd(block + "\n") == Text.StripEnd(block) == block;
  }

  // ----- several fences, several candidates ------------------------------------------------------------

  /** Texts with a fenced part after each, and a last text. */
  function Fenced(parts: seq<(string, string)>, tail: string): string {
    if parts == [] then tail
    else parts[0].0 + FENCE + (parts[0].1 + FENCE + Fenced(parts[1..], tail))
  }

  /** However many there are, the bodies are what stands between the marks of a pair, from the first on. */
  lemma {:induction false} FencesInOrder(parts: seq<(string, string)>, tail: string)
    requires forall k :: 0 <= k < |parts| ==>
               FenceFrom(parts[k].0 + FENCE, 0) == |parts[k].0| && FenceFrom(parts[k].1 + FENCE, 0) == |parts[k].1|
    requires FenceFrom(tail, 0) == |tail|
    ensures var bodies := FenceBodies(Fenced(parts, tail));
            |bodies| == |parts| && forall k :: 0 <= k < |parts| ==> bodies[k] == FenceBody(parts[k].1)
  {
    hide FenceFrom, FenceBody;
    if parts != [] {
      FencesInOrder(parts[1..], tail);
      FencedFirst(parts[0].0, parts[0].1, Fenced(parts[1..], tail));
      hide FenceBodies;
    }
  }

  /** The text's first block loads as an object. */
  predicate Usable(text: string, loads: string -> Option<Json>) {
    FindBlock(text).Some? && loads(FindBlock(text).value).Some? && loads(FindBlock(text).value).value.Object?
  }

  /** The answer is that of the first text whose first block loads as an object; there is none without such a text. */
  lemma {:induction false} FirstUsableDecides(texts: seq<string>, loads: string -> Option<Json>, k: nat)
    requires k <= |texts| && forall j :: 0 <= j < k ==> !Usable(texts[j], loads)
    ensures k < |texts| && Usable(texts[k], loads) ==>
              FirstObject(Blocks(texts), loads) == loads(FindBlock(texts[k]).value)
    ensures k == |texts| ==> FirstObject(Blocks(texts), loads) == None
  {
    if texts != [] {
      BlocksCons(texts);
      hide FindBlock, Blocks;
      var b, rest := FindBlock(texts[0]), Blocks(texts[1..]);
      if b.Some? {
        FirstObjectCons(b.value, rest, loads);
      } else {
        assert [] + rest == rest;
      }
      hide FirstObject;
      if k > 0 {
        assert !Usable(texts[0], loads);
        FirstUsableDecides(texts[1..], loads, k - 1);
      }
    }
  }

  lemma BlocksCons(texts: seq<string>)
    requires texts != []
    ensures Blocks(texts) == (if FindBlock(texts[0]).Some? then [FindBlock(texts[0]).value] else []) + Blocks(texts[1..])
  {
    hide FindBlock;
  }

  lemma FirstObjectCons(block: string, rest: seq<string>, loads: string -> Option<Json>)
    ensures FirstObject([block] + rest, loads)
         == if loads(block).Some? && loads(block).value.Object? then loads(block) else FirstObject(rest, loads)
  {
    assert ([block] + rest)[1..] == rest;
  }
}
