/**
 * Server-Sent-Events framing on the client: frontend/lib/sse.ts and the read
 * loop of frontend/lib/useResearchStream.ts.
 */
module Sse {
  import opened Common

  // ----- splitting the buffer into frames -------------------------------------

  /** Length of the frame delimiter starting at `i`, or 0 when there is none. */
  function DelimLen(s: string, i: nat): (n: nat)
    ensures i + n <= |s| || n == 0
  {
    if i + 4 <= |s| && s[i] == '\r' && s[i + 1] == '\n' && s[i + 2] == '\r' && s[i + 3] == '\n' then 4
    else if i + 2 <= |s| && s[i] == s[i + 1] && (s[i] == '\n' || s[i] == '\r') then 2
    else 0
  }

  /** Index of the leftmost delimiter at or after `from`; |s| when there is none. */
  function FirstDelim(s: string, from: nat): (i: nat)
    requires from <= |s|
    ensures from <= i <= |s|
    ensures i < |s| ==> DelimLen(s, i) > 0
    decreases |s| - from
  {
    if from == |s| || DelimLen(s, from) > 0 then from else FirstDelim(s, from + 1)
  }

  lemma {:induction false} NoDelimBefore(s: string, from: nat)
    requires from <= |s|
    ensures forall k :: from <= k < FirstDelim(s, from) ==> DelimLen(s, k) == 0
    decreases |s| - from
  {
    if from < |s| {
      NoDelimBefore(s, from + 1);
    }
  }

  lemma FirstDelimIs(s: string, m: nat)
    requires m < |s| && DelimLen(s, m) > 0
    requires forall k :: 0 <= k < m ==> DelimLen(s, k) == 0
    ensures FirstDelim(s, 0) == m
  {
    NoDelimBefore(s, 0);
  }

  lemma FirstDelimNone(s: string)
    requires forall k :: 0 <= k < |s| ==> DelimLen(s, k) == 0
    ensures FirstDelim(s, 0) == |s|
  {
  }

  datatype Split = Split(frames: seq<string>, rest: string)

  /** What splitting a whole buffer yields. */
  function SplitAll(s: string): Split
    decreases |s|
  {
    var i := FirstDelim(s, 0);
    if i == |s| then Split([], s)
    else
      var tail := SplitAll(s[i + DelimLen(s, i)..]);
      Split([s[..i]] + tail.frames, tail.rest)
  }

  /** Result of one `RegExp.exec` of the delimiter pattern: where the leftmost match starts. */
  method ExecDelim(s: string) returns (index: nat)
    ensures index == FirstDelim(s, 0)
  {
    index := 0;
    while index < |s| && DelimLen(s, index) == 0
      invariant index <= |s|
      invariant FirstDelim(s, 0) == FirstDelim(s, index)
    {
      index := index + 1;
    }
  }

  method SplitSseFrames(buffer: string) returns (frames: seq<string>, rest: string)
    ensures Split(frames, rest) == SplitAll(buffer)
  {
    frames, rest := [], buffer;
    var m := ExecDelim(rest);
    while m < |rest|
      invariant m == FirstDelim(rest, 0)
      invariant SplitAll(buffer) == Split(frames + SplitAll(rest).frames, SplitAll(rest).rest)
      decreases |rest|
    {
      var n := DelimLen(rest, m);
      assert frames + SplitAll(rest).frames == frames + [rest[..m]] + SplitAll(rest[m + n..]).frames;
      frames := frames + [rest[..m]];
      rest := rest[m + n..];
      m := ExecDelim(rest);
    }
    assert frames + [] == frames;
  }

  /** Every frame is free of delimiters, and so is the rest that stays buffered. */
  lemma {:induction false} NothingLeftToSplit(s: string)
    ensures forall k :: 0 <= k < |SplitAll(s).rest| ==> DelimLen(SplitAll(s).rest, k) == 0
    ensures forall f, k :: f in SplitAll(s).frames && 0 <= k < |f| ==> DelimLen(f, k) == 0
    decreases |s|
  {
    var i := FirstDelim(s, 0);
    NoDelimBefore(s, 0);
    if i < |s| {
      NothingLeftToSplit(s[i + DelimLen(s, i)..]);
      forall k | 0 <= k < i
        ensures DelimLen(s[..i], k) == 0
      {
        assert DelimLen(s, k) == 0;
      }
    }
  }

  /** A delimiter visible in a buffer is still the leftmost one after more text arrives. */
  lemma FirstDelimStable(p: string, q: string)
    requires FirstDelim(p, 0) < |p|
    ensures FirstDelim(p + q, 0) == FirstDelim(p, 0)
    ensures DelimLen(p + q, FirstDelim(p, 0)) == DelimLen(p, FirstDelim(p, 0))
  {
    var m := FirstDelim(p, 0);
    NoDelimBefore(p, 0);
    forall j | 0 <= j < m
      ensures DelimLen(p + q, j) == 0
    {
      // a delimiter that starts earlier would have to end in q, and no two delimiters overlap that way
      assert DelimLen(p, j) == 0;
    }
    FirstDelimIs(p + q, m);
  }

  lemma SplitStep(s: string, tail: string)
    requires FirstDelim(s, 0) < |s|
    requires tail == s[FirstDelim(s, 0) + DelimLen(s, FirstDelim(s, 0))..]
    ensures SplitAll(s).frames == [s[..FirstDelim(s, 0)]] + SplitAll(tail).frames
    ensures SplitAll(s).rest == SplitAll(tail).rest
  {
  }

  /** Chunk invariance: cutting the text anywhere gives the same frames and the same rest. */
  lemma {:induction false} SplitChunkInvariant(p: string, q: string)
    ensures SplitAll(p + q).frames == SplitAll(p).frames + SplitAll(SplitAll(p).rest + q).frames
    ensures SplitAll(p + q).rest == SplitAll(SplitAll(p).rest + q).rest
    decreases |p|
  {
    hide DelimLen, FirstDelim, SplitAll;
    var m := FirstDelim(p, 0);
    if m < |p| {
      var tail := p[m + DelimLen(p, m)..];
      SplitStep(p, tail);
      SplitChunkStep(p, q, tail);
      SplitChunkInvariant(tail, q);
      var later := SplitAll(SplitAll(tail).rest + q).frames;
      assert [p[..m]] + (SplitAll(tail).frames + later) == [p[..m]] + SplitAll(tail).frames + later;
    } else {
      NothingSplit(p);
      assert [] + SplitAll(p + q).frames == SplitAll(p + q).frames;
    }
  }

  /** The first frame of a buffer is the first frame of the buffer and what follows it. */
  lemma SplitChunkStep(p: string, q: string, tail: string)
    requires FirstDelim(p, 0) < |p|
    requires tail == p[FirstDelim(p, 0) + DelimLen(p, FirstDelim(p, 0))..]
    ensures SplitAll(p + q).frames == [p[..FirstDelim(p, 0)]] + SplitAll(tail + q).frames
    ensures SplitAll(p + q).rest == SplitAll(tail + q).rest
  {
    FirstDelimStable(p, q);
    hide DelimLen, FirstDelim, SplitAll;
    var m := FirstDelim(p, 0);
    assert (p + q)[..m] == p[..m];
    assert (p + q)[m + DelimLen(p, m)..] == tail + q;
    SplitStep(p + q, tail + q);
  }

  lemma NothingSplit(p: string)
    requires FirstDelim(p, 0) >= |p|
    ensures SplitAll(p).frames == [] && SplitAll(p).rest == p
  {
  }

  // ----- one frame's payload ----------------------------------------------------

  /** White space and line terminators removed by JavaScript's `String.trim`. */
  predicate IsJsSpace(c: char) {
    c in {'\t', '\n', '\U{0B}', '\U{0C}', '\r', ' ', '\U{A0}', '\U{1680}', '\U{2028}', '\U{2029}',
          '\U{202F}', '\U{205F}', '\U{3000}', '\U{FEFF}'}
    || '\U{2000}' <= c <= '\U{200A}'
  }

  function TrimStart(s: string): string {
    if s != "" && IsJsSpace(s[0]) then TrimStart(s[1..]) else s
  }

  function TrimEnd(s: string): (r: string)
    ensures r <= s
    ensures r != "" ==> !IsJsSpace(r[|r| - 1])
  {
    if s != "" && IsJsSpace(s[|s| - 1]) then TrimEnd(s[..|s| - 1]) else s
  }

  function Trim(s: string): string {
    TrimEnd(TrimStart(s))
  }

  function IndexOfLf(s: string): (i: nat)
    ensures i <= |s|
    ensures i < |s| ==> s[i] == '\n'
    ensures forall k :: 0 <= k < i ==> s[k] != '\n'
  {
    if s == "" || s[0] == '\n' then 0 else 1 + IndexOfLf(s[1..])
  }

  function ChopCr(line: string): string {
    if line != "" && line[|line| - 1] == '\r' then line[..|line| - 1] else line
  }

  /** `s.split(/\r?\n/)`. */
  function Lines(s: string): seq<string>
    decreases |s|
  {
    var i := IndexOfLf(s);
    if i == |s| then [s] else [ChopCr(s[..i])] + Lines(s[i + 1..])
  }

  const DATA_FIELD := "data:"

  function DataOf(line: string): string
    requires DATA_FIELD <= line
  {
    var v := line[5..];
    if v != "" && v[0] == ' ' then v[1..] else v
  }

  function DataLines(lines: seq<string>): seq<string> {
    if lines == [] then []
    else (if DATA_FIELD <= lines[0] then [DataOf(lines[0])] else []) + DataLines(lines[1..])
  }

  function JoinLf(lines: seq<string>): string {
    if lines == [] then ""
    else if |lines| == 1 then lines[0]
    else lines[0] + "\n" + JoinLf(lines[1..])
  }

  /** The payload a frame carries, if any. */
  function Payload(frame: string): Option<string> {
    var data := DataLines(Lines(frame));
    var text := Trim(JoinLf(data));
    if data == [] || text == "" then None else Some(text)
  }

  method ParseSseData(frame: string) returns (payload: Option<string>)
    ensures payload == Payload(frame)
  {
    var lines := Lines(frame);
    var dataLines: seq<string> := [];
    for i := 0 to |lines|
      invariant DataLines(lines) == dataLines + DataLines(lines[i..])
    {
      assert lines[i..][1..] == lines[i + 1..];
      if DATA_FIELD <= lines[i] {
        dataLines := dataLines + [DataOf(lines[i])];
      }
    }
    assert dataLines + [] == dataLines;
    if dataLines == [] {
      return None;
    }
    var text := Trim(JoinLf(dataLines));
    payload := if text == "" then None else Some(text);
  }

  // ----- the read loop ------------------------------------------------------------

  const DONE_MARK := "[DONE]"

  /** The texts handed to the JSON parser for these frames, in order. */
  function Payloads(frames: seq<string>): seq<string> {
    if frames == [] then []
    else
      var p := Payload(frames[0]);
      (if p.Some? && p.value != DONE_MARK then [p.value] else []) + Payloads(frames[1..])
  }

  lemma PayloadsStep(frames: seq<string>, i: nat)
    requires i < |frames|
    ensures var p := Payload(frames[i]);
            Payloads(frames[i..]) ==
              (if p.Some? && p.value != DONE_MARK then [p.value] else []) + Payloads(frames[i + 1..])
  {
    assert frames[i..][1..] == frames[i + 1..];
  }

  lemma {:induction false} PayloadsAppend(a: seq<string>, b: seq<string>)
    ensures Payloads(a + b) == Payloads(a) + Payloads(b)
  {
    if a == [] {
      assert a + b == b;
    } else {
      assert (a + b)[1..] == a[1..] + b;
      PayloadsAppend(a[1..], b);
    }
  }

  /** The texts handed to the JSON parser for a whole stream, its unterminated end included. */
  function StreamPayloads(text: string): seq<string> {
    var split := SplitAll(text);
    Payloads(split.frames) + (if Trim(split.rest) == "" then [] else Payloads([split.rest]))
  }

  /** The read loop: decode chunk after chunk, then treat what is left as a last frame. */
  method ReadStream(chunks: seq<string>) returns (handled: seq<string>)
    ensures handled == StreamPayloads(Flatten(chunks))
  {
    handled := [];
    var buffer := "";
    assert chunks[..0] == [];
    for i := 0 to |chunks|
      invariant handled == Payloads(SplitAll(Flatten(chunks[..i])).frames)
      invariant buffer == SplitAll(Flatten(chunks[..i])).rest
    {
      ghost var before := Flatten(chunks[..i]);
      assert chunks[..i + 1] == chunks[..i] + [chunks[i]];
      FlattenSnoc(chunks[..i], chunks[i]);
      SplitChunkInvariant(before, chunks[i]);
      var frames, rest := SplitSseFrames(buffer + chunks[i]);
      PayloadsAppend(SplitAll(before).frames, frames);
      buffer := rest;
      var some := ProcessFrames(frames);
      handled := handled + some;
    }
    assert chunks[..|chunks|] == chunks;
    if Trim(buffer) != "" {
      var last := ProcessFrames([buffer]);
      handled := handled + last;
    }
  }

  method ProcessFrames(frames: seq<string>) returns (handled: seq<string>)
    ensures handled == Payloads(frames)
  {
    hide Payload;
    handled := [];
    for i := 0 to |frames|
      invariant Payloads(frames) == handled + Payloads(frames[i..])
    {
      PayloadsStep(frames, i);
      var payload := ParseSseData(frames[i]);
      if payload.Some? && payload.value != DONE_MARK {
        handled := handled + [payload.value];
      }
    }
    assert handled + [] == handled;
  }

  // ----- what the server sends ------------------------------------------------------

  /** One message as the server's SSE library writes it; `crlf` picks the line ending. */
  datatype Message =
    | Data(payload: string, crlf: bool)
    | Comment(text: string, crlf: bool)

  predicate OneLine(s: string) {
    forall c :: c in s ==> c != '\n' && c != '\r'
  }

  /** A payload survives framing when it is non-empty, trimmed, one line, and not the end mark. */
  predicate Sendable(m: Message) {
    match m
    case Data(p, _) => p != "" && Trim(p) == p && OneLine(p) && p != DONE_MARK
    case Comment(t, _) => OneLine(t)
  }

  function Body(m: Message): string {
    match m
    case Data(p, _) => "data: " + p
    case Comment(t, _) => ": " + t
  }

  function Ending(m: Message): string {
    if m.crlf then "\r\n\r\n" else "\n\n"
  }

  function Encode(ms: seq<Message>): string {
    if ms == [] then "" else Body(ms[0]) + Ending(ms[0]) + Encode(ms[1..])
  }

  function Sent(ms: seq<Message>): seq<string> {
    if ms == [] then []
    else (if ms[0].Data? then [ms[0].payload] else []) + Sent(ms[1..])
  }

  lemma OneLineBody(m: Message)
    requires Sendable(m)
    ensures OneLine(Body(m))
  {
  }

  /** The first delimiter after a one-line body is the ending that follows it. */
  lemma FirstDelimAfterBody(body: string, ending: string, tail: string)
    requires OneLine(body)
    requires ending == "\r\n\r\n" || ending == "\n\n"
    ensures FirstDelim(body + ending + tail, 0) == |body|
    ensures DelimLen(body + ending + tail, |body|) == |ending|
  {
    var s := body + ending + tail;
    forall k | 0 <= k < |body|
      ensures DelimLen(s, k) == 0
    {
      assert s[k] == body[k] && body[k] in body;
    }
    FirstDelimIs(s, |body|);
  }

  lemma LinesOfOneLine(s: string)
    requires OneLine(s)
    ensures Lines(s) == [s]
  {
    forall k | 0 <= k < |s|
      ensures s[k] != '\n'
    {
      assert s[k] in s;
    }
  }

  lemma PayloadOfBody(m: Message)
    requires Sendable(m)
    ensures Payload(Body(m)) == if m.Data? then Some(m.payload) else None
  {
    OneLineBody(m);
    LinesOfOneLine(Body(m));
    if m.Data? {
      assert Body(m)[..5] == DATA_FIELD;
      assert Body(m)[5..] == " " + m.payload;
      assert DataOf(Body(m)) == m.payload;
      assert DataLines([Body(m)]) == [m.payload];
    } else {
      assert Body(m)[0] == ':';
      assert DataLines([Body(m)]) == [];
    }
  }

  /** Splitting an encoded stream peels off one message body at a time. */
  lemma SplitEncoded(m: Message, tail: string)
    requires Sendable(m)
    ensures SplitAll(Body(m) + Ending(m) + tail).frames == [Body(m)] + SplitAll(tail).frames
    ensures SplitAll(Body(m) + Ending(m) + tail).rest == SplitAll(tail).rest
  {
    var s := Body(m) + Ending(m) + tail;
    OneLineBody(m);
    FirstDelimAfterBody(Body(m), Ending(m), tail);
    assert s[..|Body(m)|] == Body(m);
    assert s[|Body(m)| + |Ending(m)|..] == tail;
  }

  lemma {:induction false} DecodeEncoded(ms: seq<Message>)
    requires forall m :: m in ms ==> Sendable(m)
    ensures Payloads(SplitAll(Encode(ms)).frames) == Sent(ms)
    ensures SplitAll(Encode(ms)).rest == ""
  {
    if ms != [] {
      DecodeEncoded(ms[1..]);
      SplitEncoded(ms[0], Encode(ms[1..]));
      PayloadOfBody(ms[0]);
    }
  }

  /**
   * Round trip: however the network cuts the text (ReadStream), the payloads handled
   * are exactly the payloads sent, in order; comment frames (pings) leave no trace.
   */
  lemma StreamRoundTrip(ms: seq<Message>, text: string)
    requires forall m :: m in ms ==> Sendable(m)
    requires text == Encode(ms)
    ensures StreamPayloads(text) == Sent(ms)
  {
    hide Payloads, SplitAll, Encode;
    DecodeEncoded(ms);
    assert Trim("") == "";
    assert Sent(ms) + [] == Sent(ms);
  }

  // ----- a connection that ends in the middle -----------------------------------------

  /** An incomplete message holds no delimiter, so it stays in the rest. */
  lemma PartialStaysBuffered(m: Message, t: nat)
    requires Sendable(m) && t < |Body(m) + Ending(m)|
    ensures SplitAll((Body(m) + Ending(m))[..t]) == Split([], (Body(m) + Ending(m))[..t])
  {
    var whole := Body(m) + Ending(m);
    var s := whole[..t];
    OneLineBody(m);
    forall k | 0 <= k < t
      ensures DelimLen(s, k) == 0
    {
      assert k < |Body(m)| ==> s[k] == Body(m)[k] && Body(m)[k] in Body(m);
      assert k >= |Body(m)| ==> s[k] == Ending(m)[k - |Body(m)|];
    }
    FirstDelimNone(s);
  }

  /** Where a text cut after `k` characters stands: `j` whole messages, then part of the next. */
  lemma {:induction false} SplitCut(ms: seq<Message>, k: nat) returns (j: nat, t: nat)
    requires forall m :: m in ms ==> Sendable(m)
    requires k <= |Encode(ms)|
    ensures j <= |ms|
    ensures Payloads(SplitAll(Encode(ms)[..k]).frames) == Sent(ms[..j])
    ensures j == |ms| ==> SplitAll(Encode(ms)[..k]).rest == ""
    ensures j < |ms| ==> t < |Body(ms[j]) + Ending(ms[j])|
                         && SplitAll(Encode(ms)[..k]).rest == (Body(ms[j]) + Ending(ms[j]))[..t]
    decreases |ms|
  {
    hide DelimLen, FirstDelim, SplitAll, Payload, Payloads, Body, Ending;
    if ms == [] {
      j, t := 0, 0;
      assert Encode(ms)[..k] == "";
      SplitEmpty();
    } else {
      var m := ms[0];
      assert m in ms;
      var whole := Body(m) + Ending(m);
      var rest := ms[1..];
      assert Encode(ms) == whole + Encode(rest);
      if k < |whole| {
        j, t := 0, k;
        assert Encode(ms)[..k] == whole[..k];
        PartialStaysBuffered(m, k);
        SplitEmpty();
        assert ms[..0] == [];
      } else {
        j, t := SplitCut(rest, k - |whole|);
        var tail := Encode(rest)[..k - |whole|];
        assert Encode(ms)[..k] == whole + tail;
        SplitEncoded(m, tail);
        PayloadsCons(Body(m), SplitAll(tail).frames);
        PayloadOfBody(m);
        assert ms[..j + 1] == [m] + rest[..j];
        assert Sent([m] + rest[..j]) == (if m.Data? then [m.payload] else []) + Sent(rest[..j]) by {
          assert ([m] + rest[..j])[1..] == rest[..j];
        }
        j := j + 1;
      }
    }
  }

  lemma PayloadsCons(frame: string, frames: seq<string>)
    ensures var p := Payload(frame);
            Payloads([frame] + frames) ==
              (if p.Some? && p.value != DONE_MARK then [p.value] else []) + Payloads(frames)
  {
    assert ([frame] + frames)[1..] == frames;
  }

  lemma SplitEmpty()
    ensures SplitAll("") == Split([], "")
    ensures Payloads([]) == []
    ensures Trim("") == ""
  {
  }

  lemma TrimOfPrefix(p: string, n: nat)
    requires n <= |p| && (p == "" || !IsJsSpace(p[0]))
    ensures Trim(p[..n]) <= p
  {
    assert TrimStart(p[..n]) == p[..n];
    assert TrimEnd(p[..n]) <= p[..n];
  }

  lemma {:induction false} TrimmedStart(s: string)
    ensures |TrimStart(s)| <= |s|
    ensures TrimStart(s) == "" || !IsJsSpace(TrimStart(s)[0])
  {
    if s != "" && IsJsSpace(s[0]) {
      TrimmedStart(s[1..]);
    }
  }

  lemma TrimmedFirst(p: string)
    requires p != "" && Trim(p) == p
    ensures !IsJsSpace(p[0])
  {
    TrimmedStart(p);
    assert |TrimEnd(TrimStart(p))| <= |TrimStart(p)|;
  }

  lemma TrimCr(x: string)
    ensures Trim(x + "\r") == Trim(x)
  {
    if x == "" {
      assert x + "\r" == "\r";
      assert TrimStart("\r") == TrimStart("\r"[1..]);
    } else if IsJsSpace(x[0]) {
      assert (x + "\r")[1..] == x[1..] + "\r";
      TrimCr(x[1..]);
    } else {
      assert TrimStart(x + "\r") == x + "\r";
      assert (x + "\r")[..|x|] == x;
    }
  }

  lemma BodyChars(m: Message)
    requires Sendable(m)
    ensures Body(m) != ""
    ensures forall k :: 0 <= k < |Body(m)| ==> Body(m)[k] != '\n' && Body(m)[k] != '\r'
  {
    OneLineBody(m);
    forall k | 0 <= k < |Body(m)|
      ensures Body(m)[k] != '\n' && Body(m)[k] != '\r'
    {
      assert Body(m)[k] in Body(m);
    }
  }

  /** The frame lines of an incomplete message: its body's line, perhaps followed by an empty one. */
  lemma LinesOfPartial(m: Message, t: nat) returns (line: string)
    requires Sendable(m) && t < |Body(m) + Ending(m)|
    ensures var s := (Body(m) + Ending(m))[..t];
            Lines(s) == [line] || Lines(s) == [line, ""] || Lines(s) == [line, "\r"]
    ensures line <= Body(m) || line == Body(m) + "\r"
  {
    hide OneLine, Sendable, IsJsSpace;
    var s := (Body(m) + Ending(m))[..t];
    var body := Body(m);
    BodyChars(m);
    hide Body;
    if t <= |body| {
      assert s == body[..t];
      line := s;
      OneLineOnly(s);
    } else if m.crlf && t == |body| + 1 {
      assert s == body + "\r";
      line := s;
      OneLineOnly(s);
    } else {
      var before := if m.crlf then body + "\r" else body;
      var tail := s[|before| + 1..];
      assert s == before + "\n" + tail && (tail == "" || tail == "\r");
      line := body;
      hide Ending;
      ChopsBody(body);
      TwoLines(before, tail);
    }
  }

  lemma ChopsBody(body: string)
    requires body != "" && body[|body| - 1] != '\r'
    ensures ChopCr(body) == body && ChopCr(body + "\r") == body
  {
  }

  lemma OneLineOnly(s: string)
    requires forall k :: 0 <= k < |s| ==> s[k] != '\n'
    ensures Lines(s) == [s]
  {
    assert IndexOfLf(s) == |s|;
  }

  lemma TwoLines(before: string, tail: string)
    requires (forall k :: 0 <= k < |before| ==> before[k] != '\n') && (tail == "" || tail == "\r")
    ensures Lines(before + "\n" + tail) == [ChopCr(before), tail]
  {
    var s := before + "\n" + tail;
    assert s[|before|] == '\n' && IndexOfLf(s) == |before|;
    assert s[..|before|] == before && s[|before| + 1..] == tail;
    assert IndexOfLf(tail) == |tail|;
    assert Lines(tail) == [tail];
  }

  lemma DataLinesOf(lines: seq<string>, line: string)
    requires lines == [line] || lines == [line, ""] || lines == [line, "\r"]
    ensures DataLines(lines) == if DATA_FIELD <= line then [DataOf(line)] else []
  {
    assert !(DATA_FIELD <= "") && !(DATA_FIELD <= "\r");
    assert [line, ""][1..] == [""] && [line, "\r"][1..] == ["\r"];
    assert DataLines([""]) == [] && DataLines(["\r"]) == [];
  }

  /** What is left of a cut message parses to nothing or to a prefix of its payload. */
  lemma PartialPayload(m: Message, t: nat)
    requires Sendable(m) && t < |Body(m) + Ending(m)|
    ensures var q := Payload((Body(m) + Ending(m))[..t]);
            q.Some? ==> m.Data? && q.value <= m.payload
  {
    hide Lines, DataLines, TrimStart, TrimEnd, IsJsSpace, OneLine, DataOf;
    var s := (Body(m) + Ending(m))[..t];
    var line := LinesOfPartial(m, t);
    DataLinesOf(Lines(s), line);
    if DATA_FIELD <= line {
      assert line[0] == 'd' && Body(m) != "" && line[0] == Body(m)[0];
      PartialDataTrimmed(m.payload, line);
    }
  }

  lemma PartialDataTrimmed(p: string, line: string)
    requires p != "" && Trim(p) == p
    requires DATA_FIELD <= line
    requires line <= "data: " + p || line == "data: " + p + "\r"
    ensures Trim(DataOf(line)) <= p
  {
    hide TrimStart, TrimEnd, IsJsSpace;
    TrimmedFirst(p);
    if line <= "data: " + p {
      PartialData(p, line);
      TrimOfPrefix(p, if |line| <= 6 then 0 else |line| - 6);
    } else {
      assert line[5..] == " " + p + "\r";
      assert DataOf(line) == p + "\r";
      TrimCr(p);
    }
  }

  lemma PartialData(p: string, line: string)
    requires DATA_FIELD <= line <= "data: " + p
    ensures DataOf(line) == p[..if |line| <= 6 then 0 else |line| - 6]
  {
    var whole := "data: " + p;
    assert line == whole[..|line|];
    if |line| > 5 {
      assert line[5] == ' ';
      assert line[5..][1..] == p[..|line| - 6];
    }
  }

  /** The payloads the JSON parser accepts, in order: the others are dropped by the client. */
  function Accepted(ps: seq<string>, accepts: string -> bool): seq<string> {
    if ps == [] then []
    else (if accepts(ps[0]) then [ps[0]] else []) + Accepted(ps[1..], accepts)
  }

  lemma {:induction false} AcceptedAppend(a: seq<string>, b: seq<string>, accepts: string -> bool)
    ensures Accepted(a + b, accepts) == Accepted(a, accepts) + Accepted(b, accepts)
  {
    if a == [] {
      assert a + b == b;
    } else {
      assert (a + b)[1..] == a[1..] + b;
      AcceptedAppend(a[1..], b, accepts);
    }
  }

  lemma {:induction false} AcceptedSent(ms: seq<Message>, accepts: string -> bool)
    requires forall m :: m in ms && m.Data? ==> accepts(m.payload)
    ensures Accepted(Sent(ms), accepts) == Sent(ms)
  {
    if ms != [] {
      AcceptedSent(ms[1..], accepts);
      assert ms[0] in ms;
      AcceptedAppend(if ms[0].Data? then [ms[0].payload] else [], Sent(ms[1..]), accepts);
    }
  }

  lemma {:induction false} SentAppend(a: seq<Message>, b: seq<Message>)
    ensures Sent(a + b) == Sent(a) + Sent(b)
  {
    if a == [] {
      assert a + b == b;
    } else {
      assert (a + b)[1..] == a[1..] + b;
      SentAppend(a[1..], b);
    }
  }

  /**
   * A connection cut after any number of characters still handles a prefix of what was
   * sent, provided the parser accepts whole payloads and no proper prefix of one.
   */
  lemma CutStreamHandlesPrefix(ms: seq<Message>, k: nat, accepts: string -> bool)
    requires forall m :: m in ms ==> Sendable(m)
    requires forall m :: m in ms && m.Data? ==> accepts(m.payload)
    requires forall m, q :: m in ms && m.Data? && q < m.payload ==> !accepts(q)
    requires k <= |Encode(ms)|
    ensures Accepted(StreamPayloads(Encode(ms)[..k]), accepts) <= Sent(ms)
  {
    hide Payload, Payloads, SplitAll, Encode, Trim, Sendable, Accepted, Body, Ending, Sent;
    var j, t := SplitCut(ms, k);
    var split := SplitAll(Encode(ms)[..k]);
    var last := if Trim(split.rest) == "" then [] else Payloads([split.rest]);
    AcceptedAppend(Sent(ms[..j]), last, accepts);
    AcceptedSent(ms[..j], accepts);
    assert ms == ms[..j] + ms[j..];
    SentAppend(ms[..j], ms[j..]);
    SplitEmpty();
    if j < |ms| {
      var m := ms[j];
      assert m in ms;
      PartialPayload(m, t);
      PayloadsOfOne(split.rest);
      AcceptedOne(last, accepts);
      if last != [] {
        var q := last[0];
        assert m.Data? && q <= m.payload;
        assert q == m.payload || q < m.payload;
      }
      assert Accepted(last, accepts) <= (if m.Data? then [m.payload] else []);
      SentFrom(ms, j);
    } else {
      AcceptedOne(last, accepts);
    }
  }

  lemma SentFrom(ms: seq<Message>, j: nat)
    requires j < |ms|
    ensures Sent(ms[j..]) == (if ms[j].Data? then [ms[j].payload] else []) + Sent(ms[j + 1..])
  {
    assert ms[j..][1..] == ms[j + 1..];
  }

  lemma AcceptedOne(ps: seq<string>, accepts: string -> bool)
    requires |ps| <= 1
    ensures Accepted(ps, accepts) == if ps != [] && accepts(ps[0]) then ps else []
  {
    if ps != [] {
      assert ps[1..] == [] && [ps[0]] == ps;
    }
  }

  lemma PayloadsOfOne(frame: string)
    ensures var p := Payload(frame);
            Payloads([frame]) == if p.Some? && p.value != DONE_MARK then [p.value] else []
  {
  }

  // ----- frames of several lines -------------------------------------------------------------------------

  /** A data line of a frame, with or without the space after the colon. */
  datatype Field = Field(text: string, spaced: bool)

  function FieldLine(f: Field): string {
    "data:" + (if f.spaced then " " else "") + f.text
  }

  /** The lines of a frame, ended by LF or CR LF. */
  function Framed(fields: seq<Field>, crlf: bool): string {
    if fields == [] then ""
    else if |fields| == 1 then FieldLine(fields[0])
    else FieldLine(fields[0]) + (if crlf then "\r\n" else "\n") + Framed(fields[1..], crlf)
  }

  function Texts(fields: seq<Field>): (r: seq<string>)
    ensures |r| == |fields| && forall k :: 0 <= k < |r| ==> r[k] == fields[k].text
  {
    seq(|fields|, k requires 0 <= k < |fields| => fields[k].text)
  }

  predicate Plain(f: Field) {
    OneLine(f.text) && (f.text != "" && f.text[0] == ' ' ==> f.spaced)
  }

  lemma FirstLine(line: string, crlf: bool, rest: string)
    requires OneLine(line)
    ensures Lines(line + (if crlf then "\r\n" else "\n") + rest) == [line] + Lines(rest)
  {
    var ended := line + (if crlf then "\r" else "");
    var s := ended + "\n" + rest;
    assert s == line + (if crlf then "\r\n" else "\n") + rest;
    NoLfIn(line, crlf);
    FirstLf(ended, rest);
    assert s[..|ended|] == ended && s[|ended| + 1..] == rest;
    assert ChopCr(ended) == line by {
      if !crlf && line != "" {
        assert line[|line| - 1] in line;
      }
    }
    hide ChopCr, OneLine, IndexOfLf;
  }

  lemma NoLfIn(line: string, crlf: bool)
    requires OneLine(line)
    ensures '\n' !in line + (if crlf then "\r" else "")
  {
  }

  lemma FirstLf(ended: string, rest: string)
    requires '\n' !in ended
    ensures IndexOfLf(ended + "\n" + rest) == |ended|
  {
    var s := ended + "\n" + rest;
    assert s[|ended|] == '\n';
    assert forall i :: 0 <= i < |ended| ==> s[i] == ended[i] && ended[i] in ended;
  }

  lemma FieldReads(f: Field)
    requires Plain(f)
    ensures OneLine(FieldLine(f)) && DATA_FIELD <= FieldLine(f) && DataOf(FieldLine(f)) == f.text
  {
    assert FieldLine(f)[..5] == DATA_FIELD;
    assert FieldLine(f)[5..] == (if f.spaced then " " else "") + f.text;
  }

  lemma {:induction false} FieldsRead(fields: seq<Field>, crlf: bool)
    requires fields != [] && forall f :: f in fields ==> Plain(f)
    ensures DataLines(Lines(Framed(fields, crlf))) == Texts(fields)
  {
    var f := fields[0];
    var line := FieldLine(f);
    FieldReads(f);
    DataLine(line, if |fields| == 1 then [] else Lines(Framed(fields[1..], crlf)));
    if |fields| == 1 {
      LinesOfOneLine(line);
      assert [line] + [] == [line];
      hide FieldLine, Plain, OneLine, DataOf, Lines;
      assert DataLines([]) == [];
    } else {
      FieldsRead(fields[1..], crlf);
      FirstLine(line, crlf, Framed(fields[1..], crlf));
      hide FieldLine, Plain, OneLine, DataOf, Lines, DataLines;
      assert Texts(fields) == [f.text] + Texts(fields[1..]);
    }
  }

  lemma DataLine(line: string, rest: seq<string>)
    requires DATA_FIELD <= line
    ensures DataLines([line] + rest) == [DataOf(line)] + DataLines(rest)
  {
    assert ([line] + rest)[1..] == rest;
  }

  /** The texts with a line feed between each and the next. */
  lemma JoinReads(texts: seq<string>, more: seq<string>)
    ensures texts != [] && more != [] ==> JoinLf(texts + more) == JoinLf(texts) + "\n" + JoinLf(more)
    ensures forall text :: JoinLf([text]) == text
  {
    if texts != [] && more != [] {
      assert (texts + more)[1..] == texts[1..] + more;
      if |texts| == 1 {
        assert texts[1..] + more == more;
      } else {
        JoinReads(texts[1..], more);
      }
    }
  }

  /** A frame of several data lines carries their texts joined by line feeds, trimmed, if anything is left. */
  lemma ManyLinesDecode(fields: seq<Field>, crlf: bool)
    requires fields != [] && forall f :: f in fields ==> Plain(f)
    ensures var text := Trim(JoinLf(Texts(fields)));
            Payload(Framed(fields, crlf)) == if text == "" then None else Some(text)
  {
    FieldsRead(fields, crlf);
    hide Lines, DataLines, Framed, Trim, JoinLf;
  }
}
