/** Extraction of a JSON value from the free text a language model returns
    (`extract_json_from_llm_response`). Decoding itself (`json.loads`) is the
    parameter `parse`: `None` stands for `json.JSONDecodeError`. What the
    model fixes is which substrings are handed to `parse`, in which order,
    and when extraction fails. */
module LlmResponseParser {
  import opened Wrappers
  import opened PyText

  /** Three backticks start at index `i`. */
  predicate FenceAt(s: string, i: int)
  {
    0 <= i && i + 3 <= |s| && s[i] == '`' && s[i + 1] == '`' && s[i + 2] == '`'
  }

  /** The optional tag `json` under `re.IGNORECASE`, which also lets `s`
      match U+017F LATIN SMALL LETTER LONG S. */
  predicate JsonTagAt(s: string, i: int)
  {
    && 0 <= i && i + 4 <= |s|
    && (s[i] == 'j' || s[i] == 'J')
    && (s[i + 1] == 's' || s[i + 1] == 'S' || s[i + 1] == '\U{017F}')
    && (s[i + 2] == 'o' || s[i + 2] == 'O')
    && (s[i + 3] == 'n' || s[i + 3] == 'N')
  }

  /** The first index at or after `from` where three backticks start, or -1. */
  function NextFence(s: string, from: nat): (k: int)
    decreases |s| - from
    ensures k == -1 || (from <= k && FenceAt(s, k))
    ensures forall i :: from <= i < (if k == -1 then |s| else k) ==> !FenceAt(s, i)
  {
    if from + 3 > |s| then -1
    else if FenceAt(s, from) then from
    else NextFence(s, from + 1)
  }

  /** One match of the pattern ```` ```(?:json)?\s*([\s\S]*?)\s*``` ````:
      the opening fence at `open`, the text after it and its tag from
      `bodyStart` and the closing fence at `close`. */
  datatype FenceMatch = FenceMatch(open: nat, bodyStart: nat, close: nat)

  /** The match of the fence pattern that starts at `p`, if there is one.
      The lazy group stops at the first closing fence; the two `\s*` take the
      whitespace at both ends of the group away. */
  function MatchAt(s: string, p: nat): (m: Option<FenceMatch>)
    ensures m.Some? ==> m.value.open == p && p + 3 <= m.value.bodyStart <= m.value.close
                        && m.value.close + 3 <= |s|
  {
    if !FenceAt(s, p) then None
    else
      var j := if JsonTagAt(s, p + 3) then p + 7 else p + 3;
      var k := NextFence(s, j);
      if k == -1 then None else Some(FenceMatch(p, j, k))
  }

  /** The captured group of a match: the text between the tag and the
      closing fence, without whitespace at either end (the two `\s*`). */
  function Group(s: string, m: FenceMatch): string
    requires m.bodyStart <= m.close <= |s|
  {
    Strip(s[m.bodyStart..m.close])
  }

  /** `re.findall` from index `pos`: try each index in turn, and after a
      match carry on where it ends. */
  function FenceMatches(s: string, pos: nat): (ms: seq<FenceMatch>)
    decreases |s| - pos
    ensures forall m :: m in ms ==> pos <= m.open && m.bodyStart <= m.close && m.close + 3 <= |s|
  {
    if pos + 3 > |s| then []
    else
      match MatchAt(s, pos)
      case Some(m) => [m] + FenceMatches(s, m.close + 3)
      case None => FenceMatches(s, pos + 1)
  }

  /** The captured groups, in the order `re.findall` returns them. */
  function Fences(s: string): seq<string>
  {
    var ms := FenceMatches(s, 0);
    seq(|ms|, i requires 0 <= i < |ms| => Group(s, ms[i]))
  }

  /** `None` at every index `lo <= q < hi`: no match starts there. */
  ghost predicate NoMatchIn(s: string, lo: int, hi: int)
  {
    forall q: nat :: lo <= q < hi ==> MatchAt(s, q).None?
  }

  /** `ms` is the leftmost, non-overlapping sequence of matches from `pos`:
      each one starts at the first index where a match starts after the end
      of the previous one, and none starts after the last. */
  ghost predicate LeftmostScan(s: string, pos: nat, ms: seq<FenceMatch>)
    decreases |ms|
  {
    if ms == [] then NoMatchIn(s, pos, |s| + 1)
    else
      && pos <= ms[0].open
      && MatchAt(s, ms[0].open) == Some(ms[0])
      && NoMatchIn(s, pos, ms[0].open)
      && LeftmostScan(s, ms[0].close + 3, ms[1..])
  }

  /** The scan is exactly the leftmost non-overlapping sequence of matches. */
  lemma {:induction false} FenceMatchesAreLeftmost(s: string, pos: nat)
    ensures LeftmostScan(s, pos, FenceMatches(s, pos))
    decreases |s| - pos
  {
    if pos + 3 > |s| {
      NoMatchNearEnd(s, pos);
      assert FenceMatches(s, pos) == [];
    } else if MatchAt(s, pos).Some? {
      var m := MatchAt(s, pos).value;
      var next := m.close + 3;
      assert pos < next <= |s|;
      assert LeftmostScan(s, next, FenceMatches(s, next)) by { FenceMatchesAreLeftmost(s, next); }
      ScanUnfoldMatch(s, pos, m);
    } else {
      assert LeftmostScan(s, pos + 1, FenceMatches(s, pos + 1)) by { FenceMatchesAreLeftmost(s, pos + 1); }
      ScanUnfoldNoMatch(s, pos);
    }
  }

  lemma {:induction false} ScanUnfoldMatch(s: string, pos: nat, m: FenceMatch)
    requires pos + 3 <= |s| && MatchAt(s, pos) == Some(m)
    requires LeftmostScan(s, m.close + 3, FenceMatches(s, m.close + 3))
    ensures LeftmostScan(s, pos, FenceMatches(s, pos))
  {
    assert FenceMatches(s, pos) == [m] + FenceMatches(s, m.close + 3);
    ScanStepMatch(s, pos, m, FenceMatches(s, m.close + 3));
  }

  lemma {:induction false} ScanUnfoldNoMatch(s: string, pos: nat)
    requires pos + 3 <= |s| && MatchAt(s, pos).None?
    requires LeftmostScan(s, pos + 1, FenceMatches(s, pos + 1))
    ensures LeftmostScan(s, pos, FenceMatches(s, pos))
  {
    assert FenceMatches(s, pos) == FenceMatches(s, pos + 1);
    ScanStepNoMatch(s, pos, FenceMatches(s, pos + 1));
  }

  lemma {:induction false} NoMatchNearEnd(s: string, pos: nat)
    requires pos + 3 > |s|
    ensures NoMatchIn(s, pos, |s| + 1)
  {
    forall q: nat | pos <= q < |s| + 1 ensures MatchAt(s, q).None? {
      assert !FenceAt(s, q);
    }
  }

  lemma {:induction false} ScanStepNoMatch(s: string, pos: nat, ms: seq<FenceMatch>)
    requires MatchAt(s, pos).None? && LeftmostScan(s, pos + 1, ms)
    ensures LeftmostScan(s, pos, ms)
  {
    if ms == [] {
      assert NoMatchIn(s, pos + 1, |s| + 1);
      assert NoMatchIn(s, pos, |s| + 1);
    } else {
      assert NoMatchIn(s, pos + 1, ms[0].open);
      assert NoMatchIn(s, pos, ms[0].open);
    }
  }

  lemma {:induction false} ScanStepMatch(s: string, pos: nat, m: FenceMatch, ms: seq<FenceMatch>)
    requires MatchAt(s, pos) == Some(m) && LeftmostScan(s, m.close + 3, ms)
    ensures LeftmostScan(s, pos, [m] + ms)
  {
    assert ([m] + ms)[1..] == ms;
  }

  /** What one match is, stated without the pattern: three backticks at
      `open`; after them an optional `json` tag; and the closing fence at the
      first three backticks after that. `StripShape` says what the group
      keeps of the text in between. */
  lemma {:induction false} MatchAtShape(s: string, p: nat)
    requires MatchAt(s, p).Some?
    ensures var m := MatchAt(s, p).value;
      && FenceAt(s, p) && FenceAt(s, m.close)
      && (m.bodyStart == p + 3 || (m.bodyStart == p + 7 && JsonTagAt(s, p + 3)))
      && (JsonTagAt(s, p + 3) ==> m.bodyStart == p + 7)
      && (forall i :: m.bodyStart <= i < m.close ==> !FenceAt(s, i))
  {
  }

  /** A fence with a closing fence somewhere after it (and after its tag)
      always yields a match. */
  lemma {:induction false} MatchAtExists(s: string, p: nat, q: nat)
    requires FenceAt(s, p) && FenceAt(s, q)
    requires q >= (if JsonTagAt(s, p + 3) then p + 7 else p + 3)
    ensures MatchAt(s, p).Some? && MatchAt(s, p).value.close <= q
  {
  }

  /** `s.find` of the first `{` or `[`, whichever comes first; -1 if neither
      occurs. */
  function SpanStart(s: string): int
  {
    var brace := Find(s, '{');
    var bracket := Find(s, '[');
    if brace != -1 && bracket != -1 then Min(brace, bracket)
    else if brace != -1 then brace
    else bracket
  }

  /** The outermost span: from the first opener to the last closer of the
      same kind, both included, provided the closer comes after the opener. */
  function SpanCandidate(s: string): Option<string>
  {
    var start := SpanStart(s);
    if start == -1 then None
    else
      var end := if s[start] == '{' then RFind(s, '}') else RFind(s, ']');
      if end > start then Some(s[start..end + 1]) else None
  }

  predicate IsOpener(c: char)
  {
    c == '{' || c == '['
  }

  function CloserOf(c: char): char
  {
    if c == '{' then '}' else ']'
  }

  lemma {:induction false} NotBefore(s: string, c: char, r: int)
    requires -1 <= r < |s|
    requires r == -1 <==> c !in s
    requires r >= 0 ==> c !in s[..r]
    ensures forall i :: 0 <= i < (if r == -1 then |s| else r) ==> s[i] != c
  {
    if r >= 0 {
      forall i | 0 <= i < r ensures s[i] != c { assert s[..r][i] == s[i]; }
    }
  }

  /** The span starts at the first `{` or `[` of the text, and there is no
      start exactly when neither occurs. */
  lemma {:induction false} SpanStartIsFirstOpener(s: string)
    ensures SpanStart(s) == -1 <==> forall i :: 0 <= i < |s| ==> !IsOpener(s[i])
    ensures SpanStart(s) != -1 ==>
      0 <= SpanStart(s) < |s| && IsOpener(s[SpanStart(s)]) &&
      forall i :: 0 <= i < SpanStart(s) ==> !IsOpener(s[i])
  {
    NotBefore(s, '{', Find(s, '{'));
    NotBefore(s, '[', Find(s, '['));
  }

  /** A span runs from its opener to the last closer of the same kind. */
  lemma {:induction false} SpanCandidateBounds(s: string)
    requires SpanCandidate(s).Some?
    ensures var start := SpanStart(s);
      var c := SpanCandidate(s).value;
      && 0 <= start && 2 <= |c| && start + |c| <= |s| && c == s[start..start + |c|]
      && c[0] == s[start] && c[|c| - 1] == CloserOf(s[start])
      && CloserOf(s[start]) !in s[start + |c|..]
  {
    var start := SpanStart(s);
    var end := RFind(s, CloserOf(s[start]));
    assert s[start] == '{' ==> end == RFind(s, '}');
    assert s[start] != '{' ==> end == RFind(s, ']');
  }

  /** No `c` after `end` means no `c` after any later `start`. */
  lemma {:induction false} NoneAfter(s: string, c: char, end: int, start: nat)
    requires -1 <= end <= start < |s| && c !in s[end + 1..]
    ensures c !in s[start + 1..]
  {
    var after := s[end + 1..];
    var tail := s[start + 1..];
    forall k | 0 <= k < |tail| ensures tail[k] != c {
      assert tail[k] == after[start - end + k];
    }
  }

  /** There is no span exactly when the text has no opener, or no closer of
      the same kind after its first opener. */
  lemma {:induction false} SpanCandidateMissing(s: string)
    ensures SpanCandidate(s).None? <==>
      SpanStart(s) == -1 || CloserOf(s[SpanStart(s)]) !in s[SpanStart(s) + 1..]
  {
    var start := SpanStart(s);
    if start != -1 {
      var closer := CloserOf(s[start]);
      var end := RFind(s, closer);
      assert s[start] == '{' ==> end == RFind(s, '}');
      assert s[start] != '{' ==> end == RFind(s, ']');
      if end > start {
        assert s[start + 1..][end - start - 1] == closer;
      } else {
        NoneAfter(s, closer, end, start);
      }
    }
  }

  /** The first candidate that decodes, in order. */
  function FirstParse<J>(cs: seq<string>, parse: string -> Option<J>): Option<J>
  {
    if cs == [] then None
    else
      match parse(cs[0])
      case Some(v) => Some(v)
      case None => FirstParse(cs[1..], parse)
  }

  /** The three stages, in the order the source tries them: every fenced
      block `fs`, then the whole text, then the outermost span. */
  function Stages<J>(fs: seq<string>, cleaned: string, span: Option<string>, parse: string -> Option<J>): Option<J>
  {
    match FirstParse(fs, parse)
    case Some(v) => Some(v)
    case None =>
      match parse(cleaned)
      case Some(v) => Some(v)
      case None =>
        match span
        case Some(c) => parse(c)
        case None => None
  }

  /** The strings the stages hand to `json.loads`, in order. */
  function StageInputs(fs: seq<string>, cleaned: string, span: Option<string>): seq<string>
  {
    fs + [cleaned] + (if span.Some? then [span.value] else [])
  }

  function Attempt<J>(cleaned: string, parse: string -> Option<J>): Option<J>
  {
    Stages(Fences(cleaned), cleaned, SpanCandidate(cleaned), parse)
  }

  /** Every string the source may hand to `json.loads`, in order. */
  function Candidates(cleaned: string): seq<string>
  {
    StageInputs(Fences(cleaned), cleaned, SpanCandidate(cleaned))
  }

  /** The `ValueError` the source raises when nothing decodes: the length of
      the original text and its first 200 characters. Calling
      `len(None)` for that message raises a `TypeError` instead. */
  datatype ExtractError = NoJson(length: nat, preview: string) | NoneHasNoLength

  const PreviewLength: nat := 200

  function Preview(text: string): string
  {
    text[..Min(PreviewLength, |text|)]
  }

  /** `extract_json_from_llm_response` as written. */
  function ExtractJsonAsWritten<J>(text: Option<string>, parse: string -> Option<J>): Result<J, ExtractError>
  {
    var cleaned := Strip(if text.Some? then text.value else "");
    match Attempt(cleaned, parse)
    case Some(v) => Ok(v)
    case None =>
      if text.None? then Err(NoneHasNoLength)
      else Err(NoJson(|text.value|, Preview(text.value)))
  }

  /** `extract_json_from_llm_response` with the message built from the text
      after `text or ""`, so that it raises the documented `ValueError` for
      `None` too. */
  function ExtractJson<J>(text: Option<string>, parse: string -> Option<J>): Result<J, ExtractError>
  {
    var raw := if text.Some? then text.value else "";
    match Attempt(Strip(raw), parse)
    case Some(v) => Ok(v)
    case None => Err(NoJson(|raw|, Preview(raw)))
  }

  /** `FirstParse` returns the decoding of the first candidate that decodes,
      and fails only when every candidate fails. */
  lemma {:induction false} FirstParseIsFirstSuccess<J>(cs: seq<string>, parse: string -> Option<J>)
    ensures FirstParse(cs, parse).None? <==> forall i :: 0 <= i < |cs| ==> parse(cs[i]).None?
    ensures FirstParse(cs, parse).Some? ==>
      exists i :: 0 <= i < |cs| && parse(cs[i]) == FirstParse(cs, parse) &&
                  forall j :: 0 <= j < i ==> parse(cs[j]).None?
  {
    if cs != [] {
      FirstParseIsFirstSuccess(cs[1..], parse);
      assert forall i :: 0 < i < |cs| ==> cs[i] == cs[1..][i - 1];
      if parse(cs[0]).None? && FirstParse(cs, parse).Some? {
        var i :| 0 <= i < |cs[1..]| && parse(cs[1..][i]) == FirstParse(cs[1..], parse) &&
                 forall j :: 0 <= j < i ==> parse(cs[1..][j]).None?;
        assert parse(cs[i + 1]) == FirstParse(cs, parse);
      }
    }
  }

  /** Trying `a` and then `b` is trying `a + b`. */
  lemma {:induction false} FirstParseConcat<J>(a: seq<string>, b: seq<string>, parse: string -> Option<J>)
    ensures FirstParse(a + b, parse) == if FirstParse(a, parse).Some? then FirstParse(a, parse) else FirstParse(b, parse)
  {
    if a == [] {
      assert a + b == b;
    } else {
      assert (a + b)[0] == a[0];
      assert (a + b)[1..] == a[1..] + b;
      FirstParseConcat(a[1..], b, parse);
    }
  }

  /** The stages amount to trying their inputs in order. */
  lemma {:induction false} StagesTryInputsInOrder<J>(fs: seq<string>, cleaned: string, span: Option<string>, parse: string -> Option<J>)
    ensures Stages(fs, cleaned, span, parse) == FirstParse(StageInputs(fs, cleaned, span), parse)
  {
    var tail := if span.Some? then [span.value] else [];
    FirstParseConcat(fs, [cleaned] + tail, parse);
    assert StageInputs(fs, cleaned, span) == fs + ([cleaned] + tail);
    FirstParseConcat([cleaned], tail, parse);
    assert FirstParse([cleaned], parse) == parse(cleaned);
    if tail != [] {
      assert FirstParse(tail, parse) == parse(tail[0]);
    }
  }

  /** Extraction tries the candidates in order: fenced blocks left to right,
      then the whole text, then the span. */
  lemma {:induction false} AttemptTriesCandidatesInOrder<J>(cleaned: string, parse: string -> Option<J>)
    ensures Attempt(cleaned, parse) == FirstParse(Candidates(cleaned), parse)
  {
    StagesTryInputsInOrder(Fences(cleaned), cleaned, SpanCandidate(cleaned), parse);
  }

  /** Extraction fails exactly when no candidate decodes; it then reports
      the length and preview of the text it was given. */
  lemma {:induction false} ExtractFailsOnlyIfNothingDecodes<J>(text: string, parse: string -> Option<J>)
    ensures ExtractJson(Some(text), parse).Err? <==>
      forall c :: c in Candidates(Strip(text)) ==> parse(c).None?
    ensures ExtractJson(Some(text), parse).Err? ==>
      ExtractJson(Some(text), parse).error == NoJson(|text|, Preview(text))
    ensures |Preview(text)| == Min(200, |text|)
  {
    var cs := Candidates(Strip(text));
    AttemptTriesCandidatesInOrder(Strip(text), parse);
    FirstParseIsFirstSuccess(cs, parse);
    if forall c :: c in cs ==> parse(c).None? {
      assert forall i :: 0 <= i < |cs| ==> parse(cs[i]).None?;
    }
  }

  /** The first fenced block that decodes is the result: no later block, nor
      the whole text, nor the span, is used. */
  lemma {:induction false} FirstDecodingFenceWins<J>(text: string, parse: string -> Option<J>, i: nat)
    requires i < |Fences(Strip(text))|
    requires parse(Fences(Strip(text))[i]).Some?
    requires forall j :: 0 <= j < i ==> parse(Fences(Strip(text))[j]).None?
    ensures ExtractJson(Some(text), parse) == Ok(parse(Fences(Strip(text))[i]).value)
  {
    var fs := Fences(Strip(text));
    FirstParseConcat(fs[..i], fs[i..], parse);
    assert fs == fs[..i] + fs[i..];
    FirstParseIsFirstSuccess(fs[..i], parse);
    assert fs[i..][0] == fs[i];
  }

  /** The whole text is used only when no fenced block decodes, and the span
      only when the whole text does not decode either. */
  lemma {:induction false} WholeTextOnlyAfterFences<J>(text: string, parse: string -> Option<J>)
    requires forall j :: 0 <= j < |Fences(Strip(text))| ==> parse(Fences(Strip(text))[j]).None?
    ensures parse(Strip(text)).Some? ==> ExtractJson(Some(text), parse) == Ok(parse(Strip(text)).value)
    ensures parse(Strip(text)).None? ==>
      ExtractJson(Some(text), parse).Ok? ==>
        SpanCandidate(Strip(text)).Some? &&
        parse(SpanCandidate(Strip(text)).value) == Some(ExtractJson(Some(text), parse).value)
  {
    FirstParseIsFirstSuccess(Fences(Strip(text)), parse);
  }

  /** Whitespace around the reply never changes what is extracted. */
  lemma {:induction false} ExtractIgnoresSurroundingWhitespace<J>(ws1: string, t: string, ws2: string, parse: string -> Option<J>)
    requires All(ws1, IsSpace) && All(ws2, IsSpace)
    ensures ExtractJson(Some(ws1 + t + ws2), parse).Ok? <==> ExtractJson(Some(t), parse).Ok?
    ensures ExtractJson(Some(ws1 + t + ws2), parse).Ok? ==>
      ExtractJson(Some(ws1 + t + ws2), parse).value == ExtractJson(Some(t), parse).value
  {
    StripPadded(ws1, t, ws2);
  }

  /** As written, extraction from `None` that finds nothing raises the
      `TypeError` of `len(None)`; the documented `ValueError` is what the
      corrected definition raises. */
  lemma {:induction false} NoneTextRaisesTypeError<J>(parse: string -> Option<J>)
    requires parse("").None?
    ensures ExtractJsonAsWritten(None, parse) == Err(NoneHasNoLength)
    ensures ExtractJson(None, parse) == Err(NoJson(0, ""))
  {
    assert Strip("") == "";
    assert Fences("") == [];
    assert Attempt("", parse) == None;
  }

  /** On a string the two definitions agree. */
  lemma {:induction false} ExtractJsonAgreesOnText<J>(text: string, parse: string -> Option<J>)
    ensures ExtractJson(Some(text), parse) == ExtractJsonAsWritten(Some(text), parse)
  {
  }

  /** A reply that is exactly one fenced block tagged `json`, the way the
      prompts ask the model to answer. */
  function JsonFenced(b: string): string
  {
    "```json\n" + b + "\n```"
  }

  lemma {:induction false} JsonFencedLayout(b: string)
    requires '`' !in b
    ensures var s := JsonFenced(b);
      && FenceAt(s, 0) && JsonTagAt(s, 3) && NextFence(s, 7) == |s| - 3
      && s[7..|s| - 3] == "\n" + b + "\n"
  {
    var s := JsonFenced(b);
    var n := |s|;
    assert FenceAt(s, n - 3);
    forall i | 7 <= i < n - 3 ensures !FenceAt(s, i) {
      if 8 <= i < n - 4 {
        assert s[i] == b[i - 8];
      }
    }
    assert s[7..n - 3] == "\n" + b + "\n";
  }

  lemma {:induction false} StripUnpadded(b: string)
    requires b == [] || (!IsSpace(b[0]) && !IsSpace(b[|b| - 1]))
    ensures Strip(b) == b
  {
    assert LStripChars(b, IsSpace) == b;
  }

  /** Its body (without backticks and without whitespace at either end) is
      the only fenced candidate. */
  lemma {:induction false} SingleJsonFenceBody(b: string)
    requires '`' !in b
    requires b == [] || (!IsSpace(b[0]) && !IsSpace(b[|b| - 1]))
    ensures Fences(JsonFenced(b)) == [b]
    ensures Strip(JsonFenced(b)) == JsonFenced(b)
  {
    var s := JsonFenced(b);
    var m := FenceMatch(0, 7, |s| - 3);
    assert FenceMatches(s, 0) == [m] by { JsonFencedMatches(b); }
    assert Group(s, m) == b by { JsonFencedGroup(b); }
    var fs := Fences(s);
    assert |fs| == 1 && fs[0] == b;
    assert fs == [b];
    StripUnpadded(s);
  }

  lemma {:induction false} JsonFencedMatches(b: string)
    requires '`' !in b
    ensures FenceMatches(JsonFenced(b), 0) == [FenceMatch(0, 7, |JsonFenced(b)| - 3)]
  {
    var s := JsonFenced(b);
    JsonFencedLayout(b);
    assert MatchAt(s, 0) == Some(FenceMatch(0, 7, |s| - 3));
    assert FenceMatches(s, |s|) == [];
  }

  lemma {:induction false} JsonFencedGroup(b: string)
    requires '`' !in b
    requires b == [] || (!IsSpace(b[0]) && !IsSpace(b[|b| - 1]))
    ensures Group(JsonFenced(b), FenceMatch(0, 7, |JsonFenced(b)| - 3)) == b
  {
    JsonFencedLayout(b);
    StripPadded("\n", b, "\n");
    StripUnpadded(b);
  }

  /** Whenever that body decodes, it is the result. */
  lemma {:induction false} SingleJsonFence<J>(b: string, parse: string -> Option<J>)
    requires '`' !in b
    requires b == [] || (!IsSpace(b[0]) && !IsSpace(b[|b| - 1]))
    requires parse(b).Some?
    ensures ExtractJson(Some(JsonFenced(b)), parse) == Ok(parse(b).value)
  {
    var s := JsonFenced(b);
    assert Fences(Strip(s)) == [b] by { SingleJsonFenceBody(b); }
    FirstDecodingFenceWins(s, parse, 0);
  }
}
