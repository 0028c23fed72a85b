/** The audit pass of `utils/evidence_validator.py`: interactors are sent to
    a language model in batches, and the audited records it returns are
    filtered by their `validity` marks before they replace the interactor
    list. The model call is the parameter `ask`, which sees the index of the
    batch's first interactor and the batch, and gives the reply text or
    `None` when the call raised; `json.loads` is the parameter `parse`. */
module EvidenceValidator {
  import opened Wrappers
  import opened PyText
  import opened PyJson
  import LlmResponseParser

  // ---------------------------------------------------------------------
  // The fallback extractor defined when `utils.llm_response_parser` cannot
  // be imported.
  // ---------------------------------------------------------------------

  /** `u.lower().startswith("json")`. Only the ASCII letters `J`, `S`, `O`,
      `N` lower-case to these letters, and a character whose lower case is
      longer than one character never turns into a `j` first, so this is an
      ASCII case-insensitive prefix test. */
  predicate JsonPrefix(u: string)
  {
    && |u| >= 4
    && (u[0] == 'j' || u[0] == 'J') && (u[1] == 's' || u[1] == 'S')
    && (u[2] == 'o' || u[2] == 'O') && (u[3] == 'n' || u[3] == 'N')
  }

  /** The text the fallback hands to `json.loads` first: the stripped reply,
      and for a reply fenced by backticks at both ends, what is left after
      the backticks, the whitespace and a leading `json` tag are cut off. */
  function FallbackCleaned(text: Option<string>): string
  {
    CleanFence(Strip(if text.Some? then text.value else ""))
  }

  /** The cleaning of an already stripped reply. */
  function CleanFence(cleaned: string): string
  {
    if StartsWith(cleaned, "```") && EndsWith(cleaned, "```") then
      var u := Strip(StripChars(cleaned, IsBacktick));
      if JsonPrefix(u) then LStrip(u[4..]) else u
    else cleaned
  }

  /** The fallback `extract_json_from_llm_response`: the cleaned text, and
      when that does not decode, the span from the first `{` to the last
      `}`. Its failure is the `JSONDecodeError`, a `ValueError`. */
  function FallbackExtract<J>(text: Option<string>, parse: string -> Option<J>): Result<J, PyException>
  {
    FallbackParse(FallbackCleaned(text), parse)
  }

  /** The two `json.loads` attempts on the cleaned text. */
  function FallbackParse<J>(cleaned: string, parse: string -> Option<J>): Result<J, PyException>
  {
    match parse(cleaned)
    case Some(v) => Ok(v)
    case None => BraceSpan(cleaned, parse, Find(cleaned, '{'), RFind(cleaned, '}'))
  }

  /** The second attempt, on `cleaned[start:end+1]` when `end > start >= 0`. */
  function BraceSpan<J>(cleaned: string, parse: string -> Option<J>, start: int, end: int): Result<J, PyException>
    requires -1 <= start < |cleaned| && -1 <= end < |cleaned|
  {
    if start >= 0 && end > start then
      match parse(cleaned[start..end + 1])
      case Some(v) => Ok(v)
      case None => Err(ValueError)
    else Err(ValueError)
  }

  /** The fallback succeeds exactly when the cleaned text decodes, or the
      brace span exists and decodes; unlike the main extractor it never
      looks at a `[`. */
  lemma {:induction false} FallbackAttempts<J>(c: string, parse: string -> Option<J>)
    ensures parse(c).Some? ==> FallbackParse(c, parse) == Ok(parse(c).value)
    ensures parse(c).None? && '{' !in c ==> FallbackParse(c, parse) == Err(ValueError)
    ensures parse(c).None? && '}' !in c ==> FallbackParse(c, parse) == Err(ValueError)
    ensures FallbackParse(c, parse).Ok? ==>
            parse(c).Some? ||
            exists i, j :: 0 <= i < j < |c| && c[i] == '{' && c[j] == '}' &&
                           parse(c[i..j + 1]).Some? && FallbackParse(c, parse) == Ok(parse(c[i..j + 1]).value)
  {
    var start := Find(c, '{');
    var end := RFind(c, '}');
    if parse(c).None? {
      assert FallbackParse(c, parse) == BraceSpan(c, parse, start, end);
      if start >= 0 && end > start && parse(c[start..end + 1]).Some? {
        assert c[start] == '{' && c[end] == '}';
      }
    }
  }

  /** When the cleaned text does not decode, the span tried runs from the
      first `{` to the last `}`: it is the result when it decodes, and the
      fallback raises `ValueError` when it does not or when that `}` does
      not come after that `{`. */
  lemma {:induction false} FallbackBraceSpan<J>(c: string, parse: string -> Option<J>, i: nat, j: nat)
    requires parse(c).None?
    requires i < |c| && c[i] == '{' && '{' !in c[..i]
    requires j < |c| && c[j] == '}' && '}' !in c[j + 1..]
    ensures i < j ==>
      FallbackParse(c, parse) == (if parse(c[i..j + 1]).Some? then Ok(parse(c[i..j + 1]).value) else Err(ValueError))
    ensures j <= i ==> FallbackParse(c, parse) == Err(ValueError)
  {
  }

  lemma {:induction false} LStripKeeps(t: string, drop: char -> bool)
    requires t != [] && !drop(t[0])
    ensures LStripChars(t, drop) == t
  {
  }

  lemma {:induction false} RStripKeeps(t: string, drop: char -> bool)
    requires t != [] && !drop(t[|t| - 1])
    ensures RStripChars(t, drop) == t
  {
  }

  /** The backticks cut from a one-block `json` reply. */
  lemma {:induction false} JsonFencedBackticks(b: string)
    requires '`' !in b
    ensures StripChars(LlmResponseParser.JsonFenced(b), IsBacktick) == "json\n" + b + "\n"
  {
    var inner := "json\n" + b + "\n";
    assert LlmResponseParser.JsonFenced(b) == "```" + inner + "```";
    assert inner[0] == 'j' && inner[|inner| - 1] == '\n';
    BacktickFence(inner);
  }

  /** Three backticks on either side of a text that neither starts nor ends
      with one are what `strip("`")` removes. */
  lemma {:induction false} BacktickFence(t: string)
    requires t != [] && !IsBacktick(t[0]) && !IsBacktick(t[|t| - 1])
    ensures StripChars("```" + t + "```", IsBacktick) == t
  {
    assert "```" + t + "```" == "```" + (t + "```");
    assert All("```", IsBacktick);
    LStripPadded("```", t + "```", IsBacktick);
    LStripKeeps(t + "```", IsBacktick);
    RStripPadded(t, "```", IsBacktick);
    RStripKeeps(t, IsBacktick);
  }

  /** Stripping the text between the backticks of a one-block reply leaves
      the tag and the body. */
  lemma {:induction false} JsonTagStrip(b: string)
    requires b == [] || (!IsSpace(b[0]) && !IsSpace(b[|b| - 1]))
    ensures Strip("json\n" + b + "\n") == if b == [] then "json" else "json\n" + b
  {
    var t := "json\n" + b;
    var w := t + "\n";
    assert w[0] == 'j';
    LStripKeeps(w, IsSpace);
    assert All("\n", IsSpace);
    RStripPadded(t, "\n", IsSpace);
    if b == [] {
      assert t == "json" + "\n";
      RStripPadded("json", "\n", IsSpace);
      RStripKeeps("json", IsSpace);
    } else {
      assert t[|t| - 1] == b[|b| - 1];
      RStripKeeps(t, IsSpace);
    }
  }

  /** What remains after the tag. */
  lemma {:induction false} JsonTagCut(b: string)
    requires b == [] || (!IsSpace(b[0]) && !IsSpace(b[|b| - 1]))
    ensures var u := Strip("json\n" + b + "\n");
      JsonPrefix(u) && LStrip(u[4..]) == b
  {
    JsonTagStrip(b);
    var u := Strip("json\n" + b + "\n");
    if b == [] {
      assert u[4..] == [];
    } else {
      assert u[4..] == "\n" + b;
      assert All("\n", IsSpace);
      LStripPadded("\n", b, IsSpace);
      LStripKeeps(b, IsSpace);
    }
  }

  /** The cleaning steps on a reply that is already stripped and fenced. */
  lemma {:induction false} CleanFenceFenced(s: string, u: string)
    requires StartsWith(s, "```") && EndsWith(s, "```")
    requires Strip(StripChars(s, IsBacktick)) == u
    ensures CleanFence(s) == if JsonPrefix(u) then LStrip(u[4..]) else u
  {
  }

  /** The fallback cleans a one-block `json` reply down to its body. */
  lemma {:induction false} FallbackCleanedJsonFence(b: string)
    requires '`' !in b
    requires b == [] || (!IsSpace(b[0]) && !IsSpace(b[|b| - 1]))
    ensures FallbackCleaned(Some(LlmResponseParser.JsonFenced(b))) == b
  {
    var s := LlmResponseParser.JsonFenced(b);
    var inner := "json\n" + b + "\n";
    FencedShape(b);
    assert StripChars(s, IsBacktick) == inner by { JsonFencedBackticks(b); }
    JsonTagCut(b);
    CleanFenceFenced(s, Strip(inner));
    assert Strip(s) == s by { LlmResponseParser.SingleJsonFenceBody(b); }
  }

  lemma {:induction false} FencedShape(b: string)
    ensures StartsWith(LlmResponseParser.JsonFenced(b), "```") && EndsWith(LlmResponseParser.JsonFenced(b), "```")
  {
    var s := LlmResponseParser.JsonFenced(b);
    assert s[..3] == "```";
    assert s[|s| - 3..] == "```";
  }

  /** On a reply that is one fenced `json` block, the fallback and the
      main extractor decode the same body. */
  lemma {:induction false} FallbackAgreesOnJsonFence<J>(b: string, parse: string -> Option<J>)
    requires '`' !in b
    requires b == [] || (!IsSpace(b[0]) && !IsSpace(b[|b| - 1]))
    requires parse(b).Some?
    ensures FallbackExtract(Some(LlmResponseParser.JsonFenced(b)), parse) == Ok(parse(b).value)
    ensures LlmResponseParser.ExtractJson(Some(LlmResponseParser.JsonFenced(b)), parse) == Ok(parse(b).value)
  {
    FallbackCleanedJsonFence(b);
    LlmResponseParser.SingleJsonFence(b, parse);
  }

  // ---------------------------------------------------------------------
  // Keep/drop rules for one function record and one interactor.
  // ---------------------------------------------------------------------

  /** `x[:100]` works on a `str` or a `list`; the other values decoded
      from JSON raise. */
  predicate Sliceable(v: Json)
  {
    v.JStr? || v.JArr?
  }

  /** Whether one function record of an audited interactor is kept, or the
      exception its inspection raises. Comparing a value with a `str` is
      plain equality (`PyJson.PyEqString`). */
  function FunctionVerdict(func: Json): Result<bool, PyException>
  {
    if !func.JObj? then Err(AttributeError)
    else
      var validity := GetOr(func.fields, "validity", JStr("TRUE"));
      if validity == JStr("DELETED") || validity == JStr("FALSE") then Ok(false)
      else if validity == JStr("CORRECTED") && !Sliceable(Get(func.fields, "scientific_consensus")) then
        Err(TypeError)
      else if validity == JStr("TRUE") then
        var score := Get(func.fields, "confidence_score");
        if !Truthy(score) then Ok(true)
        else
          match PyInt(score)
          case Ok(n) => Ok(n >= 8)
          case Err(e) => Err(e)
      else Ok(true)
  }

  /** The rules, one by one: the marks that drop a function; a `CORRECTED`
      one whose consensus cannot be sliced raises `TypeError`; a `TRUE` one
      with a truthy score is kept when the score converts to at least 8, and
      raises what `int()` raises when it does not convert; every other
      validity is kept. */
  lemma {:induction false} FunctionVerdictRules(func: Json)
    requires func.JObj?
    ensures var validity := GetOr(func.fields, "validity", JStr("TRUE"));
      var score := Get(func.fields, "confidence_score");
      && (validity == JStr("DELETED") || validity == JStr("FALSE") ==> FunctionVerdict(func) == Ok(false))
      && (validity == JStr("TRUE") && Truthy(score) && PyInt(score).Ok? ==>
            FunctionVerdict(func) == Ok(PyInt(score).value >= 8))
      && (validity == JStr("TRUE") && !Truthy(score) ==> FunctionVerdict(func) == Ok(true))
      && (validity == JStr("CORRECTED") && Sliceable(Get(func.fields, "scientific_consensus")) ==>
            FunctionVerdict(func) == Ok(true))
      && (validity == JStr("CORRECTED") && !Sliceable(Get(func.fields, "scientific_consensus")) ==>
            FunctionVerdict(func) == Err(TypeError))
      && (validity == JStr("TRUE") && Truthy(score) && PyInt(score).Err? ==>
            FunctionVerdict(func) == Err(PyInt(score).error))
      && ((validity != JStr("DELETED") && validity != JStr("FALSE") &&
           validity != JStr("CORRECTED") && validity != JStr("TRUE")) ==>
            FunctionVerdict(func) == Ok(true))
      && (FunctionVerdict(func) == Ok(false) ==>
            validity == JStr("DELETED") || validity == JStr("FALSE") ||
            (validity == JStr("TRUE") && PyInt(score).Ok? && PyInt(score).value < 8))
  {
  }

  /** The functions kept, in order, or the first exception raised. */
  function KeptFunctions(funcs: seq<Json>): Result<seq<Json>, PyException>
  {
    KeptBy(funcs, FunctionVerdict)
  }

  /** The records kept by `verdict`, in order, or the first exception it
      raises. */
  function KeptBy(funcs: seq<Json>, verdict: Json -> Result<bool, PyException>): Result<seq<Json>, PyException>
  {
    if funcs == [] then Ok([])
    else
      match verdict(funcs[0])
      case Err(e) => Err(e)
      case Ok(keep) =>
        match KeptBy(funcs[1..], verdict)
        case Err(e) => Err(e)
        case Ok(rest) => Ok(if keep then [funcs[0]] + rest else rest)
  }

  /** The filter raises exactly when some record raises, and then the
      exception of the first one; otherwise it keeps exactly the records
      whose verdict is to keep, each as many times as it occurs. */
  lemma {:induction false} KeptFunctionsSpec(funcs: seq<Json>)
    ensures KeptFunctions(funcs).Ok? <==> forall i :: 0 <= i < |funcs| ==> FunctionVerdict(funcs[i]).Ok?
    ensures KeptFunctions(funcs).Err? ==>
      exists i :: 0 <= i < |funcs| && FunctionVerdict(funcs[i]) == Err(KeptFunctions(funcs).error) &&
                  forall j :: 0 <= j < i ==> FunctionVerdict(funcs[j]).Ok?
    ensures KeptFunctions(funcs).Ok? ==>
      (forall f :: f in KeptFunctions(funcs).value ==> f in funcs && FunctionVerdict(f) == Ok(true)) &&
      (forall i :: 0 <= i < |funcs| && FunctionVerdict(funcs[i]) == Ok(true) ==> funcs[i] in KeptFunctions(funcs).value)
    ensures KeptFunctions(funcs).Ok? ==>
      forall f :: multiset(KeptFunctions(funcs).value)[f] ==
                  (if FunctionVerdict(f) == Ok(true) then multiset(funcs)[f] else 0)
  {
    KeptBySpec(funcs, FunctionVerdict);
    KeptByCounts(funcs, FunctionVerdict);
  }

  lemma {:induction false} KeptByCounts(funcs: seq<Json>, verdict: Json -> Result<bool, PyException>)
    ensures KeptBy(funcs, verdict).Ok? ==>
      forall f :: multiset(KeptBy(funcs, verdict).value)[f] ==
                  (if verdict(f) == Ok(true) then multiset(funcs)[f] else 0)
  {
    if funcs != [] && KeptBy(funcs, verdict).Ok? {
      KeptByCounts(funcs[1..], verdict);
      assert funcs == [funcs[0]] + funcs[1..];
      assert multiset(funcs) == multiset([funcs[0]]) + multiset(funcs[1..]);
      var rest := KeptBy(funcs[1..], verdict).value;
      if verdict(funcs[0]) == Ok(true) {
        assert multiset([funcs[0]] + rest) == multiset([funcs[0]]) + multiset(rest);
      }
    }
  }

  lemma {:induction false} KeptBySpec(funcs: seq<Json>, verdict: Json -> Result<bool, PyException>)
    ensures KeptBy(funcs, verdict).Ok? <==> forall i :: 0 <= i < |funcs| ==> verdict(funcs[i]).Ok?
    ensures KeptBy(funcs, verdict).Err? ==>
      exists i :: 0 <= i < |funcs| && verdict(funcs[i]) == Err(KeptBy(funcs, verdict).error) &&
                  forall j :: 0 <= j < i ==> verdict(funcs[j]).Ok?
    ensures KeptBy(funcs, verdict).Ok? ==>
      (forall f :: f in KeptBy(funcs, verdict).value ==> f in funcs && verdict(f) == Ok(true)) &&
      (forall i :: 0 <= i < |funcs| && verdict(funcs[i]) == Ok(true) ==> funcs[i] in KeptBy(funcs, verdict).value)
  {
    if funcs != [] {
      KeptBySpec(funcs[1..], verdict);
      assert forall i :: 0 < i < |funcs| ==> funcs[i] == funcs[1..][i - 1];
      if verdict(funcs[0]).Ok? && KeptBy(funcs[1..], verdict).Err? {
        var i :| 0 <= i < |funcs[1..]| && verdict(funcs[1..][i]) == Err(KeptBy(funcs[1..], verdict).error) &&
                 forall j :: 0 <= j < i ==> verdict(funcs[1..][j]).Ok?;
        assert verdict(funcs[i + 1]) == Err(KeptBy(funcs, verdict).error);
      }
    }
  }

  /** Filtering a concatenation filters each part: the kept records stay
      in their relative order. */
  lemma {:induction false} KeptFunctionsAppend(a: seq<Json>, b: seq<Json>)
    requires KeptFunctions(a).Ok? && KeptFunctions(b).Ok?
    ensures KeptFunctions(a + b) == Ok(KeptFunctions(a).value + KeptFunctions(b).value)
  {
    KeptByAppend(a, b, FunctionVerdict);
  }

  lemma {:induction false} KeptByAppend(a: seq<Json>, b: seq<Json>, verdict: Json -> Result<bool, PyException>)
    requires KeptBy(a, verdict).Ok? && KeptBy(b, verdict).Ok?
    ensures KeptBy(a + b, verdict) == Ok(KeptBy(a, verdict).value + KeptBy(b, verdict).value)
  {
    if a == [] {
      assert a + b == b;
      assert KeptBy(a, verdict).value + KeptBy(b, verdict).value == KeptBy(b, verdict).value;
    } else {
      assert (a + b)[0] == a[0];
      assert (a + b)[1..] == a[1..] + b;
      KeptByAppend(a[1..], b, verdict);
      var ra := KeptBy(a[1..], verdict).value;
      var rb := KeptBy(b, verdict).value;
      assert [a[0]] + (ra + rb) == ([a[0]] + ra) + rb;
    }
  }

  /** The loop over `val_int.get('functions', [])`. */
  method FilterFunctions(funcs: seq<Json>) returns (r: Result<seq<Json>, PyException>)
    ensures r == KeptFunctions(funcs)
  {
    var valid: seq<Json> := [];
    var i := 0;
    assert funcs[0..] == funcs;
    PrependNothing(KeptFunctions(funcs));
    while i < |funcs|
      invariant 0 <= i <= |funcs|
      invariant KeptFunctions(funcs) == PrependOk(valid, KeptFunctions(funcs[i..]))
    {
      assert funcs[i..][0] == funcs[i] && funcs[i..][1..] == funcs[i + 1..];
      var verdict := FunctionVerdict(funcs[i]);
      if verdict.Err? {
        return Err(verdict.error);
      }
      if verdict.value {
        assert forall ys: seq<Json> :: (valid + [funcs[i]]) + ys == valid + ([funcs[i]] + ys);
        valid := valid + [funcs[i]];
      }
      i := i + 1;
    }
    assert funcs[i..] == [];
    assert valid + [] == valid;
    return Ok(valid);
  }

  lemma {:induction false} PrependNothing<E>(r: Result<seq<Json>, E>)
    ensures PrependOk([], r) == r
  {
    if r.Ok? {
      assert [] + r.value == r.value;
    }
  }

  function PrependOk<E>(xs: seq<Json>, r: Result<seq<Json>, E>): Result<seq<Json>, E>
  {
    match r
    case Ok(ys) => Ok(xs + ys)
    case Err(e) => Err(e)
  }

  /** The result of auditing one interactor: the record to append, if any,
      and the interactor after `val_int['functions'] = ...`. */
  datatype Audited = Audited(kept: Option<Json>, updated: Json)

  /** One interactor of the audited list. */
  function AuditInteractor(v: Json): Result<Audited, PyException>
  {
    if !v.JObj? then Err(AttributeError)
    else if Get(v.fields, "validity") == JStr("DELETED") then Ok(Audited(None, v))
    else
      match Iterate(GetOr(v.fields, "functions", JArr([])))
      case Err(e) => Err(e)
      case Ok(funcs) =>
        match KeptFunctions(funcs)
        case Err(e) => Err(e)
        case Ok(valid) =>
          var upd := JObj(Put(v.fields, "functions", JArr(valid)));
          Ok(Audited(if valid != [] || Get(v.fields, "validity") == JStr("TRUE") then Some(upd) else None, upd))
  }

  /** What auditing an interactor keeps: nothing marked `DELETED`, and a
      survivor is the same record with its functions filtered, holding at
      least one function unless it is itself `TRUE`. */
  lemma {:induction false} AuditInteractorSpec(v: Json)
    requires AuditInteractor(v).Ok? && AuditInteractor(v).value.kept.Some?
    ensures var k := AuditInteractor(v).value.kept.value;
      && v.JObj? && k.JObj?
      && Get(v.fields, "validity") != JStr("DELETED")
      && Get(k.fields, "validity") == Get(v.fields, "validity")
      && Iterate(GetOr(v.fields, "functions", JArr([]))).Ok?
      && var funcs := Iterate(GetOr(v.fields, "functions", JArr([]))).value;
      && Lookup(k.fields, "functions") == Some(JArr(KeptFunctions(funcs).value))
      && (forall key :: key != "functions" ==> Lookup(k.fields, key) == Lookup(v.fields, key))
      && (KeptFunctions(funcs).value != [] || Get(v.fields, "validity") == JStr("TRUE"))
  {
  }

  /** Which interactors are kept, and which raise: a dict not marked
      `DELETED` whose functions iterate and filter without raising is kept
      exactly when a function survives or it is itself `TRUE`; a `DELETED`
      dict is dropped as it is; a non-dict raises `AttributeError`. */
  lemma {:induction false} AuditInteractorKeeps(v: Json)
    ensures !v.JObj? ==> AuditInteractor(v) == Err(AttributeError)
    ensures v.JObj? && Get(v.fields, "validity") == JStr("DELETED") ==> AuditInteractor(v) == Ok(Audited(None, v))
    ensures v.JObj? && Get(v.fields, "validity") != JStr("DELETED") ==>
      var it := Iterate(GetOr(v.fields, "functions", JArr([])));
      && (it.Err? ==> AuditInteractor(v) == Err(it.error))
      && (it.Ok? && KeptFunctions(it.value).Err? ==> AuditInteractor(v) == Err(KeptFunctions(it.value).error))
      && (it.Ok? && KeptFunctions(it.value).Ok? ==>
            && AuditInteractor(v).Ok?
            && (AuditInteractor(v).value.kept.Some? <==>
                  KeptFunctions(it.value).value != [] || Get(v.fields, "validity") == JStr("TRUE"))
            && AuditInteractor(v).value.updated == JObj(Put(v.fields, "functions", JArr(KeptFunctions(it.value).value))))
  {
  }

  // ---------------------------------------------------------------------
  // One batch.
  // ---------------------------------------------------------------------

  /** What one batch appends to `validated_interactors`, and whether an
      exception ended it. */
  datatype BatchOutcome = BatchOutcome(appended: seq<Json>, raised: bool)

  type Audit = Result<Audited, PyException>

  /** The audit of each interactor of a list. */
  function Audits(results: seq<Json>): (r: seq<Audit>)
    ensures |r| == |results| && forall i :: 0 <= i < |results| ==> r[i] == AuditInteractor(results[i])
  {
    seq(|results|, i requires 0 <= i < |results| => AuditInteractor(results[i]))
  }

  /** The `for val_int in batch_results` loop from index `k`, given the
      audit of each interactor, with `now` the batch as it stands. When
      `aliased`, the audited list is the batch itself, so each audited
      interactor is also updated inside the batch that the exception
      handler appends. */
  function AuditFrom(audits: seq<Audit>, k: nat, aliased: bool, now: seq<Json>): BatchOutcome
    requires aliased ==> |now| == |audits|
    decreases |audits| - k
  {
    if k >= |audits| then BatchOutcome([], false)
    else
      match audits[k]
      case Err(_) => BatchOutcome(now, true)
      case Ok(a) =>
        var next := if aliased then now[k := a.updated] else now;
        var rest := AuditFrom(audits, k + 1, aliased, next);
        BatchOutcome(KeptList(a) + rest.appended, rest.raised)
  }

  function KeptList(a: Audited): seq<Json>
  {
    if a.kept.Some? then [a.kept.value] else []
  }

  /** What fully audited interactors contribute: each one's survivor, in
      order. */
  function Survivors(audits: seq<Audit>): seq<Json>
    requires forall i :: 0 <= i < |audits| ==> audits[i].Ok?
  {
    if audits == [] then []
    else
      assert forall i :: 0 <= i < |audits[1..]| ==> audits[1..][i] == audits[i + 1];
      KeptList(audits[0].value) + Survivors(audits[1..])
  }

  /** A batch whose interactors all audit cleanly appends exactly their
      survivors, in order. */
  lemma {:induction false} AuditFromClean(audits: seq<Audit>, k: nat, aliased: bool, now: seq<Json>)
    requires aliased ==> |now| == |audits|
    requires k <= |audits|
    requires forall i :: k <= i < |audits| ==> audits[i].Ok?
    ensures AuditFrom(audits, k, aliased, now) == BatchOutcome(Survivors(audits[k..]), false)
    decreases |audits| - k
  {
    var xs := audits[k..];
    assert forall i :: 0 <= i < |xs| ==> xs[i] == audits[k + i];
    if k < |audits| {
      var a := audits[k].value;
      var next := if aliased then now[k := a.updated] else now;
      assert AuditFrom(audits, k + 1, aliased, next) == BatchOutcome(Survivors(audits[k + 1..]), false) by {
        AuditFromClean(audits, k + 1, aliased, next);
      }
      assert xs[0] == audits[k] && xs[1..] == audits[k + 1..];
    } else {
      assert xs == [];
    }
  }

  /** An interactor that raises ends the batch: what was appended before it
      stays, and the batch is appended after it. */
  lemma {:induction false} AuditFromRaises(audits: seq<Audit>, k: nat, now: seq<Json>, j: nat)
    requires k <= j < |audits|
    requires forall i :: k <= i < j ==> audits[i].Ok?
    requires audits[j].Err?
    ensures AuditFrom(audits, k, false, now) == BatchOutcome(Survivors(audits[k..j]) + now, true)
    decreases j - k
  {
    var xs := audits[k..j];
    assert forall i :: 0 <= i < |xs| ==> xs[i] == audits[k + i];
    if k < j {
      var a := audits[k].value;
      var tail := audits[k + 1..j];
      assert AuditFrom(audits, k + 1, false, now) == BatchOutcome(Survivors(tail) + now, true) by {
        AuditFromRaises(audits, k + 1, now, j);
      }
      assert xs[0] == audits[k] && xs[1..] == tail;
      assert Survivors(xs) == KeptList(a) + Survivors(tail);
      assert (KeptList(a) + Survivors(tail)) + now == KeptList(a) + (Survivors(tail) + now);
    } else {
      assert xs == [];
    }
  }

  /** The batch as the exception handler sees it when the audited list is
      the batch itself: the interactors audited before position `j` carry
      their filtered functions, the others are as they were. */
  function Refreshed(now: seq<Json>, audits: seq<Audit>, k: nat, j: nat): (r: seq<Json>)
    requires |now| == |audits| && k <= j <= |audits|
    requires forall i :: k <= i < j ==> audits[i].Ok?
    ensures |r| == |now|
  {
    seq(|now|, i requires 0 <= i < |now| => if k <= i < j then audits[i].value.updated else now[i])
  }

  /** Auditing interactor `k` in place moves the refreshed prefix on by one. */
  lemma {:induction false} RefreshedShift(now: seq<Json>, audits: seq<Audit>, k: nat, j: nat)
    requires |now| == |audits| && k < j <= |audits|
    requires forall i :: k <= i < j ==> audits[i].Ok?
    ensures Refreshed(now[k := audits[k].value.updated], audits, k + 1, j) == Refreshed(now, audits, k, j)
  {
    var l := Refreshed(now[k := audits[k].value.updated], audits, k + 1, j);
    var r := Refreshed(now, audits, k, j);
    assert forall i :: 0 <= i < |now| ==> l[i] == r[i];
  }

  /** An interactor of the batch itself that raises: what was appended before
      it stays, and the batch appended after it holds the interactors
      already audited with their functions replaced in place. */
  lemma {:induction false} AuditFromRaisesAliased(audits: seq<Audit>, k: nat, now: seq<Json>, j: nat)
    requires |now| == |audits|
    requires k <= j < |audits|
    requires forall i :: k <= i < j ==> audits[i].Ok?
    requires audits[j].Err?
    ensures AuditFrom(audits, k, true, now) == BatchOutcome(Survivors(audits[k..j]) + Refreshed(now, audits, k, j), true)
    decreases j - k
  {
    var xs := audits[k..j];
    assert forall i :: 0 <= i < |xs| ==> xs[i] == audits[k + i];
    if k < j {
      var a := audits[k].value;
      var next := now[k := a.updated];
      var tail := audits[k + 1..j];
      assert AuditFrom(audits, k + 1, true, next) == BatchOutcome(Survivors(tail) + Refreshed(next, audits, k + 1, j), true) by {
        AuditFromRaisesAliased(audits, k + 1, next, j);
      }
      RefreshedShift(now, audits, k, j);
      assert xs[0] == audits[k] && xs[1..] == tail;
      assert Survivors(xs) == KeptList(a) + Survivors(tail);
      var b := Refreshed(now, audits, k, j);
      assert (KeptList(a) + Survivors(tail)) + b == KeptList(a) + (Survivors(tail) + b);
    } else {
      assert xs == [];
      assert Refreshed(now, audits, k, j) == now;
    }
  }

  /** How the reply is read: the list to audit and whether it is the batch
      itself, or `None` when reading the reply raised. */
  function ReadReply(reply: Option<string>, batch: seq<Json>, parse: string -> Option<Json>): Option<(seq<Json>, bool)>
  {
    if reply.None? then None
    else
      match LlmResponseParser.ExtractJson(reply, parse)
      case Err(_) => None
      case Ok(result) =>
        if result.JArr? then Some((result.items, false))
        else if result.JObj? && HasKey(result.fields, "interactors") then
          match Iterate(Get(result.fields, "interactors"))
          case Ok(items) => Some((items, false))
          case Err(_) => None
        else Some((batch, true))
  }

  /** The `try` block for one batch. */
  function BatchStep(batch: seq<Json>, reply: Option<string>, parse: string -> Option<Json>): BatchOutcome
  {
    match ReadReply(reply, batch, parse)
    case None => BatchOutcome(batch, true)
    case Some((results, aliased)) =>
      if aliased then AuditFrom(Audits(batch), 0, true, batch) else AuditFrom(Audits(results), 0, false, batch)
  }

  /** The body of the `for val_int in batch_results` loop: the interactor
      with its functions filtered, and whether it is kept. */
  method AuditOne(v: Json) returns (r: Audit)
    ensures r == AuditInteractor(v)
  {
    if !v.JObj? {
      return Err(AttributeError);
    }
    if Get(v.fields, "validity") == JStr("DELETED") {
      return Ok(Audited(None, v));
    }
    var functions := Iterate(GetOr(v.fields, "functions", JArr([])));
    if functions.Err? {
      return Err(functions.error);
    }
    var valid := FilterFunctions(functions.value);
    if valid.Err? {
      return Err(valid.error);
    }
    var upd := JObj(Put(v.fields, "functions", JArr(valid.value)));
    var keep := valid.value != [] || Get(v.fields, "validity") == JStr("TRUE");
    return Ok(Audited(if keep then Some(upd) else None, upd));
  }

  /** The `for val_int in batch_results` loop, appending survivors and
      falling back to the batch on an exception. */
  method AuditBatchResults(results: seq<Json>, aliased: bool, batch: seq<Json>, ghost audits: seq<Audit>)
    returns (appended: seq<Json>, raised: bool)
    requires aliased ==> results == batch
    requires audits == Audits(results)
    ensures BatchOutcome(appended, raised) == AuditFrom(audits, 0, aliased, batch)
  {
    appended := [];
    var now := batch;
    var k := 0;
    assert AuditFrom(audits, 0, aliased, batch) == After([], AuditFrom(audits, 0, aliased, batch));
    while k < |results|
      invariant 0 <= k <= |results|
      invariant aliased ==> |now| == |results|
      invariant AuditFrom(audits, 0, aliased, batch) == After(appended, AuditFrom(audits, k, aliased, now))
      decreases |results| - k
    {
      var audited := AuditAt(results, k, audits);
      if audited.Err? {
        AuditFromRaisesAt(audits, k, aliased, now, appended);
        return appended + now, true;
      }
      var a := audited.value;
      var next := if aliased then now[k := a.updated] else now;
      AuditFromStep(audits, k, aliased, now, appended);
      appended := appended + KeptList(a);
      now := next;
      k := k + 1;
    }
    assert appended + [] == appended;
    raised := false;
  }

  /** The audit of the `k`-th interactor. */
  method AuditAt(results: seq<Json>, k: nat, ghost audits: seq<Audit>) returns (r: Audit)
    requires k < |results| && audits == Audits(results)
    ensures r == audits[k]
  {
    r := AuditOne(results[k]);
  }

  function After(out: seq<Json>, o: BatchOutcome): BatchOutcome
  {
    BatchOutcome(out + o.appended, o.raised)
  }

  /** A step of `AuditFrom` over an interactor that audits cleanly. */
  lemma {:induction false} AuditFromStep(audits: seq<Audit>, k: nat, aliased: bool, now: seq<Json>, out: seq<Json>)
    requires aliased ==> |now| == |audits|
    requires k < |audits| && audits[k].Ok?
    ensures var a := audits[k].value;
      After(out, AuditFrom(audits, k, aliased, now)) ==
      After(out + KeptList(a), AuditFrom(audits, k + 1, aliased, if aliased then now[k := a.updated] else now))
  {
    var a := audits[k].value;
    var rest := AuditFrom(audits, k + 1, aliased, if aliased then now[k := a.updated] else now);
    assert out + (KeptList(a) + rest.appended) == (out + KeptList(a)) + rest.appended;
  }

  /** A step of `AuditFrom` over an interactor that raises. */
  lemma {:induction false} AuditFromRaisesAt(audits: seq<Audit>, k: nat, aliased: bool, now: seq<Json>, out: seq<Json>)
    requires aliased ==> |now| == |audits|
    requires k < |audits| && audits[k].Err?
    ensures After(out, AuditFrom(audits, k, aliased, now)) == BatchOutcome(out + now, true)
  {
  }

  // ---------------------------------------------------------------------
  // The whole pass.
  // ---------------------------------------------------------------------

  /** The batches `interactors[start:min(start+size, len)]`. */
  function Batches(items: seq<Json>, size: nat, start: nat): seq<seq<Json>>
    requires size > 0
    decreases |items| - start
  {
    if start >= |items| then []
    else [items[start..Min(start + size, |items|)]] + Batches(items, size, start + size)
  }

  function Flatten(bs: seq<seq<Json>>): seq<Json>
  {
    if bs == [] then [] else bs[0] + Flatten(bs[1..])
  }

  /** The batches, in order, are the interactor list; none is empty and
      none is longer than the batch size. */
  lemma {:induction false} BatchesPartition(items: seq<Json>, size: nat, start: nat)
    requires size > 0
    ensures Flatten(Batches(items, size, start)) == if start >= |items| then [] else items[start..]
    ensures forall b :: b in Batches(items, size, start) ==> 0 < |b| <= size
    decreases |items| - start
  {
    if start < |items| {
      var end := Min(start + size, |items|);
      BatchesPartition(items, size, start + size);
      var bs := Batches(items, size, start);
      assert bs[0] == items[start..end] && bs[1..] == Batches(items, size, start + size);
      if start + size >= |items| {
        assert items[start..end] + [] == items[start..];
      } else {
        assert items[start..end] + items[end..] == items[start..];
      }
    }
  }

  /** What one batch appends, given the index it starts at. */
  type BatchFn = (nat, seq<Json>) -> seq<Json>

  /** Each batch audited by `BatchStep` on the reply to its own query. */
  function Auditor(ask: (nat, seq<Json>) -> Option<string>, parse: string -> Option<Json>): BatchFn
  {
    (start: nat, batch: seq<Json>) => BatchStep(batch, ask(start, batch), parse).appended
  }

  /** The batches from `start` on, each one's records appended in turn; the
      `AttributeError` of building the prompt when a batch does not start
      with a `dict` ends the pass. */
  function Run(items: seq<Json>, size: nat, start: nat, step: BatchFn): Result<seq<Json>, PyException>
    requires size > 0
    decreases |items| - start
  {
    if start >= |items| then Ok([])
    else
      var batch := items[start..Min(start + size, |items|)];
      if !batch[0].JObj? then Err(AttributeError)
      else
        PrependOk(step(start, batch), Run(items, size, start + size, step))
  }

  /** What `step` appends for each batch in turn, each batch starting `size`
      after the one before it. */
  function Appended(bs: seq<seq<Json>>, start: nat, size: nat, step: BatchFn): seq<Json>
  {
    if bs == [] then [] else step(start, bs[0]) + Appended(bs[1..], start + size, size, step)
  }

  /** The pass runs over the batches of the partition: it raises the prompt's
      `AttributeError` exactly when some batch does not start with a `dict`,
      and otherwise returns what each batch appends, batch after batch. */
  lemma {:induction false} RunOverBatches(items: seq<Json>, size: nat, start: nat, step: BatchFn)
    requires size > 0
    ensures var bs := Batches(items, size, start);
      && (forall i :: 0 <= i < |bs| ==> bs[i] != [])
      && (Run(items, size, start, step).Ok? <==> forall i :: 0 <= i < |bs| ==> bs[i][0].JObj?)
    ensures Run(items, size, start, step).Err? ==> Run(items, size, start, step).error == AttributeError
    ensures Run(items, size, start, step).Ok? ==>
      Run(items, size, start, step).value == Appended(Batches(items, size, start), start, size, step)
    decreases |items| - start
  {
    if start < |items| {
      var bs := Batches(items, size, start);
      var rest := Batches(items, size, start + size);
      var batch := items[start..Min(start + size, |items|)];
      assert bs[0] == batch && bs[1..] == rest;
      assert forall i :: 0 < i < |bs| ==> bs[i] == rest[i - 1];
      RunOverBatches(items, size, start + size, step);
      if batch[0].JObj? {
        RunStep(items, size, start, step);
      }
    }
  }

  /** When every model call fails, each batch falls back to itself and the
      interactor list comes back unchanged. */
  lemma {:induction false} AllCallsFailKeepsInput(items: seq<Json>, size: nat, start: nat,
                                                  ask: (nat, seq<Json>) -> Option<string>, parse: string -> Option<Json>)
    requires size > 0
    requires forall i, b :: ask(i, b).None?
    requires forall x :: x in items ==> x.JObj?
    ensures Run(items, size, start, Auditor(ask, parse)) == Ok(Flatten(Batches(items, size, start)))
    decreases |items| - start
  {
    if start < |items| {
      var batch := items[start..Min(start + size, |items|)];
      assert batch[0] in items;
      AllCallsFailKeepsInput(items, size, start + size, ask, parse);
    }
  }

  /** A batch that audits cleanly appends only survivors: none of them is
      marked `DELETED`, and each holds a function unless it is `TRUE`. */
  lemma {:induction false} CleanBatchDropsDeleted(batch: seq<Json>, reply: Option<string>, parse: string -> Option<Json>)
    requires !BatchStep(batch, reply, parse).raised
    ensures forall x :: x in BatchStep(batch, reply, parse).appended ==> Survivor(x)
  {
    var rr := ReadReply(reply, batch, parse).value;
    var src := if rr.1 then batch else rr.0;
    var audits := Audits(src);
    forall i | 0 <= i < |audits| && audits[i].Ok? && audits[i].value.kept.Some?
      ensures Survivor(audits[i].value.kept.value)
    {
      KeptIsSurvivor(src[i]);
    }
    AuditFromSurvivors(audits, 0, rr.1, batch);
  }

  /** What every appended record of a clean batch is like. */
  predicate Survivor(x: Json)
  {
    && x.JObj? && Get(x.fields, "validity") != JStr("DELETED")
    && (Get(x.fields, "validity") == JStr("TRUE") ||
        (Lookup(x.fields, "functions").Some? && Lookup(x.fields, "functions").value.JArr? &&
         Lookup(x.fields, "functions").value.items != []))
  }

  lemma {:induction false} AuditFromSurvivors(audits: seq<Audit>, k: nat, aliased: bool, now: seq<Json>)
    requires aliased ==> |now| == |audits|
    requires forall i :: 0 <= i < |audits| && audits[i].Ok? && audits[i].value.kept.Some? ==>
               Survivor(audits[i].value.kept.value)
    requires !AuditFrom(audits, k, aliased, now).raised
    ensures forall x :: x in AuditFrom(audits, k, aliased, now).appended ==> Survivor(x)
    decreases |audits| - k
  {
    if k < |audits| {
      var a := audits[k].value;
      var next := if aliased then now[k := a.updated] else now;
      AuditFromSurvivors(audits, k + 1, aliased, next);
    }
  }

  /** A kept interactor is a survivor. */
  lemma {:induction false} KeptIsSurvivor(v: Json)
    requires AuditInteractor(v).Ok? && AuditInteractor(v).value.kept.Some?
    ensures Survivor(AuditInteractor(v).value.kept.value)
  {
    AuditInteractorSpec(v);
    var fs := KeptFunctions(Iterate(GetOr(v.fields, "functions", JArr([]))).value).value;
    assert Lookup(AuditInteractor(v).value.kept.value.fields, "functions") == Some(JArr(fs));
  }

  /** The reply's list holds a `TRUE` interactor and then something that is
      not a `dict`: the first one's survivor is appended, and then the whole
      batch, so that interactor appears twice. */
  lemma {:induction false} RaisedBatchAppendsAfterPartialResults(first: Fields, batch: seq<Json>)
    requires Get(first, "validity") == JStr("TRUE") && !HasKey(first, "functions")
    ensures var upd := JObj(Put(first, "functions", JArr([])));
      AuditFrom(Audits([JObj(first), JStr("x")]), 0, false, batch) == BatchOutcome([upd] + batch, true)
  {
    var upd := JObj(Put(first, "functions", JArr([])));
    var audits := Audits([JObj(first), JStr("x")]);
    assert Iterate(GetOr(first, "functions", JArr([]))) == Ok([]);
    assert KeptFunctions([]) == Ok([]);
    assert audits[0] == Ok(Audited(Some(upd), upd));
    assert audits[1].Err?;
    AuditFromRaises(audits, 0, batch, 1);
    assert audits[0..1] == [audits[0]];
    assert Survivors(audits[0..1]) == [upd] by {
      assert audits[0..1][1..] == [];
    }
  }

  /** `ctx_json['interactors'] = validated`, and the same in `snapshot_json`
      when it exists; item assignment on anything but a `dict` raises. */
  function WriteBack(data: Fields, ctx: Fields, validated: seq<Json>): Result<Fields, PyException>
  {
    var data1 := Put(data, "ctx_json", JObj(Put(ctx, "interactors", JArr(validated))));
    if !HasKey(data, "snapshot_json") then Ok(data1)
    else
      match Get(data, "snapshot_json")
      case JObj(snap) => Ok(Put(data1, "snapshot_json", JObj(Put(snap, "interactors", JArr(validated)))))
      case _ => Err(TypeError)
  }

  /** The write-back replaces the interactor lists and nothing else. */
  lemma {:induction false} WriteBackSpec(data: Fields, ctx: Fields, validated: seq<Json>)
    requires WriteBack(data, ctx, validated).Ok?
    ensures var out := WriteBack(data, ctx, validated).value;
      && Lookup(out, "ctx_json") == Some(JObj(Put(ctx, "interactors", JArr(validated))))
      && (HasKey(data, "snapshot_json") ==>
            Get(data, "snapshot_json").JObj? &&
            Lookup(out, "snapshot_json") == Some(JObj(Put(Get(data, "snapshot_json").fields, "interactors", JArr(validated)))))
      && (!HasKey(data, "snapshot_json") ==> !HasKey(out, "snapshot_json"))
      && (forall key :: key != "ctx_json" && key != "snapshot_json" ==> Lookup(out, key) == Lookup(data, key))
  {
  }

  /** `len(v)`: defined for a `str`, a `list` and a `dict`. */
  predicate HasLen(v: Json)
  {
    v.JStr? || v.JArr? || v.JObj?
  }

  /** `validate_and_enrich_evidence`, on the decoded JSON document `data`. */
  function Validate(data: Fields, size: int, ask: (nat, seq<Json>) -> Option<string>,
                    parse: string -> Option<Json>): Result<Fields, PyException>
  {
    if !HasKey(data, "ctx_json") then Ok(data)
    else
      var ctx := Get(data, "ctx_json");
      if !ctx.JObj? then Err(AttributeError)
      else
        var interactors := GetOr(ctx.fields, "interactors", JArr([]));
        if !Truthy(interactors) then Ok(data)
        else if !HasLen(interactors) then Err(TypeError)
        else if size == 0 then Err(ValueError)
        else if size < 0 then WriteBack(data, ctx.fields, [])
        else
          match interactors
          case JArr(items) =>
            (match Run(items, size, 0, Auditor(ask, parse))
             case Ok(validated) => WriteBack(data, ctx.fields, validated)
             case Err(e) => Err(e))
          case JStr(_) => Err(AttributeError)
          case _ => Err(TypeError)
  }

  /** Without `ctx_json` the document comes back as it was. */
  lemma {:induction false} ValidateWithoutContext(data: Fields, size: int, ask: (nat, seq<Json>) -> Option<string>,
                               parse: string -> Option<Json>)
    requires !HasKey(data, "ctx_json")
    ensures Validate(data, size, ask, parse) == Ok(data)
  {
  }

  /** With no interactors (a missing, empty or otherwise falsy value) the
      document comes back as it was. */
  lemma {:induction false} ValidateWithoutInteractors(data: Fields, size: int, ask: (nat, seq<Json>) -> Option<string>,
                                   parse: string -> Option<Json>)
    requires HasKey(data, "ctx_json") && Get(data, "ctx_json").JObj?
    requires !Truthy(GetOr(Get(data, "ctx_json").fields, "interactors", JArr([])))
    ensures Validate(data, size, ask, parse) == Ok(data)
  {
  }

  /** With a negative batch size no batch runs, and the interactor list is
      emptied. */
  lemma {:induction false} ValidateNegativeBatchSize(data: Fields, size: int, ask: (nat, seq<Json>) -> Option<string>,
                                  parse: string -> Option<Json>)
    requires HasKey(data, "ctx_json") && Get(data, "ctx_json").JObj? && size < 0
    requires GetOr(Get(data, "ctx_json").fields, "interactors", JArr([])).JArr?
    requires GetOr(Get(data, "ctx_json").fields, "interactors", JArr([])) != JArr([])
    ensures Validate(data, size, ask, parse) == WriteBack(data, Get(data, "ctx_json").fields, [])
  {
  }

  /** One batch of `Run`. */
  lemma {:induction false} RunStep(items: seq<Json>, size: nat, start: nat, step: BatchFn)
    requires size > 0 && start < |items|
    requires items[start..Min(start + size, |items|)][0].JObj?
    ensures var batch := items[start..Min(start + size, |items|)];
      Run(items, size, start, step) == PrependOk(step(start, batch), Run(items, size, start + size, step))
  {
  }

  /** Prepending in two steps is prepending once. */
  lemma {:induction false} PrependOkTwice<E>(xs: seq<Json>, ys: seq<Json>, r: Result<seq<Json>, E>)
    ensures PrependOk(xs, PrependOk(ys, r)) == PrependOk(xs + ys, r)
  {
    if r.Ok? {
      assert xs + (ys + r.value) == (xs + ys) + r.value;
    }
  }

  /** The `try` block for one batch: what it appends to
      `validated_interactors`. */
  method ProcessBatch(batch: seq<Json>, reply: Option<string>, parse: string -> Option<Json>)
    returns (appended: seq<Json>)
    ensures appended == BatchStep(batch, reply, parse).appended
  {
    var rr := ReadReply(reply, batch, parse);
    if rr.None? {
      return batch;
    }
    var raised: bool;
    if rr.value.1 {
      appended, raised := AuditBatchResults(batch, true, batch, Audits(batch));
    } else {
      appended, raised := AuditBatchResults(rr.value.0, false, batch, Audits(rr.value.0));
    }
  }

  /** One turn of the batch loop keeps what is left to do in step with `Run`. */
  lemma {:induction false} RunAdvance(items: seq<Json>, size: nat, start: nat, step: BatchFn, validated: seq<Json>, appended: seq<Json>)
    requires size > 0 && start < |items|
    requires items[start..Min(start + size, |items|)][0].JObj?
    requires appended == step(start, items[start..Min(start + size, |items|)])
    ensures PrependOk(validated, Run(items, size, start, step)) ==
            PrependOk(validated + appended, Run(items, size, start + size, step))
  {
    RunStep(items, size, start, step);
    PrependOkTwice(validated, appended, Run(items, size, start + size, step));
  }

  /** A batch that does not start with a `dict` raises whatever came before. */
  lemma {:induction false} RunRaises(items: seq<Json>, size: nat, start: nat, step: BatchFn, validated: seq<Json>)
    requires size > 0 && start < |items|
    requires !items[start..Min(start + size, |items|)][0].JObj?
    ensures PrependOk(validated, Run(items, size, start, step)) == Err(AttributeError)
  {
  }

  /** One turn of the batch loop: the prompt for the batch at `start`, then
      its `try` block. */
  method RunTurn(items: seq<Json>, size: nat, start: nat, ask: (nat, seq<Json>) -> Option<string>,
                 parse: string -> Option<Json>, ghost validated: seq<Json>) returns (r: Result<seq<Json>, PyException>)
    requires size > 0 && start < |items|
    ensures r.Err? ==> r == Err(AttributeError) && PrependOk(validated, Run(items, size, start, Auditor(ask, parse))) == r
    ensures r.Ok? ==> PrependOk(validated, Run(items, size, start, Auditor(ask, parse))) ==
                      PrependOk(validated + r.value, Run(items, size, start + size, Auditor(ask, parse)))
  {
    var batch := items[start..Min(start + size, |items|)];
    if !batch[0].JObj? {
      RunRaises(items, size, start, Auditor(ask, parse), validated);
      return Err(AttributeError);
    }
    var appended := ProcessBatch(batch, ask(start, batch), parse);
    assert appended == Auditor(ask, parse)(start, batch);
    RunAdvance(items, size, start, Auditor(ask, parse), validated, appended);
    return Ok(appended);
  }

  /** The batch loop: `validated_interactors` built batch by batch. */
  method RunBatches(items: seq<Json>, size: nat, ask: (nat, seq<Json>) -> Option<string>,
                    parse: string -> Option<Json>) returns (r: Result<seq<Json>, PyException>)
    requires size > 0
    ensures r == Run(items, size, 0, Auditor(ask, parse))
  {
    var validated: seq<Json> := [];
    var batchStart: nat := 0;
    PrependNothing(Run(items, size, 0, Auditor(ask, parse)));
    while batchStart < |items|
      invariant Run(items, size, 0, Auditor(ask, parse)) == PrependOk(validated, Run(items, size, batchStart, Auditor(ask, parse)))
      decreases |items| - batchStart
    {
      var turn := RunTurn(items, size, batchStart, ask, parse, validated);
      if turn.Err? {
        return turn;
      }
      validated := validated + turn.value;
      batchStart := batchStart + size;
    }
    assert validated + [] == validated;
    return Ok(validated);
  }

  /** `validate_and_enrich_evidence`. */
  method ValidateAndEnrichEvidence(data: Fields, size: int, ask: (nat, seq<Json>) -> Option<string>,
                                   parse: string -> Option<Json>) returns (r: Result<Fields, PyException>)
    ensures r == Validate(data, size, ask, parse)
  {
    if !HasKey(data, "ctx_json") {
      return Ok(data);
    }
    var ctx := Get(data, "ctx_json");
    if !ctx.JObj? {
      return Err(AttributeError);
    }
    var interactors := GetOr(ctx.fields, "interactors", JArr([]));
    if !Truthy(interactors) {
      return Ok(data);
    }
    if !HasLen(interactors) {
      return Err(TypeError);
    }
    if size == 0 {
      return Err(ValueError);
    }
    if size < 0 {
      return WriteBack(data, ctx.fields, []);
    }
    if !interactors.JArr? {
      return if interactors.JStr? then Err(AttributeError) else Err(TypeError);
    }
    var validated := RunBatches(interactors.items, size, ask, parse);
    if validated.Err? {
      return Err(validated.error);
    }
    r := WriteBack(data, ctx.fields, validated.value);
  }
}
