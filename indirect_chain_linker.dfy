/** `utils/indirect_chain_linker.py`: for every interactor of a query that
    is reached indirectly through a mediator, ask the model for the
    mediator -> target function, save it as a direct interaction of the
    mediator in the protein database, and tag the interactor with the link.

    The model call is the oracle `ask`, which receives the call number and
    the chain context and answers with the reply text (`""` when every
    attempt failed); `json.loads` is `parse`; `str()` of a float, list or
    dict is `render`. The protein database is the class `InteractionStore`,
    a map from mediator to its interaction records. */
module IndirectChainLinker {
  import opened Wrappers
  import opened PyText
  import opened PyJson
  import LlmResponseParser

  // ---------------------------------------------------------------------
  // `_coerce_token_count`
  // ---------------------------------------------------------------------

  /** `_coerce_token_count` as written: `int(value)`, with `TypeError` and
      `ValueError` turned into 0. The `OverflowError` of `int(inf)` is not
      caught. */
  function CoerceTokenCountAsWritten(value: Json): Result<int, PyException>
  {
    match PyInt(value)
    case Ok(n) => Ok(n)
    case Err(e) => if e == TypeError || e == ValueError then Ok(0) else Err(e)
  }

  /** The best-effort conversion the docstring describes: any failure of
      `int()` gives 0. */
  function CoerceTokenCount(value: Json): int
  {
    match PyInt(value)
    case Ok(n) => n
    case Err(_) => 0
  }

  /** The conversion as written raises exactly on the two infinities. */
  lemma {:induction false} CoerceTokenCountAsWrittenRaises(value: Json)
    ensures CoerceTokenCountAsWritten(value).Err? <==> value == JFloat(PosInf) || value == JFloat(NegInf)
    ensures CoerceTokenCountAsWritten(value).Err? ==> CoerceTokenCountAsWritten(value).error == OverflowError
    ensures CoerceTokenCountAsWritten(value).Ok? ==> CoerceTokenCountAsWritten(value).value == CoerceTokenCount(value)
  {
  }

  /** What each kind of value counts as: an integer itself, a boolean 1 or
      0, an integral float its value, and `None`, a list, a dict, the
      infinities and `NaN` 0. */
  lemma {:induction false} CoerceTokenCountByKind(n: int, b: bool, v: Json)
    ensures CoerceTokenCount(JInt(n)) == n && CoerceTokenCount(JFloat(Finite(n as real))) == n
    ensures CoerceTokenCount(JBool(b)) == (if b then 1 else 0)
    ensures CoerceTokenCount(JNull) == 0 && CoerceTokenCount(JFloat(NaN)) == 0
    ensures CoerceTokenCount(JFloat(PosInf)) == 0 && CoerceTokenCount(JFloat(NegInf)) == 0
    ensures v.JArr? || v.JObj? ==> CoerceTokenCount(v) == 0
  {
  }

  /** The decimal text of a count converts back to it. */
  lemma {:induction false} CoerceDecimalString(n: int)
    ensures CoerceTokenCount(JStr(DecimalString(n))) == n
  {
    IntOfDecimalString(n);
    CoerceIntText(DecimalString(n), n);
  }

  /** A text that `int()` reads as `n` counts as `n`. */
  lemma {:induction false} CoerceIntText(s: string, n: int)
    requires IntOfString(s) == Some(n)
    ensures CoerceTokenCount(JStr(s)) == n
  {
  }

  // ---------------------------------------------------------------------
  // The API key and the selection of indirect interactors
  // ---------------------------------------------------------------------

  /** Whether a key is at hand: the argument, or else `GOOGLE_API_KEY` from
      the environment (`None` when unset). */
  predicate KeyFound(apiKey: string, envKey: Option<string>)
  {
    apiKey != "" || (envKey.Some? && envKey.value != "")
  }

  /** The filter of the comprehension: `i.get("interaction_type") ==
      "indirect" and i.get("upstream_interactor")`; `.get` of a non-dict
      raises `AttributeError`. */
  function IsIndirect(v: Json): Result<bool, PyException>
  {
    if !v.JObj? then Err(AttributeError)
    else Ok(Get(v.fields, "interaction_type") == JStr("indirect") && Truthy(Get(v.fields, "upstream_interactor")))
  }

  function PrependIndex(i: nat, keep: bool, r: Result<seq<nat>, PyException>): Result<seq<nat>, PyException>
  {
    if r.Ok? && keep then Ok([i] + r.value) else r
  }

  /** The positions, from `i` on, of the interactors the comprehension keeps,
      or the first exception it raises. */
  function SelectFrom(items: seq<Json>, i: nat): Result<seq<nat>, PyException>
    decreases |items| - i
  {
    if i >= |items| then Ok([])
    else
      match IsIndirect(items[i])
      case Err(e) => Err(e)
      case Ok(keep) => PrependIndex(i, keep, SelectFrom(items, i + 1))
  }

  function SelectIndirect(items: seq<Json>): Result<seq<nat>, PyException>
  {
    SelectFrom(items, 0)
  }

  /** One picked position of `items`, in increasing order. */
  predicate Increasing(sel: seq<nat>)
  {
    forall a, b :: 0 <= a < b < |sel| ==> sel[a] < sel[b]
  }

  /** The selection succeeds exactly when every interactor is a dict; it then
      lists, in their original order, exactly the positions of the indirect
      interactors that name a mediator. */
  lemma {:induction false} SelectFromSpec(items: seq<Json>, i: nat)
    requires i <= |items|
    ensures SelectFrom(items, i).Ok? <==> forall j :: i <= j < |items| ==> items[j].JObj?
    ensures SelectFrom(items, i).Err? ==> SelectFrom(items, i).error == AttributeError
    ensures SelectFrom(items, i).Ok? ==>
      var sel := SelectFrom(items, i).value;
      && Increasing(sel)
      && (forall a :: 0 <= a < |sel| ==> i <= sel[a] < |items|)
      && (forall j :: i <= j < |items| ==> (j in sel <==> IsIndirect(items[j]) == Ok(true)))
  {
    SelectFromIsSelectBy(items, i);
    SelectBySpec(items, i, IsIndirect);
  }

  /** The positions, from `i` on, that `test` keeps, or the first exception
      it raises: the comprehension with its test left open. */
  function SelectBy(items: seq<Json>, i: nat, test: Json -> Result<bool, PyException>): Result<seq<nat>, PyException>
    decreases |items| - i
  {
    if i >= |items| then Ok([])
    else
      match test(items[i])
      case Err(e) => Err(e)
      case Ok(keep) => PrependIndex(i, keep, SelectBy(items, i + 1, test))
  }

  lemma {:induction false} SelectFromIsSelectBy(items: seq<Json>, i: nat)
    ensures SelectFrom(items, i) == SelectBy(items, i, IsIndirect)
    decreases |items| - i
  {
    if i < |items| {
      SelectFromIsSelectBy(items, i + 1);
    }
  }

  lemma {:induction false} SelectBySpec(items: seq<Json>, i: nat, test: Json -> Result<bool, PyException>)
    requires i <= |items|
    requires forall v :: test(v).Err? <==> !v.JObj?
    requires forall v :: test(v).Err? ==> test(v).error == AttributeError
    ensures SelectBy(items, i, test).Ok? <==> forall j :: i <= j < |items| ==> items[j].JObj?
    ensures SelectBy(items, i, test).Err? ==> SelectBy(items, i, test).error == AttributeError
    ensures SelectBy(items, i, test).Ok? ==>
      var sel := SelectBy(items, i, test).value;
      && Increasing(sel)
      && (forall a :: 0 <= a < |sel| ==> i <= sel[a] < |items|)
      && (forall j :: i <= j < |items| ==> (j in sel <==> test(items[j]) == Ok(true)))
    decreases |items| - i
  {
    if i < |items| {
      SelectBySpec(items, i + 1, test);
      if test(items[i]).Ok? && SelectBy(items, i + 1, test).Ok? {
        var rest := SelectBy(items, i + 1, test).value;
        if test(items[i]).value {
          var sel := [i] + rest;
          assert SelectBy(items, i, test).value == sel;
          assert forall a :: 1 <= a < |sel| ==> sel[a] == rest[a - 1];
          assert i in sel;
        }
      }
    }
  }

  // ---------------------------------------------------------------------
  // One indirect interactor
  // ---------------------------------------------------------------------

  /** `f"Chain: {main} -> {mediator} -> {target}"`. */
  function ChainLine(main: Json, mediator: Json, target: Json, render: Json -> string): string
  {
    "Chain: " + Show(main, render) + " -> " + Show(mediator, render) + " -> " + Show(target, render)
  }

  /** `existing_functions[0]` of a truthy value. */
  function FirstItem(v: Json): Result<Json, PyException>
  {
    match v
    case JArr(xs) => if xs != [] then Ok(xs[0]) else Err(TypeError)
    case JStr(s) => if s != [] then Ok(JStr([s[0]])) else Err(TypeError)
    case JObj(_) => Err(KeyError)
    case _ => Err(TypeError)
  }

  /** `context_description`: the first function's `function` and
      `cellular_process` ahead of the chain when the interactor has
      functions, the chain alone otherwise. */
  function ChainContext(main: Json, mediator: Json, target: Json, functions: Json, render: Json -> string): Result<string, PyException>
  {
    if !Truthy(functions) then Ok(ChainLine(main, mediator, target, render))
    else
      match FirstItem(functions)
      case Err(e) => Err(e)
      case Ok(f) =>
        if !f.JObj? then Err(AttributeError)
        else
          Ok("Function: " + Show(Get(f.fields, "function"), render) +
             "\nProcess: " + Show(Get(f.fields, "cellular_process"), render) +
             "\n" + ChainLine(main, mediator, target, render))
  }

  /** When the first function is a dict, its `function` and then its
      `cellular_process` lead the context, each on its own line, and the
      chain closes it; without functions the context is the chain. */
  lemma {:induction false} ChainContextSpec(main: Json, mediator: Json, target: Json, functions: Json, render: Json -> string)
    ensures !Truthy(functions) ==> ChainContext(main, mediator, target, functions, render) == Ok(ChainLine(main, mediator, target, render))
    ensures functions.JArr? && functions.items != [] && functions.items[0].JObj? ==>
      var c := ChainContext(main, mediator, target, functions, render);
      var f := functions.items[0].fields;
      && c.Ok?
      && StartsWith(c.value, "Function: " + Show(Get(f, "function"), render) + "\nProcess: ")
      && EndsWith(c.value, "\n" + ChainLine(main, mediator, target, render))
      && c.value == "Function: " + Show(Get(f, "function"), render) + "\nProcess: " +
                    Show(Get(f, "cellular_process"), render) + "\n" + ChainLine(main, mediator, target, render)
    ensures functions.JArr? && functions.items != [] && !functions.items[0].JObj? ==>
      ChainContext(main, mediator, target, functions, render) == Err(AttributeError)
  {
    if functions.JArr? && functions.items != [] && functions.items[0].JObj? {
      var f := functions.items[0].fields;
      var a := "Function: " + Show(Get(f, "function"), render);
      var q := Show(Get(f, "cellular_process"), render);
      var e := ChainLine(main, mediator, target, render);
      assert ChainContext(main, mediator, target, functions, render) == Ok(a + "\nProcess: " + q + "\n" + e);
      ContextEnds(a, q, e);
    }
  }

  /** The two ends of the context text. */
  lemma {:induction false} ContextEnds(a: string, q: string, e: string)
    ensures StartsWith(a + "\nProcess: " + q + "\n" + e, a + "\nProcess: ")
    ensures EndsWith(a + "\nProcess: " + q + "\n" + e, "\n" + e)
  {
    var c := a + "\nProcess: " + q + "\n" + e;
    var p := a + "\nProcess: ";
    assert c == p + (q + ("\n" + e));
    assert c == (p + q) + ("\n" + e);
  }

  /** The record built from a reply: `primary`, `arrow`, `functions`,
      `interaction_type` and `discovered_in_query`, in that order. */
  function NewInteraction(target: Json, result: Fields, main: Json): Json
  {
    JObj([("primary", target), ("arrow", Get(result, "arrow")), ("functions", JArr([JObj(result)])),
          ("interaction_type", JStr("direct")), ("discovered_in_query", main)])
  }

  /** The new record names the target, takes the reply's `arrow`, holds the
      reply as its only function, is `direct` and remembers the query. */
  lemma {:induction false} NewInteractionShape(target: Json, result: Fields, main: Json)
    ensures var r := NewInteraction(target, result, main);
      && r.JObj? && |r.fields| == 5
      && Get(r.fields, "primary") == target && Get(r.fields, "arrow") == Get(result, "arrow")
      && Get(r.fields, "functions") == JArr([JObj(result)])
      && Get(r.fields, "interaction_type") == JStr("direct") && Get(r.fields, "discovered_in_query") == main
  {
    var f5: Fields := [("discovered_in_query", main)];
    var f4: Fields := [("interaction_type", JStr("direct"))] + f5;
    var f3: Fields := [("functions", JArr([JObj(result)]))] + f4;
    var f2: Fields := [("arrow", Get(result, "arrow"))] + f3;
    var f1: Fields := [("primary", target)] + f2;
    assert NewInteraction(target, result, main).fields == f1;
    var keys := ["primary", "arrow", "functions", "interaction_type", "discovered_in_query"];
    forall key | key in keys
      ensures Lookup(f1, key) == Lookup(f2, key) || key == "primary"
      ensures Lookup(f2, key) == Lookup(f3, key) || key == "arrow"
      ensures Lookup(f3, key) == Lookup(f4, key) || key == "functions"
      ensures Lookup(f4, key) == Lookup(f5, key) || key == "interaction_type"
    {
      LookupCons("primary", target, f2, key);
      LookupCons("arrow", Get(result, "arrow"), f3, key);
      LookupCons("functions", JArr([JObj(result)]), f4, key);
      LookupCons("interaction_type", JStr("direct"), f5, key);
    }
    LookupCons("primary", target, f2, "primary");
    LookupCons("arrow", Get(result, "arrow"), f3, "arrow");
    LookupCons("functions", JArr([JObj(result)]), f4, "functions");
    LookupCons("interaction_type", JStr("direct"), f5, "interaction_type");
    LookupCons("discovered_in_query", main, [], "discovered_in_query");
  }

  /** `next((i for i in records if i.get("primary") == target), None)`. */
  function FirstWithPrimary(records: seq<Json>, target: Json): Result<Option<Json>, PyException>
  {
    if records == [] then Ok(None)
    else if !records[0].JObj? then Err(AttributeError)
    else if PyEq(Get(records[0].fields, "primary"), target) then Ok(Some(records[0]))
    else FirstWithPrimary(records[1..], target)
  }

  /** The search is `FirstWhere` with the test of the generator. */
  lemma {:induction false} FirstWithPrimaryIsFirstWhere(records: seq<Json>, target: Json)
    ensures FirstWithPrimary(records, target) == FirstWhere(records, PrimaryIs(target))
  {
    if records != [] && records[0].JObj? && !PyEq(Get(records[0].fields, "primary"), target) {
      FirstWithPrimaryIsFirstWhere(records[1..], target);
    }
  }

  /** Whether a record is a dict whose `primary` equals `target`. */
  function PrimaryIs(target: Json): Json -> bool
  {
    (r: Json) => r.JObj? && PyEq(Get(r.fields, "primary"), target)
  }

  /** The first record that `matches` accepts, where a record that is not a
      dict raises `AttributeError`: the search with its test left open. */
  function FirstWhere(records: seq<Json>, matches: Json -> bool): Result<Option<Json>, PyException>
  {
    if records == [] then Ok(None)
    else if !records[0].JObj? then Err(AttributeError)
    else if matches(records[0]) then Ok(Some(records[0]))
    else FirstWhere(records[1..], matches)
  }

  /** The first record whose `primary` equals the target is found; records
      after it are not looked at, and a non-dict before it raises. */
  lemma {:induction false} FirstWithPrimarySpec(records: seq<Json>, target: Json)
    ensures FirstWithPrimary(records, target).Ok? && FirstWithPrimary(records, target).value.Some? ==>
      exists i :: 0 <= i < |records| && records[i] == FirstWithPrimary(records, target).value.value &&
        records[i].JObj? && PyEq(Get(records[i].fields, "primary"), target) &&
        forall j :: 0 <= j < i ==> records[j].JObj? && !PyEq(Get(records[j].fields, "primary"), target)
    ensures FirstWithPrimary(records, target) == Ok(None) <==>
      forall j :: 0 <= j < |records| ==> records[j].JObj? && !PyEq(Get(records[j].fields, "primary"), target)
    ensures FirstWithPrimary(records, target).Err? ==> FirstWithPrimary(records, target).error == AttributeError
  {
    FirstWithPrimaryIsFirstWhere(records, target);
    FirstWhereSpec(records, PrimaryIs(target));
  }

  lemma {:induction false} FirstWhereSpec(records: seq<Json>, matches: Json -> bool)
    ensures FirstWhere(records, matches).Ok? && FirstWhere(records, matches).value.Some? ==>
      exists i :: 0 <= i < |records| && records[i] == FirstWhere(records, matches).value.value &&
        records[i].JObj? && matches(records[i]) &&
        forall j :: 0 <= j < i ==> records[j].JObj? && !matches(records[j])
    ensures FirstWhere(records, matches) == Ok(None) <==>
      forall j :: 0 <= j < |records| ==> records[j].JObj? && !matches(records[j])
    ensures FirstWhere(records, matches).Err? ==> FirstWhere(records, matches).error == AttributeError
  {
    if records != [] && records[0].JObj? && !matches(records[0]) {
      var tail := records[1..];
      FirstWhereSpec(tail, matches);
      assert forall j :: 1 <= j < |records| ==> records[j] == tail[j - 1];
      var r := FirstWhere(tail, matches);
      if r.Ok? && r.value.Some? {
        var i :| 0 <= i < |tail| && tail[i] == r.value.value && tail[i].JObj? && matches(tail[i]) &&
                 forall j :: 0 <= j < i ==> tail[j].JObj? && !matches(tail[j]);
        assert records[i + 1] == tail[i];
      }
      if FirstWhere(records, matches) != Ok(None) {
        assert r != Ok(None);
      }
    }
  }

  /** What is saved: the matching record, when it is a non-empty dict, with
      the reply appended to its functions, and otherwise the new record.
      `append` on anything but a list raises `AttributeError`. The search
      (`FirstWhere`) only ever finds dicts, so the non-dict case never
      arises from it; it is kept so that `Merge` is total on any found
      value, raising what `existing_int.get` would raise on one. */
  function Merge(found: Option<Json>, result: Fields, created: Json): Result<Json, PyException>
  {
    if found.None? || !Truthy(found.value) then Ok(created)
    else if !found.value.JObj? then Err(AttributeError)
    else
      match GetOr(found.value.fields, "functions", JArr([]))
      case JArr(funcs) => Ok(JObj(Put(found.value.fields, "functions", JArr(funcs + [JObj(result)]))))
      case _ => Err(AttributeError)
  }

  /** Merging keeps every earlier function, puts the reply last and leaves
      the other fields of the record alone. */
  lemma {:induction false} MergeSpec(rec: Fields, result: Fields, created: Json)
    requires rec != []
    ensures var funcs := GetOr(rec, "functions", JArr([]));
      && (funcs.JArr? <==> Merge(Some(JObj(rec)), result, created).Ok?)
      && (funcs.JArr? ==>
            var m := Merge(Some(JObj(rec)), result, created).value;
            && m.JObj?
            && Lookup(m.fields, "functions") == Some(JArr(funcs.items + [JObj(result)]))
            && (forall k :: k != "functions" ==> Lookup(m.fields, k) == Lookup(rec, k)))
    ensures Merge(None, result, created) == Ok(created) && Merge(Some(JObj([])), result, created) == Ok(created)
  {
  }

  /** `pdb.save_interaction(mediator, target, data)` on the records of the
      mediator: the record whose `primary` equals the target is replaced,
      and otherwise the record is added last. */
  function SaveRecord(records: seq<Json>, target: Json, data: Json): (r: seq<Json>)
    ensures |r| == |records| || r == records + [data]
    ensures data in r
  {
    if records == [] then [data]
    else if records[0].JObj? && PyEq(Get(records[0].fields, "primary"), target) then [data] + records[1..]
    else [records[0]] + SaveRecord(records[1..], target, data)
  }

  type Store = map<Json, seq<Json>>

  /** `pdb.get_all_interactions(mediator)`: the records saved for the
      mediator, none when it has no file. */
  function RecordsOf(store: Store, mediator: Json): seq<Json>
  {
    if mediator in store then store[mediator] else []
  }

  /** `f"{mediator_name}->{target_name}"`, the link tag. */
  function LinkTag(mediator: Json, target: Json, render: Json -> string): Json
  {
    JStr(Show(mediator, render) + "->" + Show(target, render))
  }

  const TagKey: string := "_linked_mediator_interaction"

  /** What one interactor leads to: skipped, or linked with the database
      changed and the interactor tagged. */
  datatype StepResult = Skipped | Linked(store: Store, tagged: Fields)

  /** One turn of the loop over the selected interactors; `k` is the number
      of the model call. */
  function Step(v: Fields, k: nat, main: Json, store: Store, ask: (nat, string) -> string,
                parse: string -> Option<Json>, render: Json -> string): Result<StepResult, PyException>
  {
    match ChainContext(main, Get(v, "upstream_interactor"), Get(v, "primary"), GetOr(v, "functions", JArr([])), render)
    case Err(e) => Err(e)
    case Ok(context) => LinkReply(LlmResponseParser.ExtractJson(Some(ask(k, context)), parse), v, main, store, render)
  }

  /** What the reply leads to. An unreadable reply skips the interactor, as
      does a falsy one; a reply that is not a dict raises at `.get`. */
  function LinkReply(reply: Result<Json, LlmResponseParser.ExtractError>, v: Fields, main: Json, store: Store,
                     render: Json -> string): Result<StepResult, PyException>
  {
    var target := Get(v, "primary");
    var mediator := Get(v, "upstream_interactor");
    match reply
    case Err(_) => Ok(Skipped)
    case Ok(result) =>
      if !Truthy(result) then Ok(Skipped)
      else if !result.JObj? then Err(AttributeError)
      else
        var created := NewInteraction(target, result.fields, main);
        var records := RecordsOf(store, mediator);
        match FirstWithPrimary(records, target)
        case Err(e) => Err(e)
        case Ok(found) =>
          match Merge(found, result.fields, created)
          case Err(e) => Err(e)
          case Ok(data) =>
            Ok(Linked(store[mediator := SaveRecord(records, target, data)],
                      Put(v, TagKey, LinkTag(mediator, target, render))))
  }

  /** A reply in which no JSON can be found skips the interactor and touches
      nothing; so does a reply that decodes to an empty value. */
  lemma {:induction false} StepSkipsUnreadableReply(v: Fields, k: nat, main: Json, store: Store, ask: (nat, string) -> string,
                                 parse: string -> Option<Json>, render: Json -> string)
    requires ChainContext(main, Get(v, "upstream_interactor"), Get(v, "primary"), GetOr(v, "functions", JArr([])), render).Ok?
    requires var c := ChainContext(main, Get(v, "upstream_interactor"), Get(v, "primary"), GetOr(v, "functions", JArr([])), render).value;
      var reply := LlmResponseParser.ExtractJson(Some(ask(k, c)), parse);
      reply.Err? || !Truthy(reply.value)
    ensures Step(v, k, main, store, ask, parse, render) == Ok(Skipped)
  {
  }

  /** A dict reply with no prior record for the target saves the new
      record under the mediator, last, and tags the interactor
      `mediator->target`, its other fields unchanged. */
  lemma {:induction false} LinkReplySavesNewRecord(v: Fields, main: Json, store: Store, render: Json -> string, result: Fields)
    requires result != []
    requires FirstWithPrimary(RecordsOf(store, Get(v, "upstream_interactor")), Get(v, "primary")) == Ok(None)
    ensures var mediator := Get(v, "upstream_interactor");
      var target := Get(v, "primary");
      var s := LinkReply(Ok(JObj(result)), v, main, store, render);
      && s.Ok? && s.value.Linked?
      && s.value.store.Keys == store.Keys + {mediator}
      && RecordsOf(s.value.store, mediator) == RecordsOf(store, mediator) + [NewInteraction(target, result, main)]
      && (forall m :: m != mediator ==> RecordsOf(s.value.store, m) == RecordsOf(store, m))
      && Lookup(s.value.tagged, TagKey) == Some(LinkTag(mediator, target, render))
      && (forall key :: key != TagKey ==> Lookup(s.value.tagged, key) == Lookup(v, key))
  {
    var mediator := Get(v, "upstream_interactor");
    var target := Get(v, "primary");
    var records := RecordsOf(store, mediator);
    FirstWithPrimarySpec(records, target);
    SaveRecordAppends(records, target, NewInteraction(target, result, main));
  }

  /** Saving a record that matches no existing one adds it last. */
  lemma {:induction false} SaveRecordAppends(records: seq<Json>, target: Json, data: Json)
    requires forall j :: 0 <= j < |records| ==> records[j].JObj? && !PyEq(Get(records[j].fields, "primary"), target)
    ensures SaveRecord(records, target, data) == records + [data]
  {
    if records != [] {
      SaveRecordAppends(records[1..], target, data);
      assert [records[0]] + (records[1..] + [data]) == records + [data];
    }
  }

  /** Saving over the first matching record replaces it in place. */
  lemma {:induction false} SaveRecordReplaces(records: seq<Json>, target: Json, data: Json, i: nat)
    requires i < |records| && records[i].JObj? && PyEq(Get(records[i].fields, "primary"), target)
    requires forall j :: 0 <= j < i ==> records[j].JObj? && !PyEq(Get(records[j].fields, "primary"), target)
    ensures SaveRecord(records, target, data) == records[i := data]
  {
    if i > 0 {
      SaveRecordReplaces(records[1..], target, data, i - 1);
      assert [records[0]] + records[1..][i - 1 := data] == records[i := data];
    } else {
      assert [data] + records[1..] == records[0 := data];
    }
  }

  /** A dict reply for a target the mediator already has a record for
      appends the reply to the functions of the first such record, which is
      saved back in its place. */
  lemma {:induction false} LinkReplyMergesIntoExisting(v: Fields, main: Json, store: Store, render: Json -> string, result: Fields, i: nat)
    requires result != []
    requires var records := RecordsOf(store, Get(v, "upstream_interactor"));
      && i < |records| && records[i].JObj? && records[i].fields != []
      && PyEq(Get(records[i].fields, "primary"), Get(v, "primary"))
      && (forall j :: 0 <= j < i ==> records[j].JObj? && !PyEq(Get(records[j].fields, "primary"), Get(v, "primary")))
      && GetOr(records[i].fields, "functions", JArr([])).JArr?
    ensures var mediator := Get(v, "upstream_interactor");
      var records := RecordsOf(store, mediator);
      var funcs := GetOr(records[i].fields, "functions", JArr([])).items;
      var s := LinkReply(Ok(JObj(result)), v, main, store, render);
      && s.Ok? && s.value.Linked?
      && RecordsOf(s.value.store, mediator) == records[i := JObj(Put(records[i].fields, "functions", JArr(funcs + [JObj(result)])))]
      && (forall m :: m != mediator ==> RecordsOf(s.value.store, m) == RecordsOf(store, m))
      && Lookup(s.value.tagged, TagKey) == Some(LinkTag(mediator, Get(v, "primary"), render))
  {
    var mediator := Get(v, "upstream_interactor");
    var target := Get(v, "primary");
    var records := RecordsOf(store, mediator);
    var found := FirstWithPrimary(records, target);
    assert found == Ok(Some(records[i])) by {
      FirstWithPrimaryAt(records, target, i);
    }
    var funcs := GetOr(records[i].fields, "functions", JArr([])).items;
    var data := JObj(Put(records[i].fields, "functions", JArr(funcs + [JObj(result)])));
    assert Merge(found.value, result, NewInteraction(target, result, main)) == Ok(data);
    LinkReplyLinked(v, main, store, render, result, found.value, data);
    SaveRecordReplaces(records, target, data, i);
  }

  /** A dict reply whose search and merge succeed saves the merged record and
      tags the interactor. */
  lemma {:induction false} LinkReplyLinked(v: Fields, main: Json, store: Store, render: Json -> string, result: Fields,
                        found: Option<Json>, data: Json)
    requires result != []
    requires FirstWithPrimary(RecordsOf(store, Get(v, "upstream_interactor")), Get(v, "primary")) == Ok(found)
    requires Merge(found, result, NewInteraction(Get(v, "primary"), result, main)) == Ok(data)
    ensures var mediator := Get(v, "upstream_interactor");
      var target := Get(v, "primary");
      LinkReply(Ok(JObj(result)), v, main, store, render) ==
      Ok(Linked(store[mediator := SaveRecord(RecordsOf(store, mediator), target, data)],
                Put(v, TagKey, LinkTag(mediator, target, render))))
  {
  }

  /** The search stops at the first record that matches. */
  lemma {:induction false} FirstWithPrimaryAt(records: seq<Json>, target: Json, i: nat)
    requires i < |records| && records[i].JObj? && PyEq(Get(records[i].fields, "primary"), target)
    requires forall j :: 0 <= j < i ==> records[j].JObj? && !PyEq(Get(records[j].fields, "primary"), target)
    ensures FirstWithPrimary(records, target) == Ok(Some(records[i]))
  {
    FirstWithPrimaryIsFirstWhere(records, target);
    FirstWhereAt(records, PrimaryIs(target), i);
  }

  lemma {:induction false} FirstWhereAt(records: seq<Json>, matches: Json -> bool, i: nat)
    requires i < |records| && records[i].JObj? && matches(records[i])
    requires forall j :: 0 <= j < i ==> records[j].JObj? && !matches(records[j])
    ensures FirstWhere(records, matches) == Ok(Some(records[i]))
  {
    if i > 0 {
      FirstWhereAt(records[1..], matches, i - 1);
    }
  }

  // ---------------------------------------------------------------------
  // The loop and `process_indirect_chain`
  // ---------------------------------------------------------------------

  /** The interactor list as the loop leaves it, the database, and
      `linked_count`. */
  datatype LinkState = LinkState(interactors: seq<Json>, store: Store, linked: nat)

  /** Every selected position holds a dict. */
  predicate ValidSelection(sel: seq<nat>, interactors: seq<Json>)
  {
    forall a :: 0 <= a < |sel| ==> sel[a] < |interactors| && interactors[sel[a]].JObj?
  }

  /** Where the loop stops: its state, and the exception that ended it. */
  datatype Halt = Halt(st: LinkState, raised: Option<PyException>)

  type StepFn = (Fields, nat, Store) -> Result<StepResult, PyException>

  /** `Step` for one query. */
  function Stepper(main: Json, ask: (nat, string) -> string, parse: string -> Option<Json>,
                   render: Json -> string): StepFn
  {
    (v: Fields, k: nat, store: Store) => Step(v, k, main, store, ask, parse, render)
  }

  /** The loop from the `k`-th selected interactor on, each turn taken by
      `step`. */
  function LinkFrom(st: LinkState, sel: seq<nat>, k: nat, step: StepFn): Halt
    requires ValidSelection(sel, st.interactors)
    decreases |sel| - k
  {
    if k >= |sel| then Halt(st, None)
    else
      var j := sel[k];
      match step(st.interactors[j].fields, k, st.store)
      case Err(e) => Halt(st, Some(e))
      case Ok(Skipped) => LinkFrom(st, sel, k + 1, step)
      case Ok(Linked(store, tagged)) =>
        LinkFrom(LinkState(st.interactors[j := JObj(tagged)], store, st.linked + 1), sel, k + 1, step)
  }

  /** The loop keeps the list's length, counts at most one link per
      interactor, and changes no interactor it does not visit. */
  lemma {:induction false} LinkFromFrame(st: LinkState, sel: seq<nat>, k: nat, step: StepFn)
    requires ValidSelection(sel, st.interactors)
    ensures var h := LinkFrom(st, sel, k, step);
      && |h.st.interactors| == |st.interactors|
      && st.linked <= h.st.linked <= st.linked + (if k <= |sel| then |sel| - k else 0)
      && (forall j :: 0 <= j < |st.interactors| && j !in sel[Min(k, |sel|)..] ==> h.st.interactors[j] == st.interactors[j])
    decreases |sel| - k
  {
    if k < |sel| {
      var j := sel[k];
      assert sel[k..] == [j] + sel[k + 1..];
      match step(st.interactors[j].fields, k, st.store)
      case Err(e) =>
      case Ok(Skipped) =>
        LinkFromFrame(st, sel, k + 1, step);
      case Ok(Linked(store, tagged)) =>
        var st2 := LinkState(st.interactors[j := JObj(tagged)], store, st.linked + 1);
        assert ValidSelection(sel, st2.interactors);
        LinkFromFrame(st2, sel, k + 1, step);
    }
  }

  /** One turn of the loop: a skipped interactor leaves the state as it
      was (nothing saved, no tag, the count unchanged), a linked one is
      counted once and replaced by its tagged self, an exception stops the
      loop where it is. */
  lemma {:induction false} LinkFromTurn(st: LinkState, sel: seq<nat>, k: nat, step: StepFn)
    requires ValidSelection(sel, st.interactors) && k < |sel|
    ensures var s := step(st.interactors[sel[k]].fields, k, st.store);
      && (s == Ok(Skipped) ==> LinkFrom(st, sel, k, step) == LinkFrom(st, sel, k + 1, step))
      && (s.Ok? && s.value.Linked? ==>
            LinkFrom(st, sel, k, step) ==
            LinkFrom(LinkState(st.interactors[sel[k] := JObj(s.value.tagged)], s.value.store, st.linked + 1), sel, k + 1, step))
      && (s.Err? ==> LinkFrom(st, sel, k, step) == Halt(st, Some(s.error)))
  {
  }

  /** One turn of the loop as it was taken: the database it saw and what
      its step gave. */
  datatype Turn = Turn(before: Store, outcome: Result<StepResult, PyException>)

  predicate IsLink(t: Turn)
  {
    t.outcome.Ok? && t.outcome.value.Linked?
  }

  /** The database after a turn: the step's on a link, unchanged otherwise. */
  function StoreAfter(t: Turn): Store
  {
    if IsLink(t) then t.outcome.value.store else t.before
  }

  /** The turns the loop takes from the `k`-th selected interactor on, up to
      and including one that raises. */
  ghost function Trace(st: LinkState, sel: seq<nat>, k: nat, step: StepFn): seq<Turn>
    requires ValidSelection(sel, st.interactors)
    decreases |sel| - k
  {
    if k >= |sel| then []
    else
      var j := sel[k];
      var s := step(st.interactors[j].fields, k, st.store);
      [Turn(st.store, s)] +
        match s
        case Err(_) => []
        case Ok(Skipped) => Trace(st, sel, k + 1, step)
        case Ok(Linked(store, tagged)) =>
          Trace(LinkState(st.interactors[j := JObj(tagged)], store, st.linked + 1), sel, k + 1, step)
  }

  function CountLinks(t: seq<Turn>): nat
  {
    if t == [] then 0 else (if IsLink(t[0]) then 1 else 0) + CountLinks(t[1..])
  }

  /** The state after a turn taken on the interactor at `j`. */
  function Next(st: LinkState, j: nat, t: Turn): LinkState
    requires j < |st.interactors|
  {
    if IsLink(t) then LinkState(st.interactors[j := JObj(t.outcome.value.tagged)], t.outcome.value.store, st.linked + 1)
    else st
  }

  /** The first turn of the trace. */
  lemma {:induction false} TraceUnfold(st: LinkState, sel: seq<nat>, k: nat, step: StepFn)
    requires ValidSelection(sel, st.interactors) && k < |sel|
    ensures var t0 := Turn(st.store, step(st.interactors[sel[k]].fields, k, st.store));
      var st2 := Next(st, sel[k], t0);
      && ValidSelection(sel, st2.interactors)
      && (t0.outcome.Err? ==> Trace(st, sel, k, step) == [t0])
      && (t0.outcome.Ok? ==> Trace(st, sel, k, step) == [t0] + Trace(st2, sel, k + 1, step))
  {
    var t0 := Turn(st.store, step(st.interactors[sel[k]].fields, k, st.store));
    assert ValidSelection(sel, Next(st, sel[k], t0).interactors);
  }

  /** The first turn of the loop. */
  lemma {:induction false} LinkFromUnfold(st: LinkState, sel: seq<nat>, k: nat, step: StepFn)
    requires ValidSelection(sel, st.interactors) && k < |sel|
    ensures var t0 := Turn(st.store, step(st.interactors[sel[k]].fields, k, st.store));
      var st2 := Next(st, sel[k], t0);
      && ValidSelection(sel, st2.interactors)
      && (t0.outcome.Err? ==> LinkFrom(st, sel, k, step) == Halt(st, Some(t0.outcome.error)))
      && (t0.outcome.Ok? ==> LinkFrom(st, sel, k, step) == LinkFrom(st2, sel, k + 1, step))
  {
    var t0 := Turn(st.store, step(st.interactors[sel[k]].fields, k, st.store));
    assert ValidSelection(sel, Next(st, sel[k], t0).interactors);
  }

  /** `linked_count` is the number of turns that linked; every turn but the
      last succeeded; the loop raises exactly when the last turn it took
      raised, and otherwise it took a turn for every selected interactor. */
  lemma {:induction false} LinkFromCounts(st: LinkState, sel: seq<nat>, k: nat, step: StepFn)
    requires ValidSelection(sel, st.interactors) && k <= |sel|
    ensures var h := LinkFrom(st, sel, k, step);
      var t := Trace(st, sel, k, step);
      && |t| <= |sel| - k
      && h.st.linked == st.linked + CountLinks(t)
      && (forall a :: 0 <= a < |t| - 1 ==> t[a].outcome.Ok?)
      && (h.raised.Some? ==> t != [] && t[|t| - 1].outcome == Err(h.raised.value))
      && (h.raised.None? ==> |t| == |sel| - k && (t == [] || t[|t| - 1].outcome.Ok?))
    decreases |sel| - k
  {
    if k < |sel| {
      TraceUnfold(st, sel, k, step);
      LinkFromUnfold(st, sel, k, step);
      var t0 := Turn(st.store, step(st.interactors[sel[k]].fields, k, st.store));
      var t := Trace(st, sel, k, step);
      if t0.outcome.Ok? {
        var st2 := Next(st, sel[k], t0);
        LinkFromCounts(st2, sel, k + 1, step);
        var rest := Trace(st2, sel, k + 1, step);
        assert t[0] == t0 && t[1..] == rest;
        assert forall a :: 0 < a < |t| ==> t[a] == rest[a - 1];
      } else {
        assert t[1..] == [];
      }
    }
  }

  /** Each turn saw the database the turn before left, and the database at
      the end is the one the last turn left: the saves made before an
      exception are kept. */
  lemma {:induction false} LinkFromStores(st: LinkState, sel: seq<nat>, k: nat, step: StepFn)
    requires ValidSelection(sel, st.interactors) && k <= |sel|
    ensures var h := LinkFrom(st, sel, k, step);
      var t := Trace(st, sel, k, step);
      && (t != [] ==> t[0].before == st.store)
      && (forall a :: 0 < a < |t| ==> t[a].before == StoreAfter(t[a - 1]))
      && h.st.store == (if t == [] then st.store else StoreAfter(t[|t| - 1]))
    decreases |sel| - k
  {
    if k < |sel| {
      TraceUnfold(st, sel, k, step);
      LinkFromUnfold(st, sel, k, step);
      var t0 := Turn(st.store, step(st.interactors[sel[k]].fields, k, st.store));
      var t := Trace(st, sel, k, step);
      if t0.outcome.Ok? {
        var st2 := Next(st, sel[k], t0);
        LinkFromStores(st2, sel, k + 1, step);
        var rest := Trace(st2, sel, k + 1, step);
        assert t[0] == t0 && forall a :: 0 < a < |t| ==> t[a] == rest[a - 1];
        assert st2.store == StoreAfter(t0);
      }
    }
  }

  /** The loop takes at most one turn per selected interactor. */
  lemma {:induction false} TraceLength(st: LinkState, sel: seq<nat>, k: nat, step: StepFn)
    requires ValidSelection(sel, st.interactors) && k <= |sel|
    ensures |Trace(st, sel, k, step)| <= |sel| - k
    decreases |sel| - k
  {
    if k < |sel| {
      TraceUnfold(st, sel, k, step);
      var t0 := Turn(st.store, step(st.interactors[sel[k]].fields, k, st.store));
      if t0.outcome.Ok? {
        TraceLength(Next(st, sel[k], t0), sel, k + 1, step);
      }
    }
  }

  /** Each turn was taken on the interactor as the selection found it. */
  lemma {:induction false} LinkFromInputs(st: LinkState, sel: seq<nat>, k: nat, step: StepFn)
    requires ValidSelection(sel, st.interactors) && Increasing(sel) && k <= |sel|
    ensures var t := Trace(st, sel, k, step);
      && |t| <= |sel| - k
      && forall a :: 0 <= a < |t| ==> t[a].outcome == step(st.interactors[sel[k + a]].fields, k + a, t[a].before)
    decreases |sel| - k
  {
    TraceLength(st, sel, k, step);
    if k < |sel| {
      TraceUnfold(st, sel, k, step);
      var t0 := Turn(st.store, step(st.interactors[sel[k]].fields, k, st.store));
      if t0.outcome.Ok? {
        var st2 := Next(st, sel[k], t0);
        LinkFromInputs(st2, sel, k + 1, step);
        LaterUntouched(st, sel, k, t0);
        InputsShift(st.interactors, st2.interactors, sel, k, step, t0, Trace(st2, sel, k + 1, step));
      }
    }
  }

  /** The step of `LinkFromInputs`: a first turn on the interactor as found,
      then turns on interactors its turn left alone. */
  lemma {:induction false} InputsShift(ivs: seq<Json>, ivs2: seq<Json>, sel: seq<nat>, k: nat, step: StepFn,
                                       t0: Turn, rest: seq<Turn>)
    requires ValidSelection(sel, ivs) && ValidSelection(sel, ivs2) && k < |sel| && |rest| <= |sel| - k - 1
    requires t0.outcome == step(ivs[sel[k]].fields, k, t0.before)
    requires forall a :: k < a < |sel| ==> ivs2[sel[a]] == ivs[sel[a]]
    requires forall a :: 0 <= a < |rest| ==> rest[a].outcome == step(ivs2[sel[k + 1 + a]].fields, k + 1 + a, rest[a].before)
    ensures var t := [t0] + rest;
      forall a :: 0 <= a < |t| ==> t[a].outcome == step(ivs[sel[k + a]].fields, k + a, t[a].before)
  {
    var t := [t0] + rest;
    forall a | 0 < a < |t| ensures t[a].outcome == step(ivs[sel[k + a]].fields, k + a, t[a].before) {
      assert t[a] == rest[a - 1] && k + a == k + 1 + (a - 1);
    }
  }

  /** The interactors after the `k`-th selected one are untouched by its turn. */
  lemma {:induction false} LaterUntouched(st: LinkState, sel: seq<nat>, k: nat, t0: Turn)
    requires ValidSelection(sel, st.interactors) && Increasing(sel) && k < |sel|
    ensures forall a :: k < a < |sel| ==> Next(st, sel[k], t0).interactors[sel[a]] == st.interactors[sel[a]]
  {
    forall a | k < a < |sel| ensures Next(st, sel[k], t0).interactors[sel[a]] == st.interactors[sel[a]] {
      assert sel[k] < sel[a];
    }
  }

  /** The `k`-th selected interactor is not visited again. */
  lemma {:induction false} NotRevisited(sel: seq<nat>, k: nat)
    requires Increasing(sel) && k < |sel|
    ensures sel[k] !in sel[k + 1..]
  {
    forall a | k + 1 <= a < |sel| ensures sel[a] != sel[k] {
      assert sel[k] < sel[a];
    }
  }

  /** A selected interactor the loop reached ends up tagged by its own step
      when that linked, and as it was otherwise. */
  lemma {:induction false} LinkFromTags(st: LinkState, sel: seq<nat>, k: nat, step: StepFn)
    requires ValidSelection(sel, st.interactors) && Increasing(sel) && k <= |sel|
    ensures var h := LinkFrom(st, sel, k, step);
      var t := Trace(st, sel, k, step);
      && |h.st.interactors| == |st.interactors| && |t| <= |sel| - k
      && forall a :: 0 <= a < |t| ==>
           h.st.interactors[sel[k + a]] == if IsLink(t[a]) then JObj(t[a].outcome.value.tagged) else st.interactors[sel[k + a]]
    decreases |sel| - k
  {
    TraceLength(st, sel, k, step);
    if k < |sel| {
      TraceUnfold(st, sel, k, step);
      LinkFromUnfold(st, sel, k, step);
      var t0 := Turn(st.store, step(st.interactors[sel[k]].fields, k, st.store));
      if t0.outcome.Ok? {
        var st2 := Next(st, sel[k], t0);
        var h2 := LinkFrom(st2, sel, k + 1, step);
        LinkFromTags(st2, sel, k + 1, step);
        LinkFromFrame(st2, sel, k + 1, step);
        LaterUntouched(st, sel, k, t0);
        NotRevisited(sel, k);
        TagsShift(st.interactors, st2.interactors, h2.st.interactors, sel, k, t0, Trace(st2, sel, k + 1, step));
      }
    }
  }

  /** The step of `LinkFromTags`: the first turn's interactor keeps what its
      turn left, and the later ones are as their own turns left them. */
  lemma {:induction false} TagsShift(ivs: seq<Json>, ivs2: seq<Json>, out: seq<Json>, sel: seq<nat>, k: nat,
                                     t0: Turn, rest: seq<Turn>)
    requires ValidSelection(sel, ivs) && |ivs2| == |ivs| == |out| && k < |sel| && |rest| <= |sel| - k - 1
    requires ivs2 == if IsLink(t0) then ivs[sel[k] := JObj(t0.outcome.value.tagged)] else ivs
    requires out[sel[k]] == ivs2[sel[k]]
    requires forall a :: k < a < |sel| ==> ivs2[sel[a]] == ivs[sel[a]]
    requires forall a :: 0 <= a < |rest| ==>
      out[sel[k + 1 + a]] == if IsLink(rest[a]) then JObj(rest[a].outcome.value.tagged) else ivs2[sel[k + 1 + a]]
    ensures var t := [t0] + rest;
      forall a :: 0 <= a < |t| ==>
        out[sel[k + a]] == if IsLink(t[a]) then JObj(t[a].outcome.value.tagged) else ivs[sel[k + a]]
  {
    var t := [t0] + rest;
    forall a | 0 < a < |t|
      ensures out[sel[k + a]] == if IsLink(t[a]) then JObj(t[a].outcome.value.tagged) else ivs[sel[k + a]]
    {
      assert t[a] == rest[a - 1] && k + a == k + 1 + (a - 1);
    }
  }

  /** Every link tags the interactor `mediator->target` and keeps its other
      fields. */
  lemma {:induction false} StepTags(v: Fields, k: nat, main: Json, store: Store, ask: (nat, string) -> string,
                 parse: string -> Option<Json>, render: Json -> string)
    requires Step(v, k, main, store, ask, parse, render).Ok?
    requires Step(v, k, main, store, ask, parse, render).value.Linked?
    ensures var t := Step(v, k, main, store, ask, parse, render).value.tagged;
      && Lookup(t, TagKey) == Some(LinkTag(Get(v, "upstream_interactor"), Get(v, "primary"), render))
      && (forall key :: key != TagKey ==> Lookup(t, key) == Lookup(v, key))
  {
    var c := ChainContext(main, Get(v, "upstream_interactor"), Get(v, "primary"), GetOr(v, "functions", JArr([])), render);
    LinkReplyTags(LlmResponseParser.ExtractJson(Some(ask(k, c.value)), parse), v, main, store, render);
  }

  lemma {:induction false} LinkReplyTags(reply: Result<Json, LlmResponseParser.ExtractError>, v: Fields, main: Json, store: Store,
                      render: Json -> string)
    requires LinkReply(reply, v, main, store, render).Ok? && LinkReply(reply, v, main, store, render).value.Linked?
    ensures var t := LinkReply(reply, v, main, store, render).value.tagged;
      && Lookup(t, TagKey) == Some(LinkTag(Get(v, "upstream_interactor"), Get(v, "primary"), render))
      && (forall key :: key != TagKey ==> Lookup(t, key) == Lookup(v, key))
  {
  }

  /** What `process_indirect_chain` leaves behind: the returned `ctx_json`
      or the exception, the database, and `linked_count`. */
  datatype Outcome = Outcome(result: Result<Fields, PyException>, store: Store, linked: nat)

  function Process(ctx: Fields, apiKey: string, envKey: Option<string>, store: Store, ask: (nat, string) -> string,
                   parse: string -> Option<Json>, render: Json -> string): Outcome
  {
    ProcessBy(ctx, KeyFound(apiKey, envKey), store, Stepper(Get(ctx, "main"), ask, parse, render))
  }

  /** `process_indirect_chain` with each selected interactor's turn taken by
      `step`; `found` says whether a key is at hand. */
  function ProcessBy(ctx: Fields, found: bool, store: Store, step: StepFn): Outcome
  {
    if !found then Outcome(Ok(ctx), store, 0)
    else
      match Iterate(GetOr(ctx, "interactors", JArr([])))
      case Err(e) => Outcome(Err(e), store, 0)
      case Ok(items) =>
        match SelectIndirect(items)
        case Err(e) => Outcome(Err(e), store, 0)
        case Ok(sel) =>
          if sel == [] then Outcome(Ok(ctx), store, 0)
          else
            SelectFromSpec(items, 0);
            var h := LinkFrom(LinkState(items, store, 0), sel, 0, step);
            match h.raised
            case Some(e) => Outcome(Err(e), h.st.store, h.st.linked)
            case None => Outcome(Ok(Put(ctx, "interactors", JArr(h.st.interactors))), h.st.store, h.st.linked)
  }

  /** Without a key, or without an indirect interactor that names a
      mediator, `ctx_json` comes back unchanged and nothing is saved,
      whatever the model would have answered. */
  lemma {:induction false} ProcessWithoutWork(ctx: Fields, found: bool, store: Store, step: StepFn)
    ensures !found ==> ProcessBy(ctx, found, store, step) == Outcome(Ok(ctx), store, 0)
    ensures var items := GetOr(ctx, "interactors", JArr([]));
      found && items.JArr? &&
      (forall j :: 0 <= j < |items.items| ==> IsIndirect(items.items[j]) == Ok(false)) ==>
      ProcessBy(ctx, found, store, step) == Outcome(Ok(ctx), store, 0)
  {
    var items := GetOr(ctx, "interactors", JArr([]));
    if found && items.JArr? && (forall j :: 0 <= j < |items.items| ==> IsIndirect(items.items[j]) == Ok(false)) {
      SelectFromSpec(items.items, 0);
      var sel := SelectIndirect(items.items).value;
      if sel != [] {
        assert sel[0] in sel;
      }
    }
  }

  /** A successful run returns `ctx_json` with only the `interactors` list
      changed, of the same length, the interactors that were not selected
      untouched, and at most one link per interactor of the list, whether
      or not the returned dict differs from the input (an interactor that
      links again with the tag it already carries comes back equal). */
  lemma {:induction false} ProcessSuccess(ctx: Fields, found: bool, store: Store, step: StepFn)
    requires ProcessBy(ctx, found, store, step).result.Ok?
    ensures var o := ProcessBy(ctx, found, store, step);
      var out := o.result.value;
      && (forall key :: key != "interactors" ==> Lookup(out, key) == Lookup(ctx, key))
      && (out != ctx ==>
            var before := GetOr(ctx, "interactors", JArr([]));
            var after := Get(out, "interactors");
            && before.JArr? && after.JArr? && |after.items| == |before.items|
            && (forall j :: 0 <= j < |before.items| && IsIndirect(before.items[j]) != Ok(true) ==>
                  after.items[j] == before.items[j]))
    ensures var o := ProcessBy(ctx, found, store, step);
      var before := GetOr(ctx, "interactors", JArr([]));
      && (before.JArr? ==> o.linked <= |before.items|)
      && (!before.JArr? ==> o.linked == 0)
  {
    var before := GetOr(ctx, "interactors", JArr([]));
    if found && Iterate(before).Ok? && SelectIndirect(Iterate(before).value).Ok? {
      var items := Iterate(before).value;
      var sel := SelectIndirect(items).value;
      if sel != [] {
        SelectFromSpec(items, 0);
        assert items[sel[0]].JObj? && items[sel[0]] in items;
        IterateNonListHasNoDicts(before);
        assert before == JArr(items);
        SelectionBound(sel, |items|);
        LinkedOutput(ctx, items, sel, store, step);
      } else {
        assert ProcessBy(ctx, found, store, step).result == Ok(ctx);
      }
    }
  }

  /** What the loop over a valid selection leaves in `ctx_json`. */
  lemma {:induction false} LinkedOutput(ctx: Fields, items: seq<Json>, sel: seq<nat>, store: Store, step: StepFn)
    requires ValidSelection(sel, items) && |sel| <= |items|
    requires forall j :: 0 <= j < |items| ==> (j in sel <==> IsIndirect(items[j]) == Ok(true))
    ensures var h := LinkFrom(LinkState(items, store, 0), sel, 0, step);
      var out := Put(ctx, "interactors", JArr(h.st.interactors));
      && (forall key :: key != "interactors" ==> Lookup(out, key) == Lookup(ctx, key))
      && Get(out, "interactors") == JArr(h.st.interactors)
      && |h.st.interactors| == |items|
      && h.st.linked <= |items|
      && (forall j :: 0 <= j < |items| && IsIndirect(items[j]) != Ok(true) ==> h.st.interactors[j] == items[j])
  {
    LinkFromFrame(LinkState(items, store, 0), sel, 0, step);
    assert sel[Min(0, |sel|)..] == sel;
  }

  /** An increasing selection of positions below `n` has at most `n`
      entries. */
  lemma {:induction false} SelectionBound(sel: seq<nat>, n: nat)
    requires Increasing(sel) && forall a :: 0 <= a < |sel| ==> sel[a] < n
    ensures |sel| <= n
    decreases n
  {
    if sel != [] {
      var init := sel[..|sel| - 1];
      assert forall a :: 0 <= a < |init| ==> init[a] < sel[|sel| - 1] < n;
      SelectionBound(init, sel[|sel| - 1]);
    }
  }

  // ---------------------------------------------------------------------
  // The database and the imperative loop
  // ---------------------------------------------------------------------

  /** The protein database: the interactions saved per mediator. */
  class InteractionStore {
    var records: Store

    constructor (initial: Store)
      ensures records == initial
    {
      records := initial;
    }

    /** `pdb.get_all_interactions(mediator)`. */
    method GetAllInteractions(mediator: Json) returns (rs: seq<Json>)
      ensures rs == RecordsOf(records, mediator)
    {
      rs := if mediator in records then records[mediator] else [];
    }

    /** `pdb.save_interaction(mediator, target, data)`. */
    method SaveInteraction(mediator: Json, target: Json, data: Json)
      modifies this
      ensures records == old(records)[mediator := SaveRecord(RecordsOf(old(records), mediator), target, data)]
    {
      var rs := GetAllInteractions(mediator);
      records := records[mediator := SaveRecord(rs, target, data)];
    }
  }

  /** How the loop body reports the turn `s`: the exception, nothing for a
      skip, or the tagged interactor, with the database as `s` leaves it. */
  predicate TurnTaken(s: Result<StepResult, PyException>, before: Store, r: Result<Option<Fields>, PyException>, after: Store)
  {
    && (s.Err? ==> r == Err(s.error) && after == before)
    && (s == Ok(Skipped) ==> r == Ok(None) && after == before)
    && (s.Ok? && s.value.Linked? ==> r == Ok(Some(s.value.tagged)) && after == s.value.store)
  }

  /** The state after a turn that did not raise: the interactor at `j`
      replaced by its tagged self and counted when it was linked. */
  function AfterTurn(st: LinkState, j: nat, tagged: Option<Fields>, after: Store): LinkState
    requires j < |st.interactors|
  {
    match tagged
    case Some(t) => LinkState(st.interactors[j := JObj(t)], after, st.linked + 1)
    case None => LinkState(st.interactors, after, st.linked)
  }

  /** One turn of the loop in terms of what the loop body reported. */
  lemma {:induction false} LinkAdvance(st: LinkState, sel: seq<nat>, k: nat, step: StepFn, r: Result<Option<Fields>, PyException>, after: Store)
    requires ValidSelection(sel, st.interactors) && k < |sel|
    requires TurnTaken(step(st.interactors[sel[k]].fields, k, st.store), st.store, r, after)
    ensures r.Err? ==> LinkFrom(st, sel, k, step) == Halt(st, Some(r.error))
    ensures r.Ok? ==>
      var st2 := AfterTurn(st, sel[k], r.value, after);
      ValidSelection(sel, st2.interactors) && LinkFrom(st, sel, k, step) == LinkFrom(st2, sel, k + 1, step)
  {
    LinkFromTurn(st, sel, k, step);
  }

  /** The body of the loop for one interactor: the database is updated in
      place and the tagged interactor returned when it was linked. */
  method LinkInteractor(v: Fields, k: nat, main: Json, db: InteractionStore, ask: (nat, string) -> string,
                        parse: string -> Option<Json>, render: Json -> string)
    returns (r: Result<Option<Fields>, PyException>)
    modifies db
    ensures TurnTaken(Step(v, k, main, old(db.records), ask, parse, render), old(db.records), r, db.records)
  {
    var target := Get(v, "primary");
    var mediator := Get(v, "upstream_interactor");
    var context := ChainContext(main, mediator, target, GetOr(v, "functions", JArr([])), render);
    if context.Err? {
      return Err(context.error);
    }
    var resultJson := LlmResponseParser.ExtractJson(Some(ask(k, context.value)), parse);
    if resultJson.Err? || !Truthy(resultJson.value) {
      return Ok(None);
    }
    var result := resultJson.value;
    if !result.JObj? {
      return Err(AttributeError);
    }
    var interactionData := NewInteraction(target, result.fields, main);
    var existing := db.GetAllInteractions(mediator);
    var existingInt := FirstWithPrimary(existing, target);
    if existingInt.Err? {
      return Err(existingInt.error);
    }
    var merged := Merge(existingInt.value, result.fields, interactionData);
    if merged.Err? {
      return Err(merged.error);
    }
    db.SaveInteraction(mediator, target, merged.value);
    return Ok(Some(Put(v, TagKey, LinkTag(mediator, target, render))));
  }

  /** `for interactor in indirect_interactors`: the interactors with the
      linked ones tagged, or the exception that escaped, and the count. The
      ghost `step` stands for `Stepper(main, ask, parse, render)`, so that the
      loop is argued about turns without looking inside one. */
  method LinkSelected(interactors: seq<Json>, sel: seq<nat>, main: Json, db: InteractionStore,
                      ask: (nat, string) -> string, parse: string -> Option<Json>, render: Json -> string,
                      ghost step: StepFn)
    returns (r: Result<seq<Json>, PyException>, linkedCount: nat)
    requires ValidSelection(sel, interactors)
    requires step == Stepper(main, ask, parse, render)
    modifies db
    ensures var h := LinkFrom(LinkState(interactors, old(db.records), 0), sel, 0, step);
      && r == (if h.raised.Some? then Err(h.raised.value) else Ok(h.st.interactors))
      && linkedCount == h.st.linked && db.records == h.st.store
  {
    ghost var h := LinkFrom(LinkState(interactors, db.records, 0), sel, 0, step);
    var current := interactors;
    linkedCount := 0;
    var k := 0;
    while k < |sel|
      invariant k <= |sel|
      invariant ValidSelection(sel, current)
      invariant h == LinkFrom(LinkState(current, db.records, linkedCount), sel, k, step)
      decreases |sel| - k
    {
      var j := sel[k];
      ghost var st := LinkState(current, db.records, linkedCount);
      var linked := LinkInteractor(current[j].fields, k, main, db, ask, parse, render);
      assert step(current[j].fields, k, st.store) == Step(current[j].fields, k, main, st.store, ask, parse, render);
      LinkAdvance(st, sel, k, step, linked, db.records);
      if linked.Err? {
        return Err(linked.error), linkedCount;
      }
      if linked.value.Some? {
        current := current[j := JObj(linked.value.value)];
        linkedCount := linkedCount + 1;
      }
      assert LinkState(current, db.records, linkedCount) == AfterTurn(st, j, linked.value, db.records);
      k := k + 1;
    }
    return Ok(current), linkedCount;
  }

  /** `process_indirect_chain`: returns `ctx_json` with the linked
      interactors tagged, or the exception that escaped, and
      `linked_count`; the database keeps every save made before an
      exception. */
  method ProcessIndirectChain(ctx: Fields, apiKey: string, envKey: Option<string>, db: InteractionStore,
                              ask: (nat, string) -> string, parse: string -> Option<Json>, render: Json -> string)
    returns (r: Result<Fields, PyException>, linkedCount: nat)
    modifies db
    ensures var o := Process(ctx, apiKey, envKey, old(db.records), ask, parse, render);
      r == o.result && linkedCount == o.linked && db.records == o.store
  {
    if !KeyFound(apiKey, envKey) {
      return Ok(ctx), 0;
    }
    var main := Get(ctx, "main");
    var iterated := Iterate(GetOr(ctx, "interactors", JArr([])));
    if iterated.Err? {
      return Err(iterated.error), 0;
    }
    var interactors := iterated.value;
    var selected := SelectIndirect(interactors);
    if selected.Err? {
      return Err(selected.error), 0;
    }
    var sel := selected.value;
    if sel == [] {
      return Ok(ctx), 0;
    }
    SelectFromSpec(interactors, 0);
    var linked: Result<seq<Json>, PyException>;
    linked, linkedCount := LinkSelected(interactors, sel, main, db, ask, parse, render, Stepper(main, ask, parse, render));
    if linked.Err? {
      return Err(linked.error), linkedCount;
    }
    return Ok(Put(ctx, "interactors", JArr(linked.value))), linkedCount;
  }
}
