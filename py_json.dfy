/** JSON values as `json.loads` builds them in Python, and the Python
    operations the utilities apply to them: `dict.get`, item assignment,
    truthiness, `int()`, iteration, `==` and `str()`. */
module PyJson {
  import opened Wrappers
  import opened PyText

  /** A JSON number that became a Python `float`: its exact value, or one of
      the values of the literals `Infinity`, `-Infinity` and `NaN`, which
      `json.loads` accepts. */
  datatype Float = Finite(r: real) | PosInf | NegInf | NaN

  /** A decoded JSON value. An object keeps its keys in insertion order, as a
      Python `dict` does. */
  datatype Json =
    | JNull
    | JBool(b: bool)
    | JInt(i: int)
    | JFloat(f: Float)
    | JStr(s: string)
    | JArr(items: seq<Json>)
    | JObj(fields: seq<(string, Json)>)

  type Fields = seq<(string, Json)>

  /** The Python exceptions the utilities can raise or catch. */
  datatype PyException = TypeError | ValueError | AttributeError | KeyError | OverflowError

  /** The value stored under `key`, if any. */
  function Lookup(f: Fields, key: string): Option<Json>
  {
    if |f| == 0 then None
    else if f[0].0 == key then Some(f[0].1)
    else Lookup(f[1..], key)
  }

  /** A key that is present is found at its first entry. */
  lemma {:induction false} LookupSpec(f: Fields, key: string)
    ensures Lookup(f, key).None? <==> forall i :: 0 <= i < |f| ==> f[i].0 != key
    ensures Lookup(f, key).Some? ==> exists i :: 0 <= i < |f| && f[i] == (key, Lookup(f, key).value) &&
                                                forall j :: 0 <= j < i ==> f[j].0 != key
  {
    if |f| > 0 && f[0].0 != key {
      LookupSpec(f[1..], key);
      assert forall i :: 0 < i < |f| ==> f[i] == f[1..][i - 1];
      if Lookup(f, key).Some? {
        var i :| 0 <= i < |f[1..]| && f[1..][i] == (key, Lookup(f, key).value) &&
                 forall j :: 0 <= j < i ==> f[1..][j].0 != key;
        assert f[i + 1] == f[1..][i];
      }
    }
  }

  /** The first entry of a literal dict and what follows it. */
  lemma {:induction false} LookupCons(k: string, v: Json, rest: Fields, key: string)
    ensures Lookup([(k, v)] + rest, key) == if k == key then Some(v) else Lookup(rest, key)
  {
    assert ([(k, v)] + rest)[1..] == rest;
  }

  predicate HasKey(f: Fields, key: string)
  {
    Lookup(f, key).Some?
  }

  /** `d.get(key, default)`. */
  function GetOr(f: Fields, key: string, default: Json): Json
  {
    match Lookup(f, key)
    case Some(v) => v
    case None => default
  }

  /** `d.get(key)`, which gives `None` for a missing key. */
  function Get(f: Fields, key: string): Json
  {
    GetOr(f, key, JNull)
  }

  /** `d[key] = v`: an existing key keeps its place and takes the new value; a
      new key goes last. */
  function Put(f: Fields, key: string, v: Json): (r: Fields)
    ensures Lookup(r, key) == Some(v)
    ensures forall k :: k != key ==> Lookup(r, k) == Lookup(f, k)
    ensures HasKey(f, key) ==> |r| == |f| && forall i :: 0 <= i < |f| ==> r[i].0 == f[i].0
    ensures !HasKey(f, key) ==> r == f + [(key, v)]
  {
    if |f| == 0 then [(key, v)]
    else if f[0].0 == key then [(key, v)] + f[1..]
    else [f[0]] + Put(f[1..], key, v)
  }

  /** `bool(v)`. */
  predicate Truthy(v: Json)
  {
    match v
    case JNull => false
    case JBool(b) => b
    case JInt(n) => n != 0
    case JFloat(x) => !(x.Finite? && x.r == 0.0)
    case JStr(s) => s != []
    case JArr(xs) => xs != []
    case JObj(f) => f != []
  }

  /** `int(x)` of a finite float: truncation toward zero. */
  function Trunc(x: real): (n: int)
    ensures 0.0 <= x ==> n as real <= x < n as real + 1.0
    ensures x < 0.0 ==> n as real - 1.0 < x <= n as real
  {
    if x >= 0.0 then x.Floor else -((-x).Floor)
  }

  predicate IsDigit(c: char)
  {
    '0' <= c <= '9'
  }

  /** The characters `int()` skips around the digits of a string: every
      Unicode space except the four ASCII separators U+001C..U+001F, which
      CPython passes through unchanged and then rejects. */
  predicate IntSpace(c: char)
  {
    IsSpace(c) && !(0x1C <= c as int <= 0x1F)
  }

  /** Decimal digits with single underscores between them. */
  predicate DigitRun(s: string)
  {
    && |s| > 0 && IsDigit(s[0]) && IsDigit(s[|s| - 1])
    && (forall i :: 0 <= i < |s| ==> IsDigit(s[i]) || s[i] == '_')
    && (forall i :: 0 <= i < |s| - 1 ==> !(s[i] == '_' && s[i + 1] == '_'))
  }

  /** The number the digits of `s` spell, underscores skipped. */
  function DigitsValue(s: string): nat
  {
    if s == [] then 0
    else
      var c := s[|s| - 1];
      if IsDigit(c) then DigitsValue(s[..|s| - 1]) * 10 + (c as int - '0' as int)
      else DigitsValue(s[..|s| - 1])
  }

  /** `int(s)` for a `str` in base 10 (ASCII digits). */
  function IntOfString(s: string): Option<int>
  {
    IntOfStripped(StripChars(s, IntSpace))
  }

  /** An optional sign and then a digit run. */
  function IntOfStripped(t: string): Option<int>
  {
    if |t| > 0 && (t[0] == '+' || t[0] == '-') then
      var n: int := DigitsValue(t[1..]);
      if DigitRun(t[1..]) then Some(if t[0] == '-' then -n else n)
      else None
    else if DigitRun(t) then Some(DigitsValue(t))
    else None
  }

  /** `int(v)`. */
  function PyInt(v: Json): Result<int, PyException>
  {
    match v
    case JBool(b) => Ok(if b then 1 else 0)
    case JInt(n) => Ok(n)
    case JFloat(x) =>
      (match x
       case Finite(r) => Ok(Trunc(r))
       case NaN => Err(ValueError)
       case _ => Err(OverflowError))
    case JStr(s) =>
      (match IntOfString(s)
       case Some(n) => Ok(n)
       case None => Err(ValueError))
    case _ => Err(TypeError)
  }

  function DigitChar(d: nat): char
    requires d < 10
  {
    ('0' as int + d) as char
  }

  function Digits(n: nat): (s: string)
    decreases n
  {
    if n < 10 then [DigitChar(n)] else Digits(n / 10) + [DigitChar(n % 10)]
  }

  /** `str(n)` for an integer. */
  function DecimalString(n: int): string
  {
    if n < 0 then "-" + Digits(-n) else Digits(n)
  }

  /** `str(v)` for `None`, booleans, integers and strings; the text Python
      gives a float, list or dict is supplied by `render`. */
  function Show(v: Json, render: Json -> string): string
  {
    match v
    case JNull => "None"
    case JBool(b) => if b then "True" else "False"
    case JInt(n) => DecimalString(n)
    case JStr(s) => s
    case _ => render(v)
  }

  /** What `for x in v` visits: the items of a list, the one-character strings
      of a `str`, the keys of a `dict`; anything else is not iterable. */
  function Iterate(v: Json): Result<seq<Json>, PyException>
  {
    match v
    case JArr(xs) => Ok(xs)
    case JStr(s) => Ok(seq(|s|, i requires 0 <= i < |s| => JStr([s[i]])))
    case JObj(f) => Ok(seq(|f|, i requires 0 <= i < |f| => JStr(f[i].0)))
    case _ => Err(TypeError)
  }

  /** Python numbers compared across `bool`, `int` and `float`. */
  datatype Num = NumFin(r: real) | NumInf(positive: bool) | NumNaN

  function AsNumber(v: Json): Option<Num>
  {
    match v
    case JBool(b) => Some(NumFin(if b then 1.0 else 0.0))
    case JInt(n) => Some(NumFin(n as real))
    case JFloat(x) =>
      Some(match x
           case Finite(r) => NumFin(r)
           case PosInf => NumInf(true)
           case NegInf => NumInf(false)
           case NaN => NumNaN)
    case _ => None
  }

  /** `a == b` on decoded JSON values (objects with distinct keys). */
  predicate PyEq(a: Json, b: Json)
    decreases a
  {
    if AsNumber(a).Some? && AsNumber(b).Some? then
      AsNumber(a).value != NumNaN && AsNumber(a) == AsNumber(b)
    else
      match a
      case JNull => b == JNull
      case JStr(s) => b == JStr(s)
      case JArr(xs) =>
        b.JArr? && |xs| == |b.items| &&
        forall i :: 0 <= i < |xs| ==> PyEq(xs[i], b.items[i])
      case JObj(f) =>
        b.JObj? && |f| == |b.fields| &&
        forall i :: 0 <= i < |f| ==> HasKey(b.fields, f[i].0) && PyEq(f[i].1, Get(b.fields, f[i].0))
      case _ => false
  }

  /** Comparing with a string is plain equality. */
  lemma {:induction false} PyEqString(a: Json, s: string)
    ensures PyEq(a, JStr(s)) <==> a == JStr(s)
  {
  }

  /** Python's value equality identifies `True` with `1` and `False` with
      `0`, an integer with the float of the same value, floats by value, and
      sets `NaN` apart from everything, itself included, unlike structural
      equality. */
  lemma {:induction false} PyEqNumbers(b: bool, n: int, x: real, y: real, v: Json)
    ensures PyEq(JBool(b), JInt(if b then 1 else 0)) && PyEq(JInt(n), JFloat(Finite(n as real)))
    ensures PyEq(JInt(n), JBool(b)) <==> n == (if b then 1 else 0)
    ensures PyEq(JFloat(Finite(x)), JFloat(Finite(y))) <==> x == y
    ensures !PyEq(JFloat(NaN), v) && !PyEq(v, JFloat(NaN))
    ensures PyEq(JFloat(PosInf), v) <==> v == JFloat(PosInf)
  {
    if v == JFloat(NaN) {
      assert AsNumber(v) == Some(NumNaN);
    }
  }

  /** A string and a dict yield only strings when iterated: no element of a
      non-list is a dict. */
  lemma {:induction false} IterateNonListHasNoDicts(v: Json)
    ensures !v.JArr? && Iterate(v).Ok? ==> forall x :: x in Iterate(v).value ==> x.JStr?
  {
  }

  /** The digits of `n` spell `n`. */
  lemma {:induction false} DigitsSpellValue(n: nat)
    ensures DigitRun(Digits(n)) && !('_' in Digits(n))
    ensures DigitsValue(Digits(n)) == n
  {
    if n >= 10 {
      DigitsSpellValue(n / 10);
      var s := Digits(n);
      assert s[..|s| - 1] == Digits(n / 10);
    }
  }

  /** `int(str(n)) == n`. */
  lemma {:induction false} IntOfDecimalString(n: int)
    ensures IntOfString(DecimalString(n)) == Some(n)
  {
    var m := if n < 0 then -n else n;
    DigitsSpellValue(m);
    var d := Digits(m);
    if n < 0 {
      NegativeDigits(d);
      assert DecimalString(n) == "-" + d;
    } else {
      PlainDigits(d);
    }
  }

  /** `int()` strips nothing from a text that starts and ends with a
      non-space. */
  lemma {:induction false} Unstripped(s: string)
    requires |s| > 0 && !IntSpace(s[0]) && !IntSpace(s[|s| - 1])
    ensures StripChars(s, IntSpace) == s
  {
    assert LStripChars(s, IntSpace) == s;
    assert RStripChars(s, IntSpace) == s;
  }

  lemma {:induction false} PlainDigits(d: string)
    requires DigitRun(d)
    ensures IntOfString(d) == Some(DigitsValue(d))
  {
    Unstripped(d);
    assert IntOfStripped(d) == Some(DigitsValue(d)) by {
      assert !(d[0] == '+' || d[0] == '-');
    }
  }

  lemma {:induction false} NegativeDigits(d: string)
    requires DigitRun(d)
    ensures IntOfString("-" + d) == Some(-(DigitsValue(d) as int))
  {
    var s := "-" + d;
    assert s[|s| - 1] == d[|d| - 1];
    Unstripped(s);
    SignedDigits(d);
  }

  lemma {:induction false} SignedDigits(d: string)
    requires DigitRun(d)
    ensures IntOfStripped("-" + d) == Some(-(DigitsValue(d) as int))
  {
    assert ("-" + d)[1..] == d;
  }

  /** `int()` of a float truncates toward zero: the result lies within one of
      the float, on the zero side of it, and an integral float gives its own
      value. Both infinities and `NaN` cannot be converted. */
  lemma {:induction false} PyIntOfFloats(x: real, n: int)
    ensures PyInt(JFloat(Finite(x))).Ok?
    ensures var n := PyInt(JFloat(Finite(x))).value;
      && (0.0 <= x ==> 0 <= n && n as real <= x < n as real + 1.0)
      && (x < 0.0 ==> n <= 0 && n as real - 1.0 < x <= n as real)
    ensures PyInt(JFloat(Finite(n as real))) == Ok(n)
    ensures PyInt(JFloat(PosInf)) == Err(OverflowError) && PyInt(JFloat(NegInf)) == Err(OverflowError)
    ensures PyInt(JFloat(NaN)) == Err(ValueError)
  {
    assert PyInt(JFloat(Finite(x))) == Ok(Trunc(x));
    TruncOfInt(n);
    assert PyInt(JFloat(Finite(n as real))) == Ok(Trunc(n as real));
  }

  lemma {:induction false} TruncOfInt(n: int)
    ensures Trunc(n as real) == n
  {
    if n >= 0 {
      assert (n as real).Floor == n;
    } else {
      assert -(n as real) == (-n) as real;
      assert ((-n) as real).Floor == -n;
    }
  }
}
