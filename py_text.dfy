/** The Python text primitives the three utilities rely on: `str.isspace`
    (also what `\s` matches in a `re` pattern over `str`), `strip` with and
    without an argument, `find`/`rfind` of one character, `startswith` and
    `endswith`. */
module PyText {

  /** `c.isspace()`: the characters CPython's `Py_UNICODE_ISSPACE` accepts. */
  predicate IsSpace(c: char)
  {
    var n := c as int;
    (0x09 <= n <= 0x0D) || (0x1C <= n <= 0x20) || n == 0x85 || n == 0xA0 ||
    n == 0x1680 || (0x2000 <= n <= 0x200A) || n == 0x2028 || n == 0x2029 ||
    n == 0x202F || n == 0x205F || n == 0x3000
  }

  predicate IsBacktick(c: char)
  {
    c == '`'
  }

  /** Every character of `s` is one that `drop` removes. */
  predicate All(s: string, drop: char -> bool)
  {
    forall i :: 0 <= i < |s| ==> drop(s[i])
  }

  /** `s.lstrip(chars)`: the longest suffix of `s` that does not start with a
      dropped character. */
  function LStripChars(s: string, drop: char -> bool): (r: string)
    ensures |r| <= |s| && r == s[|s| - |r|..]
    ensures All(s[..|s| - |r|], drop)
    ensures r == [] || !drop(r[0])
  {
    if |s| > 0 && drop(s[0]) then
      var r := LStripChars(s[1..], drop);
      assert s[1..][..|s| - 1 - |r|] == s[1..|s| - |r|];
      r
    else
      s
  }

  /** `s.rstrip(chars)`: the longest prefix of `s` that does not end with a
      dropped character. */
  function RStripChars(s: string, drop: char -> bool): (r: string)
    ensures |r| <= |s| && r == s[..|r|]
    ensures All(s[|r|..], drop)
    ensures r == [] || !drop(r[|r| - 1])
  {
    if |s| > 0 && drop(s[|s| - 1]) then
      var r := RStripChars(s[..|s| - 1], drop);
      assert s[..|s| - 1][|r|..] == s[|r|..|s| - 1];
      r
    else
      s
  }

  /** `s.strip(chars)`. */
  function StripChars(s: string, drop: char -> bool): string
  {
    RStripChars(LStripChars(s, drop), drop)
  }

  /** `s.strip()` and `s.lstrip()` with no argument. */
  function Strip(s: string): string
  {
    StripChars(s, IsSpace)
  }

  function LStrip(s: string): string
  {
    LStripChars(s, IsSpace)
  }

  /** `s.startswith(p)` and `s.endswith(p)`. */
  predicate StartsWith(s: string, p: string)
  {
    |p| <= |s| && s[..|p|] == p
  }

  predicate EndsWith(s: string, p: string)
  {
    |p| <= |s| && s[|s| - |p|..] == p
  }

  /** `s.find(c)`: the first index of `c`, or -1. */
  function Find(s: string, c: char): (r: int)
    ensures -1 <= r < |s|
    ensures r == -1 <==> c !in s
    ensures r >= 0 ==> s[r] == c && c !in s[..r]
  {
    if |s| == 0 then -1
    else if s[0] == c then 0
    else
      var k := Find(s[1..], c);
      assert s == [s[0]] + s[1..];
      if k == -1 then -1
      else
        assert s[..k + 1] == [s[0]] + s[1..][..k];
        k + 1
  }

  /** `s.rfind(c)`: the last index of `c`, or -1. */
  function RFind(s: string, c: char): (r: int)
    ensures -1 <= r < |s|
    ensures r == -1 <==> c !in s
    ensures r >= 0 ==> s[r] == c && c !in s[r + 1..]
  {
    if |s| == 0 then -1
    else if s[|s| - 1] == c then |s| - 1
    else
      var t := s[..|s| - 1];
      var k := RFind(t, c);
      assert s == t + [s[|s| - 1]];
      if k >= 0 then
        assert s[k] == t[k];
        assert s[k + 1..] == t[k + 1..] + [s[|s| - 1]];
        k
      else
        k
  }

  /** Leading dropped characters make no difference to `lstrip`. */
  lemma {:induction false} LStripPadded(ws: string, t: string, drop: char -> bool)
    requires All(ws, drop)
    ensures LStripChars(ws + t, drop) == LStripChars(t, drop)
  {
    if ws != [] {
      assert (ws + t)[0] == ws[0] && drop(ws[0]);
      assert (ws + t)[1..] == ws[1..] + t;
      assert All(ws[1..], drop) by {
        forall i | 0 <= i < |ws[1..]| ensures drop(ws[1..][i]) { assert ws[1..][i] == ws[i + 1]; }
      }
      LStripPadded(ws[1..], t, drop);
    } else {
      assert ws + t == t;
    }
  }

  /** Trailing dropped characters make no difference to `rstrip`. */
  lemma {:induction false} RStripPadded(t: string, ws: string, drop: char -> bool)
    requires All(ws, drop)
    ensures RStripChars(t + ws, drop) == RStripChars(t, drop)
  {
    if ws != [] {
      var n := |ws| - 1;
      assert (t + ws)[|t + ws| - 1] == ws[n] && drop(ws[n]);
      assert (t + ws)[..|t + ws| - 1] == t + ws[..n];
      assert All(ws[..n], drop) by {
        forall i | 0 <= i < n ensures drop(ws[..n][i]) { assert ws[..n][i] == ws[i]; }
      }
      RStripPadded(t, ws[..n], drop);
    } else {
      assert t + ws == t;
    }
  }

  /** `lstrip` of a concatenation: the second part is only reached when the
      first one is stripped away entirely. */
  lemma {:induction false} LStripConcat(x: string, y: string, drop: char -> bool)
    ensures LStripChars(x + y, drop) ==
            if LStripChars(x, drop) == [] then LStripChars(y, drop) else LStripChars(x, drop) + y
  {
    if x == [] {
      assert x + y == y;
    } else if drop(x[0]) {
      assert (x + y)[1..] == x[1..] + y;
      LStripConcat(x[1..], y, drop);
    }
  }

  /** Whitespace around a text never changes what `strip` returns. */
  lemma {:induction false} StripPadded(ws1: string, t: string, ws2: string)
    requires All(ws1, IsSpace) && All(ws2, IsSpace)
    ensures Strip(ws1 + t + ws2) == Strip(t)
  {
    assert ws1 + t + ws2 == ws1 + (t + ws2);
    LStripPadded(ws1, t + ws2, IsSpace);
    LStripConcat(t, ws2, IsSpace);
    if LStripChars(t, IsSpace) == [] {
      LStripPadded(ws2, [], IsSpace);
      assert ws2 + [] == ws2;
    } else {
      RStripPadded(LStripChars(t, IsSpace), ws2, IsSpace);
    }
  }

  /** The result of `strip` neither starts nor ends with whitespace, and it is
      what remains of `s` after cutting whitespace from both ends: the
      leading run that `lstrip` removes, and a trailing run. */
  lemma {:induction false} StripShape(s: string)
    ensures var r := Strip(s); var a := |s| - |LStrip(s)|;
      0 <= a <= |s| - |r| && r == s[a..a + |r|] &&
      All(s[..a], IsSpace) && All(s[a + |r|..], IsSpace) &&
      (r == [] || (!IsSpace(r[0]) && !IsSpace(r[|r| - 1])))
  {
    var l := LStripChars(s, IsSpace);
    var r := RStripChars(l, IsSpace);
    assert r == Strip(s) && l == LStrip(s);
    var a := |s| - |l|;
    assert r == s[a..a + |r|];
    assert s[a + |r|..] == l[|r|..];
    if r != [] {
      assert r[0] == l[0];
    }
  }
}
