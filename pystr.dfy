/** The Python `str` builtins the services rely on: `strip()`, `lower()`,
    substring search, `" ".join(...)` and `str(int)`. */
module PyStr {

  /** The characters for which Python's `str.isspace()` holds; `strip()`
      with no argument removes exactly these. */
  predicate IsSpace(c: char)
  {
    var n := c as int;
    || 0x09 <= n <= 0x0D || 0x1C <= n <= 0x20
    || n == 0x85 || n == 0xA0 || n == 0x1680
    || 0x2000 <= n <= 0x200A
    || n == 0x2028 || n == 0x2029 || n == 0x202F || n == 0x205F || n == 0x3000
  }

  predicate AllSpace(s: string)
  {
    forall k :: 0 <= k < |s| ==> IsSpace(s[k])
  }

  /** `s.lstrip()`: drops the leading whitespace and nothing else. */
  function LStrip(s: string): (r: string)
    ensures |r| <= |s| && r == s[|s| - |r|..]
    ensures forall k :: 0 <= k < |s| - |r| ==> IsSpace(s[k])
    ensures r == [] || !IsSpace(r[0])
    decreases |s|
  {
    if |s| > 0 && IsSpace(s[0]) then LStrip(s[1..]) else s
  }

  /** `s.rstrip()`: drops the trailing whitespace and nothing else. */
  function RStrip(s: string): (r: string)
    ensures |r| <= |s| && r == s[..|r|]
    ensures forall k :: |r| <= k < |s| ==> IsSpace(s[k])
    ensures r == [] || !IsSpace(r[|r| - 1])
    decreases |s|
  {
    if |s| > 0 && IsSpace(s[|s| - 1]) then RStrip(s[..|s| - 1]) else s
  }

  /** `s.strip()`. */
  function Strip(s: string): string
  {
    RStrip(LStrip(s))
  }

  /** Where `Strip(s)` starts inside `s`. */
  function StripStart(s: string): (i: nat)
    ensures i <= |s|
  {
    |s| - |LStrip(s)|
  }

  /** `Strip(s)` is the infix of `s` that starts at `StripStart(s)`. */
  lemma StripIsInfix(s: string)
    ensures StripStart(s) + |Strip(s)| <= |s|
    ensures Strip(s) == s[StripStart(s)..StripStart(s) + |Strip(s)|]
  {
    SliceOfSuffix(s, StripStart(s), LStrip(s), Strip(s));
  }

  /** A prefix of a suffix is an infix. */
  lemma SliceOfSuffix<T>(s: seq<T>, i: nat, l: seq<T>, r: seq<T>)
    requires i <= |s| && l == s[i..]
    requires |r| <= |l| && r == l[..|r|]
    ensures i + |r| <= |s| && r == s[i..i + |r|]
  {
  }

  /** `Strip(s)` neither starts nor ends with whitespace. */
  lemma StripEdges(s: string)
    ensures Strip(s) == [] || (!IsSpace(Strip(s)[0]) && !IsSpace(Strip(s)[|Strip(s)| - 1]))
  {
    var l := LStrip(s);
    var r := Strip(s);
    if r != [] {
      assert r[0] == l[0];
    }
  }

  /** `Strip(s)` is the infix `s[i..i + |r|]` with only whitespace before
      and after it, and it neither starts nor ends with whitespace. */
  lemma StripSpec(s: string)
    ensures var i, r := StripStart(s), Strip(s);
      && i + |r| <= |s|
      && r == s[i..i + |r|]
      && (forall k :: 0 <= k < i ==> IsSpace(s[k]))
      && (forall k :: i + |r| <= k < |s| ==> IsSpace(s[k]))
      && (r == [] || (!IsSpace(r[0]) && !IsSpace(r[|r| - 1])))
  {
    StripIsInfix(s);
    StripEdges(s);
    var l := LStrip(s);
    var i, r := StripStart(s), Strip(s);
    forall k | i + |r| <= k < |s| ensures IsSpace(s[k]) {
      assert s[k] == l[k - i];
    }
  }

  /** `s.strip()` is empty exactly when `s` is all whitespace. */
  lemma StripEmptyIff(s: string)
    ensures Strip(s) == [] <==> AllSpace(s)
  {
    StripSpec(s);
    var l := LStrip(s);
    assert Strip(s) == [] ==> l == [];
  }

  /** A string without whitespace at either end is its own `strip()`. */
  lemma StripOfTrimmed(s: string)
    requires s == [] || (!IsSpace(s[0]) && !IsSpace(s[|s| - 1]))
    ensures Strip(s) == s
  {
    assert LStrip(s) == s;
  }

  /** `strip()` is idempotent. */
  lemma StripIdempotent(s: string)
    ensures Strip(Strip(s)) == Strip(s)
  {
    StripSpec(s);
    StripOfTrimmed(Strip(s));
  }

  /** If the non-empty, edge-trimmed `u` occurs at `a` in `s`, it occurs in
      `s.strip()`: its two end characters are not whitespace, so both lie in
      the span that `strip()` keeps. */
  lemma StripInfixAt(s: string, a: nat, u: string)
    requires u != [] && !IsSpace(u[0]) && !IsSpace(u[|u| - 1])
    requires OccursAt(s, u, a)
    ensures Contains(Strip(s), u)
  {
    StripSpec(s);
    var i, r := StripStart(s), Strip(s);
    assert s[a] == u[0];
    assert s[a + |u| - 1] == u[|u| - 1];
    InfixWithin(s, i, r, a, u);
  }

  /** An occurrence lying inside the span of the infix `r` of `s` that
      starts at `i` is an occurrence in `r`. */
  lemma InfixWithin(s: string, i: nat, r: string, a: nat, u: string)
    requires i + |r| <= |s| && r == s[i..i + |r|]
    requires i <= a && a + |u| <= i + |r|
    requires OccursAt(s, u, a)
    ensures OccursAt(r, u, a - i)
  {
    forall k | 0 <= k < |u| ensures r[a - i + k] == u[k] {
      assert r[a - i + k] == s[a + k];
      assert s[a + k] == s[a..a + |u|][k];
    }
    assert r[a - i..a - i + |u|] == u;
  }

  /** Stripping a text keeps everything of an occurrence `t` in it but the
      occurrence's own edge whitespace: `t.strip()` is still found. */
  lemma StripKeepsOccurrence(s: string, t: string, b: nat)
    requires OccursAt(s, t, b)
    ensures Contains(Strip(s), Strip(t))
  {
    var u := Strip(t);
    StripIsInfix(t);
    StripEdges(t);
    var p := StripStart(t);
    if u == [] {
      assert OccursAt(Strip(s), u, 0);
    } else {
      assert OccursAt(t, u, p);
      OccursAtCompose(s, t, u, b, p);
      StripInfixAt(s, b + p, u);
    }
  }

  /** Stripping `x + t + y` keeps `t.strip()`. */
  lemma StripKeepsInfix(x: string, t: string, y: string)
    ensures Contains(Strip(x + t + y), Strip(t))
  {
    ConcatOccursAt(x, t, y);
    StripKeepsOccurrence(x + t + y, t, |x|);
  }

  /** Python's `c.lower()` on the ASCII letters. */
  function LowerChar(c: char): char
  {
    if 'A' <= c <= 'Z' then (c as int + 32) as char else c
  }

  /** `s.lower()`: same length, each character mapped by `LowerChar`. */
  function Lower(s: string): (r: string)
    ensures |r| == |s|
    ensures forall k :: 0 <= k < |s| ==> r[k] == LowerChar(s[k])
  {
    seq(|s|, k requires 0 <= k < |s| => LowerChar(s[k]))
  }

  predicate IsLowerCase(s: string)
  {
    forall k :: 0 <= k < |s| ==> !('A' <= s[k] <= 'Z')
  }

  /** Lower-casing yields a lower-case string, and a lower-case string is
      its own lower case; together: `lower()` is idempotent. */
  lemma LowerIsLowerCase(s: string)
    ensures IsLowerCase(Lower(s))
    ensures IsLowerCase(s) ==> Lower(s) == s
    ensures Lower(Lower(s)) == Lower(s)
  {
  }

  /** `p` occurs in `text` starting at index `i`. */
  predicate OccursAt(text: string, p: string, i: nat)
  {
    i + |p| <= |text| && text[i..i + |p|] == p
  }

  /** Python's `p in text`, and `re.search(p, text)` for a pattern without
      metacharacters. */
  predicate Contains(text: string, p: string)
  {
    exists i: nat :: i <= |text| && OccursAt(text, p, i)
  }

  /** An occurrence inside an occurrence is an occurrence. */
  lemma OccursAtCompose(a: string, b: string, c: string, i: nat, j: nat)
    requires OccursAt(a, b, i) && OccursAt(b, c, j)
    ensures OccursAt(a, c, i + j)
  {
    forall k | 0 <= k < |c| ensures a[i + j + k] == c[k] {
      assert c[k] == b[j + k];
      assert b[j + k] == a[i..i + |b|][j + k];
    }
    assert a[i + j..i + j + |c|] == c;
  }

  /** The middle part of a concatenation occurs right after the first. */
  lemma ConcatOccursAt(x: string, t: string, y: string)
    ensures OccursAt(x + t + y, t, |x|)
  {
    assert (x + t + y)[|x|..|x| + |t|] == t;
  }

  lemma ContainsInfix(x: string, t: string, y: string)
    ensures Contains(x + t + y, t)
  {
    ConcatOccursAt(x, t, y);
  }

  /** A pattern with a character the text lacks cannot occur in it. */
  lemma NotContainsMissingChar(text: string, p: string, k: nat)
    requires k < |p| && p[k] !in text
    ensures !Contains(text, p)
  {
    assert forall i: nat :: i <= |text| && OccursAt(text, p, i) ==> text[i + k] == p[k];
  }

  /** Dropping one trailing space from an otherwise trimmed text is all
      that `strip()` does to it. */
  lemma StripTrailingSpace(x: string)
    requires x != [] && !IsSpace(x[0]) && !IsSpace(x[|x| - 1])
    ensures Strip(x + " ") == x
  {
    var s := x + " ";
    assert LStrip(s) == s;
    assert s[..|s| - 1] == x;
    StripOfTrimmed(x);
  }

  /** A pattern longer than the text cannot occur in it. */
  lemma NotContainsLonger(text: string, p: string)
    requires |text| < |p|
    ensures !Contains(text, p)
  {
  }

  /** `sep.join(parts)`. */
  function Join(sep: string, parts: seq<string>): string
    decreases |parts|
  {
    if |parts| == 0 then ""
    else if |parts| == 1 then parts[0]
    else Join(sep, parts[..|parts| - 1]) + sep + parts[|parts| - 1]
  }

  /** With a non-empty separator the join is empty only when there is
      nothing to join or the one part is itself empty. */
  lemma {:induction false} JoinEmptyIff(sep: string, parts: seq<string>)
    requires sep != ""
    ensures Join(sep, parts) == "" <==> parts == [] || parts == [""]
  {
    if |parts| > 1 {
      assert |Join(sep, parts)| >= |sep|;
    } else if |parts| == 1 {
      assert parts == [parts[0]];
    }
  }

  /** Every joined part is found in the join, at the returned index. */
  lemma {:induction false} JoinContainsParts(sep: string, parts: seq<string>, k: nat) returns (at: nat)
    requires k < |parts|
    ensures OccursAt(Join(sep, parts), parts[k], at)
    ensures Contains(Join(sep, parts), parts[k])
    decreases |parts|
  {
    var last := parts[|parts| - 1];
    if |parts| == 1 {
      ConcatOccursAt("", parts[0], "");
      assert "" + parts[0] + "" == parts[0];
      at := 0;
    } else if k == |parts| - 1 {
      var pre := Join(sep, parts[..k]) + sep;
      ConcatOccursAt(pre, last, "");
      assert pre + last + "" == Join(sep, parts);
      at := |pre|;
    } else {
      var init := parts[..|parts| - 1];
      var inner := JoinContainsParts(sep, init, k);
      ConcatOccursAt("", Join(sep, init), sep + last);
      assert "" + Join(sep, init) + (sep + last) == Join(sep, parts);
      OccursAtCompose(Join(sep, parts), Join(sep, init), parts[k], 0, inner);
      at := inner;
    }
  }

  /** The decimal digits of `n`, as Python's `str(n)` writes them. */
  function NatToString(n: nat): (r: string)
    ensures |r| > 0 && forall k :: 0 <= k < |r| ==> '0' <= r[k] <= '9'
    ensures |r| > 1 ==> r[0] != '0'
    decreases n
  {
    if n < 10 then [DigitChar(n)] else NatToString(n / 10) + [DigitChar(n % 10)]
  }

  function DigitChar(d: nat): (c: char)
    requires d < 10
    ensures '0' <= c <= '9'
  {
    ('0' as int + d) as char
  }

  /** `str(n)` for any integer: a minus sign before the digits of `|n|`. */
  function IntToString(n: int): string
  {
    if n < 0 then "-" + NatToString(-n) else NatToString(n)
  }

  /** Reads a non-empty string of decimal digits back as a number. */
  function ParseDigits(s: string): nat
    requires forall k :: 0 <= k < |s| ==> '0' <= s[k] <= '9'
    decreases |s|
  {
    if |s| == 0 then 0
    else 10 * ParseDigits(s[..|s| - 1]) + (s[|s| - 1] as int - '0' as int)
  }

  /** The decimal rendering reads back as the same number, so distinct
      numbers render differently. */
  lemma {:induction false} NatToStringRoundTrip(n: nat)
    ensures ParseDigits(NatToString(n)) == n
    decreases n
  {
    var r := NatToString(n);
    if n >= 10 {
      NatToStringRoundTrip(n / 10);
      assert r[..|r| - 1] == NatToString(n / 10);
    }
  }
}
