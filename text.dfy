/** String helpers standing for the JavaScript built-ins the forms use:
    `trim`, `toLowerCase` (ASCII only), `startsWith`, `join`, number-to-string,
    and the unanchored regular-expression test `/\S+@\S+\.\S+/.test(s)`. */
module Text {

  /** ECMAScript white space and line terminators: what `\s` matches and `trim` removes. */
  predicate IsSpace(c: char)
  {
    c in {'\U{9}', '\U{A}', '\U{B}', '\U{C}', '\U{D}', '\U{20}', '\U{A0}', '\U{1680}',
          '\U{2000}', '\U{2001}', '\U{2002}', '\U{2003}', '\U{2004}', '\U{2005}', '\U{2006}', '\U{2007}',
          '\U{2008}', '\U{2009}', '\U{200A}', '\U{2028}', '\U{2029}', '\U{202F}', '\U{205F}', '\U{3000}',
          '\U{FEFF}'}
  }

  predicate AllSpace(s: string)
  {
    forall i :: 0 <= i < |s| ==> IsSpace(s[i])
  }

  function TrimStart(s: string): (r: string)
    ensures r == [] || !IsSpace(r[0])
    ensures |r| <= |s| && r == s[|s| - |r|..]
    ensures AllSpace(s[..|s| - |r|])
  {
    if s != [] && IsSpace(s[0]) then
      var r := TrimStart(s[1..]);
      assert s[1..][..|s| - 1 - |r|] == s[1..|s| - |r|];
      assert s[1..][|s| - 1 - |r|..] == s[|s| - |r|..];
      r
    else s
  }

  function TrimEnd(s: string): (r: string)
    ensures r == [] || !IsSpace(r[|r| - 1])
    ensures r <= s
    ensures AllSpace(s[|r|..])
  {
    if s != [] && IsSpace(s[|s| - 1]) then
      var r := TrimEnd(s[..|s| - 1]);
      assert s[|r|..] == s[..|s| - 1][|r|..] + [s[|s| - 1]];
      r
    else s
  }

  /** `r` is the piece of `s` at offset `k`, with nothing but white space before and after it. */
  predicate PaddedAt(s: string, r: string, k: int)
  {
    0 <= k <= |s| - |r| && r == s[k..k + |r|] && AllSpace(s[..k]) && AllSpace(s[k + |r|..])
  }

  /** A white-space prefix cut off, then a white-space suffix: what is left is padded
      in `s` at the length of that prefix. */
  lemma SliceParts(s: string, t: string, r: string)
    requires |t| <= |s| && t == s[|s| - |t|..] && AllSpace(s[..|s| - |t|])
    requires r <= t && AllSpace(t[|r|..])
    ensures PaddedAt(s, r, |s| - |t|)
  {
    var k := |s| - |t|;
    assert r == s[k..k + |r|];
    assert s[k + |r|..] == t[|r|..];
  }

  /** `s.trim()`: `s` with the white space at both of its ends removed. */
  function Trim(s: string): (r: string)
    ensures r == [] || (!IsSpace(r[0]) && !IsSpace(r[|r| - 1]))
    ensures exists k :: PaddedAt(s, r, k)
  {
    SliceParts(s, TrimStart(s), TrimEnd(TrimStart(s)));
    TrimEnd(TrimStart(s))
  }

  /** `!s.trim()`: the text is blank exactly when every character is white space. */
  lemma BlankIffAllSpace(s: string)
    ensures Trim(s) == [] <==> AllSpace(s)
  {
    var t := TrimStart(s);
    var r := TrimEnd(t);
    var k := |s| - |t|;
    if r == [] {
      assert AllSpace(t[|r|..]);
      assert t[|r|..] == t;
      assert t == [];
      assert s[..|s| - |t|] == s;
    } else {
      assert r[0] == t[0];
      assert t[0] == s[k];
      assert !IsSpace(s[k]);
    }
  }

  /** `s.toLowerCase()` for ASCII letters; every other character is kept. */
  function Lower(s: string): (r: string)
    ensures |r| == |s|
    ensures forall i :: 0 <= i < |s| && !('A' <= s[i] <= 'Z') ==> r[i] == s[i]
    ensures forall i :: 0 <= i < |s| ==> !('A' <= r[i] <= 'Z')
    ensures forall i :: 0 <= i < |s| && 'A' <= s[i] <= 'Z' ==> r[i] as int == s[i] as int + 32
  {
    seq(|s|, i requires 0 <= i < |s| =>
      if 'A' <= s[i] <= 'Z' then (s[i] as int - 'A' as int + 'a' as int) as char else s[i])
  }

  /** `a.toLowerCase() === b.toLowerCase()`. */
  predicate SameIgnoringCase(a: string, b: string)
  {
    Lower(a) == Lower(b)
  }

  /** The '@' at index `at` and the '.' at index `dot` of `s` complete a match of
      `\S+@\S+\.\S+`: a non-space before the '@', only non-spaces (at least one)
      between them, and a non-space after the '.'. */
  predicate EmailMatchAt(s: string, at: int, dot: int)
  {
    0 < at && at + 1 < dot && dot + 1 < |s| &&
    s[at] == '@' && s[dot] == '.' && !IsSpace(s[at - 1]) && !IsSpace(s[dot + 1]) &&
    forall m :: at < m < dot ==> !IsSpace(s[m])
  }

  /** `/\S+@\S+\.\S+/.test(s)`. The test is unanchored, so anything may come before
      or after the matching part. */
  predicate EmailLike(s: string)
    ensures EmailLike(s) ==> |s| >= 5 && '@' in s && '.' in s
  {
    exists at, dot | 0 <= at < |s| && 0 <= dot < |s| :: EmailMatchAt(s, at, dot)
  }

  /** Surrounding text never turns a match into a non-match. */
  lemma EmailLikeUnanchored(pre: string, s: string, post: string)
    requires EmailLike(s)
    ensures EmailLike(pre + s + post)
  {
    var at, dot :| 0 <= at < |s| && 0 <= dot < |s| && EmailMatchAt(s, at, dot);
    var t := pre + s + post;
    var n := |pre|;
    assert forall i :: 0 <= i < |s| ==> t[n + i] == s[i];
    assert forall m :: n + at < m < n + dot ==> !IsSpace(t[m]) by {
      forall m | n + at < m < n + dot ensures !IsSpace(t[m]) {
        assert t[m] == s[m - n];
      }
    }
    assert EmailMatchAt(t, n + at, n + dot);
  }

  /** Without an '@' nothing matches. */
  lemma EmailLikeNeedsAt(s: string)
    requires forall i :: 0 <= i < |s| ==> s[i] != '@'
    ensures !EmailLike(s)
  {
  }

  function DigitValue(c: char): nat
  {
    if '0' <= c <= '9' then c as int - '0' as int else 0
  }

  /** The number a string of decimal digits denotes, most significant digit first. */
  function DigitsValue(s: string): nat
  {
    if s == [] then 0 else DigitsValue(s[..|s| - 1]) * 10 + DigitValue(s[|s| - 1])
  }

  /** Decimal digits of a natural number, as template literals print it: they denote
      `n`, and only 0 itself starts with a zero. */
  function NatToString(n: nat): (r: string)
    ensures |r| >= 1
    ensures forall i :: 0 <= i < |r| ==> '0' <= r[i] <= '9'
    ensures DigitsValue(r) == n
    ensures r[0] == '0' ==> n == 0
    ensures n >= 10 ==> |r| >= 2
    decreases n
  {
    var d := [(n % 10 + '0' as int) as char];
    if n < 10 then d
    else
      var r := NatToString(n / 10) + d;
      assert r[..|r| - 1] == NatToString(n / 10);
      r
  }

  /** `s` is a number followed by `unit`: only digits before `unit`, and they denote `n`. */
  predicate ReadsAs(s: string, n: nat, unit: string)
  {
    |unit| < |s| && s[|s| - |unit|..] == unit &&
    (forall i :: 0 <= i < |s| - |unit| ==> '0' <= s[i] <= '9') &&
    DigitsValue(s[..|s| - |unit|]) == n
  }

  /** A printed number followed by a unit reads back as that number. */
  lemma NumberThenUnit(n: nat, unit: string)
    ensures ReadsAs(NatToString(n) + unit, n, unit)
  {
    var s := NatToString(n) + unit;
    assert s[..|s| - |unit|] == NatToString(n);
    assert s[|s| - |unit|..] == unit;
  }

  /** The UTF-16 code units of one character: two for a character beyond U+FFFF. */
  function Utf16Units(c: char): nat
  {
    if c as int >= 0x1_0000 then 2 else 1
  }

  /** `s.length`: JavaScript strings count UTF-16 code units, so a character beyond
      U+FFFF counts twice. */
  function Utf16Length(s: string): (r: nat)
    ensures |s| <= r <= 2 * |s|
    ensures (forall i :: 0 <= i < |s| ==> s[i] as int < 0x1_0000) ==> r == |s|
  {
    if s == [] then 0 else Utf16Units(s[0]) + Utf16Length(s[1..])
  }

  /** The length of a concatenation is the sum of the lengths. */
  lemma {:induction false} Utf16LengthConcat(a: string, b: string)
    ensures Utf16Length(a + b) == Utf16Length(a) + Utf16Length(b)
  {
    if a != [] {
      assert (a + b)[1..] == a[1..] + b;
      Utf16LengthConcat(a[1..], b);
    } else {
      assert a + b == b;
    }
  }

  /** `items.join(sep)`. */
  function Join(items: seq<string>, sep: string): (r: string)
    ensures items == [] ==> r == []
    ensures |items| == 1 ==> r == items[0]
  {
    if items == [] then []
    else if |items| == 1 then items[0]
    else items[0] + sep + Join(items[1..], sep)
  }

  /** Three items are joined with the separator between neighbours. */
  lemma JoinThree(a: string, b: string, c: string, sep: string)
    ensures Join([a, b, c], sep) == a + sep + b + sep + c
  {
    JoinSnoc([a], sep, b);
    assert [a] + [b] == [a, b];
    JoinSnoc([a, b], sep, c);
    assert [a, b] + [c] == [a, b, c];
  }

  /** One more item adds the separator and that item at the end. */
  lemma {:induction false} JoinSnoc(items: seq<string>, sep: string, y: string)
    requires items != []
    ensures Join(items + [y], sep) == Join(items, sep) + sep + y
  {
    var s := items + [y];
    assert s[1..] == items[1..] + [y];
    if |items| > 1 {
      JoinSnoc(items[1..], sep, y);
    }
  }
}
