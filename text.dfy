/**
  The few pieces of Python's `str` behaviour the core relies on: `strip()`,
  `rstrip(c)`/`lstrip(c)`, the substring test `a in b`, `startswith`,
  `int(text)` for decimal text, `str(n)` for an integer, and `<` on strings.
*/
module Text {
  import opened Wrappers

  /** The characters for which Python's `str.isspace()` holds, i.e. those `strip()` removes. */
  predicate IsSpace(c: char) {
    || ('\t' <= c <= '\r')
    || ('\U{1c}' <= c <= '\U{1f}')
    || c == ' '
    || c == '\U{85}'
    || c == '\U{a0}'
    || c == '\U{1680}'
    || ('\U{2000}' <= c <= '\U{200a}')
    || c == '\U{2028}'
    || c == '\U{2029}'
    || c == '\U{202f}'
    || c == '\U{205f}'
    || c == '\U{3000}'
  }

  predicate AllSpace(s: string) {
    forall k :: 0 <= k < |s| ==> IsSpace(s[k])
  }

  /** `s.lstrip()`: `s` after dropping its leading whitespace. */
  function TrimLeft(s: string): string {
    if |s| > 0 && IsSpace(s[0]) then TrimLeft(s[1..]) else s
  }

  /** `s.rstrip()`: `s` after dropping its trailing whitespace. */
  function TrimRight(s: string): string {
    if |s| > 0 && IsSpace(s[|s| - 1]) then TrimRight(s[..|s| - 1]) else s
  }

  /** `lstrip` leaves a suffix that does not start with whitespace; everything dropped is whitespace. */
  lemma {:induction false} TrimLeftSpec(s: string)
    ensures |TrimLeft(s)| <= |s| && TrimLeft(s) == s[|s| - |TrimLeft(s)|..]
    ensures AllSpace(s[..|s| - |TrimLeft(s)|])
    ensures TrimLeft(s) != [] ==> !IsSpace(TrimLeft(s)[0])
  {
    if |s| > 0 && IsSpace(s[0]) {
      TrimLeftSpec(s[1..]);
      var n := |s| - |TrimLeft(s)|;
      assert s[..n] == [s[0]] + s[1..][..n - 1];
    }
  }

  /** `rstrip` leaves a prefix that does not end in whitespace; everything dropped is whitespace. */
  lemma {:induction false} TrimRightSpec(s: string)
    ensures |TrimRight(s)| <= |s| && TrimRight(s) == s[..|TrimRight(s)|]
    ensures AllSpace(s[|TrimRight(s)|..])
    ensures TrimRight(s) != [] ==> !IsSpace(TrimRight(s)[|TrimRight(s)| - 1])
  {
    if |s| > 0 && IsSpace(s[|s| - 1]) {
      var u := s[..|s| - 1];
      TrimRightSpec(u);
      var n := |TrimRight(s)|;
      assert s[n..] == u[n..] + [s[|s| - 1]];
    }
  }

  /** `r` sits at position `i` of `s`, with only whitespace before and after it. */
  predicate StrippedAt(s: string, r: string, i: int) {
    && 0 <= i <= |s| - |r| && s[i..i + |r|] == r
    && AllSpace(s[..i]) && AllSpace(s[i + |r|..])
  }

  /** `s.strip()`. */
  function Strip(s: string): string {
    TrimRight(TrimLeft(s))
  }

  /**
    `strip` removes the outer whitespace and keeps everything between: the
    result has no whitespace at either end and sits in `s` between an
    all-whitespace prefix and suffix.
  */
  lemma StripSpec(s: string)
    ensures Strip(s) != [] ==> !IsSpace(Strip(s)[0]) && !IsSpace(Strip(s)[|Strip(s)| - 1])
    ensures exists i :: StrippedAt(s, Strip(s), i)
  {
    var left := TrimLeft(s);
    var r := TrimRight(left);
    TrimLeftSpec(s);
    TrimRightSpec(left);
    var i := |s| - |left|;
    assert s[i..] == left;
    assert s[i..i + |r|] == left[..|r|];
    assert s[i + |r|..] == left[|r|..];
    assert StrippedAt(s, r, i);
  }

  /** Stripping never touches a text whose ends are not whitespace. */
  lemma {:induction false} StripUnpadded(s: string)
    requires s != [] ==> !IsSpace(s[0]) && !IsSpace(s[|s| - 1])
    ensures Strip(s) == s
  {
    assert TrimLeft(s) == s;
  }

  /** Stripping twice is stripping once. */
  lemma StripIdempotent(s: string)
    ensures Strip(Strip(s)) == Strip(s)
  {
    StripSpec(s);
    StripUnpadded(Strip(s));
  }

  /** Outer whitespace of any length, on either side, is removed and nothing else. */
  lemma {:induction false} StripPadding(pre: string, s: string, post: string)
    requires AllSpace(pre) && AllSpace(post)
    requires s != [] ==> !IsSpace(s[0]) && !IsSpace(s[|s| - 1])
    ensures Strip(pre + s + post) == s
  {
    if s == [] {
      assert AllSpace(pre + s + post);
      TrimLeftSpaces(pre + s + post, []);
      assert pre + s + post + [] == pre + s + post;
    } else {
      TrimLeftSpaces(pre, s + post);
      assert pre + s + post == pre + (s + post);
      TrimRightSpaces(s, post);
    }
  }

  lemma AllSpaceConcat(a: string, b: string)
    requires AllSpace(a) && AllSpace(b)
    ensures AllSpace(a + b)
  {
    forall k | 0 <= k < |a + b| ensures IsSpace((a + b)[k]) {
      if k >= |a| { assert (a + b)[k] == b[k - |a|]; }
    }
  }

  /** Whitespace added around any text is removed by `strip` along with the text's own. */
  lemma StripAbsorbsPadding(pre: string, s: string, post: string)
    requires AllSpace(pre) && AllSpace(post)
    ensures Strip(pre + s + post) == Strip(s)
  {
    var r := Strip(s);
    StripSpec(s);
    var i :| StrippedAt(s, r, i);
    var x, y := s[..i], s[i + |r|..];
    AllSpaceConcat(pre, x);
    AllSpaceConcat(y, post);
    SplitAround(pre, s, post, r, i);
    StripPadding(pre + x, r, y + post);
  }

  lemma SplitAround(pre: string, s: string, post: string, r: string, i: int)
    requires 0 <= i <= |s| - |r| && s[i..i + |r|] == r
    ensures pre + s + post == (pre + s[..i]) + r + (s[i + |r|..] + post)
  {
    assert s == s[..i] + r + s[i + |r|..];
  }

  /** `s.strip()` is empty exactly when `s` is all whitespace. */
  lemma StripEmptyIff(s: string)
    ensures Strip(s) == [] <==> AllSpace(s)
  {
    if AllSpace(s) {
      assert s + [] + [] == s;
      StripPadding(s, [], []);
    }
    if Strip(s) == [] {
      StripSpec(s);
      var i :| StrippedAt(s, [], i);
      assert s == s[..i] + s[i..];
    }
  }

  lemma {:induction false} TrimLeftSpaces(pre: string, s: string)
    requires AllSpace(pre)
    requires s != [] ==> !IsSpace(s[0])
    ensures TrimLeft(pre + s) == s
  {
    if pre != [] {
      assert (pre + s)[1..] == pre[1..] + s;
      TrimLeftSpaces(pre[1..], s);
    }
  }

  lemma {:induction false} TrimRightSpaces(s: string, post: string)
    requires AllSpace(post)
    requires s != [] ==> !IsSpace(s[|s| - 1])
    ensures TrimRight(s + post) == s
  {
    if post != [] {
      var n := |post| - 1;
      assert (s + post)[..|s + post| - 1] == s + post[..n];
      TrimRightSpaces(s, post[..n]);
    }
  }

  /** `s.rstrip(c)` for a single character `c`. */
  function TrimRightChar(s: string, c: char): string {
    if |s| > 0 && s[|s| - 1] == c then TrimRightChar(s[..|s| - 1], c) else s
  }

  /** `s.lstrip(c)` for a single character `c`. */
  function TrimLeftChar(s: string, c: char): string {
    if |s| > 0 && s[0] == c then TrimLeftChar(s[1..], c) else s
  }

  /** `rstrip(c)` leaves a prefix that does not end in `c`; everything dropped is `c`. */
  lemma {:induction false} TrimRightCharSpec(s: string, c: char)
    ensures |TrimRightChar(s, c)| <= |s| && TrimRightChar(s, c) == s[..|TrimRightChar(s, c)|]
    ensures forall k :: |TrimRightChar(s, c)| <= k < |s| ==> s[k] == c
    ensures TrimRightChar(s, c) != [] ==> TrimRightChar(s, c)[|TrimRightChar(s, c)| - 1] != c
  {
    if |s| > 0 && s[|s| - 1] == c {
      TrimRightCharSpec(s[..|s| - 1], c);
    }
  }

  /** `lstrip(c)` leaves a suffix that does not start with `c`; everything dropped is `c`. */
  lemma {:induction false} TrimLeftCharSpec(s: string, c: char)
    ensures |TrimLeftChar(s, c)| <= |s| && TrimLeftChar(s, c) == s[|s| - |TrimLeftChar(s, c)|..]
    ensures forall k :: 0 <= k < |s| - |TrimLeftChar(s, c)| ==> s[k] == c
    ensures TrimLeftChar(s, c) != [] ==> TrimLeftChar(s, c)[0] != c
  {
    if |s| > 0 && s[0] == c {
      TrimLeftCharSpec(s[1..], c);
    }
  }

  /** `n` copies of `c`. */
  function Repeat(c: char, n: nat): (r: string)
    ensures |r| == n
  {
    if n == 0 then [] else [c] + Repeat(c, n - 1)
  }

  /** One more copy of `c` may go at either end. */
  lemma {:induction false} RepeatSnoc(c: char, n: nat)
    requires n > 0
    ensures Repeat(c, n) == Repeat(c, n - 1) + [c]
  {
    if n > 1 {
      RepeatSnoc(c, n - 1);
      assert [c] + (Repeat(c, n - 2) + [c]) == ([c] + Repeat(c, n - 2)) + [c];
    }
  }

  /** Extra copies of `c` at the end make no difference to `rstrip(c)`. */
  lemma {:induction false} TrimRightCharPadding(s: string, c: char, n: nat)
    ensures TrimRightChar(s + Repeat(c, n), c) == TrimRightChar(s, c)
  {
    if n > 0 {
      var u := s + Repeat(c, n - 1);
      RepeatSnoc(c, n);
      assert s + Repeat(c, n) == u + [c];
      assert (u + [c])[..|u|] == u;
      TrimRightCharPadding(s, c, n - 1);
    } else {
      assert s + Repeat(c, n) == s;
    }
  }

  /** Extra copies of `c` at the start make no difference to `lstrip(c)`. */
  lemma {:induction false} TrimLeftCharPadding(s: string, c: char, n: nat)
    ensures TrimLeftChar(Repeat(c, n) + s, c) == TrimLeftChar(s, c)
  {
    if n > 0 {
      var u := Repeat(c, n - 1) + s;
      assert Repeat(c, n) + s == [c] + u;
      assert ([c] + u)[1..] == u;
      TrimLeftCharPadding(s, c, n - 1);
    } else {
      assert Repeat(c, n) + s == s;
    }
  }

  /** `s.startswith(p)`. */
  predicate StartsWith(s: string, p: string) {
    |p| <= |s| && s[..|p|] == p
  }

  /** Python's `sub in s`: case-sensitive substring containment. */
  predicate Contains(s: string, sub: string) {
    StartsWith(s, sub) || (|s| > 0 && Contains(s[1..], sub))
  }

  /** `sub` occurs in `s` starting at position `i`. */
  predicate OccursAt(s: string, sub: string, i: int) {
    0 <= i <= |s| - |sub| && s[i..i + |sub|] == sub
  }

  /** `Contains` holds exactly when `sub` occurs somewhere in `s`. */
  lemma {:induction false} ContainsIff(s: string, sub: string)
    ensures Contains(s, sub) <==> exists i :: OccursAt(s, sub, i)
  {
    if StartsWith(s, sub) {
      assert OccursAt(s, sub, 0);
    } else if |s| > 0 {
      ContainsIff(s[1..], sub);
      if Contains(s[1..], sub) {
        var i :| OccursAt(s[1..], sub, i);
        assert s[i + 1..i + 1 + |sub|] == s[1..][i..i + |sub|];
        assert OccursAt(s, sub, i + 1);
      } else if i :| OccursAt(s, sub, i) {
        assert i != 0;
        assert s[1..][i - 1..i - 1 + |sub|] == s[i..i + |sub|];
        assert OccursAt(s[1..], sub, i - 1);
      }
    }
  }

  // ---------------------------------------------------------------------
  // Decimal integers

  predicate IsDigit(c: char) { '0' <= c <= '9' }

  /** A non-empty run of ASCII decimal digits. */
  predicate IsDigits(s: string) {
    |s| > 0 && forall k :: 0 <= k < |s| ==> IsDigit(s[k])
  }

  function DigitsValue(s: string): nat
    requires forall k :: 0 <= k < |s| ==> IsDigit(s[k])
  {
    if s == [] then 0
    else
      assert IsDigit(s[|s| - 1]);
      10 * DigitsValue(s[..|s| - 1]) + (s[|s| - 1] as int - '0' as int)
  }

  /**
    Python's `int(text)` on a string: an optional sign followed by decimal
    digits; anything else is a ValueError, here `None`.
  */
  function ParseInt(s: string): (r: Option<int>)
    ensures r.Some? ==> |s| > 0 && (IsDigit(s[0]) || s[0] == '-' || s[0] == '+')
    ensures r.Some? && r.value < 0 ==> s[0] == '-'
  {
    if |s| > 0 && (s[0] == '-' || s[0] == '+') then
      if IsDigits(s[1..]) then
        var v: int := DigitsValue(s[1..]);
        Some(if s[0] == '-' then -v else v)
      else None
    else if IsDigits(s) then Some(DigitsValue(s))
    else None
  }

  function DigitChar(d: nat): (c: char)
    requires d < 10
    ensures IsDigit(c) && c as int - '0' as int == d
  {
    ('0' as int + d) as char
  }

  /** Python's `str(n)` for a non-negative integer: its shortest decimal text. */
  function NatToString(n: nat): (r: string)
    ensures IsDigits(r)
    ensures DigitsValue(r) == n
    ensures |r| > 1 ==> r[0] != '0'
  {
    if n < 10 then [DigitChar(n)]
    else
      var r := NatToString(n / 10) + [DigitChar(n % 10)];
      assert r[..|r| - 1] == NatToString(n / 10);
      r
  }

  /** Python's `str(n)` for any integer. */
  function IntToString(n: int): (r: string)
  {
    if n < 0 then "-" + NatToString(-n) else NatToString(n)
  }

  /** `int(str(n)) == n`: formatting an integer and parsing it back is the identity. */
  lemma IntRoundTrip(n: int)
    ensures ParseInt(IntToString(n)) == Some(n)
  {
    if n < 0 {
      assert IntToString(n)[1..] == NatToString(-n);
    }
  }

  /** Distinct integers print as distinct texts. */
  lemma IntToStringInjective(m: int, n: int)
    requires IntToString(m) == IntToString(n)
    ensures m == n
  {
    IntRoundTrip(m);
    IntRoundTrip(n);
  }

  // ---------------------------------------------------------------------
  // Python's `<` on str: lexicographic by code point, a proper prefix first.

  predicate StrLess(a: string, b: string) {
    if a == [] then b != []
    else if b == [] then false
    else if a[0] != b[0] then a[0] < b[0]
    else StrLess(a[1..], b[1..])
  }

  lemma {:induction false} StrLessIrreflexive(a: string)
    ensures !StrLess(a, a)
  {
    if a != [] {
      StrLessIrreflexive(a[1..]);
    }
  }

  /** Any two distinct strings are ordered one way round and not the other. */
  lemma {:induction false} StrLessTrichotomy(a: string, b: string)
    ensures a == b || StrLess(a, b) || StrLess(b, a)
    ensures !(StrLess(a, b) && StrLess(b, a))
  {
    if a != [] && b != [] && a[0] == b[0] {
      StrLessTrichotomy(a[1..], b[1..]);
      if a[1..] == b[1..] {
        assert a == [a[0]] + a[1..] && b == [b[0]] + b[1..];
      }
    }
  }

  lemma {:induction false} StrLessTransitive(a: string, b: string, c: string)
    requires StrLess(a, b) && StrLess(b, c)
    ensures StrLess(a, c)
  {
    if a != [] && a[0] == b[0] && b[0] == c[0] {
      StrLessTransitive(a[1..], b[1..], c[1..]);
    }
  }
}
