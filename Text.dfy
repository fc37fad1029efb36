/**
 * The handful of Python `str` operations the three source files rely on:
 * `strip()`, `split(c)[0]`, `split(c)[-1]` (and `os.path.basename`), `lower()`,
 * `upper()`, `isalpha()`, `replace(c, d)` and `str(n)` for a count.
 */
module Text {

  /** Python's `str.isspace()` for one character, by code point. */
  predicate IsSpace(c: char) {
    var n := c as int;
    (0x09 <= n <= 0x0D) || (0x1C <= n <= 0x20) || n == 0x85 || n == 0xA0 || n == 0x1680
    || (0x2000 <= n <= 0x200A) || n == 0x2028 || n == 0x2029 || n == 0x202F
    || n == 0x205F || n == 0x3000
  }

  predicate AllSpace(s: string) {
    forall i :: 0 <= i < |s| ==> IsSpace(s[i])
  }

  /** No whitespace at either end: the shape of every result of `Strip`. */
  predicate Trimmed(s: string) {
    s == [] || (!IsSpace(s[0]) && !IsSpace(s[|s| - 1]))
  }

  /** Python's `str.lstrip()`: drops the leading whitespace. */
  function TrimLeft(s: string): (r: string)
    ensures |r| <= |s| && r == s[|s| - |r|..]
    ensures r == [] || !IsSpace(r[0])
    ensures forall i :: 0 <= i < |s| - |r| ==> IsSpace(s[i])
  {
    if s != [] && IsSpace(s[0]) then TrimLeft(s[1..]) else s
  }

  /** Python's `str.rstrip()`: drops the trailing whitespace. */
  function TrimRight(s: string): (r: string)
    ensures |r| <= |s| && r == s[..|r|]
    ensures r == [] || !IsSpace(r[|r| - 1])
    ensures forall i :: |r| <= i < |s| ==> IsSpace(s[i])
  {
    if s != [] && IsSpace(s[|s| - 1]) then TrimRight(s[..|s| - 1]) else s
  }

  /** Where the stripped text starts inside `s`. */
  function StripStart(s: string): nat {
    |s| - |TrimLeft(s)|
  }

  /** Python's `str.strip()` with no argument: whitespace dropped at both ends. */
  function Strip(s: string): (r: string)
    ensures Trimmed(r)
    ensures Trimmed(s) ==> r == s
  {
    TrimRight(TrimLeft(s))
  }

  /** The stripped text is the infix of `s` that starts at `StripStart(s)`. */
  lemma StripInfix(s: string)
    ensures StripStart(s) + |Strip(s)| <= |s|
    ensures Strip(s) == s[StripStart(s)..StripStart(s) + |Strip(s)|]
  {
    var left := TrimLeft(s);
    assert forall i :: |s| - |left| <= i < |s| ==> s[i] == left[i - (|s| - |left|)];
  }

  /** Stripping leaves nothing exactly when `s` is all whitespace. */
  lemma StripAllSpace(s: string)
    ensures Strip(s) == [] <==> AllSpace(s)
  {
    var left := TrimLeft(s);
    assert forall i :: |s| - |left| <= i < |s| ==> s[i] == left[i - (|s| - |left|)];
  }

  /** Appending whitespace after trimmed text changes nothing once stripped. */
  lemma {:induction false} TrimRightSpaces(m: string, w: string)
    requires m == [] || !IsSpace(m[|m| - 1])
    requires AllSpace(w)
    ensures TrimRight(m + w) == m
  {
    if w != [] {
      assert (m + w)[..|m + w| - 1] == m + w[..|w| - 1];
      TrimRightSpaces(m, w[..|w| - 1]);
    } else {
      assert m + w == m;
    }
  }

  lemma StripAppendSpaces(m: string, w: string)
    requires Trimmed(m)
    requires AllSpace(w)
    ensures Strip(m + w) == m
  {
    if m == [] {
      assert m + w == w;
    } else {
      assert TrimLeft(m + w) == m + w;
      TrimRightSpaces(m, w);
    }
  }

  /** `s.split(c)[0]`: everything before the first `c`, or all of `s` when there is none. */
  function TakeUntil(s: string, c: char): (r: string)
    ensures c !in r
    ensures |r| <= |s| && r == s[..|r|]
    ensures |r| < |s| ==> s[|r|] == c
    ensures c !in s ==> r == s
  {
    if s == [] || s[0] == c then [] else [s[0]] + TakeUntil(s[1..], c)
  }

  lemma {:induction false} TakeUntilAppend(s: string, c: char, t: string)
    requires c !in s
    ensures TakeUntil(s + [c] + t, c) == s
  {
    if s != [] {
      assert (s + [c] + t)[1..] == s[1..] + [c] + t;
      TakeUntilAppend(s[1..], c, t);
    }
  }

  /** `s.rfind(c)`: the index of the last `c`, or -1. */
  function RFind(s: string, c: char): (k: int)
    ensures -1 <= k < |s|
    ensures 0 <= k ==> s[k] == c
    ensures forall j :: k < j < |s| ==> s[j] != c
  {
    if s == [] then -1
    else if s[|s| - 1] == c then |s| - 1
    else RFind(s[..|s| - 1], c)
  }

  /** `s.split(c)[-1]`, which for `c == '/'` is also `posixpath.basename(s)`. */
  function AfterLast(s: string, c: char): (r: string)
    ensures c !in r
    ensures |r| <= |s| && r == s[|s| - |r|..]
    ensures |r| < |s| ==> s[|s| - |r| - 1] == c
    ensures c !in s ==> r == s
  {
    RFindSuffix(s, c);
    s[RFind(s, c) + 1..]
  }

  /** Nothing after the last `c` is a `c`, and with no `c` at all the suffix is the whole string. */
  lemma RFindSuffix(s: string, c: char)
    ensures c !in s[RFind(s, c) + 1..]
    ensures c !in s ==> s[RFind(s, c) + 1..] == s
  {
    var k := RFind(s, c);
    var r := s[k + 1..];
    forall i | 0 <= i < |r| ensures r[i] != c {
      assert r[i] == s[k + 1 + i];
    }
    if c !in s {
      assert k == -1;
    }
  }

  /** The last occurrence is unique: any `k` holding `c` with no `c` after it is `RFind`. */
  lemma RFindAt(s: string, c: char, k: int)
    requires 0 <= k < |s| && s[k] == c
    requires forall j :: k < j < |s| ==> s[j] != c
    ensures RFind(s, c) == k
  {
  }

  /** With no `c` at all, `RFind` is -1. */
  lemma RFindAbsent(s: string, c: char)
    requires c !in s
    ensures RFind(s, c) == -1
  {
  }

  lemma AfterLastAppend(s: string, c: char, t: string)
    requires c !in t
    ensures AfterLast(s + [c] + t, c) == t
  {
    var u := s + [c] + t;
    assert u[|s|] == c;
    assert forall j :: |s| < j < |u| ==> u[j] == t[j - |s| - 1];
    assert RFind(u, c) == |s|;
    assert u[|s| + 1..] == t;
  }

  /** ASCII case mapping, the part of `str.lower()` and `str.upper()` the model needs. */
  function LowerChar(c: char): char {
    if 'A' <= c <= 'Z' then (c as int + 32) as char else c
  }

  function UpperChar(c: char): char {
    if 'a' <= c <= 'z' then (c as int - 32) as char else c
  }

  function Lower(s: string): string {
    seq(|s|, i requires 0 <= i < |s| => LowerChar(s[i]))
  }

  function Upper(s: string): string {
    seq(|s|, i requires 0 <= i < |s| => UpperChar(s[i]))
  }

  /** `c.isalpha()` restricted to ASCII letters. */
  predicate IsAsciiLetter(c: char) {
    'A' <= c <= 'Z' || 'a' <= c <= 'z'
  }

  /** `s.replace(a, b)` for single characters. */
  function ReplaceChar(s: string, a: char, b: char): string {
    seq(|s|, i requires 0 <= i < |s| => if s[i] == a then b else s[i])
  }

  /** `s.replace(c, '')`. */
  function RemoveChar(s: string, c: char): (r: string)
    ensures c !in r
    ensures |r| <= |s|
    ensures c !in s ==> r == s
  {
    if s == [] then []
    else if s[0] == c then RemoveChar(s[1..], c)
    else [s[0]] + RemoveChar(s[1..], c)
  }

  predicate IsDigit(c: char) {
    '0' <= c <= '9'
  }

  /** `str(n)` for a natural number: decimal digits, no leading zero. */
  function Decimal(n: nat): (r: string)
    ensures |r| > 0
    ensures forall i :: 0 <= i < |r| ==> IsDigit(r[i])
  {
    if n < 10 then [('0' as int + n) as char]
    else Decimal(n / 10) + [('0' as int + n % 10) as char]
  }

  /** `int(s)` for a string of decimal digits. */
  function ParseDecimal(s: string): nat
    requires forall i :: 0 <= i < |s| ==> IsDigit(s[i])
  {
    if s == [] then 0
    else assert IsDigit(s[|s| - 1]); ParseDecimal(s[..|s| - 1]) * 10 + (s[|s| - 1] as int - '0' as int)
  }

  lemma {:induction false} DecimalRoundTrip(n: nat)
    ensures ParseDecimal(Decimal(n)) == n
  {
    if n >= 10 {
      var d := Decimal(n);
      assert d[..|d| - 1] == Decimal(n / 10);
      DecimalRoundTrip(n / 10);
    }
  }
}
