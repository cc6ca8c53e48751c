/** String operations of JavaScript that the modelled code relies on: truthiness
    of strings, `||` defaults, `toLowerCase`, `includes`, `startsWith`, `trim`,
    `split(..)[0]`, `split(..).pop()`, `replace` of a literal, and the decimal
    rendering of integers in template strings. */
module Text {
  import opened Common

  /** A nullable string is truthy when it is present and not empty. */
  predicate Truthy(o: Option<string>) {
    o.Some? && o.value != ""
  }

  /** `o || d` for a nullable string o. */
  function OrElse(o: Option<string>, d: string): (r: string)
    ensures Truthy(o) ==> r == o.value
    ensures !Truthy(o) ==> r == d
  {
    if Truthy(o) then o.value else d
  }

  /** `o || null`: an empty string becomes null. */
  function OrNull(o: Option<string>): (r: Option<string>)
    ensures r == None || Truthy(r)
    ensures Truthy(o) ==> r == o
  {
    if Truthy(o) then o else None
  }

  /** Lower-casing of one character; only the ASCII letters A-Z are mapped. */
  function LowerChar(c: char): char {
    if 'A' <= c <= 'Z' then (c as int + 32) as char else c
  }

  /** `s.toLowerCase()` on the ASCII range. */
  function Lower(s: string): (r: string)
    ensures |r| == |s|
    ensures forall i :: 0 <= i < |s| ==> r[i] == LowerChar(s[i])
  {
    seq(|s|, i requires 0 <= i < |s| => LowerChar(s[i]))
  }

  lemma LowerIdempotent(s: string)
    ensures Lower(Lower(s)) == Lower(s)
  {
  }

  predicate StartsWith(s: string, p: string) {
    |p| <= |s| && s[..|p|] == p
  }

  predicate EndsWith(s: string, p: string) {
    |p| <= |s| && s[|s| - |p|..] == p
  }

  /** sub occurs in s at position i. */
  predicate OccursAt(s: string, sub: string, i: int) {
    0 <= i && i + |sub| <= |s| && s[i..i + |sub|] == sub
  }

  /** `s.includes(sub)`. */
  predicate Contains(s: string, sub: string) {
    exists i | 0 <= i <= |s| - |sub| :: OccursAt(s, sub, i)
  }

  // ---------------------------------------------------------------------------
  // Decimal rendering of integers, as `${n}` prints an integral number.

  function DigitChar(d: nat): char
    requires d < 10
  {
    "0123456789"[d]
  }

  predicate IsDigit(c: char) {
    '0' <= c <= '9'
  }

  function DigitValue(c: char): nat
    requires IsDigit(c)
  {
    c as int - '0' as int
  }

  function NatToString(n: nat): (r: string)
    ensures |r| >= 1
    ensures forall i :: 0 <= i < |r| ==> IsDigit(r[i])
    ensures r[0] == '0' ==> n == 0
  {
    if n < 10 then [DigitChar(n)] else NatToString(n / 10) + [DigitChar(n % 10)]
  }

  /** Value of a string of decimal digits. */
  function ParseDigits(s: string): nat
    requires forall i :: 0 <= i < |s| ==> IsDigit(s[i])
  {
    if |s| == 0 then 0 else ParseDigits(s[..|s| - 1]) * 10 + DigitValue(s[|s| - 1])
  }

  /** Rendering a natural number loses nothing: reading the digits back gives it. */
  lemma {:induction false} NatToStringRoundTrip(n: nat)
    ensures ParseDigits(NatToString(n)) == n
  {
    var r := NatToString(n);
    if n >= 10 {
      NatToStringRoundTrip(n / 10);
      assert r[..|r| - 1] == NatToString(n / 10);
    } else {
      assert r[..0] == [];
    }
  }

  /** `${i}` for an integer i. */
  function IntToString(i: int): (r: string)
    ensures |r| >= 1
    ensures i < 0 <==> r[0] == '-'
  {
    if i < 0 then "-" + NatToString(-i) else NatToString(i)
  }

  // ---------------------------------------------------------------------------
  // trim, split and replace.

  /** The white-space and line-terminator characters that `trim` removes
      (the space separators of Unicode category Zs other than U+0020 and
      U+00A0 are not listed). */
  const Spaces: set<char> :=
    {' ', '\t', '\n', '\r', '\U{B}', '\U{C}', '\U{A0}', '\U{FEFF}', '\U{2028}', '\U{2029}'}

  predicate IsSpace(c: char) {
    c in Spaces
  }

  function TrimStart(s: string): (r: string)
    ensures |r| <= |s| && r == s[|s| - |r|..]
    ensures forall i :: 0 <= i < |s| - |r| ==> IsSpace(s[i])
    ensures |r| > 0 ==> !IsSpace(r[0])
  {
    if |s| > 0 && IsSpace(s[0]) then TrimStart(s[1..]) else s
  }

  function TrimEnd(s: string): (r: string)
    ensures |r| <= |s| && r == s[..|r|]
    ensures forall i :: |r| <= i < |s| ==> IsSpace(s[i])
    ensures |r| > 0 ==> !IsSpace(r[|r| - 1])
  {
    if |s| > 0 && IsSpace(s[|s| - 1]) then TrimEnd(s[..|s| - 1]) else s
  }

  /** `s.trim()`. */
  function Trim(s: string): string {
    TrimEnd(TrimStart(s))
  }

  /** Trimming removes white space at both ends and nothing else: the input is
      the result with only white space on either side of it. */
  lemma TrimSpec(s: string) returns (a: string, b: string)
    ensures s == a + Trim(s) + b
    ensures forall i :: 0 <= i < |a| ==> IsSpace(a[i])
    ensures forall i :: 0 <= i < |b| ==> IsSpace(b[i])
  {
    var t := TrimStart(s);
    a := TrimStartSplit(s);
    b := TrimEndSplit(t);
    JoinPieces(s, a, t, TrimEnd(t), b);
  }

  lemma JoinPieces(s: string, a: string, t: string, r: string, b: string)
    requires s == a + t && t == r + b
    ensures s == a + r + b
  {
    assert a + (r + b) == a + r + b;
  }

  /** The trimmed string neither starts nor ends with white space. */
  lemma TrimEnds(s: string)
    ensures |Trim(s)| > 0 ==> !IsSpace(Trim(s)[0]) && !IsSpace(Trim(s)[|Trim(s)| - 1])
  {
    var t := TrimStart(s);
    var r := TrimEnd(t);
    if |r| > 0 {
      assert r[0] == t[0];
    }
  }

  lemma TrimStartSplit(s: string) returns (a: string)
    ensures s == a + TrimStart(s)
    ensures forall i :: 0 <= i < |a| ==> IsSpace(a[i])
  {
    var t := TrimStart(s);
    a := s[..|s| - |t|];
    assert s == s[..|s| - |t|] + s[|s| - |t|..];
  }

  lemma TrimEndSplit(t: string) returns (b: string)
    ensures t == TrimEnd(t) + b
    ensures forall i :: 0 <= i < |b| ==> IsSpace(b[i])
  {
    var r := TrimEnd(t);
    b := t[|r|..];
    assert t == t[..|r|] + t[|r|..];
  }

  /** `s.split(sep)[0]`: everything before the first occurrence of sep. */
  function BeforeFirst(s: string, sep: char): (r: string)
    ensures |r| <= |s| && r == s[..|r|]
    ensures sep !in r
    ensures |r| < |s| ==> s[|r|] == sep
  {
    if |s| == 0 || s[0] == sep then "" else [s[0]] + BeforeFirst(s[1..], sep)
  }

  /** The text before the first separator is everything up to a separator
      that the prefix does not contain. */
  lemma {:induction false} BeforeFirstConcat(x: string, sep: char, y: string)
    requires sep !in x
    ensures BeforeFirst(x + [sep] + y, sep) == x
    decreases |x|
  {
    if |x| > 0 {
      assert (x + [sep] + y)[1..] == x[1..] + [sep] + y;
      BeforeFirstConcat(x[1..], sep, y);
    }
  }

  /** `s.split(sep).pop()`: everything after the last occurrence of sep. */
  function AfterLast(s: string, sep: char): (r: string)
    ensures |r| <= |s| && r == s[|s| - |r|..]
    ensures sep !in r
    ensures |r| < |s| ==> s[|s| - |r| - 1] == sep
  {
    if |s| == 0 || s[|s| - 1] == sep then "" else AfterLast(s[..|s| - 1], sep) + [s[|s| - 1]]
  }

  /** Position of the first occurrence of pat in s at or after k (`indexOf`). */
  function IndexFrom(s: string, pat: string, k: nat): (r: Option<nat>)
    ensures r.Some? ==>
              && k <= r.value && OccursAt(s, pat, r.value)
              && forall j :: k <= j < r.value ==> !OccursAt(s, pat, j)
    ensures r.None? ==> forall j :: k <= j ==> !OccursAt(s, pat, j)
    decreases |s| - k
  {
    if k + |pat| > |s| then None
    else if OccursAt(s, pat, k) then Some(k)
    else IndexFrom(s, pat, k + 1)
  }

  /** `s.replace(pat, rep)` with a literal pattern: only the first occurrence
      is replaced. */
  function ReplaceFirst(s: string, pat: string, rep: string): (r: string)
    ensures !Contains(s, pat) ==> r == s
    ensures Contains(s, pat) ==>
              exists i :: && OccursAt(s, pat, i)
                          && (forall j :: 0 <= j < i ==> !OccursAt(s, pat, j))
                          && r == s[..i] + rep + s[i + |pat|..]
  {
    match IndexFrom(s, pat, 0)
    case None => s
    case Some(i) => s[..i] + rep + s[i + |pat|..]
  }
}
