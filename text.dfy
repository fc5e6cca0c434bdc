/**
 * Text primitives shared by the prompt extractors and the script renderers: the character
 * classes of Python's `re` module (`\s`, `\d`, `\w`), ASCII case mapping, maximal runs of a
 * class, the leftmost-match scan of `re.search`, decimal conversion (`int(...)` and `str(...)`)
 * and `sep.join(parts)`.
 */
module Text {
  import opened Wrappers

  // ---------------------------------------------------------------------------------------
  // Character classes
  // ---------------------------------------------------------------------------------------

  /** `\d`, restricted to ASCII digits. */
  predicate IsDigit(c: char) {
    '0' <= c <= '9'
  }

  /** `\s` on a `str` pattern: the characters for which Python's `str.isspace()` holds. */
  predicate IsSpace(c: char) {
    || c == ' '
    || '\t' <= c <= '\r'
    || '\U{1c}' <= c <= '\U{1f}'
    || c == '\U{85}' || c == '\U{a0}' || c == '\U{1680}'
    || '\U{2000}' <= c <= '\U{200a}'
    || c == '\U{2028}' || c == '\U{2029}' || c == '\U{202f}' || c == '\U{205f}' || c == '\U{3000}'
  }

  predicate IsNonSpace(c: char) {
    !IsSpace(c)
  }

  predicate IsUpper(c: char) {
    'A' <= c <= 'Z'
  }

  /** `\w`, restricted to ASCII letters, digits and the underscore. */
  predicate IsWordChar(c: char) {
    'a' <= c <= 'z' || IsUpper(c) || IsDigit(c) || c == '_'
  }

  // ---------------------------------------------------------------------------------------
  // Case mapping (ASCII part of `str.lower()` / `str.upper()`)
  // ---------------------------------------------------------------------------------------

  function LowerChar(c: char): (r: char)
    ensures !IsUpper(r)
    ensures !IsUpper(c) ==> r == c
    ensures IsUpper(c) ==> r as int == c as int + 32
  {
    if IsUpper(c) then (c as int + 32) as char else c
  }

  function UpperChar(c: char): char {
    if 'a' <= c <= 'z' then (c as int - 32) as char else c
  }

  /** `s.lower()`: the same length, each character mapped on its own, and no upper-case letter
    * is left. */
  function Lower(s: string): (r: string)
    ensures |r| == |s|
    ensures forall k :: 0 <= k < |s| ==> r[k] == LowerChar(s[k])
    ensures forall k :: 0 <= k < |r| ==> !IsUpper(r[k])
  {
    seq(|s|, k requires 0 <= k < |s| => LowerChar(s[k]))
  }

  function Upper(s: string): string {
    seq(|s|, k requires 0 <= k < |s| => UpperChar(s[k]))
  }

  /** Lower-casing twice is lower-casing once. */
  lemma LowerIdempotent(s: string)
    ensures Lower(Lower(s)) == Lower(s)
  {
    var once := Lower(s);
    forall k | 0 <= k < |s|
      ensures Lower(once)[k] == once[k]
    {
      assert !IsUpper(once[k]);
    }
  }

  // ---------------------------------------------------------------------------------------
  // Literals and maximal runs
  // ---------------------------------------------------------------------------------------

  /** The literal `lit` occurs in `s` at position `i`. */
  predicate StartsAt(s: string, i: nat, lit: string) {
    i + |lit| <= |s| && s[i..i + |lit|] == lit
  }

  /** The end of the longest run of characters of class `inClass` that starts at `i`
    * (what a greedy `[class]*` consumes). */
  function RunEnd(s: string, i: nat, inClass: char -> bool): (e: nat)
    requires i <= |s|
    ensures i <= e <= |s|
    ensures forall k :: i <= k < e ==> inClass(s[k])
    ensures e == |s| || !inClass(s[e])
    decreases |s| - i
  {
    if i < |s| && inClass(s[i]) then RunEnd(s, i + 1, inClass) else i
  }

  /** `run` is what a greedy `[class]+` captures at `i`: it occurs in `s` at `i`, is not empty,
    * consists of characters of class `inClass`, and the character after it (if any) is not of
    * that class. */
  predicate IsRunAt(s: string, i: nat, run: string, inClass: char -> bool) {
    && StartsAt(s, i, run) && run != []
    && (forall k :: 0 <= k < |run| ==> inClass(run[k]))
    && (i + |run| == |s| || !inClass(s[i + |run|]))
  }

  /** The longest run of characters of class `inClass` that starts at `i`, when it is not empty
    * (what a greedy `[class]+` matches). */
  function RunFrom(s: string, i: nat, inClass: char -> bool): (r: string)
    requires i < |s| && inClass(s[i])
    ensures IsRunAt(s, i, r, inClass)
    ensures i + |r| == RunEnd(s, i, inClass)
  {
    s[i..RunEnd(s, i, inClass)]
  }

  // ---------------------------------------------------------------------------------------
  // Leftmost match (`re.search`)
  // ---------------------------------------------------------------------------------------

  /** The first position `j` in `[i, n)` at which `at` matches, with its match. */
  function FirstMatch<T(==)>(at: nat -> Option<T>, i: nat, n: nat): (r: Option<(nat, T)>)
    requires i <= n
    ensures r.Some? ==> i <= r.value.0 < n && at(r.value.0) == Some(r.value.1)
    ensures forall j: nat :: i <= j < n && (r.None? || j < r.value.0) ==> at(j) == None
    decreases n - i
  {
    if i == n then None
    else match at(i)
      case Some(v) => Some((i, v))
      case None => FirstMatch(at, i + 1, n)
  }

  /** `re.search`: tries every start position `0, 1, ..., |s|` in turn. */
  function Search<T(==)>(s: string, at: nat -> Option<T>): (r: Option<(nat, T)>)
    ensures r.Some? ==> r.value.0 <= |s| && at(r.value.0) == Some(r.value.1)
    ensures forall j: nat :: j <= |s| && (r.None? || j < r.value.0) ==> at(j) == None
  {
    FirstMatch(at, 0, |s| + 1)
  }

  /** `r` is the match at the leftmost position where `at` matches in `s`, or `d` when it
    * matches nowhere: the "first match wins, otherwise the default" rule. */
  ghost predicate IsFirstMatchOr<T>(s: string, at: nat -> Option<T>, r: T, d: T) {
    || ((forall i: nat :: i <= |s| ==> at(i).None?) && r == d)
    || (exists i: nat :: i <= |s| && at(i) == Some(r) && forall j: nat :: j < i ==> at(j).None?)
  }

  /** `m.group(...) if (m := re.search(...)) else d`. */
  function FirstOr<T(==)>(s: string, at: nat -> Option<T>, d: T): (r: T)
    ensures IsFirstMatchOr(s, at, r, d)
  {
    match Search(s, at)
    case Some((i, v)) => v
    case None => d
  }

  /** Python's `sub in s`. */
  function Contains(s: string, sub: string): (b: bool)
    ensures b <==> exists j: nat :: StartsAt(s, j, sub)
  {
    var at := (j: nat) => if StartsAt(s, j, sub) then Some(j) else None;
    var r := Search(s, at);
    if r.Some? then
      assert StartsAt(s, r.value.0, sub);
      true
    else
      assert forall j: nat :: StartsAt(s, j, sub) ==> j <= |s| && at(j) == Some(j);
      false
  }

  // ---------------------------------------------------------------------------------------
  // Decimal numbers: `int(digits)` and `str(n)`
  // ---------------------------------------------------------------------------------------

  predicate AllDigits(s: string) {
    forall k :: 0 <= k < |s| ==> IsDigit(s[k])
  }

  function DigitValue(c: char): nat
    requires IsDigit(c)
  {
    c as int - '0' as int
  }

  function DigitChar(d: nat): (c: char)
    requires d < 10
    ensures IsDigit(c) && DigitValue(c) == d
  {
    ('0' as int + d) as char
  }

  /** `int(s)` for a string of decimal digits. */
  function DigitsValue(s: string): nat
    requires AllDigits(s)
    decreases |s|
  {
    if s == [] then 0 else DigitsValue(s[..|s| - 1]) * 10 + DigitValue(s[|s| - 1])
  }

  /** `str(n)` for a natural number: a non-empty string of digits. */
  function NatToString(n: nat): (r: string)
    ensures r != [] && AllDigits(r)
    decreases n
  {
    if n < 10 then [DigitChar(n)] else NatToString(n / 10) + [DigitChar(n % 10)]
  }

  /** The sign in front of a negative number. */
  const MinusSign: string := "-"

  /** `str(i)` for any integer. */
  function IntToString(i: int): string {
    (if i < 0 then MinusSign else "") + NatToString(if i < 0 then -i else i)
  }

  /** `int(str(n)) == n`: parsing what was printed gives the number back. */
  lemma {:induction false} DigitsRoundTrip(n: nat)
    ensures DigitsValue(NatToString(n)) == n
  {
    if n >= 10 {
      DigitsRoundTrip(n / 10);
      var s := NatToString(n);
      assert s[..|s| - 1] == NatToString(n / 10);
    }
  }

  /** Different numbers print differently. */
  lemma NatToStringInjective(m: nat, n: nat)
    requires NatToString(m) == NatToString(n)
    ensures m == n
  {
    DigitsRoundTrip(m);
    DigitsRoundTrip(n);
  }

  // ---------------------------------------------------------------------------------------
  // `sep.join(parts)`
  // ---------------------------------------------------------------------------------------

  /** `sep.join(parts)`: the first part is a prefix of the result. */
  function Join(parts: seq<string>, sep: string): (r: string)
    ensures parts != [] ==> parts[0] <= r
    decreases |parts|
  {
    if |parts| == 0 then ""
    else if |parts| == 1 then parts[0]
    else Join(parts[..|parts| - 1], sep) + sep + parts[|parts| - 1]
  }
}
