/**
 * The octet-string primitives of gwlib that the push proxy gateway relies on:
 * (case-insensitive) search, deletion, decimal formatting and strtol-style
 * parsing. An Octstr is modelled as a `string`; every character stands for one
 * octet.
 */
module Octstr {
  import opened Wrappers

  /** tolower() of the C locale: only 'A'..'Z' change. */
  function ToLower(c: char): char {
    if 'A' <= c <= 'Z' then (c as int + 32) as char else c
  }

  predicate CharEq(a: char, b: char, caseless: bool) {
    if caseless then ToLower(a) == ToLower(b) else a == b
  }

  /** `pat` occurs in `s` at position `pos`. */
  predicate MatchesAt(s: string, pat: string, pos: nat, caseless: bool) {
    pos + |pat| <= |s| && forall k :: 0 <= k < |pat| ==> CharEq(s[pos + k], pat[k], caseless)
  }

  /**
   * octstr_search (caseless == false) and octstr_case_search (caseless ==
   * true): the first position at or after `from` where `pat` occurs, or -1.
   */
  function Search(s: string, pat: string, from: nat, caseless: bool): (r: int)
    ensures r == -1 || (from <= r && MatchesAt(s, pat, r, caseless))
    ensures r >= 0 ==> forall p :: from <= p < r ==> !MatchesAt(s, pat, p, caseless)
    ensures r == -1 ==> forall p :: from <= p ==> !MatchesAt(s, pat, p, caseless)
    decreases |s| - from
  {
    if from + |pat| > |s| then -1
    else if MatchesAt(s, pat, from, caseless) then from
    else Search(s, pat, from + 1, caseless)
  }

  /** The search finds the first match at or after `from`. */
  lemma {:induction false} SearchFindsFirst(s: string, pat: string, from: nat, p: nat, caseless: bool)
    requires from <= p && MatchesAt(s, pat, p, caseless)
    requires forall q :: from <= q < p ==> !MatchesAt(s, pat, q, caseless)
    ensures Search(s, pat, from, caseless) == p
    decreases p - from
  {
    if from < p {
      SearchFindsFirst(s, pat, from + 1, p, caseless);
    }
  }

  /** octstr_delete: remove `len` octets at `pos`, both clamped to the string. */
  function Delete(s: string, pos: nat, len: nat): (r: string)
    ensures pos <= |s| && pos + len <= |s| ==> r == s[..pos] + s[pos + len..]
    ensures |r| == |s| - (if pos >= |s| then 0 else if pos + len > |s| then |s| - pos else len)
  {
    var p := if pos > |s| then |s| else pos;
    var l := if p + len > |s| then |s| - p else len;
    s[..p] + s[p + l..]
  }

  predicate IsDigit(c: char) { '0' <= c <= '9' }

  function DigitOf(c: char): nat
    requires IsDigit(c)
  {
    c as int - '0' as int
  }

  function DigitChar(d: nat): (c: char)
    requires d < 10
    ensures IsDigit(c) && DigitOf(c) == d
  {
    ('0' as int + d) as char
  }

  predicate AllDigits(d: string) { forall i :: 0 <= i < |d| ==> IsDigit(d[i]) }

  /** The number a run of decimal digits denotes. */
  function DigitsValue(d: string): nat
    requires AllDigits(d)
  {
    if d == [] then 0 else DigitsValue(d[..|d| - 1]) * 10 + DigitOf(d[|d| - 1])
  }

  /**
   * The "%d" / "%ld" conversion of octstr_format and octstr_append_decimal
   * for a value that is not negative.
   */
  function NatToDecimal(n: nat): (r: string)
    ensures |r| > 0 && AllDigits(r)
    ensures n < 10 ==> r == [DigitChar(n)]
  {
    if n < 10 then [DigitChar(n)] else NatToDecimal(n / 10) + [DigitChar(n % 10)]
  }

  /** Decimal text read back gives the number that was formatted. */
  lemma {:induction false} DecimalRoundTrip(n: nat)
    ensures DigitsValue(NatToDecimal(n)) == n
  {
    if n >= 10 {
      var t := NatToDecimal(n / 10);
      var r := t + [DigitChar(n % 10)];
      assert r[..|r| - 1] == t;
      DecimalRoundTrip(n / 10);
    }
  }

  /** isspace() of the C locale. */
  predicate IsSpace(c: char) { c == ' ' || 9 <= c as int <= 13 }

  function SkipSpaces(s: string, i: nat): (j: nat)
    ensures i <= j
    ensures j <= |s| || j == i
    ensures forall k :: i <= k < j ==> k < |s| && IsSpace(s[k])
    ensures j < |s| ==> !IsSpace(s[j])
    decreases |s| - i
  {
    if i < |s| && IsSpace(s[i]) then SkipSpaces(s, i + 1) else i
  }

  /** The end of the run of digits that starts at `i`. */
  function DigitRunEnd(s: string, i: nat): (j: nat)
    ensures i <= j
    ensures j <= |s| || j == i
    ensures forall k :: i <= k < j ==> k < |s| && IsDigit(s[k])
    ensures j < |s| ==> !IsDigit(s[j])
    decreases |s| - i
  {
    if i < |s| && IsDigit(s[i]) then DigitRunEnd(s, i + 1) else i
  }

  const LONG_MAX: int := 0x7FFF_FFFF_FFFF_FFFF

  /**
   * octstr_parse_long with base 10: None when `pos` is past the end, when no
   * digit follows the optional white space and sign (strtol converted
   * nothing), or when the value does not fit a 64-bit long (ERANGE).
   */
  function ParseLong(s: string, pos: nat): (r: Option<int>)
    ensures r.Some? ==> -LONG_MAX - 1 <= r.value <= LONG_MAX
  {
    if pos >= |s| then None
    else
      var i := SkipSpaces(s, pos);
      var neg := i < |s| && s[i] == '-';
      var k := if i < |s| && (s[i] == '-' || s[i] == '+') then i + 1 else i;
      var e := DigitRunEnd(s, k);
      if e == k then None
      else
        var v: int := DigitsValue(s[k..e]);
        var n := if neg then -v else v;
        if n > LONG_MAX || n < -LONG_MAX - 1 then None else Some(n)
  }

  lemma {:induction false} DigitRunEndAt(s: string, i: nat, j: nat)
    requires i <= j <= |s|
    requires forall k :: i <= k < j ==> IsDigit(s[k])
    requires j < |s| ==> !IsDigit(s[j])
    ensures DigitRunEnd(s, i) == j
    decreases j - i
  {
    if i < j {
      DigitRunEndAt(s, i + 1, j);
    }
  }

  /**
   * Parsing a number formatted with NatToDecimal, followed by anything that
   * does not start with a digit, gives the number back.
   */
  lemma ParseFormatted(n: nat, rest: string)
    requires n <= LONG_MAX
    requires rest == [] || !IsDigit(rest[0])
    ensures ParseLong(NatToDecimal(n) + rest, 0) == Some(n)
  {
    var d := NatToDecimal(n);
    var s := d + rest;
    assert s[0] == d[0];
    assert SkipSpaces(s, 0) == 0;
    DigitRunEndAt(s, 0, |d|);
    assert s[0..|d|] == d;
    DecimalRoundTrip(n);
  }
}
