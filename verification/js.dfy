/**
  The handful of JavaScript built-ins the toolbar code leans on, over strings
  as `seq<char>`: `startsWith`, `replace` with a string pattern, `parseInt`,
  number-to-string conversion in template literals, `charAt(0).toUpperCase()`,
  and the `||` fallback on optional strings. Each is stated in its own terms so
  that the toolbar modules can derive headings, levels and keys the same way
  the code does, rather than by fiat.
 */
module Js {

  /** `undefined` (or `null`) versus a present value. */
  datatype Option<T> = None | Some(value: T)

  // ---------------------------------------------------------------------------
  // Searching

  /** `s.startsWith(prefix)` */
  predicate StartsWith(s: string, prefix: string) {
    |prefix| <= |s| && s[..|prefix|] == prefix
  }

  /** `pat` occurs in `s` starting at index `i`. */
  predicate OccursAt(s: string, pat: string, i: nat) {
    i + |pat| <= |s| && s[i..i + |pat|] == pat
  }

  /** The first occurrence of `pat` in `s` at or after `from`, as `indexOf` finds it. */
  function IndexOfFrom(s: string, pat: string, from: nat): (r: Option<nat>)
    decreases |s| - from
    ensures r.Some? ==> from <= r.value && OccursAt(s, pat, r.value)
    ensures r.Some? ==> forall j: nat :: from <= j < r.value ==> !OccursAt(s, pat, j)
    ensures r.None? ==> forall j: nat :: from <= j ==> !OccursAt(s, pat, j)
  {
    if from + |pat| > |s| then None
    else if s[from..from + |pat|] == pat then Some(from)
    else IndexOfFrom(s, pat, from + 1)
  }

  /** `s.indexOf(pat)`, with `None` for -1. */
  function IndexOf(s: string, pat: string): Option<nat> {
    IndexOfFrom(s, pat, 0)
  }

  /**
    `s.replace(pat, rep)` for a string `pat`: only the FIRST occurrence is
    replaced, and a string without one is returned unchanged. (`rep` is taken
    literally; the `$`-patterns of `replace` are not modelled.)
   */
  function ReplaceFirst(s: string, pat: string, rep: string): (r: string)
    ensures (forall j: nat :: !OccursAt(s, pat, j)) ==> r == s
    ensures forall i: nat ::
      OccursAt(s, pat, i) && (forall j: nat :: j < i ==> !OccursAt(s, pat, j)) ==>
        r == s[..i] + rep + s[i + |pat|..]
  {
    match IndexOf(s, pat)
    case None => s
    case Some(i) => s[..i] + rep + s[i + |pat|..]
  }

  /** Deleting a prefix the string starts with leaves exactly the rest. */
  lemma ReplacePrefixWithEmpty(s: string, prefix: string)
    requires StartsWith(s, prefix)
    ensures ReplaceFirst(s, prefix, "") == s[|prefix|..]
  {
    assert OccursAt(s, prefix, 0);
    assert s[..0] + "" + s[|prefix|..] == s[|prefix|..];
  }

  // ---------------------------------------------------------------------------
  // Decimal digits, parseInt and number-to-string

  predicate IsDigit(c: char) {
    '0' <= c <= '9'
  }

  predicate AllDigits(s: string) {
    forall i :: 0 <= i < |s| ==> IsDigit(s[i])
  }

  function DigitValue(c: char): (v: nat)
    requires IsDigit(c)
    ensures v < 10
  {
    (c - '0') as nat
  }

  function Digit(n: nat): (c: char)
    requires n < 10
    ensures IsDigit(c) && DigitValue(c) == n
  {
    ('0' as int + n) as char
  }

  /** Length of the longest run of decimal digits at the start of `s`. */
  function LeadingDigits(s: string): (n: nat)
    ensures n <= |s|
    ensures AllDigits(s[..n])
    ensures n < |s| ==> !IsDigit(s[n])
  {
    if |s| > 0 && IsDigit(s[0]) then
      var n := 1 + LeadingDigits(s[1..]);
      assert s[..n] == [s[0]] + s[1..][..n - 1];
      n
    else 0
  }

  /** The value of a string of decimal digits, most significant first. */
  function DigitsValue(d: string): nat
    requires AllDigits(d)
  {
    if |d| == 0 then 0
    else 10 * DigitsValue(d[..|d| - 1]) + DigitValue(d[|d| - 1])
  }

  /**
    `parseInt(s)` for the unsigned decimal strings this code produces: the value
    of the leading run of digits, and `None` (JavaScript's `NaN`) when there is
    none. Whatever follows the digits is ignored, so `parseInt("16px")` is 16.
   */
  function ParseInt(s: string): (r: Option<nat>)
    ensures r.None? <==> (|s| == 0 || !IsDigit(s[0]))
  {
    var n := LeadingDigits(s);
    if n == 0 then None else Some(DigitsValue(s[..n]))
  }

  /** Decimal rendering of a natural number, as a template literal prints it. */
  function NatToString(n: nat): (s: string)
    ensures 0 < |s| && AllDigits(s)
    ensures |s| > 1 ==> s[0] != '0'
  {
    if n < 10 then [Digit(n)]
    else NatToString(n / 10) + [Digit(n % 10)]
  }

  /** Decimal rendering of an integer, with a leading `-` when negative. */
  function IntToString(i: int): (s: string)
    ensures 0 < |s|
    ensures i < 0 <==> s[0] == '-'
  {
    if i < 0 then "-" + NatToString(-i) else NatToString(i)
  }

  lemma {:induction false} DigitsValueOfNatToString(n: nat)
    ensures DigitsValue(NatToString(n)) == n
  {
    if n >= 10 {
      var s := NatToString(n);
      assert s[..|s| - 1] == NatToString(n / 10);
      DigitsValueOfNatToString(n / 10);
    }
  }

  lemma {:induction false} LeadingDigitsOfDigits(d: string, suffix: string)
    requires AllDigits(d)
    requires |suffix| == 0 || !IsDigit(suffix[0])
    ensures LeadingDigits(d + suffix) == |d|
  {
    if |d| > 0 {
      assert (d + suffix)[1..] == d[1..] + suffix;
      LeadingDigitsOfDigits(d[1..], suffix);
    }
  }

  /**
    `parseInt` reads back what number-to-string wrote, even with a unit such as
    "px" appended.
   */
  lemma ParseNatToString(n: nat, suffix: string)
    requires |suffix| == 0 || !IsDigit(suffix[0])
    ensures ParseInt(NatToString(n) + suffix) == Some(n)
  {
    var d := NatToString(n);
    LeadingDigitsOfDigits(d, suffix);
    assert (d + suffix)[..|d|] == d;
    DigitsValueOfNatToString(n);
  }

  lemma NatToStringInjective(a: nat, b: nat)
    ensures NatToString(a) == NatToString(b) <==> a == b
  {
    if NatToString(a) == NatToString(b) {
      ParseNatToString(a, "");
      ParseNatToString(b, "");
      assert NatToString(a) + "" == NatToString(a);
      assert NatToString(b) + "" == NatToString(b);
    }
  }

  // ---------------------------------------------------------------------------
  // Case and fallbacks

  /** `toUpperCase` on one character, for the ASCII letters the item names use. */
  function Upper(c: char): (u: char)
    ensures 'a' <= c <= 'z' ==> 'A' <= u <= 'Z' && u as int - c as int == 'A' as int - 'a' as int
    ensures !('a' <= c <= 'z') ==> u == c
  {
    if 'a' <= c <= 'z' then (c as int - 32) as char else c
  }

  /**
    `s.charAt(0).toUpperCase() + s.slice(1)`: the first character capitalised,
    the rest untouched; `charAt(0)` of the empty string is empty.
   */
  function CapitalizeFirst(s: string): (r: string)
    ensures |r| == |s|
    ensures |s| > 0 ==> r[0] == Upper(s[0])
    ensures forall i :: 0 < i < |s| ==> r[i] == s[i]
  {
    if |s| == 0 then "" else [Upper(s[0])] + s[1..]
  }

  /**
    `value || fallback` for an optional string: both `undefined` and the empty
    string are falsy, so either falls back.
   */
  function StringOr(value: Option<string>, fallback: string): (r: string)
    ensures value.Some? && value.value != "" ==> r == value.value
    ensures value.None? || value.value == "" ==> r == fallback
  {
    match value
    case Some(s) => if s != "" then s else fallback
    case None => fallback
  }
}
