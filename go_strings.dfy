/** The Go standard-library string operations the logger relies on:
    strings.Replace with n = 1, strings.TrimRight with the cutset "\n",
    strings.ToUpper on ASCII text, and the decimal rendering of an int by
    fmt's %d and %v verbs. */
module GoStrings {
  import opened Wrappers

  /** `pat` occurs in `s` starting at index `i`. */
  predicate MatchAt(s: string, pat: string, i: nat)
  {
    i + |pat| <= |s| && s[i..i + |pat|] == pat
  }

  /** `i` is the first index at which `pat` occurs in `s`. */
  predicate FirstMatch(s: string, pat: string, i: nat)
  {
    MatchAt(s, pat, i) && forall j: nat :: j < i ==> !MatchAt(s, pat, j)
  }

  /** The first index at or after `from` at which `pat` occurs in `s`. */
  function IndexFrom(s: string, pat: string, from: nat): (r: Option<nat>)
    ensures r.Some? ==> from <= r.value && MatchAt(s, pat, r.value)
    ensures r.Some? ==> forall j: nat :: from <= j < r.value ==> !MatchAt(s, pat, j)
    ensures r.None? ==> forall j: nat :: from <= j ==> !MatchAt(s, pat, j)
    decreases |s| - from
  {
    if from + |pat| > |s| then None
    else if s[from..from + |pat|] == pat then Some(from)
    else IndexFrom(s, pat, from + 1)
  }

  /** strings.Index: the first occurrence of `pat` in `s`, if any. */
  function IndexOf(s: string, pat: string): (r: Option<nat>)
    ensures r.Some? ==> FirstMatch(s, pat, r.value)
    ensures r.None? ==> forall j: nat :: !MatchAt(s, pat, j)
  {
    IndexFrom(s, pat, 0)
  }

  /** strings.Replace(s, target, replacement, 1): only the first occurrence
      of `target` is replaced, `s` is returned as it is when `target` does not
      occur, and an empty `target` matches at the start of `s`. */
  function ReplaceFirst(s: string, target: string, replacement: string): (r: string)
    ensures (forall j: nat :: !MatchAt(s, target, j)) ==> r == s
    ensures forall i: nat :: FirstMatch(s, target, i) ==>
              r == s[..i] + replacement + s[i + |target|..]
    ensures target == "" ==> r == replacement + s
  {
    match IndexOf(s, target)
    case None => s
    case Some(i) => s[..i] + replacement + s[i + |target|..]
  }

  /** When `s` starts with `target`, that leading occurrence is the one replaced. */
  lemma ReplaceFirstAtStart(s: string, target: string, replacement: string)
    requires target <= s
    ensures ReplaceFirst(s, target, replacement) == replacement + s[|target|..]
  {
    assert MatchAt(s, target, 0) by {
      assert s[0..0 + |target|] == target;
    }
    assert IndexOf(s, target) == Some(0);
  }

  /** `s` ends with `suffix`. */
  predicate EndsWith(s: string, suffix: string)
  {
    |suffix| <= |s| && s[|s| - |suffix|..] == suffix
  }

  /** strings.TrimRight(s, "\n"): every trailing newline is removed. */
  function TrimRightNewlines(s: string): (r: string)
    ensures r <= s
    ensures forall i :: |r| <= i < |s| ==> s[i] == '\n'
    ensures r == [] || r[|r| - 1] != '\n'
  {
    if s != [] && s[|s| - 1] == '\n' then TrimRightNewlines(s[..|s| - 1]) else s
  }

  function UpperAscii(c: char): char
  {
    if 'a' <= c <= 'z' then (c as int - 32) as char else c
  }

  /** strings.ToUpper, for the ASCII signal names it is applied to. */
  function ToUpper(s: string): (r: string)
    ensures |r| == |s|
    ensures forall i :: 0 <= i < |s| ==> r[i] == UpperAscii(s[i])
  {
    if s == [] then [] else [UpperAscii(s[0])] + ToUpper(s[1..])
  }

  predicate IsDigit(c: char)
  {
    '0' <= c <= '9'
  }

  function DigitChar(d: nat): (c: char)
    requires d < 10
    ensures IsDigit(c)
    ensures c == '0' <==> d == 0
  {
    (d + '0' as int) as char
  }

  /** The number a string of decimal digits denotes. */
  function DecimalValue(s: string): nat
    requires forall i :: 0 <= i < |s| ==> IsDigit(s[i])
  {
    if s == [] then 0
    else
      assert IsDigit(s[|s| - 1]);
      DecimalValue(s[..|s| - 1]) * 10 + (s[|s| - 1] as int - '0' as int)
  }

  /** The decimal digits of `n`, most significant first. */
  function NatToDecimal(n: nat): (r: string)
    ensures r != []
    ensures forall i :: 0 <= i < |r| ==> IsDigit(r[i])
    ensures n > 0 ==> r[0] != '0'
  {
    if n < 10 then [DigitChar(n)] else NatToDecimal(n / 10) + [DigitChar(n % 10)]
  }

  /** Reading the digits back gives the number that was rendered. */
  lemma {:induction false} DecimalRoundTrip(n: nat)
    ensures DecimalValue(NatToDecimal(n)) == n
  {
    if n >= 10 {
      DecimalRoundTrip(n / 10);
      var s := NatToDecimal(n);
      assert s[..|s| - 1] == NatToDecimal(n / 10);
    }
  }

  /** fmt's %d (and %v) of an int: a minus sign before the digits of a negative number. */
  function Itoa(n: int): (r: string)
    ensures r != []
    ensures r[0] == '-' <==> n < 0
  {
    if n < 0 then "-" + NatToDecimal(-n) else NatToDecimal(n)
  }

  /** The digits Itoa writes after an optional minus sign denote |n|. */
  lemma ItoaValue(n: int)
    ensures var r := Itoa(n);
      var d := if n < 0 then r[1..] else r;
      && (forall i :: 0 <= i < |d| ==> IsDigit(d[i]))
      && DecimalValue(d) == (if n < 0 then -n else n)
  {
    var m: nat := if n < 0 then -n else n;
    DecimalRoundTrip(m);
    if n < 0 {
      assert Itoa(n)[1..] == NatToDecimal(m);
    }
  }
}
