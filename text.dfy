/**
 * Text helpers shared by the model: decimal rendering of numbers (template
 * literals such as `HTTP ${status}`), ASCII case folding (the `i` flag of a
 * non-Unicode regular expression), substring search, and `split("T")[0]`.
 */
module Text {

  /** The character for a decimal digit. */
  function DigitChar(d: nat): (c: char)
    requires d < 10
    ensures '0' <= c <= '9'
  {
    ['0', '1', '2', '3', '4', '5', '6', '7', '8', '9'][d]
  }

  predicate IsDigit(c: char) { '0' <= c <= '9' }

  /** The value of a decimal digit character. */
  function DigitValue(c: char): (d: nat)
    requires IsDigit(c)
    ensures d < 10
  {
    (c as int - '0' as int) as nat
  }

  lemma {:induction false} DigitValueOfChar(d: nat)
    requires d < 10
    ensures IsDigit(DigitChar(d)) && DigitValue(DigitChar(d)) == d
  {
    assert DigitChar(d) as int == '0' as int + d by {
      match d
      case 0 => case 1 => case 2 => case 3 => case 4 =>
      case 5 => case 6 => case 7 => case 8 => case 9 =>
    }
  }

  predicate AllDigits(s: string)
  {
    forall i :: 0 <= i < |s| ==> IsDigit(s[i])
  }

  /** Decimal rendering of a natural number, without leading zeros. */
  function NatToString(n: nat): (s: string)
    ensures |s| > 0 && AllDigits(s)
    ensures |s| > 1 ==> s[0] != '0'
  {
    if n < 10 then [DigitChar(n)]
    else NatToString(n / 10) + [DigitChar(n % 10)]
  }

  /** The number a string of decimal digits denotes. */
  function DigitsToNat(s: string): nat
    requires AllDigits(s)
  {
    if s == [] then 0
    else DigitsToNat(s[..|s| - 1]) * 10 + DigitValue(s[|s| - 1])
  }

  /** Reading back a rendered number gives the number. */
  lemma {:induction false} DigitsRoundTrip(n: nat)
    ensures DigitsToNat(NatToString(n)) == n
  {
    var s := NatToString(n);
    if n < 10 {
      DigitValueOfChar(n);
      assert s[..0] == [];
    } else {
      DigitsRoundTrip(n / 10);
      DigitValueOfChar(n % 10);
      assert s[..|s| - 1] == NatToString(n / 10);
    }
  }

  /** `String(n)` for an integer. */
  function IntToString(n: int): (s: string)
    ensures n >= 0 ==> s == NatToString(n)
    ensures n < 0 ==> |s| > 1 && s[0] == '-' && s[1..] == NatToString(-n)
  {
    if n < 0 then "-" + NatToString(-n) else NatToString(n)
  }

  /** Maps 'A'..'Z' to 'a'..'z' and leaves every other character alone. */
  function FoldAscii(c: char): (f: char)
    ensures !('A' <= f <= 'Z')
    ensures 'A' <= c <= 'Z' ==> 'a' <= f <= 'z' && f as int == c as int + 32
    ensures !('A' <= c <= 'Z') ==> f == c
  {
    if 'A' <= c <= 'Z' then (c as int + 32) as char else c
  }

  /** `a` and `b` have the same length and agree position by position up to ASCII case. */
  predicate FoldEqual(a: string, b: string)
  {
    |a| == |b| && forall i :: 0 <= i < |a| ==> FoldAscii(a[i]) == FoldAscii(b[i])
  }

  /** The window of `hay` starting at `i` equals `needle` up to ASCII case. */
  predicate MatchAt(hay: string, needle: string, i: int)
  {
    0 <= i && i + |needle| <= |hay| && FoldEqual(hay[i..i + |needle|], needle)
  }

  /** Case-insensitive substring search over the start positions from `i` on, left to right. */
  function ContainsFoldedFrom(hay: string, needle: string, i: nat): bool
    decreases |hay| - i
  {
    if i + |needle| > |hay| then false
    else MatchAt(hay, needle, i) || ContainsFoldedFrom(hay, needle, i + 1)
  }

  /** `needle` occurs in `hay` ignoring ASCII case (`/needle/i.test(hay)`). */
  function ContainsFolded(hay: string, needle: string): bool
  {
    ContainsFoldedFrom(hay, needle, 0)
  }

  /** The search from `i` succeeds exactly when some window at or after `i` matches. */
  lemma {:induction false} ContainsFoldedFromSpec(hay: string, needle: string, i: nat)
    ensures ContainsFoldedFrom(hay, needle, i) <==> exists j :: i <= j && MatchAt(hay, needle, j)
    decreases |hay| - i
  {
    if i + |needle| > |hay| {
      forall j | i <= j ensures !MatchAt(hay, needle, j) { }
    } else {
      ContainsFoldedFromSpec(hay, needle, i + 1);
      if !MatchAt(hay, needle, i) && !ContainsFoldedFrom(hay, needle, i + 1) {
        forall j | i <= j ensures !MatchAt(hay, needle, j) {
          if j > i { assert i + 1 <= j; }
        }
      }
    }
  }

  /** The search succeeds exactly when some window of `hay` equals `needle` up to case. */
  lemma ContainsFoldedSpec(hay: string, needle: string)
    ensures ContainsFolded(hay, needle) <==> exists j :: MatchAt(hay, needle, j)
  {
    ContainsFoldedFromSpec(hay, needle, 0);
  }

  /** `s.split(sep)[0]`: the text before the first `sep`, or all of `s`. */
  function Before(s: string, sep: char): (r: string)
    ensures r <= s && sep !in r
    ensures |r| < |s| ==> s[|r|] == sep
  {
    if s == [] || s[0] == sep then []
    else [s[0]] + Before(s[1..], sep)
  }
}
