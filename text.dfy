/**
 * String helpers used by the display texts: decimal rendering of integers
 * (C#'s int.ToString()), joining with a separator (string.Join), and the
 * case-insensitive comparison used by the user registry.
 */
module Text {

  predicate IsDigit(c: char) {
    '0' <= c <= '9'
  }

  function DigitChar(d: int): (c: char)
    requires 0 <= d < 10
    ensures IsDigit(c) && c as int - '0' as int == d
  {
    ('0' as int + d) as char
  }

  /** Decimal digits of n, most significant first, without leading zeros. */
  function NatToString(n: nat): (s: string)
    ensures |s| > 0
    decreases n
  {
    if n < 10 then [DigitChar(n)] else NatToString(n / 10) + [DigitChar(n % 10)]
  }

  lemma {:induction false} NatToStringDigits(n: nat)
    ensures forall i :: 0 <= i < |NatToString(n)| ==> IsDigit(NatToString(n)[i])
    decreases n
  {
    if n >= 10 {
      NatToStringDigits(n / 10);
    }
  }

  /** C#'s int.ToString(): a leading '-' for negative values. */
  function IntToString(i: int): (s: string)
    ensures |s| > 0
  {
    if i < 0 then "-" + NatToString(-i) else NatToString(i)
  }

  /** The first character of int.ToString() is a digit exactly for the non-negative values. */
  lemma IntToStringLead(i: int)
    ensures i >= 0 ==> IsDigit(IntToString(i)[0])
    ensures i < 0 ==> IntToString(i)[0] == '-'
  {
    if i >= 0 {
      NatToStringDigits(i);
    }
  }

  /** Reads a string of decimal digits back as a number. */
  function ParseNat(s: string): nat
  {
    if s == [] then 0
    else
      var d := s[|s| - 1] as int - '0' as int;
      ParseNat(s[..|s| - 1]) * 10 + (if 0 <= d < 10 then d else 0)
  }

  /** ParseNat inverts NatToString, so the rendering of numbers is injective. */
  lemma {:induction false} ParseNatToString(n: nat)
    ensures ParseNat(NatToString(n)) == n
    decreases n
  {
    var s := NatToString(n);
    if n >= 10 {
      ParseNatToString(n / 10);
      assert s[..|s| - 1] == NatToString(n / 10);
    }
  }

  lemma NatToStringInjective(a: nat, b: nat)
    requires NatToString(a) == NatToString(b)
    ensures a == b
  {
    ParseNatToString(a);
    ParseNatToString(b);
  }

  /** string.Join(sep, xs). */
  function Join(xs: seq<string>, sep: string): (r: string)
    ensures xs == [] ==> r == ""
    ensures |xs| == 1 ==> r == xs[0]
    decreases |xs|
  {
    if xs == [] then ""
    else if |xs| == 1 then xs[0]
    else Join(xs[..|xs| - 1], sep) + sep + xs[|xs| - 1]
  }

  /** The index of the last ',' in s, or -1 when there is none. */
  function LastComma(s: string): (k: int)
    ensures -1 <= k < |s|
    ensures k >= 0 ==> s[k] == ','
    ensures forall j :: k < j < |s| ==> s[j] != ','
  {
    if s == [] then -1
    else if s[|s| - 1] == ',' then |s| - 1
    else LastComma(s[..|s| - 1])
  }

  /** Splits a text at each ", ", the inverse of Join(xs, ", "). */
  function Pieces(s: string): (ps: seq<string>)
    ensures |ps| > 0
    decreases |s|
  {
    var k := LastComma(s);
    if k < 0 then [s]
    else Pieces(s[..k]) + [if k + 2 <= |s| then s[k + 2..] else ""]
  }

  /** Join(xs, ", ") can be split back into xs when no piece holds a comma. */
  lemma {:induction false} PiecesOfJoin(xs: seq<string>)
    requires |xs| > 0
    requires forall i, j :: 0 <= i < |xs| && 0 <= j < |xs[i]| ==> xs[i][j] != ','
    ensures Pieces(Join(xs, ", ")) == xs
    decreases |xs|
  {
    if |xs| > 1 {
      var init := xs[..|xs| - 1];
      var last := xs[|xs| - 1];
      var j := Join(init, ", ");
      var s := j + ", " + last;
      assert s[|j|] == ',';
      forall t | |j| < t < |s| ensures s[t] != ',' {
        if t > |j| + 1 {
          assert s[t] == last[t - |j| - 2];
        }
      }
      assert LastComma(s) == |j|;
      assert s[..|j|] == j;
      assert s[|j| + 2..] == last;
      PiecesOfJoin(init);
      assert init + [last] == xs;
    }
  }

  /** The lower-case letters whose upper-case form lies 32 code points lower:
      a..z and the Latin-1 letters U+00E0..U+00FE except the division sign U+00F7. */
  predicate ShiftedLower(c: char) {
    ('a' <= c <= 'z') || (0xE0 <= c as int <= 0xFE && c as int != 0xF7)
  }

  /** The other lower-case letters of Latin-1: U+00FF (y with diaeresis,
      upper case U+0178) and U+00B5 (micro sign, upper case U+039C). */
  predicate OtherLower(c: char) {
    c as int == 0xFF || c as int == 0xB5
  }

  /** Upper-case folding of one character, over ASCII and Latin-1. */
  function UpperChar(c: char): (u: char)
    ensures ShiftedLower(c) ==> u as int == c as int - 32
    ensures !ShiftedLower(c) && !OtherLower(c) ==> u == c
  {
    if ShiftedLower(c) then (c as int - 32) as char
    else if c as int == 0xFF then 0x178 as char
    else if c as int == 0xB5 then 0x39C as char
    else c
  }

  /** A character changes exactly when it is a lower-case letter, and the
      result is never a lower-case letter, so folding twice is folding once. */
  lemma UpperCharFolds(c: char)
    ensures UpperChar(c) != c <==> ShiftedLower(c) || OtherLower(c)
    ensures !ShiftedLower(UpperChar(c)) && !OtherLower(UpperChar(c))
    ensures UpperChar(UpperChar(c)) == UpperChar(c)
  {
  }

  function Upper(s: string): (u: string)
    ensures |u| == |s| && forall i :: 0 <= i < |s| ==> u[i] == UpperChar(s[i])
  {
    if s == [] then [] else Upper(s[..|s| - 1]) + [UpperChar(s[|s| - 1])]
  }

  /** String.Equals(a, b, StringComparison.OrdinalIgnoreCase), with the folding of UpperChar. */
  predicate EqualsIgnoreCase(a: string, b: string) {
    Upper(a) == Upper(b)
  }

  /** Case-insensitive equality is an equivalence that identifies "ANA" and "ana". */
  lemma EqualsIgnoreCaseProperties(a: string, b: string, c: string)
    ensures EqualsIgnoreCase(a, a)
    ensures EqualsIgnoreCase(a, b) ==> EqualsIgnoreCase(b, a)
    ensures EqualsIgnoreCase(a, b) && EqualsIgnoreCase(b, c) ==> EqualsIgnoreCase(a, c)
    ensures EqualsIgnoreCase(a, b) ==> |a| == |b|
  {
  }

  lemma EqualsIgnoreCaseExample()
    ensures EqualsIgnoreCase("Ana", "ANA")
    ensures !EqualsIgnoreCase("Ana", "Ane")
    ensures EqualsIgnoreCase("jos\U{E9}", "JOS\U{C9}")
  {
    assert Upper("Ana")[2] != Upper("Ane")[2];
  }
}
