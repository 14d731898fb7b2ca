/** The few JavaScript value semantics the accessory code relies on:
    characteristic values with strict equality and truthiness, `Math.round`,
    number-to-string conversion, `String.prototype.replace` with a string
    pattern, and `parseInt` on decimal digits. */
module Js {
  import opened Optional

  /** A characteristic value as the accessory host stores and delivers it. */
  datatype CharValue = Null | Undefined | NotANumber | Bool(b: bool) | Num(n: int)

  /** JavaScript's `===` on characteristic values: no conversion between
      kinds (`true !== 1`), and `NaN` is not equal even to itself. */
  predicate StrictEquals(a: CharValue, b: CharValue) {
    a == b && !a.NotANumber?
  }

  /** JavaScript truthiness of a characteristic value. */
  predicate Truthy(v: CharValue) {
    match v
    case Bool(b) => b
    case Num(n) => n != 0
    case _ => false
  }

  /** `a || b`: the first operand when it is truthy, the second otherwise. */
  function Or(a: CharValue, b: CharValue): CharValue {
    if Truthy(a) then a else b
  }

  /** `Math.round`: halves round towards positive infinity. */
  function Round(x: real): int {
    (x + 0.5).Floor
  }

  function Min(a: int, b: int): int { if a <= b then a else b }

  function Max(a: int, b: int): int { if a >= b then a else b }

  // ---------------------------------------------------------------------
  // Decimal text

  predicate IsDigit(c: char) { '0' <= c <= '9' }

  predicate AllDigits(s: string) {
    forall i :: 0 <= i < |s| ==> IsDigit(s[i])
  }

  function DigitChar(d: nat): (c: char)
    requires d < 10
    ensures IsDigit(c)
  {
    (('0' as int) + d) as char
  }

  /** The decimal text JavaScript produces for a non-negative integer. */
  function ShowNat(n: nat): (s: string)
    ensures 1 <= |s| && AllDigits(s)
    decreases n
  {
    if n < 10 then [DigitChar(n)] else ShowNat(n / 10) + [DigitChar(n % 10)]
  }

  /** The value of a string of decimal digits (leading zeros allowed). */
  function DigitsValue(s: string): nat
    requires AllDigits(s)
  {
    if |s| == 0 then 0
    else DigitsValue(s[..|s| - 1]) * 10 + ((s[|s| - 1] as int) - ('0' as int))
  }

  /** The longest prefix of `s` made of decimal digits. */
  function LeadingDigits(s: string): (p: string)
    ensures p <= s && AllDigits(p)
    ensures |p| < |s| ==> !IsDigit(s[|p|])
  {
    if |s| == 0 || !IsDigit(s[0]) then [] else [s[0]] + LeadingDigits(s[1..])
  }

  /** `parseInt(s)` on text that starts with decimal digits; `None` is `NaN`.
      Leading white space, a sign and the `0x` prefix are not modelled. */
  function ParseInt(s: string): Option<nat> {
    var p := LeadingDigits(s);
    if |p| == 0 then None else Some(DigitsValue(p))
  }

  /** `String(x)` for a parsed number: its decimal text, or `"NaN"`. */
  function NumberText(x: Option<nat>): string {
    match x
    case Some(n) => ShowNat(n)
    case None => "NaN"
  }

  /** `s.replace(pat, rep)` with a string pattern: only the first occurrence
      is replaced. */
  function ReplaceFirst(s: string, pat: string, rep: string): string
    decreases |s|
  {
    if |pat| == 0 then rep + s
    else if |s| < |pat| then s
    else if s[..|pat|] == pat then rep + s[|pat|..]
    else [s[0]] + ReplaceFirst(s[1..], pat, rep)
  }

  lemma {:induction false} LeadingDigitsOfDigits(s: string)
    requires AllDigits(s)
    ensures LeadingDigits(s) == s
    decreases |s|
  {
    if |s| > 0 {
      assert AllDigits(s[1..]) by {
        forall i | 0 <= i < |s[1..]| ensures IsDigit(s[1..][i]) {
          assert s[1..][i] == s[i + 1];
        }
      }
      LeadingDigitsOfDigits(s[1..]);
      assert [s[0]] + s[1..] == s;
    }
  }

  lemma {:induction false} DigitsValueOfShow(n: nat)
    ensures DigitsValue(ShowNat(n)) == n
    decreases n
  {
    var s := ShowNat(n);
    if n >= 10 {
      assert s[..|s| - 1] == ShowNat(n / 10);
      assert s[|s| - 1] == DigitChar(n % 10);
      DigitsValueOfShow(n / 10);
    } else {
      assert s[..|s| - 1] == [];
    }
  }

  /** Reading back the decimal text of a number gives the number. */
  lemma ParseShow(n: nat)
    ensures ParseInt(ShowNat(n)) == Some(n)
  {
    LeadingDigitsOfDigits(ShowNat(n));
    DigitsValueOfShow(n);
  }

  /** Replacing a pattern that opens the text removes exactly that prefix. */
  lemma ReplacePrefix(pat: string, rest: string)
    requires |pat| > 0
    ensures ReplaceFirst(pat + rest, pat, "") == rest
  {
    assert (pat + rest)[..|pat|] == pat;
    assert (pat + rest)[|pat|..] == rest;
  }
}
