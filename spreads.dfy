/**
 * The `SPREADS` registry shared by both variants, the shape of a custom spread,
 * and the default labels a custom spread falls back to.
 */
module Spreads {

  /** A spread object `{ name, cards_to_draw, positions }`. */
  datatype Spread = Spread(name: string, cardsToDraw: int, positions: seq<string>)

  /** The keys of the predefined spreads (`data-spread-type` of the spread buttons). */
  datatype SpreadKey = OneCard | ThreeCard | CelticCross

  /** A spread asks for exactly one card per position label. */
  predicate WellFormed(s: Spread) {
    s.cardsToDraw == |s.positions|
  }

  /** The `SPREADS` table: every entry has one position per card to draw. */
  function Predefined(key: SpreadKey): (s: Spread)
    ensures WellFormed(s) && s.cardsToDraw >= 1
    ensures key == OneCard ==> s.cardsToDraw == 1
    ensures key == ThreeCard ==> s.cardsToDraw == 3
    ensures key == CelticCross ==> s.cardsToDraw == 10
  {
    match key
    case OneCard => Spread("원 카드", 1, ["핵심 조언"])
    case ThreeCard => Spread("쓰리 카드", 3, ["과거", "현재", "미래"])
    case CelticCross =>
      Spread("켈틱 크로스", 10,
        ["현재", "장애물", "과거", "미래", "의식", "무의식", "조언", "주변 환경", "희망과 두려움", "결과"])
  }

  /** The result of `parseInt` on what the user typed: a whole number, or `NaN`. */
  datatype ParsedCount = Number(n: int) | NaN

  /** JavaScript's `c < k`; every comparison with `NaN` is false. */
  predicate CountBelow(c: ParsedCount, k: int) {
    c.Number? && c.n < k
  }

  /** JavaScript's `c > k`; every comparison with `NaN` is false. */
  predicate CountAbove(c: ParsedCount, k: int) {
    c.Number? && c.n > k
  }

  /** JavaScript's `k <= c`; every comparison with `NaN` is false. */
  predicate CountAtLeast(c: ParsedCount, k: int) {
    c.Number? && k <= c.n
  }

  /** The digit character for `d`. */
  function DigitChar(d: nat): char
    requires d < 10
  {
    "0123456789"[d]
  }

  /** The value of a decimal digit character. */
  function DigitValue(c: char): nat
    requires '0' <= c <= '9'
  {
    (c as int - '0' as int) as nat
  }

  /** A string made only of decimal digits. */
  predicate AllDigits(s: string) {
    forall k | 0 <= k < |s| :: '0' <= s[k] <= '9'
  }

  /** The number a string of decimal digits denotes. */
  function DecimalValue(s: string): nat
    requires AllDigits(s)
  {
    if s == [] then 0 else DecimalValue(s[..|s| - 1]) * 10 + DigitValue(s[|s| - 1])
  }

  /** `${n}` for a non-negative integer: its decimal digits, without leading zeros. */
  function DecimalString(n: nat): (s: string)
    ensures |s| >= 1 && AllDigits(s)
    ensures |s| > 1 ==> s[0] != '0'
    decreases n
  {
    if n < 10 then [DigitChar(n)] else DecimalString(n / 10) + [DigitChar(n % 10)]
  }

  /** Reading the decimal string back gives the number: `${n}` loses nothing. */
  lemma {:induction false} DecimalRoundTrip(n: nat)
    ensures DecimalValue(DecimalString(n)) == n
    decreases n
  {
    var s := DecimalString(n);
    if n < 10 {
      assert s[..0] == [];
    } else {
      DecimalRoundTrip(n / 10);
      assert s[..|s| - 1] == DecimalString(n / 10);
    }
  }

  /** The default label of the 1-based position `number`, e.g. `카드 3` or `위치 3`. */
  function DefaultLabel(prefix: string, number: nat): string {
    prefix + DecimalString(number)
  }

  /** Different positions get different default labels. */
  lemma DefaultLabelsDistinct(prefix: string, m: nat, n: nat)
    requires m != n
    ensures DefaultLabel(prefix, m) != DefaultLabel(prefix, n)
  {
    if DefaultLabel(prefix, m) == DefaultLabel(prefix, n) {
      var lm, ln := DefaultLabel(prefix, m), DefaultLabel(prefix, n);
      assert DecimalString(m) == lm[|prefix|..] == ln[|prefix|..] == DecimalString(n);
      DecimalRoundTrip(m);
      DecimalRoundTrip(n);
    }
  }

  /** `value || fallback` on a string: the empty string is falsy. */
  function LabelOr(value: string, fallback: string): string {
    if value == "" then fallback else value
  }
}
