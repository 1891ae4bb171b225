/**
 * The pure part of the damage calculator (src/App.tsx): the table of dice,
 * how the die maximum is read back from a die's name, the random draw, and
 * the closed-form damage formula.
 *
 * JavaScript numbers are doubles; this model computes with exact integers
 * and reals, so rounding of intermediate doubles is idealised away.
 */
module Dice {
  import opened Options
  import opened Arithmetic

  /** The six dice the calculator offers, in the order of its selection grid. */
  datatype DiceType = D4 | D6 | D8 | D10 | D12 | D20

  /**
   * `diceMaxValues`: the number of faces of each die. Reading the number back
   * from the die's name, as `handleRoll` does, gives the same value.
   */
  function DiceMaxValue(t: DiceType): (m: nat)
    ensures 4 <= m <= 20 && m % 2 == 0
    ensures DiceMaxFromName(DiceName(t)) == Some(m)
  {
    match t
    case D4 => ParseOneDigit("4"); assert DiceName(D4)[1..] == "4"; 4
    case D6 => ParseOneDigit("6"); assert DiceName(D6)[1..] == "6"; 6
    case D8 => ParseOneDigit("8"); assert DiceName(D8)[1..] == "8"; 8
    case D10 => ParseTwoDigits("10"); assert DiceName(D10)[1..] == "10"; 10
    case D12 => ParseTwoDigits("12"); assert DiceName(D12)[1..] == "12"; 12
    case D20 => ParseTwoDigits("20"); assert DiceName(D20)[1..] == "20"; 20
  }

  /** The text a row stores as its `diceType`. */
  function DiceName(t: DiceType): (s: string)
    ensures |s| >= 2 && s[0] == 'd'
  {
    match t
    case D4 => "d4"
    case D6 => "d6"
    case D8 => "d8"
    case D10 => "d10"
    case D12 => "d12"
    case D20 => "d20"
  }

  predicate IsDigit(c: char) {
    '0' <= c <= '9'
  }

  /** Length of the longest prefix of `s` made of decimal digits. */
  function DigitPrefixLength(s: string): (k: nat)
    ensures k <= |s|
    ensures forall i :: 0 <= i < k ==> IsDigit(s[i])
    ensures k < |s| ==> !IsDigit(s[k])
  {
    if s == [] || !IsDigit(s[0]) then 0 else 1 + DigitPrefixLength(s[1..])
  }

  function DigitValue(c: char): nat
    requires IsDigit(c)
  {
    c as int - '0' as int
  }

  /** The value of a string of decimal digits, most significant first. */
  function DigitsValue(s: string): nat
    requires forall i :: 0 <= i < |s| ==> IsDigit(s[i])
  {
    if s == [] then 0
    else DigitsValue(s[..|s| - 1]) * 10 + DigitValue(s[|s| - 1])
  }

  /**
   * `parseInt` on a string without sign or leading blanks: the value of the
   * leading run of digits, or None (JavaScript's NaN) when there is none.
   */
  function ParseInt(s: string): (r: Option<nat>)
    ensures r.None? <==> (s == [] || !IsDigit(s[0]))
  {
    var k := DigitPrefixLength(s);
    if k == 0 then None else Some(DigitsValue(s[..k]))
  }

  /** `parseInt(row.diceType.substring(1))`, the die maximum as `handleRoll` reads it. */
  function DiceMaxFromName(name: string): (r: Option<nat>)
    ensures r.None? <==> (|name| < 2 || !IsDigit(name[1]))
  {
    ParseInt(if |name| == 0 then name else name[1..])
  }

  lemma ParseOneDigit(s: string)
    requires |s| == 1 && IsDigit(s[0])
    ensures ParseInt(s) == Some(DigitValue(s[0]))
  {
    assert s[1..] == [];
    assert DigitPrefixLength(s) == 1;
    assert s[..1] == s;
    assert s[..|s| - 1] == [];
    assert DigitsValue(s) == DigitValue(s[0]);
  }

  lemma ParseTwoDigits(s: string)
    requires |s| == 2 && IsDigit(s[0]) && IsDigit(s[1])
    ensures ParseInt(s) == Some(10 * DigitValue(s[0]) + DigitValue(s[1]))
  {
    assert s[1..][1..] == [];
    assert DigitPrefixLength(s[1..]) == 1;
    assert DigitPrefixLength(s) == 2;
    assert s[..2] == s;
    assert s[..1][..0] == [];
    assert DigitsValue(s[..1]) == DigitValue(s[0]);
  }

  /**
   * The unit size the form falls back to for a die: the mean of 1..M rounded
   * down, `Math.floor((maxValue + 1) / 2)`.
   */
  function DefaultUnitSize(t: DiceType): (n: int)
    ensures 1 <= n <= DiceMaxValue(t)
    ensures 2 * n <= DiceMaxValue(t) + 1 < 2 * n + 2
  {
    (DiceMaxValue(t) + 1) / 2
  }

  /** `Math.floor(Math.random() * diceMax) + 1` for a draw `u` of `Math.random()`. */
  function DrawRoll(u: real, diceMax: int): (roll: int)
    requires 0.0 <= u < 1.0 && diceMax >= 1
    ensures 1 <= roll <= diceMax
  {
    assert 0.0 <= u * diceMax as real < diceMax as real;
    (u * diceMax as real).Floor + 1
  }

  /** Every face of the die is the outcome of some draw. */
  lemma RollCoversEveryFace(diceMax: int, face: int)
    requires 1 <= face <= diceMax
    ensures 0.0 <= (face - 1) as real / diceMax as real < 1.0
    ensures DrawRoll((face - 1) as real / diceMax as real, diceMax) == face
  {
  }

  /**
   * The damage a unit of size `n` deals on roll `roll` of a die with maximum
   * `diceMax`, as `handleRoll` computes it:
   * floor(N * (1 + (R - M) / (R + M - 2 + N/2))).
   * Without loss it is the integer quotient
   * floor(N * (4R + N - 4) / (2R + 2M + N - 4)), whose denominator is positive
   * as soon as N, R and M are at least 1.
   */
  function Damage(n: int, roll: int, diceMax: int): (d: int)
    requires n >= 1 && roll >= 1 && diceMax >= 1
    ensures DamageDenominator(n, roll, diceMax) > 0
    ensures d == DamageNumerator(n, roll) / DamageDenominator(n, roll, diceMax)
  {
    ExactDamageQuotient(n, roll, diceMax);
    FloorOfQuotient(DamageNumerator(n, roll), DamageDenominator(n, roll, diceMax));
    ExactDamage(n, roll, diceMax).Floor
  }

  /** The damage formula before rounding down, as an exact real. */
  function ExactDamage(n: int, roll: int, diceMax: int): real
    requires n >= 1 && roll >= 1 && diceMax >= 1
  {
    n as real * (1.0 + (roll - diceMax) as real / ((roll + diceMax - 2) as real + n as real / 2.0))
  }

  /** Numerator of the damage formula once written over a single integer denominator. */
  function DamageNumerator(n: int, roll: int): int {
    n * (4 * roll + n - 4)
  }

  /** Denominator of the damage formula once written over a single integer denominator. */
  function DamageDenominator(n: int, roll: int, diceMax: int): int {
    2 * roll + 2 * diceMax + n - 4
  }

  lemma ExactDamageQuotient(n: int, roll: int, diceMax: int)
    requires n >= 1 && roll >= 1 && diceMax >= 1
    ensures DamageDenominator(n, roll, diceMax) > 0
    ensures ExactDamage(n, roll, diceMax) == DamageNumerator(n, roll) as real / DamageDenominator(n, roll, diceMax) as real
  {
    var p, q := DamageNumerator(n, roll), DamageDenominator(n, roll, diceMax);
    var d := (roll + diceMax - 2) as real + n as real / 2.0;
    assert d * 2.0 == q as real;
    var t := (roll - diceMax) as real / d;
    assert t * d == (roll - diceMax) as real;
    var v := n as real * (1.0 + t);
    assert v * q as real == n as real * (q as real + 2.0 * (t * d));
    assert v * q as real == p as real;
    assert v == p as real / q as real;
  }

  /** A roll in [1, M] deals between 0 and N damage. */
  lemma DamageBounds(n: int, roll: int, diceMax: int)
    requires n >= 1 && 1 <= roll <= diceMax
    ensures 0 <= Damage(n, roll, diceMax) <= n
  {
    var p, q := DamageNumerator(n, roll), DamageDenominator(n, roll, diceMax);
    var a := 4 * roll + n - 4;
    assert p == n * a;
    assert 1 <= a <= q;
    MulMonotone(0, a, n);
    DivMonotone(0, 1, p, q);
    MulMonotone(a, q, n);
    DivMonotone(p, q, n, 1);
  }

  /** The highest face deals exactly the unit size. */
  lemma DamageAtMaxRoll(n: int, diceMax: int)
    requires n >= 1 && diceMax >= 1
    ensures Damage(n, diceMax, diceMax) == n
  {
    var q := DamageDenominator(n, diceMax, diceMax);
    assert DamageNumerator(n, diceMax) == n * q;
    DivMonotone(n * q, q, n, 1);
    DivMonotone(n, 1, n * q, q);
  }

  /** For a fixed unit and die, a higher roll never deals less damage. */
  lemma DamageMonotone(n: int, roll1: int, roll2: int, diceMax: int)
    requires n >= 1 && diceMax >= 1 && 1 <= roll1 <= roll2
    ensures Damage(n, roll1, diceMax) <= Damage(n, roll2, diceMax)
  {
    var a, e := n - 4, 2 * diceMax + n - 4;
    var p1, q1 := n * (4 * roll1 + a), 2 * roll1 + e;
    var p2, q2 := n * (4 * roll2 + a), 2 * roll2 + e;
    assert p1 == DamageNumerator(n, roll1) && q1 == DamageDenominator(n, roll1, diceMax);
    assert p2 == DamageNumerator(n, roll2) && q2 == DamageDenominator(n, roll2, diceMax);
    CrossProductGrows(n, roll1, roll2, a, e);
    DivMonotone(p1, q1, p2, q2);
  }

  /**
   * The cross-multiplied comparison behind DamageMonotone, with a = N - 4 and
   * e = 2M + N - 4: the two products differ by N (R2 - R1)(4e - 2a) >= 0.
   */
  lemma CrossProductGrows(n: int, r1: int, r2: int, a: int, e: int)
    requires n >= 1 && r1 <= r2 && 4 * e - 2 * a >= 0
    ensures n * (4 * r1 + a) * (2 * r2 + e) <= n * (4 * r2 + a) * (2 * r1 + e)
  {
    var lhs := (4 * r1 + a) * (2 * r2 + e);
    var rhs := (4 * r2 + a) * (2 * r1 + e);
    assert lhs == 8 * (r1 * r2) + 4 * (r1 * e) + 2 * (a * r2) + a * e;
    assert rhs == 8 * (r1 * r2) + 4 * (r2 * e) + 2 * (a * r1) + a * e;
    assert rhs - lhs == 4 * (r2 * e - r1 * e) - 2 * (a * r2 - a * r1);
    assert r2 * e - r1 * e == (r2 - r1) * e;
    assert a * r2 - a * r1 == (r2 - r1) * a;
    var k := 4 * e - 2 * a;
    assert rhs - lhs == (r2 - r1) * k;
    assert (r2 - r1) * k >= 0;
    assert n * rhs - n * lhs == n * (rhs - lhs);
    assert n * (rhs - lhs) >= 0;
    assert n * lhs <= n * rhs;
  }
}
