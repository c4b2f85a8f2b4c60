/** Small building blocks shared by every generator: an Option type, the
    first-fire-wins rule of the anomaly chains, decimal rendering of numbers
    (Python's str(n)) and the two string rewrites the templates use. */
module Util {

  datatype Option<T> = None | Some(value: T)

  /** Index of the first trigger that fired.  An anomaly chain whose checks are
      each guarded by "no earlier check fired" applies exactly this rule. */
  function FirstMatch(fired: seq<bool>): (r: Option<nat>)
    ensures r.Some? ==> r.value < |fired| && fired[r.value]
    ensures r.Some? ==> forall j :: 0 <= j < r.value ==> !fired[j]
    ensures r.None? <==> forall j :: 0 <= j < |fired| ==> !fired[j]
  {
    if |fired| == 0 then None
    else if fired[0] then Some(0)
    else match FirstMatch(fired[1..])
      case None => None
      case Some(k) => Some(k + 1)
  }

  /** FirstMatch picks index i when i fired and no earlier entry did. */
  lemma FirstMatchAt(fired: seq<bool>, i: nat)
    requires i < |fired| && fired[i]
    requires forall j :: 0 <= j < i ==> !fired[j]
    ensures FirstMatch(fired) == Some(i)
  {
  }

  function Pow10(k: nat): (p: nat)
    ensures p >= 1
  {
    if k == 0 then 1 else 10 * Pow10(k - 1)
  }

  function DigitChar(d: nat): char
    requires d < 10
  {
    "0123456789"[d]
  }

  predicate IsDigit(c: char) { '0' <= c <= '9' }

  predicate AllDigits(s: string) { forall i :: 0 <= i < |s| ==> IsDigit(s[i]) }

  /** Python's str(n) for a non-negative integer: no leading zeros. */
  function Decimal(n: nat): string
  {
    if n < 10 then [DigitChar(n)] else Decimal(n / 10) + [DigitChar(n % 10)]
  }

  /** A number with k digits is rendered with exactly k decimal digits. */
  lemma {:induction false} DecimalLength(n: nat, k: nat)
    requires 1 <= k && Pow10(k - 1) <= n < Pow10(k)
    ensures |Decimal(n)| == k
    ensures AllDigits(Decimal(n))
  {
    if n >= 10 {
      DecimalLength(n / 10, k - 1);
    }
  }

  /** The last three decimal digits of r, with leading zeros. */
  function ThreeDigits(r: nat): string
    requires r < 1000
  {
    [DigitChar(r / 100), DigitChar((r / 10) % 10), DigitChar(r % 10)]
  }

  lemma DecimalPush(n: nat, d: nat)
    requires n >= 1 && d < 10
    ensures Decimal(10 * n + d) == Decimal(n) + [DigitChar(d)]
  {
    assert (10 * n + d) / 10 == n && (10 * n + d) % 10 == d;
  }

  /** The three digits of r < 1000 rebuild it after q. */
  lemma ThreeDigitArith(q: nat, r: nat)
    requires r < 1000
    ensures r / 100 < 10 && (r / 10) % 10 < 10
    ensures 10 * (10 * (10 * q + r / 100) + (r / 10) % 10) + r % 10 == 1000 * q + r
  {
    var t := r / 10;
    assert r == 10 * t + r % 10;
    assert t == 10 * (t / 10) + t % 10;
    assert t / 10 == r / 100;
  }

  /** Splitting off the last three digits of a number with at least four. */
  lemma DecimalSplitThree(q: nat, r: nat)
    requires q >= 1 && r < 1000
    ensures Decimal(1000 * q + r) == Decimal(q) + ThreeDigits(r)
  {
    ThreeDigitArith(q, r);
    var a, b, c := r / 100, (r / 10) % 10, r % 10;
    var q1 := 10 * q + a;
    var q2 := 10 * q1 + b;
    var n := 10 * q2 + c;
    calc {
      Decimal(1000 * q + r);
    == { assert 1000 * q + r == n; }
      Decimal(n);
    == { DecimalPush(q2, c); }
      Decimal(q2) + [DigitChar(c)];
    == { DecimalPush(q1, b); }
      Decimal(q1) + [DigitChar(b)] + [DigitChar(c)];
    == { DecimalPush(q, a); }
      Decimal(q) + [DigitChar(a)] + [DigitChar(b)] + [DigitChar(c)];
    == { assert ThreeDigits(r) == [DigitChar(a), DigitChar(b), DigitChar(c)]; }
      Decimal(q) + ThreeDigits(r);
    }
  }

  function LowerChar(c: char): char
  {
    if 'A' <= c <= 'Z' then (c as int + 32) as char else c
  }

  /** Python's str.lower() on ASCII text. */
  function Lower(s: string): (r: string)
    ensures |r| == |s|
    ensures forall i :: 0 <= i < |s| ==> r[i] == LowerChar(s[i])
  {
    seq(|s|, i requires 0 <= i < |s| => LowerChar(s[i]))
  }

  /** Python's s.replace(' ', ''). */
  function RemoveSpaces(s: string): string
  {
    if s == [] then []
    else (if s[0] == ' ' then [] else [s[0]]) + RemoveSpaces(s[1..])
  }

  lemma {:induction false} RemoveSpacesHasNoSpace(s: string)
    ensures forall i :: 0 <= i < |RemoveSpaces(s)| ==> RemoveSpaces(s)[i] != ' '
    ensures |RemoveSpaces(s)| <= |s|
  {
    if s != [] {
      RemoveSpacesHasNoSpace(s[1..]);
    }
  }

  function Abs(x: int): (r: nat)
    ensures r == x || r == -x
  {
    if x < 0 then -x else x
  }

  lemma MulNonnegative(x: real, y: real)
    requires x >= 0.0 && y >= 0.0
    ensures x * y >= 0.0
  {
  }

  /** Multiplying by a non-negative factor keeps an inequality. */
  lemma ScaleBound(c: real, a: real, b: real)
    requires c >= 0.0 && a <= b
    ensures c * a <= c * b
  {
    MulNonnegative(c, b - a);
    assert c * (b - a) == c * b - c * a;
  }
}
