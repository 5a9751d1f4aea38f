/** JavaScript value semantics that the flight client relies on: optional
    (null/undefined) values, `||` on strings, thrown errors, integer
    formatting with `${n}`, `parseInt`, `Math.round` of a quotient and the
    truncating remainder operator `%`. */
module Js {

  /** A value that may be null or undefined. */
  datatype Option<+T> = None | Some(value: T)

  /** The outcome of a call that may throw; of a thrown Error only its
      `message` is observable to the callers in this program. */
  datatype Outcome<+T> = Returned(value: T) | Threw(message: string)

  /** A number produced by `parseInt`: an integer, or NaN when the text has
      no leading digits. NaN is not `===` to anything, itself included. */
  datatype JsInt = Int(value: int) | NaN

  /** `a === b` on two parsed integers. */
  predicate StrictEquals(a: JsInt, b: JsInt)
  {
    a.Int? && b.Int? && a.value == b.value
  }

  /** An absent string reads as "" wherever only its truthiness and text
      matter (`undefined || ""` is ""). */
  function Str(s: Option<string>): string
  {
    if s.Some? then s.value else ""
  }

  /** `a || b` on strings: the empty string is the only falsy string. */
  function Or(a: string, b: string): string
  {
    if a != "" then a else b
  }

  /** Truthiness of an optional string. */
  predicate Truthy(s: Option<string>)
  {
    s.Some? && s.value != ""
  }

  /** The first truthy candidate, or "" when there is none: the meaning of a
      chain `c0 || c1 || ... || ""`. */
  function FirstTruthy(candidates: seq<Option<string>>): (r: string)
    ensures r == "" <==> forall i :: 0 <= i < |candidates| ==> !Truthy(candidates[i])
  {
    if candidates == [] then ""
    else if Truthy(candidates[0]) then candidates[0].value
    else FirstTruthy(candidates[1..])
  }

  /** The chain yields the candidate at the first truthy position. */
  lemma {:induction false} FirstTruthyPicks(candidates: seq<Option<string>>, i: nat)
    requires i < |candidates| && Truthy(candidates[i])
    requires forall j :: 0 <= j < i ==> !Truthy(candidates[j])
    ensures FirstTruthy(candidates) == candidates[i].value
  {
    if i > 0 {
      FirstTruthyPicks(candidates[1..], i - 1);
    }
  }

  /** Two- and three-link chains read as nested `||`. */
  lemma FirstTruthyChains(a: Option<string>, b: Option<string>, c: Option<string>)
    ensures FirstTruthy([a, b]) == Or(Str(a), Str(b))
    ensures FirstTruthy([a, b, c]) == Or(Or(Str(a), Str(b)), Str(c))
  {
    assert [a, b][1..] == [b];
    assert [b][1..] == [];
    assert [a, b, c][1..] == [b, c];
    assert [b, c][1..] == [c];
    assert [c][1..] == [];
    assert FirstTruthy([c]) == Str(c);
    assert FirstTruthy([b, c]) == Or(Str(b), Str(c));
  }

  // ---------------------------------------------------------------------
  // Numbers

  /** `Math.round(n / d)` for an integer n and a positive integer d:
      the nearest integer, halves rounded towards +infinity. */
  function RoundDiv(n: int, d: int): (r: int)
    requires d > 0
    ensures 2 * d * r - d <= 2 * n < 2 * d * r + d
  {
    (2 * n + d) / (2 * d)
  }

  /** `Math.floor(n / d)` for a positive divisor. */
  function FloorDiv(n: int, d: int): (q: int)
    requires d > 0
    ensures d * q <= n < d * q + d
  {
    n / d
  }

  /** JavaScript's `n % d`: the remainder of division truncated towards
      zero, which takes the sign of the dividend. */
  function JsRem(n: int, d: int): (r: int)
    requires d > 0
    ensures -d < r < d
    ensures n >= 0 ==> r == n % d
    ensures n < 0 ==> r == if n % d == 0 then 0 else n % d - d
  {
    if n >= 0 then n % d
    else
      var q, m := (-n) / d, (-n) % d;
      if m == 0 then
        EuclideanUnique(n, d, -q, 0); 0
      else
        EuclideanUnique(n, d, -q - 1, d - m); -m
  }

  /** Euclidean division is unique: a quotient and a remainder in [0, d)
      that reconstruct n are n / d and n % d. */
  lemma EuclideanUnique(n: int, d: int, q: int, m: int)
    requires d > 0 && 0 <= m < d && n == d * q + m
    ensures n % d == m
  {
    var q', m' := n / d, n % d;
    assert d * q' + m' == n;
    if q > q' {
      assert d * (q - q') == m' - m;
      MultipleAtLeast(d, q - q');
    } else if q < q' {
      assert d * (q' - q) == m - m';
      MultipleAtLeast(d, q' - q);
    }
  }

  /** A positive multiple of d is at least d; it rules out a second
      quotient in EuclideanUnique. */
  lemma MultipleAtLeast(d: int, k: int)
    requires d > 0 && k >= 1
    ensures d * k >= d
  {
  }

  // ---------------------------------------------------------------------
  // Decimal text

  predicate IsDigit(c: char)
  {
    '0' <= c <= '9'
  }

  predicate AllDigits(s: string)
  {
    forall i :: 0 <= i < |s| ==> IsDigit(s[i])
  }

  function DigitChar(d: int): (c: char)
    requires 0 <= d < 10
    ensures IsDigit(c) && c as int - '0' as int == d
  {
    (d + '0' as int) as char
  }

  /** `${n}` for a natural number: its decimal digits, most significant
      first, without leading zeros. */
  function NatToString(n: nat): (s: string)
    ensures |s| > 0 && AllDigits(s)
    ensures s[0] == '0' ==> n == 0
    decreases n
  {
    if n < 10 then [DigitChar(n)]
    else NatToString(n / 10) + [DigitChar(n % 10)]
  }

  /** `${n}` for an integer. */
  function IntToString(n: int): (s: string)
    ensures n >= 0 ==> |s| > 0 && AllDigits(s)
    ensures n < 0 ==> |s| > 1 && s[0] == '-' && AllDigits(s[1..])
  {
    if n < 0 then "-" + NatToString(-n) else NatToString(n)
  }

  /** The length of the longest prefix of s made of decimal digits. */
  function DigitRun(s: string): (k: nat)
    ensures k <= |s| && AllDigits(s[..k])
    ensures k < |s| ==> !IsDigit(s[k])
  {
    if s == [] || !IsDigit(s[0]) then 0
    else
      var k := 1 + DigitRun(s[1..]);
      assert forall i :: 1 <= i < k ==> s[..k][i] == s[1..][..k - 1][i - 1];
      k
  }

  /** The value of a string of decimal digits. */
  function DigitsValue(s: string): nat
    requires AllDigits(s)
  {
    if s == [] then 0
    else DigitsValue(s[..|s| - 1]) * 10 + (s[|s| - 1] as int - '0' as int)
  }

  /** `parseInt(s)` in base 10: an optional sign followed by the longest run
      of digits; NaN when that run is empty. */
  function ParseInt(s: string): (r: JsInt)
    ensures s == [] ==> r == NaN
    ensures |s| > 0 && !IsDigit(s[0]) && s[0] != '-' && s[0] != '+' ==> r == NaN
    ensures |s| > 0 && AllDigits(s) ==> r == Int(DigitsValue(s))
  {
    var signed := |s| > 0 && (s[0] == '-' || s[0] == '+');
    var body := if signed then s[1..] else s;
    var k := DigitRun(body);
    assert AllDigits(body) ==> k == |body| && body[..k] == body by {
      if AllDigits(body) {
        DigitRunOfDigits(body);
      }
    }
    if k == 0 then NaN
    else
      var magnitude: int := DigitsValue(body[..k]);
      Int(if signed && s[0] == '-' then -magnitude else magnitude)
  }

  lemma {:induction false} DigitRunOfDigits(s: string)
    requires AllDigits(s)
    ensures DigitRun(s) == |s|
  {
    if s != [] {
      DigitRunOfDigits(s[1..]);
    }
  }

  lemma {:induction false} NatToStringValue(n: nat)
    ensures DigitsValue(NatToString(n)) == n
    decreases n
  {
    var s := NatToString(n);
    if n >= 10 {
      NatToStringValue(n / 10);
      assert s[..|s| - 1] == NatToString(n / 10);
    }
  }

  /** Reading back the decimal text of any integer with `parseInt` gives the
      integer again. */
  lemma ParseIntOfIntToString(n: int)
    ensures ParseInt(IntToString(n)) == Int(n)
  {
    var digits := NatToString(if n < 0 then -n else n);
    DigitRunOfDigits(digits);
    NatToStringValue(if n < 0 then -n else n);
    assert digits[..|digits|] == digits;
    if n < 0 {
      assert IntToString(n)[1..] == digits;
    }
  }
}
