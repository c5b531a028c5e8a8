/** Positional numerals as Go's strconv and fmt print and read them (bases 2 to 36, lower case). */
module Numerals {
  import opened Prelude

  predicate IsDigit(c: char) {
    '0' <= c <= '9'
  }

  predicate IsLower(c: char) {
    'a' <= c <= 'z'
  }

  predicate IsBase36(c: char) {
    IsDigit(c) || IsLower(c)
  }

  predicate IsLowerHex(c: char) {
    IsDigit(c) || 'a' <= c <= 'f'
  }

  predicate AllDigits(s: string) {
    forall i :: 0 <= i < |s| ==> IsDigit(s[i])
  }

  predicate AllBase36(s: string) {
    forall i :: 0 <= i < |s| ==> IsBase36(s[i])
  }

  function DigitChar(d: nat): (c: char)
    requires d < 36
    ensures IsBase36(c) && DigitValue(c) == d
    ensures d < 10 ==> IsDigit(c)
  {
    if d < 10 then '0' + d as char else 'a' + (d - 10) as char
  }

  function DigitValue(c: char): (d: nat)
    requires IsBase36(c)
    ensures d < 36
    ensures IsDigit(c) ==> d < 10
  {
    if IsDigit(c) then (c - '0') as nat else (c - 'a') as nat + 10
  }

  predicate IsHexDigit(c: char) {
    IsDigit(c) || 'a' <= c <= 'f' || 'A' <= c <= 'F'
  }

  function HexValue(c: char): (d: nat)
    requires IsHexDigit(c)
    ensures d < 16
  {
    if 'A' <= c <= 'F' then (c - 'A') as nat + 10 else DigitValue(c)
  }

  lemma DivStep(base: nat, n: nat)
    requires 2 <= base <= n
    ensures 0 < n / base < n
    ensures 0 <= n % base < base
    ensures n / base * base + n % base == n
  {
    assert n == n / base * base + n % base;
    if n / base <= 0 {
      MulMonotone(n / base, 0, base);
    }
    MulMonotone(2, base, n / base);
  }

  lemma MulMonotone(a: int, b: int, k: nat)
    requires a <= b
    ensures a * k <= b * k
  {
  }

  /** strconv.FormatInt for a non-negative number. */
  function Print(base: nat, n: nat): (s: string)
    requires 2 <= base <= 36
    ensures |s| > 0 && AllBase36(s)
    ensures base <= 10 ==> AllDigits(s)
    ensures n > 0 ==> s[0] != '0'
  {
    if n < base then [DigitChar(n)] else
      DivStep(base, n);
      Print(base, n / base) + [DigitChar(n % base)]
  }

  /** The value of a numeral. */
  function Value(base: nat, s: string): (n: nat)
    requires 2 <= base <= 36 && AllBase36(s)
  {
    if s == "" then 0 else Value(base, s[..|s| - 1]) * base + DigitValue(s[|s| - 1])
  }

  lemma {:induction false} ValueOfPrint(base: nat, n: nat)
    requires 2 <= base <= 36
    ensures Value(base, Print(base, n)) == n
  {
    var s := Print(base, n);
    if n < base {
      assert s[..|s| - 1] == "";
    } else {
      DivStep(base, n);
      var q := n / base;
      ValueOfPrint(base, q);
      assert s[..|s| - 1] == Print(base, q);
      assert Value(base, s) == Value(base, Print(base, q)) * base + n % base;
    }
  }

  lemma {:induction false} ValueOfPadded(base: nat, k: nat, s: string)
    requires 2 <= base <= 36 && AllBase36(s)
    ensures AllBase36(Repeat('0', k) + s)
    ensures Value(base, Repeat('0', k) + s) == Value(base, s)
  {
    var t := Repeat('0', k) + s;
    if s != "" {
      assert t[..|t| - 1] == Repeat('0', k) + s[..|s| - 1];
      ValueOfPadded(base, k, s[..|s| - 1]);
    } else if k > 0 {
      assert t[..|t| - 1] == Repeat('0', k - 1) + s;
      ValueOfPadded(base, k - 1, s);
    }
  }

  function Pow(base: nat, e: nat): nat {
    if e == 0 then 1 else base * Pow(base, e - 1)
  }

  /** A number below base^e prints in at most e places. */
  lemma {:induction false} PrintLength(base: nat, n: nat, e: nat)
    requires 2 <= base <= 36 && e > 0 && n < Pow(base, e)
    ensures |Print(base, n)| <= e
  {
    if n >= base {
      var q, p := n / base, Pow(base, e - 1);
      DivStep(base, n);
      if q >= p {
        MulMonotone(p, q, base);
        assert false;
      }
      PrintLength(base, q, e - 1);
    }
  }

  lemma AppendDigit(v: nat, d: nat, p: nat, base: nat)
    requires v < p && d < base
    ensures v * base + d < base * p
  {
    MulMonotone(v + 1, p, base);
  }

  /** A numeral of at most e places is below base^e. */
  lemma {:induction false} ValueBound(base: nat, s: string, e: nat)
    requires 2 <= base <= 36 && AllBase36(s) && |s| <= e
    requires forall i :: 0 <= i < |s| ==> DigitValue(s[i]) < base
    ensures Value(base, s) < Pow(base, e)
  {
    if s == "" {
      if e > 0 { ValueBound(base, s, e - 1); }
    } else {
      var t := s[..|s| - 1];
      ValueBound(base, t, e - 1);
      AppendDigit(Value(base, t), DigitValue(s[|s| - 1]), Pow(base, e - 1), base);
    }
  }

  lemma {:induction false} PowPositive(base: nat, e: nat)
    requires base > 0
    ensures Pow(base, e) > 0
  {
    if e > 0 {
      PowPositive(base, e - 1);
      MulMonotone(1, base, Pow(base, e - 1));
    }
  }

  lemma Remainder(n: nat, m: nat, a: nat, r: nat)
    requires r < m && n == a * m + r
    ensures n % m == r
  {
    var b, t := n / m, n % m;
    assert n == b * m + t;
    if a < b { MulMonotone(a + 1, b, m); } else if b < a { MulMonotone(b + 1, a, m); }
  }

  /** Dividing by `base` and then by `p` is dividing by their product. */
  lemma DivTwice(n: nat, q: nat, d: nat, a: nat, r: nat, base: nat, p: nat)
    requires n == q * base + d && d < base && q == a * p + r && r < p
    ensures base * p > 0 && n % (base * p) == r * base + d
  {
    AppendDigit(r, d, p, base);
    Regroup(n, q, d, a, r, base, p);
    Remainder(n, base * p, a, r * base + d);
  }

  lemma Regroup(n: nat, q: nat, d: nat, a: nat, r: nat, base: nat, p: nat)
    requires n == q * base + d && q == a * p + r
    ensures n == a * (base * p) + (r * base + d)
  {
    assert (a * p + r) * base == a * p * base + r * base;
    assert a * p * base == a * (base * p);
  }

  /** The last `e` places of a numeral. */
  function LastPlaces(s: string, e: nat): string {
    if |s| > e then s[|s| - e..] else s
  }

  lemma ValueSnoc(base: nat, t: string, c: char)
    requires 2 <= base <= 36 && AllBase36(t) && IsBase36(c)
    ensures Value(base, t + [c]) == Value(base, t) * base + DigitValue(c)
  {
    assert (t + [c])[..|t|] == t;
  }

  lemma LastPlacesSnoc(t: string, c: char, e: nat)
    requires e > 0
    ensures LastPlaces(t + [c], e) == LastPlaces(t, e - 1) + [c]
  {
  }

  /** They are its remainder. */
  lemma {:induction false} ValueOfLast(base: nat, n: nat, e: nat)
    requires 2 <= base <= 36
    ensures Pow(base, e) > 0 && AllBase36(LastPlaces(Print(base, n), e))
    ensures Value(base, LastPlaces(Print(base, n), e)) == n % Pow(base, e)
  {
    PowPositive(base, e);
    if e > 0 {
      PowPositive(base, e - 1);
      if n < base {
        LastOfDigit(base, n, e);
      } else {
        DivStep(base, n);
        ValueOfLast(base, n / base, e - 1);
        LastStep(base, n, e);
      }
    }
  }

  lemma LastOfDigit(base: nat, n: nat, e: nat)
    requires 2 <= base <= 36 && n < base && e > 0 && Pow(base, e - 1) > 0
    ensures AllBase36(LastPlaces(Print(base, n), e)) && Value(base, LastPlaces(Print(base, n), e)) == n % Pow(base, e)
  {
    MulMonotone(1, Pow(base, e - 1), base);
    ValueOfPrint(base, n);
    Remainder(n, Pow(base, e), 0, n);
    assert LastPlaces(Print(base, n), e) == Print(base, n);
  }

  lemma LastStep(base: nat, n: nat, e: nat)
    requires 2 <= base <= 36 && n >= base && e > 0 && Pow(base, e - 1) > 0 && Pow(base, e) > 0
    requires 0 < n / base && AllBase36(LastPlaces(Print(base, n / base), e - 1))
    requires Value(base, LastPlaces(Print(base, n / base), e - 1)) == n / base % Pow(base, e - 1)
    ensures Value(base, LastPlaces(Print(base, n), e)) == n % Pow(base, e)
  {
    var q, d, p := n / base, n % base, Pow(base, e - 1);
    LastPlacesSnoc(Print(base, q), DigitChar(d), e);
    ValueSnoc(base, LastPlaces(Print(base, q), e - 1), DigitChar(d));
    assert Print(base, n) == Print(base, q) + [DigitChar(d)];
    assert Pow(base, e) == base * p;
    hide Print, Value, LastPlaces, Pow;
    DivStep(base, n);
    DivMod(q, p);
    DivTwice(n, q, d, q / p, q % p, base, p);
  }

  lemma DivMod(n: nat, p: nat)
    requires p > 0
    ensures n == n / p * p + n % p && 0 <= n / p && 0 <= n % p < p
  {
  }

  /** fmt's zero padding on the left to at least `w` characters. */
  function PadLeft(s: string, w: nat): (r: string)
    ensures |r| == Max(|s|, w)
    ensures |s| >= w ==> r == s
  {
    Repeat('0', Max(w - |s|, 0)) + s
  }

  lemma PadLeftBase36(s: string, w: nat)
    requires AllBase36(s)
    ensures AllBase36(PadLeft(s, w))
    ensures AllDigits(s) ==> AllDigits(PadLeft(s, w))
  {
  }

  /** fmt's "%d" (w = 0) and "%0wd": the sign counts towards the width. */
  function FormatInt(n: int, w: nat): (s: string)
    ensures n >= 0 ==> AllDigits(s) && |s| >= w && |s| > 0
    ensures n < 0 ==> |s| > 0 && s[0] == '-'
  {
    if n >= 0 then PadLeft(Print(10, n), w) else "-" + PadLeft(Print(10, -n), Max(w - 1, 0))
  }

  /** strconv.Atoi on a string of decimal digits: fails when the value leaves int64. */
  function Atoi(s: string): Option<nat>
    requires AllDigits(s)
  {
    if Value(10, s) <= MAX_INT64 then Some(Value(10, s)) else None
  }

  lemma AtoiOfFormatInt(n: nat, w: nat)
    requires n <= MAX_INT64
    ensures Atoi(FormatInt(n, w)) == Some(n)
  {
    var s := Print(10, n);
    ValueOfPrint(10, n);
    ValueOfPadded(10, Max(w - |s|, 0), s);
  }

  /** strconv.ParseInt in base 10 to 64 bits: a sign and digits, no overflow. */
  function ParseInt(text: string): (o: Option<int>)
    ensures o.Some? ==> IsInt64(o.value)
  {
    var signed := text != "" && (text[0] == '-' || text[0] == '+');
    var digits := if signed then text[1..] else text;
    if digits == "" || !AllDigits(digits) then None
    else
      var magnitude: int := Value(10, digits);
      var n := if signed && text[0] == '-' then -magnitude else magnitude;
      if IsInt64(n) then Some(n) else None
  }

  lemma ParseIntOfFormatInt(n: int)
    requires IsInt64(n)
    ensures ParseInt(FormatInt(n, 0)) == Some(n)
  {
    var ds := Print(10, if n < 0 then -n else n);
    assert FormatInt(n, 0) == (if n < 0 then "-" + ds else ds);
    ValueOfPrint(10, if n < 0 then -n else n);
    assert n < 0 ==> ("-" + ds)[1..] == ds;
  }
}
