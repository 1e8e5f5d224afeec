/** Positional numerals in bases up to sixteen: rendering, reading, padding. */
module Numerals {

  const DIGITS: string := "0123456789abcdef"

  type Base = b: int | 2 <= b <= 16 witness 10

  function DigitValue(c: char): int {
    if '0' <= c <= '9' then c as int - '0' as int
    else if 'a' <= c <= 'f' then c as int - 'a' as int + 10
    else 16
  }

  /** Lower-case digits of the base. */
  predicate IsNumeral(base: Base, s: string) {
    forall i | 0 <= i < |s| :: DigitValue(s[i]) < base
  }

  function Pow(base: Base, n: nat): (p: nat)
    ensures p >= 1
  {
    if n == 0 then 1 else base * Pow(base, n - 1)
  }

  function Value(base: Base, s: string): (v: int)
    requires IsNumeral(base, s)
    ensures v >= 0
  {
    if s == "" then 0 else Value(base, s[..|s| - 1]) * base + DigitValue(s[|s| - 1])
  }

  function Render(base: Base, n: nat): (s: string)
    ensures s != ""
  {
    if n < base then [DIGITS[n]] else Render(base, n / base) + [DIGITS[n % base]]
  }

  function Zeros(n: nat): (s: string)
    ensures |s| == n
  {
    seq(n, _ => '0')
  }

  /** Padded on the left with zeros to a width; longer texts are left as they are. */
  function PadLeft(s: string, width: nat): string {
    if |s| < width then Zeros(width - |s|) + s else s
  }

  lemma Associate(x: int, y: int, z: int)
    ensures x * (y * z) == x * y * z
  {
  }

  lemma {:induction false} PowAdd(base: Base, m: nat, n: nat)
    ensures Pow(base, m) * Pow(base, n) == Pow(base, m + n)
  {
    if m > 0 {
      PowAdd(base, m - 1, n);
      Associate(base, Pow(base, m - 1), Pow(base, n));
    }
  }

  lemma MulMonotone(x: int, y: int, b: int)
    requires x <= y && b >= 0
    ensures x * b <= y * b
  {
  }

  lemma Division(n: nat, b: int)
    requires b > 0
    ensures n == n / b * b + n % b && 0 <= n % b < b
  {
  }

  lemma DigitReads(d: nat)
    requires d < 16
    ensures DigitValue(DIGITS[d]) == d
  {
  }

  lemma DigitUnique(c: char, d: char)
    requires DigitValue(c) == DigitValue(d) < 16
    ensures c == d
  {
  }

  lemma OneDigit(base: Base, c: char)
    requires DigitValue(c) < base
    ensures IsNumeral(base, [c]) && Value(base, [c]) == DigitValue(c)
  {
    assert [c][..0] == "";
    assert Value(base, "") * base == 0;
  }

  lemma PushDigit(base: Base, s: string, c: char)
    requires IsNumeral(base, s) && DigitValue(c) < base
    ensures IsNumeral(base, s + [c]) && Value(base, s + [c]) == Value(base, s) * base + DigitValue(c)
  {
    assert (s + [c])[..|s|] == s;
  }

  lemma {:induction false} RenderReads(base: Base, n: nat)
    ensures IsNumeral(base, Render(base, n)) && Value(base, Render(base, n)) == n
    ensures Render(base, n) != "0" ==> Render(base, n)[0] != '0'
  {
    if n < base {
      DigitReads(n);
      OneDigit(base, DIGITS[n]);
    } else {
      hide Value, IsNumeral;
      RenderReads(base, n / base);
      DigitReads(n % base);
      Division(n, base);
      PushDigit(base, Render(base, n / base), DIGITS[n % base]);
      if Render(base, n / base) == "0" {
        OneDigit(base, '0');
      }
    }
  }

  lemma {:induction false} ValueConcat(base: Base, a: string, b: string)
    requires IsNumeral(base, a) && IsNumeral(base, b)
    ensures IsNumeral(base, a + b)
    ensures Value(base, a + b) == Value(base, a) * Pow(base, |b|) + Value(base, b)
  {
    if b == "" {
      assert a + b == a;
    } else {
      var t, d := b[..|b| - 1], DigitValue(b[|b| - 1]);
      ValueConcat(base, a, t);
      assert (a + b)[..|a + b| - 1] == a + t;
      assert (a + b)[|a + b| - 1] == b[|b| - 1];
      calc {
        Value(base, a + b);
        (Value(base, a) * Pow(base, |t|) + Value(base, t)) * base + d;
        { Distribute(Value(base, a), Pow(base, |t|), Value(base, t), base); }
        Value(base, a) * (base * Pow(base, |t|)) + (Value(base, t) * base + d);
      }
    }
  }

  lemma Distribute(x: int, p: int, y: int, b: int)
    ensures (x * p + y) * b == x * (b * p) + y * b
  {
    assert (x * p) * b == x * (b * p);
  }

  lemma {:induction false} ZerosReads(base: Base, n: nat)
    ensures IsNumeral(base, Zeros(n)) && Value(base, Zeros(n)) == 0
  {
    if n > 0 {
      ZerosReads(base, n - 1);
      assert Zeros(n)[..n - 1] == Zeros(n - 1);
    }
  }

  lemma PadReads(base: Base, s: string, width: nat)
    requires IsNumeral(base, s)
    ensures IsNumeral(base, PadLeft(s, width)) && Value(base, PadLeft(s, width)) == Value(base, s)
  {
    if |s| < width {
      ZerosReads(base, width - |s|);
      ValueConcat(base, Zeros(width - |s|), s);
    }
  }

  lemma {:induction false} ValueBound(base: Base, s: string)
    requires IsNumeral(base, s)
    ensures Value(base, s) < Pow(base, |s|)
  {
    if s != "" {
      var t := s[..|s| - 1];
      ValueBound(base, t);
      MulMonotone(Value(base, t) + 1, Pow(base, |t|), base);
      assert (Value(base, t) + 1) * base == Value(base, t) * base + base;
    }
  }

  /** Numerals of one width name different numbers. */
  lemma {:induction false} FixedWidthUnique(base: Base, a: string, b: string)
    requires IsNumeral(base, a) && IsNumeral(base, b) && |a| == |b|
    requires Value(base, a) == Value(base, b)
    ensures a == b
  {
    if a != "" {
      var s, t := a[..|a| - 1], b[..|b| - 1];
      var c, d := DigitValue(a[|a| - 1]), DigitValue(b[|b| - 1]);
      LastDigit(Value(base, s), c, Value(base, t), d, base);
      FixedWidthUnique(base, s, t);
      DigitUnique(a[|a| - 1], b[|b| - 1]);
      assert a == s + [a[|a| - 1]] && b == t + [b[|b| - 1]];
    }
  }

  lemma LastDigit(x: nat, c: nat, y: nat, d: nat, base: int)
    requires base >= 2 && c < base && d < base && x * base + c == y * base + d
    ensures x == y && c == d
  {
    MulMonotone(x + 1, if x < y then y else x + 1, base);
    MulMonotone(y + 1, if y < x then x else y + 1, base);
    assert (x + 1) * base == x * base + base && (y + 1) * base == y * base + base;
  }

  lemma QuotientBound(n: nat, base: int, p: nat)
    requires base > 0 && n < base * p
    ensures n / base < p
  {
    Division(n, base);
    if n / base >= p {
      MulMonotone(p, n / base, base);
    }
  }

  lemma RenderGrows(base: Base, n: nat)
    requires n >= base
    ensures n / base >= 1 && |Render(base, n)| == |Render(base, n / base)| + 1
  {
    Division(n, base);
  }

  lemma QuotientWidth(base: Base, n: nat, k: nat)
    requires k >= 1 && n < Pow(base, k)
    ensures n / base < Pow(base, k - 1)
  {
    QuotientBound(n, base, Pow(base, k - 1));
  }

  /** A number below base^k needs at most k digits. */
  lemma {:induction false} RenderWidth(base: Base, n: nat, k: nat)
    requires k >= 1 && n < Pow(base, k)
    ensures |Render(base, n)| <= k
    decreases k
  {
    if n >= base {
      RenderGrows(base, n);
      QuotientWidth(base, n, k);
      assert Pow(base, 0) == 1;
      hide Render, Pow;
      var q := n / base;
      RenderWidth(base, q, k - 1);
    }
  }

  function StripZeros(s: string): string {
    if |s| > 1 && s[0] == '0' then StripZeros(s[1..]) else s
  }

  /** Rendering the value of a numeral drops its leading zeros and nothing else. */
  lemma {:induction false} RenderStrips(base: Base, s: string)
    requires IsNumeral(base, s) && s != ""
    ensures Render(base, Value(base, s)) == StripZeros(s)
  {
    if |s| > 1 && s[0] == '0' {
      assert s == "0" + s[1..];
      OneDigit(base, '0');
      ValueConcat(base, "0", s[1..]);
      RenderStrips(base, s[1..]);
    } else {
      hide Render, Value, IsNumeral;
      var r := Render(base, Value(base, s));
      RenderReads(base, Value(base, s));
      SameWidth(base, s, r);
      FixedWidthUnique(base, s, r);
    }
  }

  lemma LeadingDigit(base: Base, s: string)
    requires IsNumeral(base, s) && s != "" && s[0] != '0'
    ensures Value(base, s) >= Pow(base, |s| - 1)
  {
    assert s == [s[0]] + s[1..];
    DigitNonZero(s[0]);
    OneDigit(base, s[0]);
    ValueConcat(base, [s[0]], s[1..]);
    MulMonotone(1, DigitValue(s[0]), Pow(base, |s| - 1));
  }

  lemma DigitNonZero(c: char)
    requires c != '0'
    ensures DigitValue(c) >= 1
  {
  }

  lemma SameWidth(base: Base, a: string, b: string)
    requires IsNumeral(base, a) && IsNumeral(base, b) && Value(base, a) == Value(base, b)
    requires a != "" && (|a| == 1 || a[0] != '0')
    requires b != "" && (b == "0" || b[0] != '0')
    ensures |a| == |b|
  {
    ValueBound(base, a);
    ValueBound(base, b);
    if |a| < |b| {
      LeadingDigit(base, b);
      PowGrows(base, |a|, |b| - 1);
    } else if |b| < |a| {
      LeadingDigit(base, a);
      PowGrows(base, |b|, |a| - 1);
    }
  }

  lemma {:induction false} PowGrows(base: Base, m: nat, n: nat)
    requires m <= n
    ensures Pow(base, m) <= Pow(base, n)
  {
    if m < n {
      PowGrows(base, m, n - 1);
    }
  }
}
