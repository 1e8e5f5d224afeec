/** Between decimal text and the settlement token's base units, exactly. */
module Money {
  import opened Domain
  import opened Numerals

  const DECIMALS: nat := 6
  const SCALE: int := 1000000

  datatype MoneyError = Empty | TooManyDecimals | NotANumber

  predicate IsSpace(c: char) {
    || '\t' <= c <= '\r' || c == ' ' || c == 0x85 as char || c == 0xA0 as char || c == 0x1680 as char
    || 0x2000 as char <= c <= 0x200A as char || c == 0x2028 as char || c == 0x2029 as char
    || c == 0x202F as char || c == 0x205F as char || c == 0x3000 as char
  }

  function TrimLeft(s: string): string {
    if s != "" && IsSpace(s[0]) then TrimLeft(s[1..]) else s
  }

  function TrimRight(s: string): string {
    if s != "" && IsSpace(s[|s| - 1]) then TrimRight(s[..|s| - 1]) else s
  }

  /** The text before the first point and the text after it. */
  function Cut(s: string): (string, string) {
    if s == "" then ("", "")
    else if s[0] == '.' then ("", s[1..])
    else var (whole, frac) := Cut(s[1..]); ([s[0]] + whole, frac)
  }

  /** An optional sign and at least one decimal digit. */
  function ReadInt(s: string): Option<int> {
    var digits := if s != "" && s[0] in "+-" then s[1..] else s;
    if digits == "" || !IsNumeral(10, digits) then None
    else if s[0] == '-' then Some(-Value(10, digits))
    else Some(Value(10, digits))
  }

  function ParsedUnits(amount: string): Result<int, MoneyError> {
    var t := TrimRight(TrimLeft(amount));
    if t == "" then Err(Empty)
    else
      var (whole, frac) := Cut(if t[0] == '-' then t[1..] else t);
      Assembled(t[0] == '-', whole, frac)
  }

  function Assembled(neg: bool, whole: string, frac: string): Result<int, MoneyError> {
    if |frac| > DECIMALS then Err(TooManyDecimals)
    else
      match ReadInt((if whole == "" then "0" else whole) + (frac + Zeros(DECIMALS - |frac|)))
      case None => Err(NotANumber)
      case Some(n) => Ok(if neg then -n else n)
  }

  method ToBaseUnits(amount: string) returns (r: Result<int, MoneyError>)
    ensures r == ParsedUnits(amount)
  {
    hide TrimRight, TrimLeft, Cut, ReadInt;
    var text := TrimRight(TrimLeft(amount));
    if text == "" {
      return Err(Empty);
    }
    var neg := text[0] == '-';
    if neg {
      text := text[1..];
    }
    var (whole, frac) := Cut(text);
    if |frac| > DECIMALS {
      return Err(TooManyDecimals);
    }
    frac := frac + Zeros(DECIMALS - |frac|);
    if whole == "" {
      whole := "0";
    }
    var read := ReadInt(whole + frac);
    if read.None? {
      return Err(NotANumber);
    }
    var n := read.value;
    if neg {
      n := -n;
    }
    r := Ok(n);
  }

  function TrimZeros(s: string): string {
    if s != "" && s[|s| - 1] == '0' then TrimZeros(s[..|s| - 1]) else s
  }

  function IntText(n: int): string {
    if n < 0 then "-" + Render(10, -n) else Render(10, n)
  }

  /** Truncated quotient and remainder: the remainder has the sign of `n`. */
  function FromBaseUnits(n: int): string {
    var q := if n >= 0 then n / SCALE else -(-n / SCALE);
    var r := n - q * SCALE;
    if r == 0 then IntText(q)
    else IntText(q) + "." + TrimZeros(PadLeft(Render(10, if r < 0 then -r else r), DECIMALS))
  }

  /* ------------------------------------------------------------ exact reading */

  /** A plain decimal as written. */
  datatype Decimal = Decimal(neg: bool, whole: string, frac: string)

  predicate IsDecimal(d: Decimal) {
    IsNumeral(10, d.whole) && IsNumeral(10, d.frac) && d.whole != ""
  }

  function Text(d: Decimal, point: bool): string {
    (if d.neg then "-" else "") + d.whole + (if point then "." else "") + d.frac
  }

  lemma {:induction false} CutDigits(whole: string, frac: string)
    requires IsNumeral(10, whole)
    ensures Cut(whole + "." + frac) == (whole, frac)
    ensures Cut(whole) == (whole, "")
  {
    if whole == "" {
      assert whole + "." + frac == "." + frac;
    } else {
      CutDigits(whole[1..], frac);
      assert whole + "." + frac == [whole[0]] + (whole[1..] + "." + frac);
      assert whole == [whole[0]] + whole[1..];
    }
  }

  lemma NotSpace(s: string)
    requires s != "" && !IsSpace(s[0]) && !IsSpace(s[|s| - 1])
    ensures TrimRight(TrimLeft(s)) == s
  {
  }

  lemma DigitsRead(s: string)
    requires IsNumeral(10, s) && s != ""
    ensures ReadInt(s) == Some(Value(10, s))
  {
  }

  /** The base units a decimal of at most six places stands for. */
  function Units(d: Decimal): int
    requires IsDecimal(d)
  {
    var n := Value(10, d.whole + d.frac) * Pow(10, if |d.frac| <= DECIMALS then DECIMALS - |d.frac| else 0);
    if d.neg then -n else n
  }

  lemma Padded(d: Decimal)
    requires IsDecimal(d) && |d.frac| <= DECIMALS
    ensures var s := d.whole + (d.frac + Zeros(DECIMALS - |d.frac|));
            IsNumeral(10, s) && (if d.neg then -Value(10, s) else Value(10, s)) == Units(d)
  {
    ZerosReads(10, DECIMALS - |d.frac|);
    ValueConcat(10, d.whole + d.frac, Zeros(DECIMALS - |d.frac|));
    assert d.whole + (d.frac + Zeros(DECIMALS - |d.frac|)) == d.whole + d.frac + Zeros(DECIMALS - |d.frac|);
  }

  lemma TextParts(d: Decimal, point: bool)
    requires IsDecimal(d) && (point || d.frac == "")
    ensures var t := Text(d, point);
            && TrimRight(TrimLeft(t)) == t && t != "" && (t[0] == '-' <==> d.neg)
            && Cut(if d.neg then t[1..] else t) == (d.whole, d.frac)
  {
    hide TrimRight, TrimLeft, Cut;
    var t := Text(d, point);
    var u := d.whole + (if point then "." else "") + d.frac;
    assert t == (if d.neg then "-" else "") + u;
    CutDigits(d.whole, d.frac);
    assert u == if point then d.whole + "." + d.frac else d.whole;
    assert u[|u| - 1] == '.' || DigitValue(u[|u| - 1]) < 10;
    NotSpace(t);
    assert (if d.neg then t[1..] else t) == u;
  }

  /** A decimal of at most six places reads as exactly its number of base units,
      and one with more is refused. */
  lemma ReadsExactly(d: Decimal, point: bool)
    requires IsDecimal(d) && (point || d.frac == "")
    ensures ParsedUnits(Text(d, point)) == if |d.frac| <= DECIMALS then Ok(Units(d)) else Err(TooManyDecimals)
  {
    hide TrimRight, TrimLeft, Cut, ReadInt, Value, IsNumeral, Units, Text;
    TextParts(d, point);
    if |d.frac| <= DECIMALS {
      Padded(d);
      DigitsRead(d.whole + (d.frac + Zeros(DECIMALS - |d.frac|)));
    }
  }

  /** `Units` is the decimal's value scaled by a million, without rounding. */
  lemma UnitsExact(d: Decimal)
    requires IsDecimal(d) && |d.frac| <= DECIMALS
    ensures Units(d) * Pow(10, |d.frac|) ==
            (if d.neg then -1 else 1) * (Value(10, d.whole) * Pow(10, |d.frac|) + Value(10, d.frac)) * Pow(10,
              DECIMALS)
  {
    ValueConcat(10, d.whole, d.frac);
    PowAdd(10, DECIMALS - |d.frac|, |d.frac|);
    var v := Value(10, d.whole + d.frac);
    ScaleParts(v, Pow(10, DECIMALS - |d.frac|), Pow(10, |d.frac|));
  }

  lemma ScaleParts(v: int, p: int, q: int)
    ensures v * p * q == v * (p * q)
    ensures -(v * p) * q == -1 * v * (p * q)
  {
  }

  /* --------------------------------------------------------------- round trips */

  /** The decimal FromBaseUnits writes: no redundant zero, no point before nothing. */
  function Written(d: Decimal): string
    requires IsDecimal(d)
  {
    var frac := TrimZeros(d.frac);
    (if d.neg && Units(d) != 0 then "-" else "") + StripZeros(d.whole) + (if frac == "" then "" else "." + frac)
  }

  lemma {:induction false} TrimZerosParts(s: string)
    ensures |TrimZeros(s)| <= |s| && s == TrimZeros(s) + Zeros(|s| - |TrimZeros(s)|)
    ensures TrimZeros(s) == "" <==> s == Zeros(|s|)
  {
    if s != "" && s[|s| - 1] == '0' {
      var t := s[..|s| - 1];
      TrimZerosParts(t);
      assert s == t + "0";
      assert Zeros(|t| - |TrimZeros(t)|) + "0" == Zeros(|s| - |TrimZeros(t)|);
      assert Zeros(|t|) + "0" == Zeros(|s|);
    } else if s != "" {
      assert Zeros(|s|)[|s| - 1] == '0';
    }
  }

  lemma {:induction false} TrimZerosPad(s: string, n: nat)
    ensures TrimZeros(s + Zeros(n)) == TrimZeros(s)
  {
    if n == 0 {
      assert s + Zeros(0) == s;
    } else {
      TrimZerosPad(s, n - 1);
      assert (s + Zeros(n))[..|s| + n - 1] == s + Zeros(n - 1);
    }
  }

  lemma SixDigits(r: nat)
    requires r < SCALE
    ensures var p := PadLeft(Render(10, r), DECIMALS);
            |p| == DECIMALS && IsNumeral(10, p) && Value(10, p) == r
  {
    RenderReads(10, r);
    assert Pow(10, 6) == SCALE by {
      assert Pow(10, 1) == 10 * Pow(10, 0);
      assert Pow(10, 3) == 10 * Pow(10, 2);
      assert Pow(10, 5) == 10 * Pow(10, 4);
    }
    RenderWidth(10, r, 6);
    PadReads(10, Render(10, r), DECIMALS);
  }

  /** The decimal whose text FromBaseUnits writes. */
  function Rendered(n: int): Decimal {
    var m := if n >= 0 then n else -n;
    Decimal(n < 0 && m >= SCALE, Render(10, m / SCALE),
            if m % SCALE == 0 then "" else TrimZeros(PadLeft(Render(10, m % SCALE), DECIMALS)))
  }

  /** A six-digit text is its text without closing zeros, and those zeros. */
  lemma TrimmedPrefix(p: string)
    requires |p| == DECIMALS
    ensures var frac := TrimZeros(p); |frac| <= DECIMALS && frac == p[..|frac|]
    ensures TrimZeros(p) + Zeros(DECIMALS - |TrimZeros(p)|) == p
    ensures TrimZeros(p) == "" <==> p == Zeros(DECIMALS)
  {
    TrimZerosParts(p);
  }

  lemma FractionText(r: nat)
    requires 0 < r < SCALE
    ensures var frac := TrimZeros(PadLeft(Render(10, r), DECIMALS));
            && frac != "" && |frac| <= DECIMALS && IsNumeral(10, frac)
            && frac + Zeros(DECIMALS - |frac|) == PadLeft(Render(10, r), DECIMALS)
  {
    SixDigits(r);
    var p := PadLeft(Render(10, r), DECIMALS);
    hide Render, PadLeft, TrimZeros, Value;
    TrimmedPrefix(p);
    ZerosReads(10, DECIMALS);
  }

  /** That decimal stands for n, or for its magnitude where the sign is dropped. */
  lemma RenderedUnits(n: int)
    ensures var m, d := if n >= 0 then n else -n, Rendered(n);
            && IsDecimal(d) && |d.frac| <= DECIMALS
            && Units(d) == (if d.neg then -m else m)
  {
    hide Render, PadLeft, TrimZeros, Units, Pow;
    var m, d := if n >= 0 then n else -n, Rendered(n);
    var q, r := m / SCALE, m % SCALE;
    assert m == q * SCALE + r;
    RenderReads(10, q);
    if r == 0 {
      assert d.frac + Zeros(DECIMALS) == Zeros(DECIMALS);
      ZerosReads(10, DECIMALS);
    } else {
      FractionText(r);
      SixDigits(r);
    }
    var p := d.frac + Zeros(DECIMALS - |d.frac|);
    ValueConcat(10, d.whole, p);
    MillionIsPow();
    Padded(d);
  }

  lemma RenderedText(n: int)
    ensures FromBaseUnits(n) == Text(Rendered(n), Rendered(n).frac != "")
  {
    hide Render, PadLeft, TrimZeros;
    var m := if n >= 0 then n else -n;
    var r := m % SCALE;
    assert m == m / SCALE * SCALE + r;
    if r != 0 {
      FractionText(r);
    }
    if n < 0 && m < SCALE {
      assert m / SCALE == 0;
    }
  }

  lemma MillionIsPow()
    ensures Pow(10, DECIMALS) == SCALE
  {
    assert Pow(10, 1) == 10 * Pow(10, 0);
    assert Pow(10, 3) == 10 * Pow(10, 2);
    assert Pow(10, 5) == 10 * Pow(10, 4);
  }

  /** Reading back what was written gives the same units exactly outside the open
      interval from minus one to zero whole tokens; inside it the sign is lost. */
  lemma WriteThenRead(n: int)
    ensures ParsedUnits(FromBaseUnits(n)) == Ok(n) <==> n >= 0 || n <= -SCALE
    ensures -SCALE < n < 0 ==> ParsedUnits(FromBaseUnits(n)) == Ok(-n)
  {
    hide ParsedUnits, FromBaseUnits, Units, Text, Render;
    RenderedUnits(n);
    RenderedText(n);
    ReadsExactly(Rendered(n), Rendered(n).frac != "");
  }

  /** The whole part and the padded fraction are quotient and remainder. */
  lemma UnitsSplit(d: Decimal)
    requires IsDecimal(d) && |d.frac| <= DECIMALS
    ensures var m := if d.neg then -Units(d) else Units(d);
            var p := d.frac + Zeros(DECIMALS - |d.frac|);
            && IsNumeral(10, p) && |p| == DECIMALS && 0 <= m
            && m / SCALE == Value(10, d.whole) && m % SCALE == Value(10, p) < SCALE
  {
    var p := d.frac + Zeros(DECIMALS - |d.frac|);
    Padded(d);
    ZerosReads(10, DECIMALS - |d.frac|);
    ValueConcat(10, d.frac, Zeros(DECIMALS - |d.frac|));
    ValueConcat(10, d.whole, p);
    assert d.whole + p == d.whole + d.frac + Zeros(DECIMALS - |d.frac|);
    ValueBound(10, p);
    MillionIsPow();
    EuclidUnique(Value(10, d.whole), Value(10, p));
  }

  lemma EuclidUnique(q: nat, r: nat)
    requires r < SCALE
    ensures (q * SCALE + r) / SCALE == q && (q * SCALE + r) % SCALE == r
  {
  }

  /** The written decimal's parts are those of the rendered units. */
  lemma SameParts(d: Decimal)
    requires IsDecimal(d) && |d.frac| <= DECIMALS
    ensures var r := Rendered(Units(d)); r.whole == StripZeros(d.whole) && r.frac == TrimZeros(d.frac)
  {
    hide Render, PadLeft, TrimZeros, Units, Pow, Value, IsNumeral;
    var n := Units(d);
    var m := if d.neg then -n else n;
    var p := d.frac + Zeros(DECIMALS - |d.frac|);
    UnitsSplit(d);
    RenderStrips(10, d.whole);
    TrimZerosPad(d.frac, DECIMALS - |d.frac|);
    if m % SCALE == 0 {
      ZerosReads(10, DECIMALS);
      FixedWidthUnique(10, p, Zeros(DECIMALS));
      TrimZerosParts(p);
    } else {
      SixDigits(m % SCALE);
      FixedWidthUnique(10, p, PadLeft(Render(10, m % SCALE), DECIMALS));
    }
  }

  lemma FirstChar(s: string)
    requires s != "" && IsNumeral(10, s)
    ensures s[0] != '-' && StripZeros(s) != "" && StripZeros(s)[0] != '-'
  {
  }

  /** Reading a decimal and writing it back strips its redundant zeros, exactly
      unless it is negative with a magnitude strictly between zero and one. */
  lemma ReadThenWrite(d: Decimal)
    requires IsDecimal(d) && |d.frac| <= DECIMALS
    ensures FromBaseUnits(Units(d)) == Written(d) <==> !(d.neg && -SCALE < Units(d) < 0)
  {
    hide FromBaseUnits, Units, StripZeros, TrimZeros, Rendered, IsNumeral, Value;
    var n := Units(d);
    var r := Rendered(n);
    RenderedText(n);
    SameParts(d);
    SignOf(d);
    FirstChar(d.whole);
    var body := StripZeros(d.whole) + (if TrimZeros(d.frac) == "" then "" else "." + TrimZeros(d.frac));
    assert Text(r, r.frac != "") == (if r.neg then "-" else "") + body;
    assert Written(d) == (if d.neg && n != 0 then "-" else "") + body;
    assert body[0] != '-';
  }

  lemma SignOf(d: Decimal)
    requires IsDecimal(d) && |d.frac| <= DECIMALS
    ensures Rendered(Units(d)).neg <==> d.neg && Units(d) <= -SCALE
    ensures if d.neg then Units(d) <= 0 else Units(d) >= 0
  {
    UnitsSplit(d);
  }

  /* ------------------------------------------------------------ what is accepted */

  /** Text around an amount that is skipped. */
  ghost predicate Blank(s: string) {
    forall i | 0 <= i < |s| :: IsSpace(s[i])
  }

  /** An optional minus, an optional sign, digits, and up to six more after a point;
      either group of digits may be missing. */
  datatype Amount = Amount(minus: bool, sign: string, whole: string, point: bool, frac: string)

  ghost predicate IsAmount(a: Amount) {
    && a.sign in {"", "+", "-"} && IsNumeral(10, a.whole) && IsNumeral(10, a.frac) && |a.frac| <= DECIMALS
    && (a.frac != "" ==> a.point) && Spelling(a) != ""
  }

  function Body(a: Amount): string {
    a.sign + a.whole + (if a.point then "." + a.frac else "")
  }

  function Spelling(a: Amount): string {
    (if a.minus then "-" else "") + Body(a)
  }

  /** Its base units: two minus signs cancel. */
  ghost function AmountUnits(a: Amount): int
    requires IsAmount(a)
  {
    Joint(10, a.whole, a.frac);
    var n := Value(10, a.whole + a.frac) * Pow(10, DECIMALS - |a.frac|);
    if a.minus == (a.sign == "-") then n else -n
  }

  lemma Joint(base: Base, s: string, t: string)
    requires IsNumeral(base, s) && IsNumeral(base, t)
    ensures IsNumeral(base, s + t)
  {
  }

  lemma {:induction false} CutAt(w: string, f: string)
    requires '.' !in w
    ensures Cut(w + "." + f) == (w, f) && Cut(w) == (w, "")
  {
    if w == "" {
      assert w + "." + f == "." + f;
    } else {
      CutAt(w[1..], f);
      assert w + "." + f == [w[0]] + (w[1..] + "." + f);
      assert w == [w[0]] + w[1..];
      assert w[0] in w;
    }
  }

  lemma {:induction false} CutParts(s: string)
    ensures var (w, f) := Cut(s); '.' !in w && (s == w + "." + f || (s == w && f == ""))
  {
    if s != "" && s[0] != '.' {
      CutParts(s[1..]);
      assert s == [s[0]] + s[1..];
    } else if s != "" {
      assert s == "" + "." + s[1..];
    }
  }

  lemma PaddedDigits(a: Amount)
    requires IsAmount(a)
    ensures var digits := a.whole + (a.frac + Zeros(DECIMALS - |a.frac|));
            && digits != "" && IsNumeral(10, digits) && IsNumeral(10, a.frac + Zeros(DECIMALS - |a.frac|))
            && AmountUnits(a) == if a.minus == (a.sign == "-") then Value(10, digits) else -Value(10, digits)
  {
    hide Value, Pow;
    var zeros := Zeros(DECIMALS - |a.frac|);
    ZerosReads(10, DECIMALS - |a.frac|);
    Joint(10, a.whole, a.frac);
    Joint(10, a.frac, zeros);
    ValueConcat(10, a.whole + a.frac, zeros);
    assert a.whole + (a.frac + zeros) == (a.whole + a.frac) + zeros;
  }

  lemma ReadSigned(sign: string, whole: string, rest: string)
    requires sign in {"", "+", "-"} && IsNumeral(10, whole) && IsNumeral(10, rest) && whole + rest != ""
    ensures IsNumeral(10, whole + rest)
    ensures ReadInt((if sign + whole == "" then "0" else sign + whole) + rest) ==
            Some(if sign == "-" then -Value(10, whole + rest) else Value(10, whole + rest))
  {
    hide Value;
    Joint(10, whole, rest);
    if sign == "" && whole == "" {
      OneDigit(10, '0');
      ValueConcat(10, "0", rest);
      assert whole + rest == rest;
      DigitsRead("0" + rest);
    } else if sign == "" {
      assert sign + whole + rest == whole + rest;
      DigitsRead(whole + rest);
    } else {
      var s := sign + whole + rest;
      assert s[1..] == whole + rest && s[0] == sign[0];
    }
  }

  /** What is read after a leading minus: the whole part with its own sign, if any, and
      the padded fraction. */
  lemma AssembledAmount(a: Amount)
    requires IsAmount(a) && !(a.sign == "-" && !a.minus)
    ensures Assembled(a.minus, a.sign + a.whole, a.frac) == Ok(AmountUnits(a))
  {
    hide Value, Pow, IsNumeral, ReadInt, AmountUnits;
    PaddedDigits(a);
    ReadSigned(a.sign, a.whole, a.frac + Zeros(DECIMALS - |a.frac|));
  }

  lemma AmountChars(a: Amount)
    requires IsAmount(a)
    ensures forall c | c in Spelling(a) :: !IsSpace(c)
    ensures '.' !in a.sign + a.whole
  {
    assert forall i | 0 <= i < |a.whole| :: DigitValue(a.whole[i]) < 10;
    assert forall i | 0 <= i < |a.frac| :: DigitValue(a.frac[i]) < 10;
  }

  lemma {:induction false} BlanksTrim(before: string, t: string, after: string)
    requires Blank(before) && Blank(after) && t != "" && forall c | c in t :: !IsSpace(c)
    ensures TrimRight(TrimLeft(before + t + after)) == t
  {
    if before != "" {
      BlanksTrim(before[1..], t, after);
      assert (before + t + after)[1..] == before[1..] + t + after;
    } else if after != "" {
      var s := t + after;
      BlanksTrim("", t, after[..|after| - 1]);
      assert before + t + after == s && s[..|s| - 1] == "" + t + after[..|after| - 1];
      assert s[0] == t[0] && t[0] in t && s[|s| - 1] == after[|after| - 1];
    } else {
      assert before + t + after == t;
      assert t[0] in t && t[|t| - 1] in t;
    }
  }

  /** A leading minus is taken for the first, whichever of the two it is. */
  lemma BodyIsCut(a: Amount)
    requires IsAmount(a) && !(a.sign == "-" && !a.minus)
    ensures var t := Spelling(a);
            t != "" && (t[0] == '-' <==> a.minus) && Cut(if a.minus then t[1..] else t) == (a.sign + a.whole, a.frac)
  {
    hide Cut;
    FirstIsMinus(a);
    AmountChars(a);
    CutAt(a.sign + a.whole, a.frac);
    assert Body(a) == if a.point then a.sign + a.whole + "." + a.frac else a.sign + a.whole;
    assert Spelling(a) == (if a.minus then "-" else "") + Body(a);
    assert (if a.minus then Spelling(a)[1..] else Spelling(a)) == Body(a);
  }

  /** Every amount so spelled is read, blanks around it skipped, as its base units. */
  lemma AmountsAreRead(a: Amount, before: string, after: string)
    requires IsAmount(a) && Blank(before) && Blank(after)
    ensures ParsedUnits(before + Spelling(a) + after) == Ok(AmountUnits(a))
  {
    hide TrimLeft, TrimRight, Cut, Assembled, AmountUnits, IsSpace, Blank, IsAmount, Spelling;
    AmountChars(a);
    NotEmptyAmount(a);
    BlanksTrim(before, Spelling(a), after);
    var b := if a.sign == "-" && !a.minus then a.(minus := true, sign := "") else a;
    AmountUnitsSame(a, b);
    BodyIsCut(b);
    AssembledAmount(b);
  }

  lemma FirstIsMinus(a: Amount)
    requires IsAmount(a) && !(a.sign == "-" && !a.minus)
    ensures Spelling(a)[0] == '-' <==> a.minus
  {
    assert a.whole != "" ==> DigitValue(a.whole[0]) < 10;
  }

  lemma AmountUnitsSame(a: Amount, b: Amount)
    requires IsAmount(a) && b == if a.sign == "-" && !a.minus then a.(minus := true, sign := "") else a
    ensures IsAmount(b) && AmountUnits(b) == AmountUnits(a) && Spelling(b) == Spelling(a)
  {
    assert Spelling(b) == Spelling(a);
  }

  lemma ReadDigits(s: string)
    requires ReadInt(s).Some?
    ensures s != "" && IsNumeral(10, if s[0] in "+-" then s[1..] else s)
  {
  }

  lemma SignSplits(w: string, rest: string) returns (sign: string, whole: string)
    ensures sign in {"", "+", "-"} && w == sign + whole
    ensures var s := (if w == "" then "0" else w) + rest;
            (if s[0] in "+-" then s[1..] else s) == (if w == "" then "0" else whole) + rest
  {
    if w != "" && w[0] in "+-" {
      sign, whole := [w[0]], w[1..];
      assert w == sign + whole;
      assert (w + rest)[1..] == whole + rest;
    } else {
      sign, whole := "", w;
    }
  }

  /** What ReadInt accepts splits into sign, whole part and fraction. */
  lemma AcceptedParts(w: string, f: string, neg: bool) returns (a: Amount)
    requires Assembled(neg, w, f).Ok?
    ensures a.minus == neg && w == a.sign + a.whole && f == a.frac && a.point
    ensures IsAmount(a)
  {
    hide Value, IsNumeral, ReadInt, Zeros;
    var zeros := Zeros(DECIMALS - |f|);
    ReadDigits((if w == "" then "0" else w) + (f + zeros));
    var sign, whole := SignSplits(w, f + zeros);
    a := Amount(neg, sign, whole, true, f);
    SubNumeral(if w == "" then "0" else whole, f, zeros);
    EmptyNumeral();
  }

  lemma EmptyNumeral()
    ensures IsNumeral(10, "")
  {
  }

  lemma SubNumeral(a: string, b: string, c: string)
    requires IsNumeral(10, a + (b + c))
    ensures IsNumeral(10, a) && IsNumeral(10, b)
  {
    assert forall i | 0 <= i < |a| :: a[i] == (a + (b + c))[i];
    assert forall i | 0 <= i < |b| :: b[i] == (a + (b + c))[|a| + i];
  }

  /** Nothing else is read: whatever is accepted is an amount so spelled, with blanks
      around it. */
  lemma OnlyAmountsAreRead(text: string)
    requires ParsedUnits(text).Ok?
    ensures exists a :: IsAmount(a) && TrimRight(TrimLeft(text)) == Spelling(a)
                        && ParsedUnits(text) == Ok(AmountUnits(a))
  {
    hide Value, Pow, TrimLeft, TrimRight, Cut, Assembled, AmountUnits, IsSpace;
    var t := TrimRight(TrimLeft(text));
    var neg := t[0] == '-';
    var u := if neg then t[1..] else t;
    assert t == (if neg then "-" else "") + u;
    CutParts(u);
    var (w, f) := Cut(u);
    var b := AcceptedParts(w, f, neg);
    var a := b.(point := u != w);
    assert u == Body(a);
    SignOfRest(a, u, neg);
    AssembledAmount(a);
  }

  lemma SignOfRest(a: Amount, u: string, neg: bool)
    requires u == Body(a) && a.minus == neg && (a.frac != "" ==> a.point)
    requires IsAmount(a.(point := true)) && (!neg ==> u != "" && u[0] != '-')
    ensures IsAmount(a) && !(a.sign == "-" && !a.minus)
  {
  }

  lemma TrimmedAmountIsRead(text: string, a: Amount)
    requires IsAmount(a) && TrimRight(TrimLeft(text)) == Spelling(a)
    ensures ParsedUnits(text) == Ok(AmountUnits(a))
  {
    hide Value, Pow, TrimLeft, TrimRight, Cut, Assembled, IsSpace, AmountUnits, Spelling, IsAmount;
    AmountsAreRead(a, "", "");
    var t := Spelling(a);
    assert "" + t + "" == t;
    AmountChars(a);
    NotEmptyAmount(a);
    BlanksTrim("", t, "");
  }

  lemma NotEmptyAmount(a: Amount)
    requires IsAmount(a)
    ensures Spelling(a) != ""
  {
  }

  lemma TooManyMeans(neg: bool, w: string, f: string)
    requires Assembled(neg, w, f) == Err(TooManyDecimals)
    ensures |f| > 6
  {
  }

  lemma WithMinus(t: string, u: string, w: string, f: string)
    requires u == w + "." + f && '.' !in w && t != "" && u == if t[0] == '-' then t[1..] else t
    ensures exists v :: t == v + "." + f && '.' !in v
  {
    if t[0] == '-' {
      var v := "-" + w;
      assert t == v + "." + f && '.' !in v;
    } else {
      assert t == w + "." + f;
    }
  }

  lemma ManyPlaces(text: string)
    requires ParsedUnits(text) == Err(TooManyDecimals)
    ensures exists w, f :: TrimRight(TrimLeft(text)) == w + "." + f && '.' !in w && |f| > 6
  {
    hide TrimLeft, TrimRight, Cut, Assembled, IsSpace;
    var t := TrimRight(TrimLeft(text));
    var u := if t[0] == '-' then t[1..] else t;
    CutParts(u);
    var (w, f) := Cut(u);
    TooManyMeans(t[0] == '-', w, f);
    WithMinus(t, u, w, f);
    var v :| t == v + "." + f && '.' !in v;
  }

  /** An empty text, too many places and anything else not an amount have each their own
      error. */
  lemma RefusalsTell(text: string)
    requires ParsedUnits(text).Err?
    ensures var t := TrimRight(TrimLeft(text));
            match ParsedUnits(text).error
            case Empty => t == ""
            case TooManyDecimals => exists w, f :: t == w + "." + f && '.' !in w && |f| > 6
            case NotANumber => t != "" && forall a :: IsAmount(a) ==> t != Spelling(a)
  {
    if ParsedUnits(text) == Err(TooManyDecimals) {
      ManyPlaces(text);
    }
    forall a | IsAmount(a) && TrimRight(TrimLeft(text)) == Spelling(a) ensures false {
      TrimmedAmountIsRead(text, a);
    }
    hide TrimLeft, TrimRight, Cut, ReadInt, IsSpace, Spelling, IsAmount;
  }

  /** What is written has no redundant zero before the point or after it, at most six
      places, and the magnitude of `n`; and a minus exactly from one token below zero
      on. */
  lemma WritesPlainly(n: int)
    ensures exists neg, whole, frac ::
              && FromBaseUnits(n) == (if neg then "-" else "") + whole + (if frac == "" then "" else "." + frac)
              && IsDecimal(Decimal(neg, whole, frac)) && |frac| <= 6
              && (whole == "0" || whole[0] != '0') && (frac == "" || frac[|frac| - 1] != '0')
              && Units(Decimal(neg, whole, frac)) == (if -1000000 < n < 0 then -n else n)
              && (neg <==> n <= -1000000)
  {
    hide FromBaseUnits, Units, IsDecimal, Render, PadLeft, TrimZeros;
    var d := Rendered(n);
    RenderedUnits(n);
    RenderedText(n);
    var m := if n >= 0 then n else -n;
    RenderReads(10, m / SCALE);
    NoClosingZero(PadLeft(Render(10, m % SCALE), DECIMALS));
    assert d == Decimal(d.neg, d.whole, d.frac);
    DecimalParts(d);
  }

  lemma DecimalParts(d: Decimal)
    requires IsDecimal(d)
    ensures d.whole != ""
    ensures Text(d, d.frac != "") == (if d.neg then "-" else "") + d.whole + (if d.frac == "" then "" else "." + d.frac)
  {
    if d.frac == "" {
      assert d.whole + "" + d.frac == d.whole + "";
    } else {
      assert d.whole + "." + d.frac == d.whole + ("." + d.frac);
    }
  }

  lemma {:induction false} NoClosingZero(s: string)
    ensures TrimZeros(s) == "" || TrimZeros(s)[|TrimZeros(s)| - 1] != '0'
  {
    if s != "" {
      NoClosingZero(s[..|s| - 1]);
    }
  }
}
