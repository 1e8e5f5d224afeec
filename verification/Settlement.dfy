/** A payout from end to end: the amount as text, the calldata, the spend rule, and
    what the token does with the transaction. */
module Settlement {
  import opened Domain
  import opened Numerals
  import opened Money
  import opened Calldata
  import A = Allowlist
  import T = Token
  import TokenRuns

  /** An amount of base units with six decimals, as the payout formats it. */
  function SixPlaces(n: nat): string {
    Render(10, n / SCALE) + "." + PadLeft(Render(10, n % SCALE), DECIMALS)
  }

  /** Whole tokens without a redundant zero, a point and six digits, which formatting and
      parsing give back exactly. */
  lemma AmountTextExact(n: nat)
    ensures ParsedUnits(SixPlaces(n)) == Ok(n)
    ensures exists whole, frac ::
              && SixPlaces(n) == whole + "." + frac && |frac| == 6
              && IsNumeral(10, whole) && IsNumeral(10, frac) && (whole == "0" || (whole != "" && whole[0] != '0'))
              && Value(10, whole) * 1000000 + Value(10, frac) == n
  {
    hide Render, PadLeft, ParsedUnits, Value, IsNumeral;
    var q, r := n / SCALE, n % SCALE;
    var d := Decimal(false, Render(10, q), PadLeft(Render(10, r), DECIMALS));
    RenderReads(10, q);
    SixDigits(r);
    ReadsExactly(d, true);
    ValueConcat(10, d.whole, d.frac);
    MillionIsPow();
    assert Text(d, true) == SixPlaces(n);
    assert Pow(10, 0) == 1;
  }

  /** The account an address text names, and the call a transaction's data makes. */
  function Account(address: string): T.Address
    requires IsAddress(address)
  {
    Value(16, AddressDigits(address))
  }

  /** That account is the number its forty digits spell, in either case. */
  lemma AccountIsSpelled(prefix: string, d: string)
    requires Marker(prefix) && |d| == 40 && Hex(d)
    ensures IsAddress(prefix + d) && Account(prefix + d) == Spelled(d)
  {
    MarkerDrops(prefix, d);
    LowerSpells(d);
  }

  function Called(data: string): Option<T.Call> {
    match Decode(data)
    case None => None
    case Some(parts) =>
      if IsAddress(parts.0) && 0 <= parts.1 < T.WORD then Some(T.Transfer(Account(parts.0), parts.1)) else None
  }

  lemma WordIsPow()
    ensures Pow(16, 64) == T.WORD
  {
    assert Pow(16, 1) == 16 * Pow(16, 0);
    hide Pow;
    PowAdd(16, 1, 1);
    PowAdd(16, 2, 2);
    assert Pow(16, 4) == 0x1_0000;
    PowAdd(16, 4, 4);
    PowAdd(16, 8, 8);
    assert Pow(16, 16) == 0x1_0000000000000000;
    PowAdd(16, 16, 16);
    assert Pow(16, 32) == 0x1_0000000000000000_0000000000000000;
    PowAdd(16, 32, 32);
  }

  /** The calldata a payout of `n` base units to `payee` sends. */
  function PayoutData(payee: string, n: nat): Result<string, MoneyError> {
    match ParsedUnits(SixPlaces(n))
    case Ok(units) => Ok(ERC20TransferData(payee, units))
    case Err(e) => Err(e)
  }

  /** The token reads a payout's transaction as a transfer of exactly the invoice's
      amount to exactly its payee; it goes through exactly when the treasury can
      cover it, and then moves that amount and nothing else. */
  lemma PayoutSettles(r: TokenRuns.Run, treasury: T.Address, now: T.uint256, payee: string,
                                         n: T.uint256)
    requires TokenRuns.Legal(r) && IsAddress(payee)
    ensures PayoutData(payee, n).Ok?
    ensures exists prefix, d ::
              Marker(prefix) && |d| == 40 && Hex(d) && payee == prefix + d && Account(payee) == Spelled(d)
    ensures Called(PayoutData(payee, n).value) == Some(T.Transfer(Account(payee), n))
    ensures var s, m := TokenRuns.After(r), T.Message(treasury, now, T.Transfer(Account(payee), n));
            && (T.Executed(s, m).Ok? <==> Account(payee) != T.ZERO && T.At(s.balanceOf, treasury) >= n)
            && (T.Executed(s, m).Ok? ==>
                  forall a :: T.At(T.Executed(s, m).value.balanceOf, a) ==
                    T.At(s.balanceOf, a) - (if a == treasury then n else 0) + (if a == Account(payee) then n else 0))
  {
    hide Pow, Value, AddressDigits, Decode, ERC20TransferData, ParsedUnits, SixPlaces, Spelled, Hex;
    AddressForms(payee);
    var prefix, d :| Marker(prefix) && |d| == 40 && Hex(d) && payee == prefix + d;
    AccountIsSpelled(prefix, d);
    AmountTextExact(n);
    WordIsPow();
    CalldataRoundTrip(payee, n);
    A.DigitsAreTheirOwnAddress(payee);
    TokenRuns.RunAudited(r);
    if T.Moved(TokenRuns.After(r), treasury, Account(payee), n).Ok? {
      TokenRuns.MovedExactly(TokenRuns.After(r), treasury, Account(payee), n);
    }
  }
}
