/** Calldata of transfer(address,uint256), per the Solidity Contract ABI
    Specification, Formal Specification of the Encoding. */
module Calldata {
  import opened Domain
  import opened Numerals

  const SELECTOR: string := "0xa9059cbb"

  /** Lower-cased and without its 0x. */
  function AddressDigits(address: string): string {
    var s := Lower(address);
    if |s| >= 2 && s[..2] == "0x" then s[2..] else s
  }

  predicate IsAddress(address: string) {
    |AddressDigits(address)| == 40 && IsNumeral(16, AddressDigits(address))
  }

  function HexText(n: int): string {
    if n < 0 then "-" + Render(16, -n) else Render(16, n)
  }

  function ERC20TransferData(to: string, amount: int): string {
    SELECTOR + PadLeft(AddressDigits(to), 64) + PadLeft(HexText(amount), 64)
  }

  /** Takes the two words of a transfer apart: the address word must have its upper
      twelve bytes zero. */
  function Decode(data: string): Option<(string, int)> {
    if |data| != 138 || data[..10] != SELECTOR then None
    else
      var word1, word2 := data[10..74], data[74..];
      if !IsNumeral(16, word1) || !IsNumeral(16, word2) || word1[..24] != Zeros(24) then None
      else Some((word1[24..], Value(16, word2)))
  }

  lemma AmountWord(amount: int)
    requires 0 <= amount < Pow(16, 64)
    ensures var word := PadLeft(HexText(amount), 64);
            |word| == 64 && IsNumeral(16, word) && Value(16, word) == amount
  {
    RenderReads(16, amount);
    RenderWidth(16, amount, 64);
    PadReads(16, Render(16, amount), 64);
  }

  lemma AddressWord(to: string)
    requires IsAddress(to)
    ensures var word := PadLeft(AddressDigits(to), 64);
            |word| == 64 && IsNumeral(16, word) && word[..24] == Zeros(24) && word[24..] == AddressDigits(to)
  {
    PadReads(16, AddressDigits(to), 64);
  }

  /** For an address and an amount of 256 bits the calldata has 138 characters and
      decodes back to that address and that amount. */
  lemma CalldataRoundTrip(to: string, amount: int)
    requires IsAddress(to) && 0 <= amount < Pow(16, 64)
    ensures |ERC20TransferData(to, amount)| == 138
    ensures Decode(ERC20TransferData(to, amount)) == Some((AddressDigits(to), amount))
  {
    hide Pow, Render, Value, IsNumeral, AddressDigits, HexText;
    AddressWord(to);
    AmountWord(amount);
    var data, word1, word2 := ERC20TransferData(to, amount), PadLeft(AddressDigits(to), 64),
        PadLeft(HexText(amount), 64);
    assert data[..10] == SELECTOR && data[10..74] == word1 && data[74..] == word2;
  }

  /** Equal calldata means equal payee and equal amount. */
  lemma CalldataInjective(to: string, amount: int, to': string, amount': int)
    requires IsAddress(to) && IsAddress(to')
    requires 0 <= amount < Pow(16, 64) && 0 <= amount' < Pow(16, 64)
    requires ERC20TransferData(to, amount) == ERC20TransferData(to', amount')
    ensures AddressDigits(to) == AddressDigits(to') && amount == amount'
  {
    hide *;
    CalldataRoundTrip(to, amount);
    CalldataRoundTrip(to', amount');
  }

  /* ------------------------------------------------- addresses as they are written */

  predicate HexChar(c: char) {
    '0' <= c <= '9' || 'a' <= c <= 'f' || 'A' <= c <= 'F'
  }

  function HexDigit(c: char): nat
    requires HexChar(c)
  {
    if c <= '9' then c as int - '0' as int
    else if c <= 'F' then c as int - 'A' as int + 10
    else c as int - 'a' as int + 10
  }

  predicate Hex(d: string) {
    forall i | 0 <= i < |d| :: HexChar(d[i])
  }

  /** The number a text spells in base sixteen, in either case. */
  function Spelled(d: string): nat
    requires Hex(d)
  {
    if d == "" then 0 else 16 * Spelled(d[..|d| - 1]) + HexDigit(d[|d| - 1])
  }

  predicate Marker(prefix: string) {
    prefix == "" || prefix == "0x" || prefix == "0X"
  }

  lemma HexCharFolds(c: char)
    ensures HexChar(c) <==> DigitValue(LowerChar(c)) < 16
    ensures HexChar(c) ==> DigitValue(LowerChar(c)) == HexDigit(c)
  {
  }

  /** Lower-casing changes no number. */
  lemma {:induction false} LowerSpells(d: string)
    requires Hex(d)
    ensures IsNumeral(16, Lower(d)) && Value(16, Lower(d)) == Spelled(d)
  {
    forall c { HexCharFolds(c); }
    if d != "" {
      LowerSpells(d[..|d| - 1]);
      assert Lower(d)[..|d| - 1] == Lower(d[..|d| - 1]);
    }
  }

  lemma MarkerDrops(prefix: string, d: string)
    requires Marker(prefix) && Hex(d)
    ensures AddressDigits(prefix + d) == Lower(d)
  {
    var s := Lower(prefix + d);
    if prefix == "" {
      assert prefix + d == d;
      assert |d| >= 2 ==> HexChar(d[1]) && s[1] != 'x';
    } else {
      assert s[..2] == "0x" && s[2..] == Lower(d);
    }
  }

  /** An address is forty hexadecimal digits, with or without a marker before them. */
  lemma AddressForms(address: string)
    ensures IsAddress(address) <==>
            exists prefix, d :: Marker(prefix) && |d| == 40 && Hex(d) && address == prefix + d
  {
    if IsAddress(address) {
      var n := |address| - 40;
      var prefix, d := address[..n], address[n..];
      LowerTail(address, n);
      assert prefix + d == address;
    }
    forall prefix, d | Marker(prefix) && |d| == 40 && Hex(d) && address == prefix + d ensures IsAddress(address) {
      MarkerDrops(prefix, d);
      LowerSpells(d);
    }
  }

  lemma LowerTail(address: string, n: int)
    requires IsAddress(address) && n == |address| - 40
    ensures 0 <= n && Marker(address[..n]) && |address[n..]| == 40 && Hex(address[n..])
  {
    var s := Lower(address);
    if |s| >= 2 && s[..2] == "0x" {
      assert s[0] == '0' && s[1] == 'x';
      assert address[..n] == [address[0], address[1]];
    }
    assert AddressDigits(address) == s[n..];
    forall i | 0 <= i < 40 ensures HexChar(address[n..][i]) {
      HexCharFolds(address[n + i]);
      assert s[n..][i] == LowerChar(address[n + i]);
    }
  }

  /** The calldata of an address as it is written: the selector, twenty-four zeros, the
      forty digits each in lower case, and a word that spells the amount. It decodes to
      the account those digits spell. */
  lemma CalldataSpells(prefix: string, d: string, amount: int)
    requires Marker(prefix) && |d| == 40 && Hex(d) && 0 <= amount < Pow(16, 64)
    ensures var data := ERC20TransferData(prefix + d, amount);
            && |data| == 138 && data[..10] == "0xa9059cbb"
            && (forall i | 10 <= i < 34 :: data[i] == '0')
            && (forall i | 0 <= i < 40 ::
                  data[34 + i] as int == d[i] as int + (if 'A' <= d[i] <= 'F' then 32 else 0))
            && Hex(data[34..74]) && Spelled(data[34..74]) == Spelled(d)
            && Hex(data[74..]) && Spelled(data[74..]) == amount
            && Decode(data) == Some((data[34..74], amount))
  {
    hide Pow, Value, HexText, AddressDigits, Decode, Spelled;
    MarkerDrops(prefix, d);
    LowerSpells(d);
    var to := prefix + d;
    CalldataRoundTrip(to, amount);
    CalldataWords(to, amount);
    var data := ERC20TransferData(to, amount);
    NumeralSpells(data[34..74]);
    NumeralSpells(data[74..]);
  }

  lemma CalldataWords(to: string, amount: int)
    requires IsAddress(to) && 0 <= amount < Pow(16, 64)
    ensures var data := ERC20TransferData(to, amount);
            && |data| == 138 && data[..10] == SELECTOR && data[10..34] == Zeros(24)
            && data[34..74] == AddressDigits(to)
            && IsNumeral(16, data[74..]) && Value(16, data[74..]) == amount
  {
    hide Pow, Value, HexText, AddressDigits, IsNumeral, PadLeft, Zeros;
    AddressWord(to);
    AmountWord(amount);
    var data, word := ERC20TransferData(to, amount), PadLeft(AddressDigits(to), 64);
    assert data[10..74] == word && data[74..] == PadLeft(HexText(amount), 64);
    assert data[10..34] == word[..24] && data[34..74] == word[24..];
  }

  /** Lower-case digits spell their value. */
  lemma NumeralSpells(s: string)
    requires IsNumeral(16, s)
    ensures Hex(s) && Spelled(s) == Value(16, s) && Lower(s) == s
  {
    forall i | 0 <= i < |s| ensures HexChar(s[i]) && LowerChar(s[i]) == s[i] {
    }
    assert Lower(s) == s;
    LowerSpells(s);
  }

  /** Two transfers have the same calldata exactly when their payees' digits spell one
      account and the amounts are equal. */
  lemma CalldataTellsAccounts(prefix: string, d: string, amount: int, prefix': string, d': string, amount': int)
    requires Marker(prefix) && |d| == 40 && Hex(d) && 0 <= amount < Pow(16, 64)
    requires Marker(prefix') && |d'| == 40 && Hex(d') && 0 <= amount' < Pow(16, 64)
    ensures ERC20TransferData(prefix + d, amount) == ERC20TransferData(prefix' + d', amount') <==>
            Spelled(d) == Spelled(d') && amount == amount'
  {
    hide Pow, Value, AddressDigits, IsNumeral, Lower, Spelled, Hex, HexText, PadLeft;
    CalldataSpells(prefix, d, amount);
    CalldataSpells(prefix', d', amount');
    MarkerDrops(prefix, d);
    MarkerDrops(prefix', d');
    LowerSpells(d);
    LowerSpells(d');
    if Spelled(d) == Spelled(d') && amount == amount' {
      LowerWidth(d);
      LowerWidth(d');
      FixedWidthUnique(16, Lower(d), Lower(d'));
    }
  }

  lemma LowerWidth(d: string)
    ensures |Lower(d)| == |d|
  {
  }
}
