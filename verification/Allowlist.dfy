/** The treasury's spend rule, rebuilt from the roster. */
module Allowlist {
  import opened Domain
  import opened Numerals
  import opened Calldata
  import opened StringOrder

  datatype Operand = One(text: string) | Many(texts: seq<string>)

  datatype Condition = Condition(source: string, field: string, operator: string, value: Operand)

  datatype Rule = Rule(method_: string, conditions: seq<Condition>, action: string)

  function TokenCondition(token: string): Condition {
    Condition("ethereum_transaction", "to", "eq", One(token))
  }

  function CapCondition(cap: nat): Condition {
    Condition("ethereum_calldata", "transfer.amount", "lte", One("0x" + Render(16, cap)))
  }

  function PayeeCondition(recipients: seq<string>): Condition {
    Condition("ethereum_calldata", "transfer.recipient", "in", Many(recipients))
  }

  /** Every condition in one rule; the cap and the payees only where there are any. */
  method TreasuryRules(token: string, recipients: seq<string>, cap: Option<nat>) returns (rules: seq<Rule>)
    ensures rules == [Rule("eth_sendTransaction",
                           [TokenCondition(token)]
                           + (if cap.Some? then [CapCondition(cap.value)] else [])
                           + (if recipients != [] then [PayeeCondition(recipients)] else []),
                           "ALLOW")]
  {
    var conditions := [TokenCondition(token)];
    if cap.Some? {
      conditions := conditions + [CapCondition(cap.value)];
    }
    assert conditions == [TokenCondition(token)] + (if cap.Some? then [CapCondition(cap.value)] else []);
    if |recipients| > 0 {
      conditions := conditions + [PayeeCondition(recipients)];
    }
    assert conditions == conditions + [];
    rules := [Rule("eth_sendTransaction", conditions, "ALLOW")];
  }

  /* ------------------------------------------------ what the enclave makes of it */

  datatype Transaction = Transaction(method_: string, to: string, data: string)

  predicate SameAddress(a: string, b: string) {
    AddressDigits(a) == AddressDigits(b)
  }

  ghost predicate Holds(c: Condition, tx: Transaction) {
    match c.value
    case One(text) =>
      if c.source == "ethereum_transaction" then c.field == "to" && c.operator == "eq" && SameAddress(tx.to, text)
      else
        && c.source == "ethereum_calldata" && c.field == "transfer.amount" && c.operator == "lte"
        && Decode(tx.data).Some? && |text| > 2 && text[..2] == "0x" && IsNumeral(16, text[2..])
        && Decode(tx.data).value.1 <= Value(16, text[2..])
    case Many(texts) =>
      && c.source == "ethereum_calldata" && c.field == "transfer.recipient" && c.operator == "in"
      && Decode(tx.data).Some? && exists t | t in texts :: SameAddress(t, Decode(tx.data).value.0)
  }

  /** Conditions are ANDed within a rule, rules are ORed. */
  ghost predicate Permits(rules: seq<Rule>, tx: Transaction) {
    exists r | r in rules :: r.action == "ALLOW" && r.method_ == tx.method_
      && forall c | c in r.conditions :: Holds(c, tx)
  }

  /* --------------------------------------------------------------- the roster */

  function Wallets(members: seq<Member>): set<string> {
    set m | m in members && m.walletAddress.Some? && m.walletAddress.value != "" :: m.walletAddress.value
  }

  /** Every member wallet once, sorted. */
  method Recipients(members: seq<Member>) returns (recipients: seq<string>)
    ensures forall w :: w in recipients <==> w in Wallets(members)
    ensures Ascending(recipients) && Distinct(recipients)
  {
    var seen: set<string> := {};
    var list: seq<string> := [];
    for i := 0 to |members|
      invariant seen == Wallets(members[..i])
      invariant forall w :: w in list <==> w in seen
      invariant Distinct(list)
    {
      var m := members[i];
      assert members[..i + 1] == members[..i] + [m];
      if m.walletAddress.None? || m.walletAddress.value == "" || m.walletAddress.value in seen {
        continue;
      }
      seen := seen + {m.walletAddress.value};
      list := list + [m.walletAddress.value];
    }
    assert members[..|members|] == members;
    var a := new string[|list|](i requires 0 <= i < |list| => list[i]);
    assert a[..] == list;
    SortStrings(a);
    recipients := a[..];
  }

  /** The rules to install, or none when there is nobody to pay and the policy is
      left as it stands. */
  method SyncPayeeAllowlist(members: seq<Member>, token: string, cap: Option<nat>) returns (rules: Option<seq<Rule>>)
    ensures rules.None? <==> Wallets(members) == {}
    ensures rules.Some? ==> forall tx :: Permits(rules.value, tx) <==> Allowed(members, token, cap, tx)
  {
    var recipients := Recipients(members);
    if |recipients| == 0 {
      assert Wallets(members) == {};
      return None;
    }
    assert recipients[0] in Wallets(members);
    var built := TreasuryRules(token, recipients, cap);
    forall tx ensures Permits(built, tx) <==> Allowed(members, token, cap, tx) {
      RuleMeaning(members, recipients, token, cap, tx);
    }
    return Some(built);
  }

  /** What the treasury control is for. */
  ghost predicate Allowed(members: seq<Member>, token: string, cap: Option<nat>, tx: Transaction) {
    && tx.method_ == "eth_sendTransaction"
    && SameAddress(tx.to, token)
    && Decode(tx.data).Some?
    && (cap.Some? ==> Decode(tx.data).value.1 <= cap.value)
    && OnRoster(members, Decode(tx.data).value.0)
  }

  /** Some member is paid into that address. */
  ghost predicate OnRoster(members: seq<Member>, address: string) {
    exists m | m in members ::
      m.walletAddress.Some? && m.walletAddress.value != "" && SameAddress(m.walletAddress.value, address)
  }

  lemma OnRosterByWallet(members: seq<Member>, address: string)
    ensures OnRoster(members, address) <==> exists w | w in Wallets(members) :: SameAddress(w, address)
  {
    hide SameAddress;
    if w :| w in Wallets(members) && SameAddress(w, address) {
      var m :| m in members && m.walletAddress == Some(w) && w != "";
      assert SameAddress(m.walletAddress.value, address);
    }
    if OnRoster(members, address) {
      var m :| m in members && m.walletAddress.Some? && m.walletAddress.value != ""
        && SameAddress(m.walletAddress.value, address);
      assert m.walletAddress.value in Wallets(members);
    }
  }

  lemma CapMeaning(cap: nat, tx: Transaction)
    ensures Holds(CapCondition(cap), tx) <==> Decode(tx.data).Some? && Decode(tx.data).value.1 <= cap
  {
    RenderReads(16, cap);
    assert ("0x" + Render(16, cap))[2..] == Render(16, cap);
  }

  lemma RuleMeaning(members: seq<Member>, recipients: seq<string>, token: string,
                                       cap: Option<nat>, tx: Transaction)
    requires recipients != [] && forall w :: w in recipients <==> w in Wallets(members)
    ensures Permits([Rule("eth_sendTransaction",
                          [TokenCondition(token)] + (if cap.Some? then [CapCondition(cap.value)] else [])
                          + [PayeeCondition(recipients)], "ALLOW")], tx) <==>
            Allowed(members, token, cap, tx)
  {
    hide Decode, AddressDigits, Render, Value, IsNumeral, OnRoster, Wallets, SameAddress;
    if Decode(tx.data).Some? {
      OnRosterByWallet(members, Decode(tx.data).value.0);
    }
    var rule := Rule("eth_sendTransaction",
                     [TokenCondition(token)] + (if cap.Some? then [CapCondition(cap.value)] else [])
                     + [PayeeCondition(recipients)], "ALLOW");
    if cap.Some? {
      CapMeaning(cap.value, tx);
      assert CapCondition(cap.value) in rule.conditions;
    }
    assert TokenCondition(token) in rule.conditions && PayeeCondition(recipients) in rule.conditions;
    assert rule in [rule];
  }

  /** A payout's own transaction passes the rebuilt rule exactly when the token
      matches, the amount is within any cap, and the payee is a roster wallet. */
  lemma PayoutPermitted(members: seq<Member>, token: string, cap: Option<nat>, to: string,
                                           payee: string, amount: int)
    requires IsAddress(payee) && 0 <= amount < Pow(16, 64)
    ensures Allowed(members, token, cap, Transaction("eth_sendTransaction", to, ERC20TransferData(payee,
              amount))) <==>
            && SameAddress(to, token)
            && (cap.Some? ==> amount <= cap.value)
            && OnRoster(members, payee)
  {
    hide Pow, Decode, ERC20TransferData;
    CalldataRoundTrip(payee, amount);
    DigitsAreTheirOwnAddress(payee);
  }

  /** Addresses are the same when their digits spell one account, however they are
      written. */
  lemma SameAddressSpells(prefix: string, d: string, prefix': string, d': string)
    requires Marker(prefix) && |d| == 40 && Hex(d) && Marker(prefix') && |d'| == 40 && Hex(d')
    ensures SameAddress(prefix + d, prefix' + d') <==> Spelled(d) == Spelled(d')
  {
    hide Spelled, Hex, Value, IsNumeral, Lower, AddressDigits;
    MarkerDrops(prefix, d);
    MarkerDrops(prefix', d');
    LowerSpells(d);
    LowerSpells(d');
    LowerWidth(d);
    LowerWidth(d');
    if Spelled(d) == Spelled(d') {
      FixedWidthUnique(16, Lower(d), Lower(d'));
    }
  }

  lemma DigitsAreTheirOwnAddress(address: string)
    requires IsAddress(address)
    ensures AddressDigits(AddressDigits(address)) == AddressDigits(address)
  {
    var d := AddressDigits(address);
    assert forall i | 0 <= i < |d| :: DigitValue(d[i]) < 16 && LowerChar(d[i]) == d[i];
    assert Lower(d) == d;
    assert d[..2] == "0x" ==> d[1] == 'x' && DigitValue('x') == 16;
  }
}
