/** What every history of calls to the token keeps. */
module TokenRuns {
  import opened Domain
  import opened Sums
  import opened Token

  /** A deployment followed by messages, whether they succeed or revert. */
  datatype Run = Deployed(initialSupply: uint256, initialOwner: Address) | Then(prior: Run, message: Message)

  predicate Legal(r: Run) {
    match r
    case Deployed(_, owner) => owner != ZERO
    case Then(prior, _) => Legal(prior)
  }

  function After(r: Run): State
    requires Legal(r)
  {
    match r
    case Deployed(supply, owner) => DeployedWith(supply, owner).value
    case Then(prior, m) =>
      match Executed(After(prior), m)
      case Ok(s) => s
      case Err(_) => After(prior)
  }

  predicate Succeeds(r: Run)
    requires Legal(r) && r.Then?
  {
    Executed(After(r.prior), r.message).Ok?
  }

  /* ------------------------------------------------------------ conservation */

  /** The balances account for the whole supply. */
  ghost predicate Backed(s: State) {
    Sum(s.balanceOf) == s.totalSupply
  }

  lemma BalancesBounded(s: State, a: Address, b: Address)
    requires Backed(s)
    ensures At(s.balanceOf, a) <= s.totalSupply
    ensures a != b ==> At(s.balanceOf, a) + At(s.balanceOf, b) <= s.totalSupply
  {
    var m: map<Address, int> := s.balanceOf;
    SumBounds(m, a);
    SumUpdate(m, a, 0);
    SumBounds(m[a := 0], b);
  }

  lemma WrapInRange(n: int)
    requires 0 <= n <= MAX_WORD
    ensures Wrap(n) == n
  {
  }

  /** A transfer leaves both parties with exactly what the integers say, a transfer
      to oneself included. */
  lemma MovedExactly(s: State, from: Address, to: Address, value: uint256)
    requires Backed(s) && Moved(s, from, to, value).Ok?
    ensures var t := Moved(s, from, to, value).value;
            && Backed(t)
            && forall a :: At(t.balanceOf, a) ==
                 At(s.balanceOf, a) - (if a == from then value else 0) + (if a == to then value else 0)
  {
    hide Wrap, Sum;
    BalancesBounded(s, from, to);
    BalancesBounded(s, to, from);
    var m: map<Address, int> := s.balanceOf;
    var left := At(s.balanceOf, from) - value;
    WrapInRange(left);
    var debited := s.balanceOf[from := left];
    WrapInRange(At(debited, to) + value);
    var t := Moved(s, from, to, value).value;
    assert t.balanceOf == debited[to := At(debited, to) + value];
    SumUpdate(m, from, left);
    SumUpdate(m[from := left], to, At(debited, to) + value);
  }

  lemma MintedExactly(s: State, to: Address, value: uint256)
    requires Backed(s) && Minted(s, to, value).Ok?
    ensures var t := Minted(s, to, value).value;
            && Backed(t)
            && forall a :: At(t.balanceOf, a) == At(s.balanceOf, a) + (if a == to then value else 0)
  {
    hide Wrap, Sum;
    BalancesBounded(s, to, to);
    var m: map<Address, int> := s.balanceOf;
    WrapInRange(At(s.balanceOf, to) + value);
    SumUpdate(m, to, At(s.balanceOf, to) + value);
  }

  /** A balance as the Transfer events add up to it, in exact integers. */
  function Replayed(log: seq<Event>, a: Address): int {
    if log == [] then 0
    else
      Replayed(log[..|log| - 1], a) +
      match log[|log| - 1]
      case Transferred(from, to, value) =>
        (if to == a then value as int else 0) - (if from == a then value as int else 0)
      case _ => 0
  }

  lemma ReplayedOne(log: seq<Event>, e: Event, a: Address)
    ensures Replayed(log + [e], a) == Replayed(log, a) + match e
      case Transferred(from, to, value) =>
        (if to == a then value as int else 0) - (if from == a then value as int else 0)
      case _ => 0
  {
    assert (log + [e])[..|log|] == log;
  }

  ghost predicate Audited(s: State) {
    Backed(s) && forall a | a != ZERO :: At(s.balanceOf, a) == Replayed(s.log, a)
  }

  lemma MintedAudited(s: State, to: Address, value: uint256)
    requires Audited(s) && Minted(s, to, value).Ok?
    ensures Audited(Minted(s, to, value).value)
  {
    MintedExactly(s, to, value);
    forall a { ReplayedOne(s.log, Transferred(ZERO, to, value), a); }
  }

  lemma MovedLog(s: State, from: Address, to: Address, value: uint256)
    requires Moved(s, from, to, value).Ok?
    ensures Moved(s, from, to, value).value.log == s.log + [Transferred(from, to, value)]
  {
    hide Wrap;
  }

  lemma MovedAudited(s: State, from: Address, to: Address, value: uint256)
    requires Audited(s) && Moved(s, from, to, value).Ok?
    ensures Audited(Moved(s, from, to, value).value)
  {
    hide Wrap, Sum, Moved;
    MovedExactly(s, from, to, value);
    assert Moved(s, from, to, value).value.log == s.log + [Transferred(from, to, value)]
        by { MovedLog(s, from, to, value); }
    forall a { ReplayedOne(s.log, Transferred(from, to, value), a); }
  }

  lemma QuietAudited(s: State, t: State, e: Event)
    requires Audited(s) && !e.Transferred?
    requires t.balanceOf == s.balanceOf && t.totalSupply == s.totalSupply && t.log == s.log + [e]
    ensures Audited(t)
  {
    forall a { ReplayedOne(s.log, e, a); }
  }

  lemma DripAudited(s: State, to: Address, now: uint256)
    requires Audited(s) && DrippedTo(s, to, now).Ok?
    ensures Audited(DrippedTo(s, to, now).value)
  {
    var marked := s.(lastDrip := s.lastDrip[to := now]);
    MintedAudited(marked, to, DRIP_AMOUNT);
    QuietAudited(Minted(marked, to, DRIP_AMOUNT).value, DrippedTo(s, to, now).value, Dripped(to, DRIP_AMOUNT));
  }

  lemma StepAudited(s: State, m: Message)
    requires Audited(s) && Executed(s, m).Ok?
    ensures Audited(Executed(s, m).value)
  {
    var t := Executed(s, m).value;
    match m.call
    case Transfer(to, value) => MovedAudited(s, m.sender, to, value);
    case Approve(spender, value) => QuietAudited(s, t, Approval(m.sender, spender, value));
    case TransferFrom(from, to, value) =>
      var spent := s.(allowance := t.allowance);
      MovedAudited(spent, from, to, value);
    case Drip => DripAudited(s, m.sender, m.now);
    case DripTo(to) => DripAudited(s, to, m.now);
    case Mint(to, value) => MintedAudited(s, to, value);
    case TransferOwnership(newOwner) => QuietAudited(s, t, OwnerChanged(s.owner, newOwner));
  }

  lemma {:induction false} RunAudited(r: Run)
    requires Legal(r)
    ensures Audited(After(r))
  {
    match r
    case Deployed(supply, owner) =>
      MintedAudited(Blank(owner), owner, supply);
    case Then(prior, m) =>
      RunAudited(prior);
      if Succeeds(r) {
        StepAudited(After(prior), m);
      }
  }

  /** After every sequence of calls the balances sum to the supply, which fits a
      word, and each balance is what the Transfer log adds up to in unbounded
      integers: neither unchecked block ever wraps. */
  lemma SupplyConserved(r: Run, a: Address)
    requires Legal(r)
    ensures Sum(After(r).balanceOf) == After(r).totalSupply <= MAX_WORD
    ensures a != ZERO ==> At(After(r).balanceOf, a) == Replayed(After(r).log, a)
  {
    RunAudited(r);
  }

  /** The two subtractions and sums taken unchecked stay inside the word, whatever
      call comes next. */
  lemma UncheckedStaysInRange(r: Run, from: Address, to: Address, value: uint256)
    requires Legal(r)
    ensures Moved(After(r), from, to, value).Ok? ==>
              && 0 <= At(After(r).balanceOf, from) - value
              && (from != to ==> At(After(r).balanceOf, to) + value <= MAX_WORD)
    ensures Minted(After(r), to, value).Ok? ==> At(After(r).balanceOf, to) + value <= MAX_WORD
  {
    RunAudited(r);
    BalancesBounded(After(r), from, to);
    BalancesBounded(After(r), to, from);
  }

  /** What owners minted and how often the faucet paid. */
  function OwnerMinted(r: Run): int
    requires Legal(r)
  {
    match r
    case Deployed(supply, _) => supply
    case Then(prior, m) =>
      OwnerMinted(prior) + if m.call.Mint? && m.sender == After(prior).owner && Succeeds(r) then m.call.value else 0
  }

  function Pulls(r: Run): nat
    requires Legal(r)
  {
    match r
    case Deployed(_, _) => 0
    case Then(prior, m) => Pulls(prior) + if (m.call.Drip? || m.call.DripTo?) && Succeeds(r) then 1 else 0
  }

  /** Nothing else makes money: the supply is the initial one, what owners minted
      since, and one fixed amount for every pull from the faucet. */
  lemma {:induction false} SupplyAccounted(r: Run)
    requires Legal(r)
    ensures After(r).totalSupply == OwnerMinted(r) + Pulls(r) * DRIP_AMOUNT
  {
    match r
    case Deployed(_, _) =>
    case Then(prior, m) =>
      SupplyAccounted(prior);
      if Succeeds(r) {
        SupplyStep(After(prior), m);
      }
      assert (Pulls(prior) + 1) * DRIP_AMOUNT == Pulls(prior) * DRIP_AMOUNT + DRIP_AMOUNT;
  }

  lemma SupplyStep(s: State, m: Message)
    requires Executed(s, m).Ok?
    ensures Executed(s, m).value.totalSupply == s.totalSupply +
              match m.call
              case Mint(_, value) => value as int
              case Drip => DRIP_AMOUNT as int
              case DripTo(_) => DRIP_AMOUNT as int
              case _ => 0
    ensures m.call.Mint? ==> m.sender == s.owner
  {
    hide Wrap;
  }

  /* -------------------------------------------------------------- allowances */

  /** The value `holder` last approved for `spender`. */
  function LastApproved(r: Run, holder: Address, spender: Address): uint256 {
    match r
    case Deployed(_, _) => 0
    case Then(prior, m) =>
      if m.call.Approve? && m.sender == holder && m.call.spender == spender then m.call.value
      else LastApproved(prior, holder, spender)
  }

  /** What went through that approval since. */
  function SpentSince(r: Run, holder: Address, spender: Address): int
    requires Legal(r)
  {
    match r
    case Deployed(_, _) => 0
    case Then(prior, m) =>
      if m.call.Approve? && m.sender == holder && m.call.spender == spender then 0
      else if m.call.TransferFrom? && m.sender == spender && m.call.from == holder && Succeeds(r) then
        SpentSince(prior, holder, spender) + m.call.value
      else SpentSince(prior, holder, spender)
  }

  /** Only an approval or a successful transferFrom under it touches an allowance. */
  lemma AllowanceStep(s: State, m: Message, holder: Address, spender: Address)
    requires Executed(s, m).Ok?
    ensures var before, after := At(s.allowance, (holder, spender)), At(Executed(s, m).value.allowance, (holder,
              spender));
            if m.call.Approve? && m.sender == holder && m.call.spender == spender then after == m.call.value
            else if m.call.TransferFrom? && m.sender == spender && m.call.from == holder then
              if before == MAX_WORD then after == before else after == before - m.call.value
            else after == before
  {
    match m.call
    case Drip =>
    case DripTo(to) =>
    case Mint(to, value) =>
    case _ =>
  }

  /** A finite allowance and everything moved through it add up to the approved
      value; an infinite one is never drawn down. */
  lemma {:induction false} AllowanceAccounted(r: Run, holder: Address, spender: Address)
    requires Legal(r)
    ensures var approved := LastApproved(r, holder, spender);
            var left := At(After(r).allowance, (holder, spender));
            if approved == MAX_WORD then left == MAX_WORD
            else left + SpentSince(r, holder, spender) == approved && 0 <= SpentSince(r, holder, spender)
  {
    match r
    case Deployed(_, _) =>
    case Then(prior, m) =>
      AllowanceAccounted(prior, holder, spender);
      if Succeeds(r) {
        AllowanceStep(After(prior), m, holder, spender);
      }
  }

  /* ------------------------------------------------------------------ faucet */

  function DripTarget(m: Message): Option<Address> {
    match m.call
    case Drip => Some(m.sender)
    case DripTo(to) => Some(to)
    case _ => None
  }

  /** The timestamps of the drips that `a` received. */
  function DripTimes(r: Run, a: Address): seq<int>
    requires Legal(r)
  {
    match r
    case Deployed(_, _) => []
    case Then(prior, m) =>
      if DripTarget(m) == Some(a) && Succeeds(r) then DripTimes(prior, a) + [m.now] else DripTimes(prior, a)
  }

  /** Timestamps are positive and never go back. */
  predicate Ticking(r: Run) {
    r.Then? ==>
      && Ticking(r.prior)
      && r.message.now > 0
      && (r.prior.Then? ==> r.prior.message.now <= r.message.now)
  }

  lemma DripStep(s: State, m: Message, a: Address)
    requires Executed(s, m).Ok?
    ensures At(Executed(s, m).value.lastDrip, a) == if DripTarget(m) == Some(a) then m.now else At(s.lastDrip, a)
    ensures DripTarget(m) == Some(a) ==> Cooldown(s, a, m.now) == None
  {
    match m.call
    case Drip =>
    case DripTo(to) =>
    case _ =>
  }

  lemma {:induction false} LastDripIsLatest(r: Run, a: Address)
    requires Legal(r) && Ticking(r)
    ensures var t := DripTimes(r, a); At(After(r).lastDrip, a) == if t == [] then 0 else t[|t| - 1]
    ensures forall i | 0 <= i < |DripTimes(r, a)| :: DripTimes(r, a)[i] > 0
  {
    if r.Then? {
      LastDripIsLatest(r.prior, a);
      if Succeeds(r) {
        DripStep(After(r.prior), r.message, a);
      }
    }
  }

  /** Any two drips to one account are an hour apart for every drip between them, so
      `k` of them span at least `k - 1` hours. */
  lemma {:induction false} DripsAreSpaced(r: Run, a: Address, i: nat, j: nat)
    requires Legal(r) && Ticking(r) && i <= j < |DripTimes(r, a)|
    ensures DripTimes(r, a)[j] - DripTimes(r, a)[i] >= (j - i) * DRIP_COOLDOWN
  {
    var t := DripTimes(r, a);
    if DripTimes(r.prior, a) != t && j == |t| - 1 {
      LastDripIsLatest(r.prior, a);
      DripStep(After(r.prior), r.message, a);
      if i < j {
        DripsAreSpaced(r.prior, a, i, j - 1);
      }
    } else {
      DripsAreSpaced(r.prior, a, i, j);
    }
  }

  /** The cooldown check passes exactly when the announced wait is zero; the wait
      counts down second by second, and is what a refusal announces. */
  lemma WaitIsTheCooldown(s: State, a: Address, now: uint256, later: uint256)
    requires now <= later
    ensures Cooldown(s, a, now) == None <==> Wait(s, a, now) == Ok(0)
    ensures Wait(s, a, now).Ok? ==>
              var wait := Wait(s, a, now).value;
              && Wait(s, a, later) == Ok(if wait > later - now then wait - (later - now) else 0)
              && (wait > 0 ==> Cooldown(s, a, now) == Some(DripTooSoon(now + wait)))
    ensures Wait(s, a, now).Err? ==> Wait(s, a, later) == Wait(s, a, now) && Cooldown(s, a, later) == Some(Panic)
  {
  }

  /** Both calls to the faucet pay out exactly when the wait is zero and the supply
      has room. */
  lemma FaucetPays(s: State, m: Message, to: Address)
    requires DripTarget(m) == Some(to) && (m.call.DripTo? ==> to != ZERO)
    ensures Executed(s, m).Ok? <==> Wait(s, to, m.now) == Ok(0) && s.totalSupply + DRIP_AMOUNT <= MAX_WORD
  {
  }

  /* ------------------------------------------------------ what one call does */

  /** `value` has left one account and reached another, and no third balance moved;
      money that is made leaves nobody. */
  ghost predicate Shifted(s: State, t: State, from: Option<Address>, to: Address, value: int) {
    forall a :: At(t.balanceOf, a) ==
      At(s.balanceOf, a) - (if from == Some(a) then value else 0) + (if a == to then value else 0)
  }

  lemma MovedShifts(s: State, from: Address, to: Address, value: uint256)
    requires Backed(s) && Moved(s, from, to, value).Ok?
    ensures var t := Moved(s, from, to, value).value;
            && Shifted(s, t, Some(from), to, value)
            && t.totalSupply == s.totalSupply && t.owner == s.owner && t.allowance == s.allowance
  {
    MovedExactly(s, from, to, value);
  }

  lemma MintedShifts(s: State, to: Address, value: uint256)
    requires Backed(s) && Minted(s, to, value).Ok?
    ensures var t := Minted(s, to, value).value;
            && Shifted(s, t, None, to, value)
            && t.totalSupply == s.totalSupply + value && t.owner == s.owner
  {
    MintedExactly(s, to, value);
  }

  lemma DrippedShifts(s: State, to: Address, now: uint256)
    requires Backed(s) && DrippedTo(s, to, now).Ok?
    ensures var t := DrippedTo(s, to, now).value;
            && Shifted(s, t, None, to, 10_000_000_000)
            && t.totalSupply == s.totalSupply + 10_000_000_000 && t.owner == s.owner
  {
    MintedShifts(s.(lastDrip := s.lastDrip[to := now]), to, DRIP_AMOUNT);
  }

  /** A call that goes through, after any history: a transfer takes its value from its
      sender, a transferFrom from the holder whoever sends it; a mint credits the
      account it names, the faucet the caller or the account named, with ten thousand
      tokens; only a transfer of ownership changes the owner, to the one it names. */
  lemma CallTakesEffect(r: Run, m: Message)
    requires Legal(r) && Executed(After(r), m).Ok?
    ensures var s, t := After(r), Executed(After(r), m).value;
            && (match m.call
                case Transfer(to, value) => Shifted(s, t, Some(m.sender), to, value)
                case TransferFrom(from, to, value) => Shifted(s, t, Some(from), to, value)
                case Mint(to, value) => Shifted(s, t, None, to, value)
                case Drip => Shifted(s, t, None, m.sender, 10_000_000_000)
                case DripTo(to) => Shifted(s, t, None, to, 10_000_000_000)
                case _ => forall a :: At(t.balanceOf, a) == At(s.balanceOf, a))
            && t.owner == (if m.call.TransferOwnership? then m.call.newOwner else s.owner)
  {
    hide Moved, Minted, DrippedTo, Shifted;
    var s := After(r);
    RunAudited(r);
    match m.call
    case Transfer(to, value) => MovedShifts(s, m.sender, to, value);
    case TransferFrom(from, to, value) => SpentShifts(s, m.sender, from, to, value);
    case Drip => DrippedShifts(s, m.sender, m.now);
    case DripTo(to) => DrippedShifts(s, to, m.now);
    case Mint(to, value) => MintedShifts(s, to, value);
    case _ =>
  }

  lemma SpentShifts(s: State, sender: Address, from: Address, to: Address, value: uint256)
    requires Backed(s) && SpentFrom(s, sender, from, to, value).Ok?
    ensures var t := SpentFrom(s, sender, from, to, value).value;
            Shifted(s, t, Some(from), to, value) && t.owner == s.owner
  {
    hide Moved, Shifted;
    var allowed := At(s.allowance, (from, sender));
    if allowed == MAX_WORD {
      MovedShifts(s, from, to, value);
    } else {
      var drawn := s.(allowance := s.allowance[(from, sender) := allowed - value]);
      MovedShifts(drawn, from, to, value);
      SameBalancesShift(s, drawn, SpentFrom(s, sender, from, to, value).value, from, to, value);
    }
  }

  lemma SameBalancesShift(s: State, u: State, t: State, from: Address, to: Address, value: int)
    requires u.balanceOf == s.balanceOf && Shifted(u, t, Some(from), to, value)
    ensures Shifted(s, t, Some(from), to, value)
  {
  }

  /** Exactly when a call goes through. */
  lemma CallSucceedsExactly(r: Run, m: Message)
    requires Legal(r)
    ensures var s := After(r);
            Executed(s, m).Ok? <==>
            match m.call
            case Transfer(to, value) => to != ZERO && At(s.balanceOf, m.sender) >= value
            case Approve(_, _) => true
            case TransferFrom(from, to, value) =>
              && to != ZERO && At(s.balanceOf, from) >= value
              && (At(s.allowance, (from, m.sender)) == MAX_WORD || At(s.allowance, (from, m.sender)) >= value)
            case Mint(to, value) => m.sender == s.owner && to != ZERO && s.totalSupply + value <= MAX_WORD
            case Drip => RestedFor(s, m.sender, m.now) && s.totalSupply + 10_000_000_000 <= MAX_WORD
            case DripTo(to) => to != ZERO && RestedFor(s, to, m.now) && s.totalSupply + 10_000_000_000 <= MAX_WORD
            case TransferOwnership(newOwner) => m.sender == s.owner && newOwner != ZERO
  {
  }

  /** An hour since the account's last pull, if it ever pulled. */
  ghost predicate RestedFor(s: State, a: Address, now: int) {
    At(s.lastDrip, a) == 0 || At(s.lastDrip, a) + 3600 <= now
  }

  /** A refusal tells the truth. */
  lemma RefusalIsTrue(r: Run, m: Message)
    requires Legal(r) && Executed(After(r), m).Err?
    ensures var s := After(r);
            match Executed(s, m).error
            case NotOwner => (m.call.Mint? || m.call.TransferOwnership?) && m.sender != s.owner
            case ZeroAddress =>
              (match m.call
               case Transfer(to, _) => to == ZERO
               case TransferFrom(_, to, _) => to == ZERO
               case DripTo(to) => to == ZERO
               case Mint(to, _) => to == ZERO
               case TransferOwnership(newOwner) => newOwner == ZERO
               case _ => false)
            case InsufficientBalance =>
              (match m.call
               case Transfer(_, value) => At(s.balanceOf, m.sender) < value
               case TransferFrom(from, _, value) => At(s.balanceOf, from) < value
               case _ => false)
            case InsufficientAllowance =>
              m.call.TransferFrom? && At(s.allowance, (m.call.from, m.sender)) < m.call.value
            case DripTooSoon(at) =>
              DripTarget(m).Some? && At(s.lastDrip, DripTarget(m).value) > 0
              && at == At(s.lastDrip, DripTarget(m).value) + 3600 && m.now < at
            case Panic =>
              || (m.call.Mint? && s.totalSupply + m.call.value > MAX_WORD)
              || (DripTarget(m).Some? && (s.totalSupply + 10_000_000_000 > MAX_WORD
                  || At(s.lastDrip, DripTarget(m).value) + 3600 > MAX_WORD))
  {
    hide Wrap;
  }

  /** Nobody's balance falls but by their own transfer, or by somebody's transferFrom
      within what they allowed that somebody. */
  lemma OnlyConsentDebits(r: Run, m: Message, a: Address)
    requires Legal(r) && Executed(After(r), m).Ok?
    requires At(Executed(After(r), m).value.balanceOf, a) < At(After(r).balanceOf, a)
    ensures || (m.call.Transfer? && m.sender == a)
            || (m.call.TransferFrom? && m.call.from == a && At(After(r).allowance, (a, m.sender)) >= m.call.value > 0)
  {
    hide Executed;
    CallTakesEffect(r, m);
    CallSucceedsExactly(r, m);
  }

  /** A deployment gives the whole initial supply to the owner it names, and nothing
      else to anybody. */
  lemma DeployedState(supply: uint256, owner: Address)
    requires owner != ZERO
    ensures var s := After(Deployed(supply, owner));
            && s.owner == owner && s.totalSupply == supply
            && (forall a :: At(s.balanceOf, a) == if a == owner then supply else 0)
            && (forall p :: At(s.allowance, p) == 0) && (forall a :: At(s.lastDrip, a) == 0)
  {
  }

  /** Every successful call announces what it did, in one event or, for the faucet, two. */
  lemma CallIsLogged(r: Run, m: Message)
    requires Legal(r) && Executed(After(r), m).Ok?
    ensures var s, t := After(r), Executed(After(r), m).value;
            t.log == s.log +
            match m.call
            case Transfer(to, value) => [Transferred(m.sender, to, value)]
            case Approve(spender, value) => [Approval(m.sender, spender, value)]
            case TransferFrom(from, to, value) => [Transferred(from, to, value)]
            case Mint(to, value) => [Transferred(ZERO, to, value)]
            case Drip => [Transferred(ZERO, m.sender, 10_000_000_000), Dripped(m.sender, 10_000_000_000)]
            case DripTo(to) => [Transferred(ZERO, to, 10_000_000_000), Dripped(to, 10_000_000_000)]
            case TransferOwnership(newOwner) => [OwnerChanged(s.owner, newOwner)]
  {
    hide Wrap, Cooldown;
  }
}
