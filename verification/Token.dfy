/** The QUSD contract: its storage, its calls and how they revert.

    Words are 256 bits. Arithmetic outside an `unchecked` block panics when it
    leaves the word; inside one it wraps. */
module Token {
  import opened Domain

  const WORD: int := 0x1_0000000000000000_0000000000000000_0000000000000000_0000000000000000
  const MAX_WORD: int := WORD - 1

  type uint256 = n: int | 0 <= n < WORD

  type Address = nat

  const ZERO: Address := 0

  const DRIP_AMOUNT: uint256 := 10_000 * 1_000_000
  const DRIP_COOLDOWN: uint256 := 3600

  datatype Error =
    | NotOwner
    | DripTooSoon(availableAt: int)
    | InsufficientBalance
    | InsufficientAllowance
    | ZeroAddress
    | Panic

  datatype Event =
    | Transferred(from: Address, to: Address, value: uint256)
    | Approval(holder: Address, spender: Address, value: uint256)
    | Dripped(to: Address, value: uint256)
    | OwnerChanged(from: Address, to: Address)

  /** `log` is what the contract has emitted. */
  datatype State = State(
    totalSupply: uint256,
    balanceOf: map<Address, uint256>,
    allowance: map<(Address, Address), uint256>,
    lastDrip: map<Address, uint256>,
    owner: Address,
    log: seq<Event>)

  /** A mapping reads zero where nothing was written. */
  function At<K>(m: map<K, uint256>, k: K): uint256 {
    if k in m then m[k] else 0
  }

  function Wrap(n: int): uint256 {
    n % WORD
  }

  /* -------------------------------------------------------------- internal */

  function Moved(s: State, from: Address, to: Address, value: uint256): Result<State, Error> {
    var bal := At(s.balanceOf, from);
    if to == ZERO then Err(ZeroAddress)
    else if bal < value then Err(InsufficientBalance)
    else
      var debited := s.balanceOf[from := Wrap(bal - value)];
      Ok(s.(balanceOf := debited[to := Wrap(At(debited, to) + value)],
            log := s.log + [Transferred(from, to, value)]))
  }

  function Minted(s: State, to: Address, value: uint256): Result<State, Error> {
    if s.totalSupply + value > MAX_WORD then Err(Panic)
    else
      Ok(s.(totalSupply := s.totalSupply + value,
            balanceOf := s.balanceOf[to := Wrap(At(s.balanceOf, to) + value)],
            log := s.log + [Transferred(ZERO, to, value)]))
  }

  /** The cooldown check of a drip at `now`. */
  function Cooldown(s: State, to: Address, now: uint256): Option<Error> {
    var last := At(s.lastDrip, to);
    if last == 0 then None
    else if last + DRIP_COOLDOWN > MAX_WORD then Some(Panic)
    else if now < last + DRIP_COOLDOWN then Some(DripTooSoon(last + DRIP_COOLDOWN))
    else None
  }

  function DrippedTo(s: State, to: Address, now: uint256): Result<State, Error> {
    if Cooldown(s, to, now).Some? then Err(Cooldown(s, to, now).value)
    else
      match Minted(s.(lastDrip := s.lastDrip[to := now]), to, DRIP_AMOUNT)
      case Ok(t) => Ok(t.(log := t.log + [Dripped(to, DRIP_AMOUNT)]))
      case Err(e) => Err(e)
  }

  /** Seconds until `account` may pull again. */
  function Wait(s: State, account: Address, now: uint256): Result<uint256, Error> {
    var last := At(s.lastDrip, account);
    if last == 0 then Ok(0)
    else if last + DRIP_COOLDOWN > MAX_WORD then Err(Panic)
    else Ok(if now >= last + DRIP_COOLDOWN then 0 else last + DRIP_COOLDOWN - now)
  }

  /* ----------------------------------------------------------------- calls */

  datatype Call =
    | Transfer(to: Address, value: uint256)
    | Approve(spender: Address, value: uint256)
    | TransferFrom(from: Address, to: Address, value: uint256)
    | Drip
    | DripTo(to: Address)
    | Mint(to: Address, value: uint256)
    | TransferOwnership(newOwner: Address)

  /** A call with its sender and its block's timestamp. */
  datatype Message = Message(sender: Address, now: uint256, call: Call)

  function SpentFrom(s: State, sender: Address, from: Address, to: Address, value: uint256): Result<State, Error> {
    var allowed := At(s.allowance, (from, sender));
    if allowed == MAX_WORD then Moved(s, from, to, value)
    else if allowed < value then Err(InsufficientAllowance)
    else Moved(s.(allowance := s.allowance[(from, sender) := allowed - value]), from, to, value)
  }

  function Executed(s: State, m: Message): Result<State, Error> {
    match m.call
    case Transfer(to, value) => Moved(s, m.sender, to, value)
    case Approve(spender, value) =>
      Ok(s.(allowance := s.allowance[(m.sender, spender) := value],
            log := s.log + [Approval(m.sender, spender, value)]))
    case TransferFrom(from, to, value) => SpentFrom(s, m.sender, from, to, value)
    case Drip => DrippedTo(s, m.sender, m.now)
    case DripTo(to) => if to == ZERO then Err(ZeroAddress) else DrippedTo(s, to, m.now)
    case Mint(to, value) =>
      if m.sender != s.owner then Err(NotOwner)
      else if to == ZERO then Err(ZeroAddress)
      else Minted(s, to, value)
    case TransferOwnership(newOwner) =>
      if m.sender != s.owner then Err(NotOwner)
      else if newOwner == ZERO then Err(ZeroAddress)
      else Ok(s.(owner := newOwner, log := s.log + [OwnerChanged(s.owner, newOwner)]))
  }

  function Blank(owner: Address): State {
    State(0, map[], map[], map[], owner, [])
  }

  function DeployedWith(initialSupply: uint256, initialOwner: Address): Result<State, Error> {
    if initialOwner == ZERO then Err(ZeroAddress) else Minted(Blank(initialOwner), initialOwner, initialSupply)
  }

  /* -------------------------------------------------------------- contract */

  class QuorlyUSD {
    var totalSupply: uint256
    var balanceOf: map<Address, uint256>
    var allowance: map<(Address, Address), uint256>
    var lastDrip: map<Address, uint256>
    var owner: Address
    var log: seq<Event>

    function Storage(): State
      reads this
    {
      State(totalSupply, balanceOf, allowance, lastDrip, owner, log)
    }

    constructor (owner: Address)
      ensures Storage() == Blank(owner)
    {
      totalSupply, balanceOf, allowance, lastDrip := 0, map[], map[], map[];
      this.owner, log := owner, [];
    }

    static method Deploy(initialSupply: uint256, initialOwner: Address) returns (r: Result<QuorlyUSD, Error>)
      ensures match DeployedWith(initialSupply, initialOwner)
              case Ok(s) => r.Ok? && fresh(r.value) && r.value.Storage() == s
              case Err(e) => r == Err(e)
    {
      if initialOwner == ZERO {
        return Err(ZeroAddress);
      }
      var token := new QuorlyUSD(initialOwner);
      var err := token.MintInternal(initialOwner, initialSupply);
      return Ok(token);
    }

    /** What a revert does: every write of the call is undone. */
    method Revert(before: State)
      modifies this
      ensures Storage() == before
    {
      totalSupply, balanceOf, allowance := before.totalSupply, before.balanceOf, before.allowance;
      lastDrip, owner, log := before.lastDrip, before.owner, before.log;
    }

    method TransferInternal(from: Address, to: Address, value: uint256) returns (err: Option<Error>)
      modifies this
      ensures match Moved(old(Storage()), from, to, value)
              case Ok(s) => err == None && Storage() == s
              case Err(e) => err == Some(e) && Storage() == old(Storage())
    {
      if to == ZERO {
        return Some(ZeroAddress);
      }
      var bal := At(balanceOf, from);
      if bal < value {
        return Some(InsufficientBalance);
      }
      balanceOf := balanceOf[from := Wrap(bal - value)];
      balanceOf := balanceOf[to := Wrap(At(balanceOf, to) + value)];
      log := log + [Transferred(from, to, value)];
      err := None;
    }

    method MintInternal(to: Address, value: uint256) returns (err: Option<Error>)
      modifies this
      ensures match Minted(old(Storage()), to, value)
              case Ok(s) => err == None && Storage() == s
              case Err(e) => err == Some(e) && Storage() == old(Storage())
    {
      if totalSupply + value > MAX_WORD {
        return Some(Panic);
      }
      totalSupply := totalSupply + value;
      balanceOf := balanceOf[to := Wrap(At(balanceOf, to) + value)];
      log := log + [Transferred(ZERO, to, value)];
      err := None;
    }

    method DripInternal(to: Address, now: uint256) returns (err: Option<Error>)
      modifies this
      ensures match DrippedTo(old(Storage()), to, now)
              case Ok(s) => err == None && Storage() == s
              case Err(e) => err == Some(e)
    {
      var last := At(lastDrip, to);
      if last != 0 {
        if last + DRIP_COOLDOWN > MAX_WORD {
          return Some(Panic);
        }
        if now < last + DRIP_COOLDOWN {
          return Some(DripTooSoon(last + DRIP_COOLDOWN));
        }
      }
      lastDrip := lastDrip[to := now];
      err := MintInternal(to, DRIP_AMOUNT);
      if err == None {
        log := log + [Dripped(to, DRIP_AMOUNT)];
      }
    }

    method SpendInternal(sender: Address, from: Address, to: Address, value: uint256) returns (err: Option<Error>)
      modifies this
      ensures match SpentFrom(old(Storage()), sender, from, to, value)
              case Ok(s) => err == None && Storage() == s
              case Err(e) => err == Some(e)
    {
      var allowed := At(allowance, (from, sender));
      if allowed != MAX_WORD {
        if allowed < value {
          return Some(InsufficientAllowance);
        }
        allowance := allowance[(from, sender) := allowed - value];
      }
      err := TransferInternal(from, to, value);
    }

    /** One external call: it takes effect whole or not at all. */
    method Execute(m: Message) returns (err: Option<Error>)
      modifies this
      ensures match Executed(old(Storage()), m)
              case Ok(s) => err == None && Storage() == s
              case Err(e) => err == Some(e) && Storage() == old(Storage())
    {
      var before := Storage();
      match m.call {
        case Transfer(to, value) =>
          err := TransferInternal(m.sender, to, value);
        case Approve(spender, value) =>
          allowance := allowance[(m.sender, spender) := value];
          log := log + [Approval(m.sender, spender, value)];
          err := None;
        case TransferFrom(from, to, value) =>
          err := SpendInternal(m.sender, from, to, value);
        case Drip =>
          err := DripInternal(m.sender, m.now);
        case DripTo(to) =>
          if to == ZERO {
            err := Some(ZeroAddress);
          } else {
            err := DripInternal(to, m.now);
          }
        case Mint(to, value) =>
          if m.sender != owner {
            err := Some(NotOwner);
          } else if to == ZERO {
            err := Some(ZeroAddress);
          } else {
            err := MintInternal(to, value);
          }
        case TransferOwnership(newOwner) =>
          if m.sender != owner {
            err := Some(NotOwner);
          } else if newOwner == ZERO {
            err := Some(ZeroAddress);
          } else {
            log := log + [OwnerChanged(owner, newOwner)];
            owner := newOwner;
            err := None;
          }
      }
      if err.Some? {
        Revert(before);
      }
    }

    method DripAvailableIn(account: Address, now: uint256) returns (wait: Result<uint256, Error>)
      ensures wait == Wait(Storage(), account, now)
    {
      var last := At(lastDrip, account);
      if last == 0 {
        return Ok(0);
      }
      if last + DRIP_COOLDOWN > MAX_WORD {
        return Err(Panic);
      }
      var ready := last + DRIP_COOLDOWN;
      return Ok(if now >= ready then 0 else ready - now);
    }
  }
}
