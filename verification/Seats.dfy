/** Seats on the rosters, and how a signed-in person comes to hold one. */
module Seats {
  import opened Domain
  import opened StringOrder

  /** A row of the members table; `privy` is the identity holding the seat. */
  datatype Seat = Seat(org: Id, email: string, role: Role, createdAt: int, privy: Option<string>,
                       wallet: Option<string>)

  type Roster = map<Id, Seat>

  datatype SeatError = NotFound | AlreadyOnRoster | NoEmail | ConstraintViolated

  predicate Vacant(t: Roster, id: Id, email: string) {
    id in t && Lower(t[id].email) == Lower(email) && t[id].privy.None?
  }

  predicate HeldBy(t: Roster, id: Id, privy: string) {
    id in t && t[id].privy == Some(privy)
  }

  predicate OnRoster(t: Roster, id: Id, org: Id, email: string) {
    id in t && t[id].org == org && t[id].email == email
  }

  function Rank(role: Role): int {
    match role
    case RoleOwner => 0
    case RoleApprover => 1
    case _ => 2
  }

  /** ORDER BY role rank, created_at, id. */
  predicate Precedes(t: Roster, i: Id, j: Id)
    requires i in t && j in t
  {
    var a, b := t[i], t[j];
    || Rank(a.role) < Rank(b.role)
    || (Rank(a.role) == Rank(b.role)
        && (a.createdAt < b.createdAt || (a.createdAt == b.createdAt && LexLe(i, j))))
  }

  /** The seat a claim takes. */
  ghost predicate BestVacant(t: Roster, id: Id, email: string) {
    Vacant(t, id, email) && forall other | Vacant(t, other, email) :: Precedes(t, id, other)
  }

  lemma PrecedesTransitive(t: Roster, i: Id, j: Id, k: Id)
    requires i in t && j in t && k in t && Precedes(t, i, j) && Precedes(t, j, k)
    ensures Precedes(t, i, k)
  {
    if LexLe(i, j) && LexLe(j, k) {
      LexTransitive(i, j, k);
    }
  }

  /** The order leaves no tie, so the claimed seat is determined by the table. */
  lemma BestVacantUnique(t: Roster, i: Id, j: Id, email: string)
    requires BestVacant(t, i, email) && BestVacant(t, j, email)
    ensures i == j
  {
    assert Precedes(t, i, j) && Precedes(t, j, i);
    LexAntisymmetric(i, j);
  }

  ghost predicate Plain(role: Role) {
    role != RoleOwner && role != RoleApprover
  }

  /** An owner's seat goes before any other, an approver's before the remaining roles;
      among equals the older one, and of two of one instant the lesser id. */
  lemma MostPrivilegedSeatWins(t: Roster, email: string, id: Id, other: Id)
    requires BestVacant(t, id, email) && Vacant(t, other, email)
    ensures var a, b := t[id], t[other];
            || (a.role == RoleOwner && b.role != RoleOwner)
            || (a.role == RoleApprover && Plain(b.role))
            || (&& (a.role == b.role || (Plain(a.role) && Plain(b.role)))
                && (a.createdAt < b.createdAt || (a.createdAt == b.createdAt && LexLe(id, other))))
  {
    assert Precedes(t, id, other);
  }

  /* ------------------------------------------------------------ statements */

  function Invited(t: Roster, now: int, id: Id, org: Id, email: string, role: Role): Roster {
    t[id := Seat(org, email, role, now, None, None)]
  }

  function ClaimedSeat(t: Roster, id: Id, privy: string, wallet: Option<string>): Roster
    requires id in t
  {
    t[id := t[id].(privy := Some(privy), wallet := if wallet.Some? then wallet else t[id].wallet)]
  }

  /** The one seat has the holder, and the wallet where there is one; nothing else has
      changed. */
  ghost predicate OnlyHolder(s: Roster, t: Roster, id: Id, privy: string, wallet: Option<string>) {
    && id in s && id in t && t == s[id := t[id]]
    && t[id].privy == Some(privy) && t[id].wallet == (if wallet.Some? then wallet else s[id].wallet)
    && t[id].org == s[id].org && t[id].email == s[id].email && t[id].role == s[id].role
    && t[id].createdAt == s[id].createdAt
  }

  class MemberTable {
    var seats: Roster
    var now: int

    constructor ()
      ensures seats == map[]
    {
      seats, now := map[], 0;
    }

    /** Whether some row answers to a key. */
    method EmailTaken(org: Id, email: string) returns (taken: bool)
      ensures taken <==> exists i :: OnRoster(seats, i, org, email)
    {
      var rest := seats.Keys;
      while rest != {}
        invariant rest <= seats.Keys
        invariant forall i | i in seats.Keys - rest :: !OnRoster(seats, i, org, email)
      {
        var i :| i in rest;
        if OnRoster(seats, i, org, email) {
          return true;
        }
        rest := rest - {i};
      }
      return false;
    }

    method MemberByPrivyID(privy: string) returns (holder: Option<Id>)
      ensures holder.Some? ==> HeldBy(seats, holder.value, privy)
      ensures holder.None? ==> forall i :: !HeldBy(seats, i, privy)
    {
      var rest := seats.Keys;
      while rest != {}
        invariant rest <= seats.Keys
        invariant forall i | i in seats.Keys - rest :: !HeldBy(seats, i, privy)
      {
        var i :| i in rest;
        if HeldBy(seats, i, privy) {
          return Some(i);
        }
        rest := rest - {i};
      }
      return None;
    }

    method InviteMember(id: Id, org: Id, email: string, role: Role) returns (err: Option<SeatError>)
      modifies this`seats
      ensures err == None ==>
                && id !in old(seats) && (forall i :: !OnRoster(old(seats), i, org, Lower(email)))
                && seats == Invited(old(seats), now, id, org, Lower(email), role)
                && seats == old(seats)[id := Seat(org, Lower(email), role, now, None, None)]
      ensures err == Some(AlreadyOnRoster) <==> exists i :: OnRoster(old(seats), i, org, Lower(email))
      ensures err != None ==> seats == old(seats) && (err == Some(AlreadyOnRoster) || id in old(seats))
    {
      var taken := EmailTaken(org, Lower(email));
      if taken {
        return Some(AlreadyOnRoster);
      }
      if id in seats {
        return Some(ConstraintViolated);
      }
      seats := Invited(seats, now, id, org, Lower(email), role);
      err := None;
    }

    /** The seat row the claim locks. */
    method PickSeat(email: string) returns (pick: Option<Id>)
      ensures pick.Some? ==> BestVacant(seats, pick.value, email)
      ensures pick.None? ==> forall i :: !Vacant(seats, i, email)
    {
      pick := None;
      var rest := seats.Keys;
      while rest != {}
        invariant rest <= seats.Keys
        invariant pick.Some? ==> Vacant(seats, pick.value, email)
        invariant forall i | i in seats.Keys - rest && Vacant(seats, i, email) ::
                    pick.Some? && Precedes(seats, pick.value, i)
      {
        var i :| i in rest;
        LexTotal(i, i);
        if Vacant(seats, i, email) {
          if pick.None? {
            pick := Some(i);
          } else if !Precedes(seats, pick.value, i) {
            LexTotal(i, pick.value);
            forall k | k in seats.Keys - rest && Vacant(seats, k, email) ensures Precedes(seats, i, k) {
              PrecedesTransitive(seats, i, pick.value, k);
            }
            pick := Some(i);
          }
        }
        rest := rest - {i};
      }
    }

    /** Takes the best vacant seat for the address, unless the identity holds a seat
        already: the unique index refuses a second one. */
    method ClaimMemberSeat(email: string, privy: string, wallet: Option<string>) returns (r: Result<Id, SeatError>)
      modifies this`seats
      ensures r.Ok? ==>
                && BestVacant(old(seats), r.value, email)
                && (forall i :: !HeldBy(old(seats), i, privy))
                && seats == ClaimedSeat(old(seats), r.value, privy, wallet)
                && OnlyHolder(old(seats), seats, r.value, privy, wallet)
      ensures r.Err? ==> seats == old(seats) && r.error in {NotFound, ConstraintViolated}
      ensures r == Err(NotFound) <==> forall i :: !Vacant(old(seats), i, email)
      ensures r == Err(ConstraintViolated) <==>
                (exists i :: Vacant(old(seats), i, email)) && exists i :: HeldBy(old(seats), i, privy)
    {
      var pick := PickSeat(email);
      if pick.None? {
        return Err(NotFound);
      }
      assert Vacant(seats, pick.value, email);
      var holder := MemberByPrivyID(privy);
      if holder.Some? {
        return Err(ConstraintViolated);
      }
      seats := ClaimedSeat(seats, pick.value, privy, wallet);
      r := Ok(pick.value);
    }

    /** `referenced` says whether some invoice or approval still names the member. */
    method RemoveMember(org: Id, id: Id, referenced: bool) returns (err: Option<SeatError>)
      modifies this`seats
      ensures err == None <==> id in old(seats) && old(seats)[id].org == org && !referenced
      ensures seats == if err == None then old(seats) - {id} else old(seats)
    {
      if id !in seats || seats[id].org != org {
        return Some(NotFound);
      }
      if referenced {
        return Some(ConstraintViolated);
      }
      seats := seats - {id};
      err := None;
    }

    /** Signing in when nothing runs between its lookup and its claim: whoever holds
        a seat gets that one, and anybody else claims one by the address their
        identity provider vouches for. */
    method AuthSync(privy: string, email: string, wallet: Option<string>) returns (r: Result<Id, SeatError>)
      modifies this`seats
      ensures (exists i :: HeldBy(old(seats), i, privy)) ==>
                seats == old(seats) && r.Ok? && HeldBy(seats, r.value, privy)
      ensures (forall i :: !HeldBy(old(seats), i, privy)) ==>
                if email == "" then r == Err(NoEmail) && seats == old(seats)
                else if r.Ok? then BestVacant(old(seats), r.value, email)
                  && seats == ClaimedSeat(old(seats), r.value, privy, wallet)
                else r == Err(NotFound) && seats == old(seats) && forall i :: !Vacant(old(seats), i, email)
    {
      var holder := MemberByPrivyID(privy);
      if holder.Some? {
        return Ok(holder.value);
      }
      if email == "" {
        return Err(NoEmail);
      }
      r := ClaimMemberSeat(email, privy, wallet);
    }
  }
}
