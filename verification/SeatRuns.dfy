/** The roster over whole runs. A sign-in looks its identity up first and claims
    afterwards, with any other statement in between. */
module SeatRuns {
  import opened Domain
  import opened StringOrder
  import opened Seats

  /** A sign-in whose lookup found no seat and whose claim is still to come. */
  datatype SignIn = SignIn(privy: string, email: string, wallet: Option<string>)

  datatype State = State(now: int, seats: Roster, signing: map<nat, SignIn>)

  /** Statements that change a row take effect whole. Refused invitations, syncs and
      removals change nothing and are not steps. */
  datatype Step =
    | Tick(t: int)
    | Invite(id: Id, org: Id, email: string, role: Role)
    | Sync(id: Id, org: Id, email: string, role: Role)
    | LookUp(call: nat, who: SignIn)
    | Claim(call: nat, id: Id)
    | Refuse(call: nat)
    | SetRole(id: Id, role: Role)
    | SetWallet(id: Id, address: string)
    | Remove(id: Id)

  ghost predicate Seatless(t: Roster, privy: string) {
    forall i :: !HeldBy(t, i, privy)
  }

  ghost predicate NoVacancy(t: Roster, email: string) {
    forall i :: !Vacant(t, i, email)
  }

  ghost predicate Enabled(s: State, a: Step) {
    match a
    case Tick(t) => s.now <= t
    case Invite(id, org, email, _) => id !in s.seats && forall i :: !OnRoster(s.seats, i, org, Lower(email))
    case Sync(id, org, email, _) => id !in s.seats && forall i :: !OnRoster(s.seats, i, org, email)
    case LookUp(call, who) => call !in s.signing && who.email != "" && Seatless(s.seats, who.privy)
    case Claim(call, id) =>
      call in s.signing && BestVacant(s.seats, id, s.signing[call].email) && Seatless(s.seats, s.signing[call].privy)
    case Refuse(call) =>
      call in s.signing && (NoVacancy(s.seats, s.signing[call].email) || !Seatless(s.seats, s.signing[call].privy))
    case SetRole(id, _) => id in s.seats
    case SetWallet(id, _) => id in s.seats
    case Remove(id) => id in s.seats
  }

  ghost function Apply(s: State, a: Step): State
    requires Enabled(s, a)
  {
    match a
    case Tick(t) => s.(now := t)
    case Invite(id, org, email, role) => s.(seats := Invited(s.seats, s.now, id, org, Lower(email), role))
    case Sync(id, org, email, role) => s.(seats := Invited(s.seats, s.now, id, org, email, role))
    case LookUp(call, who) => s.(signing := s.signing[call := who])
    case Claim(call, id) =>
      var who := s.signing[call];
      s.(seats := ClaimedSeat(s.seats, id, who.privy, who.wallet), signing := s.signing - {call})
    case Refuse(call) => s.(signing := s.signing - {call})
    case SetRole(id, role) => s.(seats := s.seats[id := s.seats[id].(role := role)])
    case SetWallet(id, address) => s.(seats := s.seats[id := s.seats[id].(wallet := Some(address))])
    case Remove(id) => s.(seats := s.seats - {id})
  }

  datatype Run = Start | Then(prior: Run, step: Step)

  ghost predicate Legal(r: Run)
    decreases r, 0
  {
    r.Then? ==> Legal(r.prior) && Enabled(After(r.prior), r.step)
  }

  ghost function After(r: Run): State
    requires Legal(r)
    decreases r, 1
  {
    if r.Start? then State(0, map[], map[]) else Apply(After(r.prior), r.step)
  }

  /** `r` continues `q` without ever removing `id`. */
  ghost predicate Keeps(q: Run, r: Run, id: Id) {
    q == r || (r.Then? && r.step != Remove(id) && Keeps(q, r.prior, id))
  }

  /* ----------------------------------------------------------------- holders */

  /** No identity holds two seats, on any roster, however sign-ins interleave. */
  lemma {:induction false} OneSeatEach(r: Run, i: Id, j: Id)
    requires Legal(r) && i in After(r).seats && j in After(r).seats
    requires After(r).seats[i].privy.Some? && After(r).seats[i].privy == After(r).seats[j].privy
    ensures i == j
  {
    var before := After(r.prior).seats;
    if i in before && j in before && before[i].privy == before[j].privy && before[i].privy.Some? {
      OneSeatEach(r.prior, i, j);
    } else if r.step.Claim? {
      assert forall k | k in before :: !HeldBy(before, k, After(r.prior).signing[r.step.call].privy);
    }
  }

  /** A held seat keeps its holder, its roster and its address until it is removed:
      nobody can take it over. */
  lemma {:induction false} HeldSeatStays(q: Run, r: Run, id: Id)
    requires Legal(r) && Keeps(q, r, id) && Legal(q)
    requires id in After(q).seats && After(q).seats[id].privy.Some?
    ensures var was, t := After(q).seats[id], After(r).seats;
            id in t && t[id].privy == was.privy && t[id].org == was.org && t[id].email == was.email
  {
    if q != r {
      HeldSeatStays(q, r.prior, id);
      if r.step.Claim? {
        assert Vacant(After(r.prior).seats, r.step.id, After(r.prior).signing[r.step.call].email);
      }
    }
  }

  /* ------------------------------------------------------ the index and sign-ins */

  /** The seats that other sign-ins took for the call's identity since its lookup
      and that are still on a roster. */
  ghost function TakenSince(r: Run, call: nat): set<Id>
    requires Legal(r)
  {
    if r.Start? then {}
    else
      var s, taken := After(r.prior), TakenSince(r.prior, call);
      match r.step
      case LookUp(c, _) => if c == call then {} else taken
      case Claim(c, id) =>
        if call in s.signing && s.signing[c].privy == s.signing[call].privy then taken + {id} else taken
      case Remove(id) => taken - {id}
      case _ => taken
  }

  lemma {:induction false} HeldMeansTakenSince(r: Run, call: nat, id: Id)
    requires Legal(r) && call in After(r).signing
    ensures HeldBy(After(r).seats, id, After(r).signing[call].privy) <==> id in TakenSince(r, call)
  {
    if !(r.step.LookUp? && r.step.call == call) {
      HeldMeansTakenSince(r.prior, call, id);
    }
  }

  /** The unique index refuses a sign-in's claim exactly when its identity came to
      hold a seat between its lookup and its claim, and the address has a vacancy
      left to be refused. */
  lemma IndexRefusesExactly(r: Run, call: nat)
    requires Legal(r) && call in After(r).signing
    ensures var s, who := After(r), After(r).signing[call];
            && (Enabled(s, Refuse(call)) <==> NoVacancy(s.seats, who.email) || TakenSince(r, call) != {})
            && (!Seatless(s.seats, who.privy) <==> TakenSince(r, call) != {})
  {
    forall id ensures HeldBy(After(r).seats, id, After(r).signing[call].privy) <==> id in TakenSince(r, call) {
      HeldMeansTakenSince(r, call, id);
    }
  }

  const ANN: SignIn := SignIn("did:ann", "ann@x", None)

  lemma LowerTwice(s: string)
    ensures Lower(Lower(s)) == Lower(s)
  {
    assert forall i | 0 <= i < |s| :: LowerChar(LowerChar(s[i])) == LowerChar(s[i]);
  }

  /** Two rosters with a seat for ann on each, and two of her sign-ins past their
      lookups. */
  lemma TwoSignIns() returns (r: Run)
    ensures Legal(r) && After(r).signing == map[0 := ANN, 1 := ANN]
    ensures After(r).seats == map["a" := Seat("here", Lower(ANN.email), RoleOwner, 0, None, None),
                                  "b" := Seat("there", Lower(ANN.email), RoleMember, 0, None, None)]
  {
    var r1 := Then(Start, Invite("a", "here", ANN.email, RoleOwner));
    var r2 := Then(r1, Invite("b", "there", ANN.email, RoleMember));
    assert "here" != "there" by { assert |"here"| != |"there"|; }
    assert Legal(r1) && Legal(r2);
    var r3 := Then(r2, LookUp(0, ANN));
    assert Legal(r3);
    r := Then(r3, LookUp(1, ANN));
    assert Legal(r);
  }

  /** It does happen: of two overlapping sign-ins of one identity the first takes a
      seat, and the second, with another vacancy before it, is refused. */
  lemma OverlappingSignInRefused()
    ensures exists r, call ::
              && Legal(r) && call in After(r).signing && Enabled(After(r), Refuse(call))
              && !NoVacancy(After(r).seats, After(r).signing[call].email) && TakenSince(r, call) != {}
  {
    var q := TwoSignIns();
    var t := After(q).seats;
    LowerTwice(ANN.email);
    LexTotal("a", "a");
    assert Vacant(t, "a", ANN.email) && Precedes(t, "a", "a") && Precedes(t, "a", "b");
    assert BestVacant(t, "a", ANN.email);
    var r := Then(q, Claim(0, "a"));
    assert Legal(r);
    assert Vacant(After(r).seats, "b", ANN.email) && HeldBy(After(r).seats, "a", ANN.privy);
    IndexRefusesExactly(r, 1);
  }

  /* --------------------------------------------------------------- addresses */

  /** Two seats on one roster whose addresses are the same to a sign-in. */
  ghost predicate Twins(t: Roster, i: Id, j: Id) {
    i in t && j in t && i != j && t[i].org == t[j].org && Lower(t[i].email) == Lower(t[j].email)
  }

  ghost predicate NeverTwins(r: Run)
    requires Legal(r)
  {
    && (forall i, j :: !Twins(After(r).seats, i, j))
    && (r.Then? ==> NeverTwins(r.prior))
  }

  /** Nobody on the roster answers to the address, in whatever case. */
  ghost predicate NewAddress(t: Roster, org: Id, email: string) {
    forall i | i in t :: t[i].org == org ==> Lower(t[i].email) != Lower(email)
  }

  /** Every sync inserts an address new to its roster up to case, and no invitation
      meets a row that differs from it only in case. */
  ghost predicate NewAddresses(r: Run)
    requires Legal(r)
  {
    r.Then? ==>
      && NewAddresses(r.prior)
      && (r.step.Invite? || r.step.Sync? ==> NewAddress(After(r.prior).seats, r.step.org, r.step.email))
  }

  lemma StepKeepsAddresses(s: State, a: Step, i: Id)
    requires Enabled(s, a) && i in Apply(s, a).seats
    ensures i in s.seats ==>
              Apply(s, a).seats[i].org == s.seats[i].org && Apply(s, a).seats[i].email == s.seats[i].email
    ensures i !in s.seats ==>
              && (a.Invite? || a.Sync?) && i == a.id && Apply(s, a).seats[i].org == a.org
              && Lower(Apply(s, a).seats[i].email) == Lower(a.email)
  {
    if a.Invite? {
      LowerTwice(a.email);
    }
  }

  lemma NewTwins(s: State, a: Step, i: Id, j: Id)
    requires Enabled(s, a) && Twins(Apply(s, a).seats, i, j) && !Twins(s.seats, i, j)
    ensures (a.Invite? || a.Sync?) && !NewAddress(s.seats, a.org, a.email)
  {
    StepKeepsAddresses(s, a, i);
    StepKeepsAddresses(s, a, j);
  }

  lemma OldAddressMakesTwins(s: State, a: Step)
    requires Enabled(s, a) && (a.Invite? || a.Sync?) && !NewAddress(s.seats, a.org, a.email)
    ensures exists i :: Twins(Apply(s, a).seats, i, a.id)
  {
    var i :| i in s.seats && s.seats[i].org == a.org && Lower(s.seats[i].email) == Lower(a.email);
    StepKeepsAddresses(s, a, i);
    StepKeepsAddresses(s, a, a.id);
    assert Twins(Apply(s, a).seats, i, a.id);
  }

  /** An address, as sign-ins match it, has at most one seat on a roster throughout
      exactly the runs that only ever add new addresses. */
  lemma {:induction false} AddressesUniqueIffNew(r: Run)
    requires Legal(r)
    ensures NeverTwins(r) <==> NewAddresses(r)
  {
    if r.Then? {
      AddressesUniqueIffNew(r.prior);
      var s := After(r.prior);
      if NewAddresses(r) {
        forall i, j ensures !Twins(After(r).seats, i, j) {
          if Twins(After(r).seats, i, j) {
            NewTwins(s, r.step, i, j);
          }
        }
      } else if NewAddresses(r.prior) {
        OldAddressMakesTwins(s, r.step);
        var i :| Twins(After(r).seats, i, r.step.id);
      }
    }
  }

  /** The unique index compares addresses as written, so there are other runs: a sync
      and an invitation put one address on one roster twice, both seats vacant to it. */
  lemma SyncAndInviteMakeTwins()
    ensures exists r ::
              && Legal(r) && Twins(After(r).seats, "a", "b")
              && Vacant(After(r).seats, "a", ANN.email) && Vacant(After(r).seats, "b", ANN.email)
  {
    var r1 := Then(Start, Sync("a", "here", "Ann@x", RoleOwner));
    assert Legal(r1);
    assert Lower("Ann@x") == "ann@x" == Lower("ann@x");
    assert "Ann@x"[0] != "ann@x"[0];
    var r := Then(r1, Invite("b", "here", ANN.email, RoleMember));
    assert Legal(r);
    assert Twins(After(r).seats, "a", "b");
  }
}
