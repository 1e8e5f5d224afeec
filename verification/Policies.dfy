/** Who must approve an invoice, and the last check before a decision is recorded. */
module Policies {
  import opened Domain
  import opened Sorting

  datatype PolicyError = NoPolicy

  /* ---------------------------------------------------------------- select */

  function Active(policies: seq<Policy>): seq<Policy> {
    if policies == [] then []
    else (if policies[0].active then [policies[0]] else []) + Active(policies[1..])
  }

  /** The tier the rulebook means: among the active tiers the least ceiling that
      covers the amount, or the greatest ceiling when none does. */
  ghost predicate Selects(policies: seq<Policy>, amount: int, p: Policy) {
    && p in policies && p.active
    && (forall q | q in policies && q.active ::
          if amount <= p.maxAmount then amount <= q.maxAmount ==> p.maxAmount <= q.maxAmount
          else q.maxAmount <= p.maxAmount)
  }

  ghost predicate Ascending(a: seq<Policy>) {
    forall i, j | 0 <= i < j < |a| :: a[i].maxAmount <= a[j].maxAmount
  }

  lemma {:induction false} ActiveMembers(policies: seq<Policy>, p: Policy)
    ensures p in Active(policies) <==> p in policies && p.active
  {
    if policies != [] {
      ActiveMembers(policies[1..], p);
    }
  }

  lemma {:induction false} ActiveAppend(policies: seq<Policy>, p: Policy)
    ensures Active(policies + [p]) == Active(policies) + if p.active then [p] else []
  {
    if policies == [] {
      assert policies + [p] == [p];
    } else {
      ActiveAppend(policies[1..], p);
      assert (policies + [p])[1..] == policies[1..] + [p];
    }
  }

  /** Sorts by ceiling in place; equal ceilings keep no particular order. */
  method SortByCeiling(a: array<Policy>)
    modifies a
    ensures Ascending(a[..])
    ensures Permuted(a[..], old(a[..]))
  {
    var byCeiling := (p: Policy, q: Policy) => p.maxAmount <= q.maxAmount;
    Sort(a, byCeiling);
    assert forall i, j | 0 <= i < j < |a[..]| :: byCeiling(a[..][i], a[..][j]);
  }

  /** The first ceiling that covers the amount, or the last one. */
  method Scan(active: array<Policy>, amount: int) returns (p: Policy)
    requires active.Length > 0 && Ascending(active[..])
    ensures p in active[..]
    ensures forall q | q in active[..] ::
              if amount <= p.maxAmount then amount <= q.maxAmount ==> p.maxAmount <= q.maxAmount
              else q.maxAmount <= p.maxAmount
  {
    for i := 0 to active.Length
      invariant forall j | 0 <= j < i :: active[j].maxAmount < amount
    {
      if amount <= active[i].maxAmount {
        return active[i];
      }
    }
    return active[active.Length - 1];
  }

  method KeepActive(policies: seq<Policy>) returns (active: array<Policy>)
    ensures active[..] == Active(policies)
    ensures fresh(active)
  {
    var kept: seq<Policy> := [];
    for i := 0 to |policies|
      invariant kept == Active(policies[..i])
    {
      ActiveAppend(policies[..i], policies[i]);
      assert policies[..i + 1] == policies[..i] + [policies[i]];
      if policies[i].active {
        kept := kept + [policies[i]];
      }
    }
    assert policies[..|policies|] == policies;
    active := new Policy[|kept|](i requires 0 <= i < |kept| => kept[i]);
    assert active[..] == kept;
  }

  /** The cheapest covering tier, or the strictest one above every ceiling. */
  method Select(policies: seq<Policy>, amount: int) returns (r: Result<Policy, PolicyError>)
    ensures r.Ok? ==> Selects(policies, amount, r.value)
    ensures r.Err? <==> forall p | p in policies :: !p.active
  {
    var active := KeepActive(policies);
    forall p ensures p in Active(policies) <==> p in policies && p.active {
      ActiveMembers(policies, p);
    }
    if active.Length == 0 {
      return Err(NoPolicy);
    }
    assert active[0] in Active(policies);
    SortByCeiling(active);
    forall p ensures p in active[..] <==> p in Active(policies) {
      assert p in multiset(active[..]) <==> p in multiset(Active(policies));
    }
    var p := Scan(active, amount);
    return Ok(p);
  }

  /** A larger amount never lands on a lower ceiling. */
  lemma SelectMonotone(policies: seq<Policy>, amount: int, larger: int, p: Policy, q: Policy)
    requires amount <= larger && Selects(policies, amount, p) && Selects(policies, larger, q)
    ensures p.maxAmount <= q.maxAmount
  {
  }

  /** Tiers with rising ceilings split the amounts into bands: each serves those above
      the ceiling before it up to its own, and the last one everything beyond. */
  lemma BandsSelect(tiers: seq<Policy>, amount: int, k: nat)
    requires k < |tiers| && forall i | 0 <= i < |tiers| :: tiers[i].active
    requires forall i, j | 0 <= i < j < |tiers| :: tiers[i].maxAmount < tiers[j].maxAmount
    ensures Selects(tiers, amount, tiers[k]) <==>
            && (k > 0 ==> tiers[k - 1].maxAmount < amount)
            && (amount <= tiers[k].maxAmount || k == |tiers| - 1)
  {
    if k > 0 {
      assert tiers[k - 1] in tiers;
    }
    assert tiers[|tiers| - 1] in tiers;
  }

  ghost predicate DistinctCeilings(policies: seq<Policy>) {
    forall p, q | p in policies && q in policies && p.active && q.active && p.maxAmount == q.maxAmount :: p == q
  }

  /** With distinct active ceilings the tier depends on the set of tiers alone. */
  lemma SelectOrderFree(policies: seq<Policy>, shuffled: seq<Policy>, amount: int,
                                           p: Policy, q: Policy)
    requires multiset(policies) == multiset(shuffled) && DistinctCeilings(policies)
    requires Selects(policies, amount, p) && Selects(shuffled, amount, q)
    ensures p == q
  {
    forall x ensures x in policies <==> x in shuffled {
      assert x in multiset(policies) <==> x in multiset(shuffled);
    }
  }

  /* ----------------------------------------------------------------- route */

  datatype Routing = Routing(policy: Policy, required: int, eligible: seq<Member>)

  predicate MayApprove(p: Policy, submitter: Id, m: Member) {
    m.role in p.approverRoles && !(p.blockSelfApproval && m.id == submitter)
  }

  function Eligible(members: seq<Member>, p: Policy, submitter: Id): seq<Member> {
    if members == [] then []
    else (if MayApprove(p, submitter, members[0]) then [members[0]] else []) + Eligible(members[1..], p, submitter)
  }

  /** Never more approvals than there are people to give them, never fewer than one;
      a tier that wants at least everybody gets everybody. */
  function Quorum(wanted: int, available: nat): (required: int)
    ensures required >= 1
    ensures available > 0 ==> required <= available
    ensures 1 <= wanted <= available ==> required == wanted
    ensures wanted >= available > 0 ==> required == available
    ensures wanted < 1 ==> required == 1
    ensures available == 0 && wanted >= 1 ==> required == wanted
  {
    var capped := if available > 0 && wanted > available then available else wanted;
    if capped < 1 then 1 else capped
  }

  ghost predicate RoutesTo(inv: Invoice, policies: seq<Policy>, members: seq<Member>, d: Routing) {
    && Selects(policies, inv.amount, d.policy)
    && d.eligible == Eligible(members, d.policy, inv.submitter)
    && d.required == Quorum(d.policy.requiredApprovals, |d.eligible|)
  }

  lemma {:induction false} EligibleAppend(members: seq<Member>, p: Policy, submitter: Id, m: Member)
    ensures Eligible(members + [m], p, submitter) ==
            Eligible(members, p, submitter) + if MayApprove(p, submitter, m) then [m] else []
  {
    if members == [] {
      assert members + [m] == [m];
    } else {
      EligibleAppend(members[1..], p, submitter, m);
      assert (members + [m])[1..] == members[1..] + [m];
    }
  }

  lemma {:induction false} EligibleMembers(members: seq<Member>, p: Policy, submitter: Id, m: Member)
    ensures m in Eligible(members, p, submitter) <==> m in members && MayApprove(p, submitter, m)
  {
    if members != [] {
      EligibleMembers(members[1..], p, submitter, m);
    }
  }

  /** The list holds everybody in one of the tier's roles, as often as the roster does,
      except a submitter whose own approval the tier bars; and nobody else. */
  lemma {:induction false} EligibleCounts(members: seq<Member>, p: Policy, submitter: Id, m: Member)
    ensures multiset(Eligible(members, p, submitter))[m] ==
            if m.role in p.approverRoles && (p.blockSelfApproval ==> m.id != submitter) then multiset(members)[m] else 0
  {
    if members != [] {
      EligibleCounts(members[1..], p, submitter, m);
      var first := if MayApprove(p, submitter, members[0]) then [members[0]] else [];
      assert members == [members[0]] + members[1..];
      assert Eligible(members, p, submitter) == first + Eligible(members[1..], p, submitter);
    }
  }

  method Route(inv: Invoice, policies: seq<Policy>, members: seq<Member>) returns (r: Result<Routing, PolicyError>)
    ensures r.Ok? ==> RoutesTo(inv, policies, members, r.value)
    ensures r.Err? <==> forall p | p in policies :: !p.active
  {
    var selected := Select(policies, inv.amount);
    if selected.Err? {
      return Err(selected.error);
    }
    var p := selected.value;

    var roles: set<Role> := {};
    for i := 0 to |p.approverRoles|
      invariant forall x :: x in roles <==> x in p.approverRoles[..i]
    {
      roles := roles + {p.approverRoles[i]};
    }

    var eligible: seq<Member> := [];
    for i := 0 to |members|
      invariant eligible == Eligible(members[..i], p, inv.submitter)
    {
      var m := members[i];
      EligibleAppend(members[..i], p, inv.submitter, m);
      assert members[..i + 1] == members[..i] + [m];
      assert m.role in roles <==> m.role in p.approverRoles;
      if m.role !in roles {
        continue;
      }
      if p.blockSelfApproval && m.id == inv.submitter {
        continue;
      }
      eligible := eligible + [m];
    }
    assert members[..|members|] == members;

    var required := p.requiredApprovals;
    if |eligible| > 0 && required > |eligible| {
      required := |eligible|;
    }
    if required < 1 {
      required := 1;
    }
    return Ok(Routing(p, required, eligible));
  }

  /** With distinct active ceilings an invoice has one route. */
  lemma RouteUnique(inv: Invoice, policies: seq<Policy>, members: seq<Member>, d: Routing,
                                       e: Routing)
    requires DistinctCeilings(policies)
    requires RoutesTo(inv, policies, members, d) && RoutesTo(inv, policies, members, e)
    ensures d == e
  {
    SelectOrderFree(policies, policies, inv.amount, d.policy, e.policy);
  }

  /* ------------------------------------------------------------------ gate */

  datatype GateCode =
    | Allowed
    | SelfApproval
    | NotEligible
    | AlreadyDecided
    | AttestationRequired
    | AttestationStale

  predicate IsEligible(d: Routing, approver: Id) {
    exists m | m in d.eligible :: m.id == approver
  }

  /** Checks in order; the first that fails names the refusal. */
  function GateOf(d: Routing, approver: Id, submitter: Id, decided: bool, age: Option<int>): GateCode {
    if d.policy.blockSelfApproval && approver == submitter then SelfApproval
    else if !IsEligible(d, approver) then NotEligible
    else if decided then AlreadyDecided
    else if d.policy.requiredAttestation.Some? && age.None? then AttestationRequired
    else if d.policy.requiredAttestation.Some? && age.value > d.policy.attestationMaxAgeSec then AttestationStale
    else Allowed
  }

  method Gate(d: Routing, approver: Id, submitter: Id, decided: bool, age: Option<int>) returns (code: GateCode)
    ensures code == GateOf(d, approver, submitter, decided, age)
  {
    if d.policy.blockSelfApproval && approver == submitter {
      return SelfApproval;
    }

    var eligible := false;
    for i := 0 to |d.eligible|
      invariant !eligible
      invariant forall j | 0 <= j < i :: d.eligible[j].id != approver
    {
      if d.eligible[i].id == approver {
        eligible := true;
        break;
      }
    }
    if !eligible {
      return NotEligible;
    }

    if decided {
      return AlreadyDecided;
    }

    if d.policy.requiredAttestation.Some? {
      if age.None? {
        return AttestationRequired;
      }
      if age.value > d.policy.attestationMaxAgeSec {
        return AttestationStale;
      }
    }
    return Allowed;
  }

  /** Seated in one of the tier's roles, and not the submitter where the tier bars its
      own approval. */
  ghost predicate Listed(p: Policy, members: seq<Member>, submitter: Id, approver: Id) {
    && (exists m | m in members :: m.id == approver && m.role in p.approverRoles)
    && (p.blockSelfApproval ==> approver != submitter)
  }

  /** On a routed invoice the gate opens exactly for an approver the tier lists,
      who has not decided and, where the tier asks for one, has a fresh proof; the
      self-approval refusal is already implied by the list. */
  lemma GateOpens(inv: Invoice, policies: seq<Policy>, members: seq<Member>, d: Routing,
                  approver: Id, decided: bool, age: Option<int>)
    requires RoutesTo(inv, policies, members, d)
    ensures GateOf(d, approver, inv.submitter, decided, age) == Allowed <==>
            && Listed(d.policy, members, inv.submitter, approver)
            && !decided
            && (d.policy.requiredAttestation.Some? ==> age.Some? && age.value <= d.policy.attestationMaxAgeSec)
    ensures GateOf(d, approver, inv.submitter, decided, age) == AlreadyDecided <==>
            Listed(d.policy, members, inv.submitter, approver) && decided
    ensures GateOf(d, approver, inv.submitter, decided, age) == SelfApproval <==>
            d.policy.blockSelfApproval && approver == inv.submitter
  {
    forall m ensures m in d.eligible <==> m in members && MayApprove(d.policy, inv.submitter, m) {
      EligibleMembers(members, d.policy, inv.submitter, m);
    }
  }
}
