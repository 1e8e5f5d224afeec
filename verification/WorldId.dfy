/** Single-use challenges, banked proofs, and the signal that binds a proof to one
    invoice and one approver. */
module WorldId {
  import opened Domain

  const ALPHABET: string := "0123456789abcdefghjkmnpqrstvwxyz"

  /** An identifier from sixteen random bytes. */
  function NewId(prefix: string, random: seq<nat>): string {
    prefix + "_" + seq(|random|, i requires 0 <= i < |random| => ALPHABET[random[i] % |ALPHABET|])
  }

  ghost predicate ColonFree(s: string) {
    ':' !in s
  }

  lemma NewIdColonFree(prefix: string, random: seq<nat>)
    requires ColonFree(prefix)
    ensures ColonFree(NewId(prefix, random))
  {
    forall c | c in ALPHABET ensures c != ':' {}
  }

  lemma AlphabetRises()
    ensures |ALPHABET| == 32 && forall i, j | 0 <= i < j < 32 :: ALPHABET[i] < ALPHABET[j]
  {
  }

  /** The id is the prefix, an underscore and one character for each random byte, and
      tells any two bytes apart that differ in their last five bits. */
  lemma NewIdTellsBytes(prefix: string, random: seq<nat>, other: seq<nat>)
    ensures |NewId(prefix, random)| == |prefix| + 1 + |random| && prefix + "_" <= NewId(prefix, random)
    ensures NewId(prefix, random) == NewId(prefix, other) <==>
            |random| == |other| && forall i | 0 <= i < |random| :: random[i] % 32 == other[i] % 32
  {
    var a, b, n := NewId(prefix, random), NewId(prefix, other), |prefix| + 1;
    AlphabetRises();
    assert a[n..] == seq(|random|, i requires 0 <= i < |random| => ALPHABET[random[i] % 32]);
    assert b[n..] == seq(|other|, i requires 0 <= i < |other| => ALPHABET[other[i] % 32]);
    if a == b {
      forall i | 0 <= i < |random| ensures random[i] % 32 == other[i] % 32 {
        assert a[n..][i] == b[n..][i];
      }
    }
    if |random| == |other| && forall i | 0 <= i < |random| :: random[i] % 32 == other[i] % 32 {
      assert a[n..] == b[n..];
    }
  }

  function Signal(invoice: Id, member: Id): string {
    invoice + ":" + member
  }

  /** The first colon marks where the invoice ends, so the member may be anything. */
  lemma SignalInjective(i: Id, m: Id, j: Id, n: Id)
    requires ColonFree(i) && ColonFree(j)
    requires Signal(i, m) == Signal(j, n)
    ensures i == j && m == n
  {
    var s := Signal(i, m);
    assert s[|i|] == ':' && s[|j|] == ':';
    assert |i| == |j|;
    assert i == s[..|i|] && j == s[..|j|];
    assert m == s[|i| + 1..] && n == s[|j| + 1..];
  }

  /* ------------------------------------------------------------- challenges */

  datatype Challenge = Challenge(invoice: Id, member: Id, expiresAt: int, consumedAt: Option<int>)

  type Challenges = map<string, Challenge>

  predicate Consumable(t: Challenges, nonce: string, now: int) {
    nonce in t && t[nonce].consumedAt.None? && t[nonce].expiresAt > now
  }

  function Consumed(t: Challenges, nonce: string, now: int): Challenges
    requires nonce in t
  {
    t[nonce := t[nonce].(consumedAt := Some(now))]
  }

  /** Burned while it was still valid, for this invoice and this member. */
  ghost predicate BurnedFor(t: Challenges, nonce: string, invoice: Id, member: Id) {
    && nonce in t
    && t[nonce].invoice == invoice && t[nonce].member == member
    && t[nonce].consumedAt.Some? && t[nonce].consumedAt.value < t[nonce].expiresAt
  }

  /* ----------------------------------------------------------- attestations */

  datatype Attestation = Attestation(member: Id, createdAt: int)

  /** Keyed by UNIQUE (signal, nullifier). */
  type Attestations = map<(string, string), Attestation>

  predicate Fresh(t: Attestations, row: (string, string), member: Id, signal: string, since: int) {
    row in t && row.0 == signal && t[row].member == member && t[row].createdAt >= since
  }

  /** `age` answers the newest-proof query: whole seconds since the newest row in
      the window, or none when the window is empty. */
  ghost predicate IsFreshAge(t: Attestations, now: int, member: Id, signal: string, maxAgeSec: int,
    age: Option<int>) {
    var since := now - maxAgeSec * 1000;
    match age
    case None => forall row | row in t :: !Fresh(t, row, member, signal, since)
    case Some(a) =>
      exists row | row in t ::
        && Fresh(t, row, member, signal, since)
        && a == (now - t[row].createdAt) / 1000
        && (forall other | other in t && Fresh(t, other, member, signal, since) ::
              t[other].createdAt <= t[row].createdAt)
  }

  method FreshAttestationAge(t: Attestations, now: int, member: Id, signal: string, maxAgeSec: int)
    returns (age: Option<int>)
    ensures IsFreshAge(t, now, member, signal, maxAgeSec, age)
  {
    var since := now - maxAgeSec * 1000;
    var newest: Option<(string, string)> := None;
    var rest := t.Keys;
    while rest != {}
      invariant rest <= t.Keys
      invariant newest.Some? ==> Fresh(t, newest.value, member, signal, since)
      invariant forall row | row in t && row !in rest && Fresh(t, row, member, signal, since) ::
                  newest.Some? && t[row].createdAt <= t[newest.value].createdAt
    {
      var row :| row in rest;
      if Fresh(t, row, member, signal, since) &&
         (newest.None? || t[newest.value].createdAt < t[row].createdAt) {
        newest := Some(row);
      }
      rest := rest - {row};
    }
    if newest.None? {
      return None;
    }
    return Some((now - t[newest.value].createdAt) / 1000);
  }

  /** A proof the query finds is never too old for the gate: the stale refusal
      needs time to pass between the query and the check. */
  lemma FreshAgeWithinWindow(t: Attestations, now: int, member: Id, signal: string, maxAgeSec: int, age: Option<int>)
    requires IsFreshAge(t, now, member, signal, maxAgeSec, age) && age.Some?
    ensures age.value <= maxAgeSec
  {
  }

  /* ------------------------------------------------------ recording a proof */

  /** The verifier's answer. */
  datatype Verification = Verification(ok: bool, nullifier: string)

  datatype AttestError = ChallengeUnknown | ChallengeTarget | ProofDeclined | ProofReplayed

  /** Why a proof is not banked, or none when it is. */
  ghost function ProofRefusal(demo: bool, challenges: Challenges, attestations: Attestations, now: int,
                              invoice: Id, member: Id, nonce: string, verdict: Verification): Option<AttestError> {
    if !demo && !Consumable(challenges, nonce, now) then Some(ChallengeUnknown)
    else if !demo && !(challenges[nonce].invoice == invoice && challenges[nonce].member == member)
    then Some(ChallengeTarget)
    else if !verdict.ok then Some(ProofDeclined)
    else if (Signal(invoice, member), verdict.nullifier) in attestations then Some(ProofReplayed)
    else None
  }

  class ProofDesk {
    var challenges: Challenges
    var attestations: Attestations
    const demo: bool

    constructor (demo: bool)
      ensures challenges == map[] && attestations == map[] && this.demo == demo
    {
      challenges, attestations := map[], map[];
      this.demo := demo;
    }

    method CreateChallenge(nonce: string, invoice: Id, member: Id, expiresAt: int) returns (ok: bool)
      modifies this`challenges
      ensures ok <==> nonce !in old(challenges)
      ensures challenges == if ok then old(challenges)[nonce := Challenge(invoice, member, expiresAt, None)]
                else old(challenges)
    {
      ok := nonce !in challenges;
      if ok {
        challenges := challenges[nonce := Challenge(invoice, member, expiresAt, None)];
      }
    }

    method ConsumeChallenge(now: int, nonce: string) returns (burned: Option<Challenge>)
      modifies this`challenges
      ensures Consumable(old(challenges), nonce, now) ==>
                && challenges == Consumed(old(challenges), nonce, now)
                && burned == Some(challenges[nonce])
      ensures !Consumable(old(challenges), nonce, now) ==> challenges == old(challenges) && burned == None
      ensures burned.Some? <==>
                nonce in old(challenges) && old(challenges)[nonce].consumedAt == None
                && now < old(challenges)[nonce].expiresAt
      ensures burned.Some? ==> challenges == old(challenges)[nonce :=
                                               old(challenges)[nonce].(consumedAt := Some(now))]
    {
      if Consumable(challenges, nonce, now) {
        challenges := Consumed(challenges, nonce, now);
        return Some(challenges[nonce]);
      }
      return None;
    }

    /** Burns the challenge, verifies, banks the proof, in that order. `verdict` is
        what the verifier answers. A refused check still burns the nonce, and a
        proof is banked only on the last line. */
    method RecordAttestation(now: int, invoice: Id, member: Id, nonce: string, verdict: Verification)
      returns (err: Option<AttestError>)
      modifies this`challenges, this`attestations
      ensures challenges == if !demo && Consumable(old(challenges), nonce, now)
                            then Consumed(old(challenges), nonce, now) else old(challenges)
      ensures err == ProofRefusal(demo, old(challenges), old(attestations), now, invoice, member, nonce, verdict)
      ensures attestations ==
                if err == None then old(attestations)[(Signal(invoice, member), verdict.nullifier) :=
                                                        Attestation(member, now)]
                else old(attestations)
      ensures err == None ==> demo || BurnedFor(challenges, nonce, invoice, member)
    {
      if !demo {
        var burned := ConsumeChallenge(now, nonce);
        if burned.None? {
          return Some(ChallengeUnknown);
        }
        if burned.value.invoice != invoice || burned.value.member != member {
          return Some(ChallengeTarget);
        }
      }
      if !verdict.ok {
        return Some(ProofDeclined);
      }
      var row := (Signal(invoice, member), verdict.nullifier);
      if row in attestations {
        return Some(ProofReplayed);
      }
      attestations := attestations[row := Attestation(member, now)];
      return None;
    }
  }
}
