/** The entities every component shares.

    Amounts are whole base units (the columns are numeric(20,6), the token has
    six decimals), instants and durations are whole milliseconds. */
module Domain {

  datatype Option<+T> = None | Some(value: T) {
    function GetOr(default: T): T {
      if Some? then value else default
    }
  }

  datatype Result<+T, +E> = Ok(value: T) | Err(error: E)

  type Id = string

  datatype Role = RoleOwner | RoleApprover | RoleFinance | RoleMember

  datatype InvoiceStatus = Draft | PendingApproval | Approved | Rejected | Scheduled | Paid | Failed

  datatype AttestationKind = SelfieCheck | ProofOfHuman

  datatype Member = Member(id: Id, role: Role, walletAddress: Option<string>)

  /** One tier of an organisation's rulebook. */
  datatype Policy = Policy(
    active: bool,
    maxAmount: int,
    requiredApprovals: int,
    approverRoles: seq<Role>,
    requiredAttestation: Option<AttestationKind>,
    attestationMaxAgeSec: int,
    blockSelfApproval: bool)

  datatype Invoice = Invoice(
    org: Id,
    submitter: Id,
    amount: int,
    payee: Option<string>,
    status: InvoiceStatus)

  datatype Verdict = Approve | Reject

  function Min(a: int, b: int): (m: int)
  {
    if a <= b then a else b
  }

  /* ------------------------------------------------------ letter case, ASCII */

  function LowerChar(c: char): char {
    if 'A' <= c <= 'Z' then (c as int - 'A' as int + 'a' as int) as char else c
  }

  function Lower(s: string): string {
    seq(|s|, i requires 0 <= i < |s| => LowerChar(s[i]))
  }

  function UpperChar(c: char): char {
    if 'a' <= c <= 'z' then (c as int - 'a' as int + 'A' as int) as char else c
  }

  function Upper(s: string): string {
    seq(|s|, i requires 0 <= i < |s| => UpperChar(s[i]))
  }

  /** A letter goes to the one in its place in the other alphabet, and everything else
      stays as it is. */
  lemma CaseFolds(s: string, i: nat)
    requires i < |s|
    ensures |Lower(s)| == |s| && |Upper(s)| == |s|
    ensures if 'A' <= s[i] <= 'Z' then Lower(s)[i] as int - 'a' as int == s[i] as int - 'A' as int
            else Lower(s)[i] == s[i]
    ensures if 'a' <= s[i] <= 'z' then Upper(s)[i] as int - 'A' as int == s[i] as int - 'a' as int
            else Upper(s)[i] == s[i]
  {
  }
}
