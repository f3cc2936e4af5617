/** The gate that turns trusted evidence into access: object identity is what it trusts and consumes. */
module AccessGate {
  import opened Wrappers

  datatype Funding = PaidPurchase | PaidSubscription | Byok | NamedService | AdminFunding

  /** `realEmail` is the outcome of the address patterns. */
  datatype Principal =
    | Human(userId: string, emailVerified: bool, realEmail: bool)
    | ServicePrincipal(userId: string)
    | Admin(userId: string)

  /** Frozen once it is built; `expiresAt` is absent where the date does not parse. */
  class Evidence {
    const principal: Principal
    const funding: Funding
    const expiresAt: Option<real>

    constructor (principal: Principal, funding: Funding, expiresAt: Option<real>)
      ensures this.principal == principal && this.funding == funding && this.expiresAt == expiresAt
    {
      this.principal, this.funding, this.expiresAt := principal, funding, expiresAt;
    }
  }

  datatype Decision =
    | Allowed(basis: Funding, principal: Principal)
    | EvidenceRequired | EvidenceExpired | SubjectMismatch | EmailVerificationRequired | RealEmailRequired
    | EvidenceReplayed

  datatype Allowance = Allowance(evidence: Evidence, at: real)

  predicate IsLive(e: Evidence, now: real) {
    e.expiresAt.Some? && now < e.expiresAt.value
  }

  /** What the principal must fulfil. */
  predicate IsAcceptable(e: Evidence, expectedUserId: string) {
    && (expectedUserId == "" || e.principal.userId == expectedUserId)
    && (e.principal.Human? ==> e.principal.emailVerified && e.principal.realEmail)
  }

  class BillingAccess {
    var trusted: set<Evidence>
    var consumed: set<Evidence>
    ghost var allowances: seq<Allowance>

    /** Every allowance so far: trusted, live at the time, and for a purchase the only one. */
    ghost predicate Valid()
      reads this
    {
      && (forall i :: 0 <= i < |allowances| ==>
            allowances[i].evidence in trusted && IsLive(allowances[i].evidence, allowances[i].at))
      && (forall e :: e in consumed ==>
          e.funding.PaidPurchase? && exists i :: 0 <= i < |allowances| && allowances[i].evidence == e)
      && (forall i :: 0 <= i < |allowances| && allowances[i].evidence.funding.PaidPurchase? ==>
          allowances[i].evidence in consumed)
      && (forall i, j :: 0 <= i < j < |allowances| && allowances[i].evidence == allowances[j].evidence ==>
            !allowances[i].evidence.funding.PaidPurchase?)
    }

    constructor ()
      ensures Valid() && trusted == {} && allowances == []
    {
      trusted, consumed, allowances := {}, {}, [];
    }

    /** Marks the object a verification returns. */
    method Trust(e: Evidence)
      requires Valid()
      modifies this
      ensures Valid() && trusted == old(trusted) + {e} && consumed == old(consumed) && allowances == old(allowances)
    {
      trusted := trusted + {e};
    }

    /**
      Access is allowed exactly for live, acceptable, trusted evidence that is no purchase already
      used; a refusal names the first thing that is missing.
      */
    method DecideBillingAccess(evidence: Evidence?, expectedUserId: string, now: real) returns (d: Decision)
      requires Valid()
      modifies this
      ensures Valid() && trusted == old(trusted)
      ensures d.Allowed? <==>
                && evidence != null && evidence in old(trusted)
                && IsLive(evidence, now) && IsAcceptable(evidence, expectedUserId)
                && !(evidence.funding.PaidPurchase? && evidence in old(consumed))
      ensures d.Allowed? ==> d == Allowed(evidence.funding, evidence.principal)
      ensures d.EvidenceRequired? <==> evidence == null || evidence !in old(trusted)
      ensures d.EvidenceExpired? <==> evidence != null && evidence in old(trusted) && !IsLive(evidence, now)
      ensures d.SubjectMismatch? <==>
                && evidence != null && evidence in old(trusted) && IsLive(evidence, now)
                && expectedUserId != "" && evidence.principal.userId != expectedUserId
      ensures d.EmailVerificationRequired? <==>
                && evidence != null && evidence in old(trusted) && IsLive(evidence, now)
                && (expectedUserId == "" || evidence.principal.userId == expectedUserId)
                && evidence.principal.Human? && !evidence.principal.emailVerified
      ensures d.RealEmailRequired? <==>
                && evidence != null && evidence in old(trusted) && IsLive(evidence, now)
                && (expectedUserId == "" || evidence.principal.userId == expectedUserId)
                && evidence.principal.Human? && evidence.principal.emailVerified && !evidence.principal.realEmail
      ensures d.EvidenceReplayed? <==>
                && evidence != null && evidence in old(trusted)
                && IsLive(evidence, now) && IsAcceptable(evidence, expectedUserId)
                && evidence.funding.PaidPurchase? && evidence in old(consumed)
      ensures allowances == if d.Allowed? then old(allowances) + [Allowance(evidence, now)] else old(allowances)
      ensures consumed == old(consumed) + if d.Allowed? && evidence.funding.PaidPurchase? then {evidence} else {}
    {
      if evidence == null || evidence !in trusted { return EvidenceRequired; }
      if evidence.expiresAt.None? || evidence.expiresAt.value <= now { return EvidenceExpired; }
      if expectedUserId != "" && evidence.principal.userId != expectedUserId { return SubjectMismatch; }
      if evidence.principal.Human? {
        if !evidence.principal.emailVerified { return EmailVerificationRequired; }
        if !evidence.principal.realEmail { return RealEmailRequired; }
      }
      if evidence.funding.PaidPurchase? {
        if evidence in consumed { return EvidenceReplayed; }
        consumed := consumed + {evidence};
      }
      ghost var before := allowances;
      allowances := allowances + [Allowance(evidence, now)];
      assert allowances[|before|].evidence == evidence;
      assert forall i :: 0 <= i < |before| ==> allowances[i] == before[i];
      return Allowed(evidence.funding, evidence.principal);
    }
  }
}
