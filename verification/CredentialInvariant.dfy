/** The bookkeeping and safety invariants of credential refresh, rotation and revocation. */
module CredentialInvariant {
  import opened Wrappers
  import opened Credentials

  // --- Bookkeeping ------------------------------------------------------------------

  /** From acquisition to release a resolver counts as a waiter of its flight. */
  predicate HoldingPc(pc: ResolverPc) {
    match pc
    case Waiting => true
    case Checking(site, _) => site != Before
    case PutActive => true
    case MarkExpired => true
    case Release => true
    case _ => false
  }

  predicate Holds(resolver: Resolver, nr: nat) {
    resolver.flight == Some(nr) && HoldingPc(resolver.pc)
  }

  function Holders(resolvers: map<nat, Resolver>, nr: nat): set<nat> {
    set id | id in resolvers && Holds(resolvers[id], nr)
  }

  function Revoking(revokers: map<nat, RevokerPc>): set<nat> {
    set id | id in revokers && revokers[id] != Returned
  }

  predicate Settleable(flight: Flight) {
    flight.pc.Resolved? || flight.pc.Rejected?
  }

  /** A resolver past its acquisition holds a flight of its own until it releases it. */
  predicate ResolverPlaced(s: State, resolver: Resolver) {
    if HoldingPc(resolver.pc) then HasFlight(s, resolver) else resolver.pc.Done? || resolver.flight.None?
  }

  predicate FlightBooked(s: State, nr: nat)
    requires nr < |s.flights|
  {
    && s.flights[nr].waiters == |Holders(s.resolvers, nr)|
    && (s.flights[nr].settled ==> Settleable(s.flights[nr]))
    && (FlightOpen(s, nr) <==> !(s.flights[nr].settled && s.flights[nr].waiters == 0))
  }

  predicate Books(s: State) {
    && (s.entry.Some? ==> s.entry.value < |s.flights|)
    && (forall nr :: 0 <= nr < |s.flights| ==> FlightBooked(s, nr))
    && (forall id :: id in s.resolvers ==> ResolverPlaced(s, s.resolvers[id]))
    && s.revocations == |Revoking(s.revokers)|
  }

  // --- Safety -------------------------------------------------------------------------

  /** From here the check can only end in the delete. */
  predicate WillDelete(check: Check) {
    match check
    case Enter => true
    case ReadStored(revoked) => revoked
    case Verdict(revoked, _) => revoked
    case DeleteSecret(_) => true
    case _ => false
  }

  /** From here a check that still meets an active connection ends by marking it revoked. */
  predicate WillMark(check: Check) {
    match check
    case Enter => true
    case ReadStored(revoked) => revoked
    case Verdict(revoked, stored) => revoked && stored != Some(Revoked)
    case DeleteSecret(stored) => stored != Some(Revoked)
    case MarkRevoked => true
    case _ => false
  }

  predicate RevokerOwesDelete(s: State, id: nat) {
    id in s.revokers && s.revokers[id].Delete?
  }

  predicate FlightOwesDelete(s: State, nr: nat) {
    nr < |s.flights| && FlightOpen(s, nr) && s.flights[nr].stale
      && (s.flights[nr].pc.CheckPut? || s.flights[nr].pc.Compensate?)
  }

  predicate RotatorOwesDelete(s: State, id: nat) {
    id in s.rotators && s.rotators[id].stale && s.rotators[id].pc.Guard? && s.rotators[id].pc.nr == 2
    && WillDelete(s.rotators[id].pc.check)
  }

  /** Somebody still has to delete the secret, and will. */
  ghost predicate OwesDelete(s: State) {
    || (exists id :: RevokerOwesDelete(s, id))
    || (exists nr :: FlightOwesDelete(s, nr))
    || (exists id :: RotatorOwesDelete(s, id))
  }

  predicate RevokerOwesMark(s: State, id: nat) {
    id in s.revokers && (s.revokers[id].Delete? || s.revokers[id].Mark?)
  }

  predicate ResolverOwesMark(s: State, id: nat) {
    && id in s.resolvers && HasFlight(s, s.resolvers[id]) && s.flights[s.resolvers[id].flight.value].stale
    && s.resolvers[id].pc.Checking? && s.resolvers[id].pc.site == Confirm && WillMark(s.resolvers[id].pc.check)
  }

  predicate RotatorOwesMark(s: State, id: nat) {
    id in s.rotators && s.rotators[id].stale && s.rotators[id].pc.Guard? && s.rotators[id].pc.nr == 3
    && WillMark(s.rotators[id].pc.check)
  }

  ghost predicate OwesMark(s: State) {
    || (exists id :: RevokerOwesMark(s, id))
    || (exists id :: ResolverOwesMark(s, id))
    || (exists id :: RotatorOwesMark(s, id))
  }

  /** Nothing stale is open and no revocation runs: the only world in which something new opens. */
  predicate Calm(s: State) {
    s.revocations == 0 && !StaleOpen(s)
  }

  /** A flight opened after a revocation has found, and can find, no secret. */
  predicate FlightOk(s: State, nr: nat)
    requires nr < |s.flights|
  {
    && (s.flights[nr].stale ==> s.begun && s.flights[nr].cancelled)
    && (s.begun && FlightOpen(s, nr) && !s.flights[nr].stale ==>
          Calm(s) && (s.flights[nr].pc == Reread || s.flights[nr].pc == Rejected(false)))
  }

  predicate RotatorOk(s: State, rotator: Rotator) {
    && (rotator.stale ==> s.begun && rotator.cancelled)
    && (s.begun && LeaseOpen(rotator) && !rotator.stale ==>
          Calm(s) && (rotator.pc.Close? || (rotator.pc.Guard? && rotator.pc.nr == 1
                                            && (rotator.pc.check.Verdict? ==> rotator.pc.check.revoked))))
  }

  predicate ResolverOk(s: State, resolver: Resolver) {
    forall nr :: 0 <= nr < |s.flights| && s.begun && Holds(resolver, nr) && !s.flights[nr].stale ==>
      resolver.pc.Waiting? || resolver.pc.MarkExpired? || resolver.pc.Release?
  }

  ghost predicate Safe(cfg: Config, s: State) {
    && (forall nr :: 0 <= nr < |s.flights| ==> FlightOk(s, nr))
    && (forall id :: id in s.rotators ==> RotatorOk(s, s.rotators[id]))
    && (forall id :: id in s.resolvers ==> ResolverOk(s, s.resolvers[id]))
    && (s.begun && s.secret.Some? ==> OwesDelete(s))
    && (s.begun && cfg.connections && s.stored == Some(Active) ==> OwesMark(s))
    && (s.revocations > 0 ==> s.begun)
  }

  lemma MemberMeansNonempty<T>(s: set<T>, x: T)
    ensures x in s ==> |s| > 0
  {
    if x in s {
      assert s == (s - {x}) + {x};
    }
  }

  lemma DrainedIsClean(cfg: Config, s: State)
    requires Books(s) && Safe(cfg, s) && Drained(s)
    ensures Clean(cfg, s)
  {
    forall id
      ensures !ResolverOwesMark(s, id)
    {
      if id in s.resolvers && HasFlight(s, s.resolvers[id]) {
        var nr := s.resolvers[id].flight.value;
        assert FlightBooked(s, nr);
        MemberMeansNonempty(Holders(s.resolvers, nr), id);
      }
    }
  }

  /** With nothing open and no revocation running, nobody is left to delete a secret, so there is none. */
  lemma CalmHasNoSecret(cfg: Config, s: State)
    requires Books(s) && Safe(cfg, s) && s.begun && Calm(s)
    ensures s.secret.None?
  {
    forall id
      ensures !RevokerOwesDelete(s, id)
    {
      MemberMeansNonempty(Revoking(s.revokers), id);
    }
  }

  // --- Counting -------------------------------------------------------------------------

  /** Replacing one resolver changes the waiters of a flight by at most that resolver. */
  lemma HoldersUpdate(resolvers: map<nat, Resolver>, id: nat, resolver: Resolver, nr: nat)
    ensures var was, now := id in resolvers && Holds(resolvers[id], nr), Holds(resolver, nr);
            |Holders(resolvers[id := resolver], nr)| ==
            |Holders(resolvers, nr)| + (if now && !was then 1 else if was && !now then -1 else 0)
  {
    var before, after := Holders(resolvers, nr), Holders(resolvers[id := resolver], nr);
    if Holds(resolver, nr) {
      assert after == before + {id};
    } else {
      assert after == before - {id};
    }
  }

  lemma RevokingUpdate(revokers: map<nat, RevokerPc>, id: nat, pc: RevokerPc)
    ensures var was, now := id in revokers && revokers[id] != Returned, pc != Returned;
            |Revoking(revokers[id := pc])| == |Revoking(revokers)|
              + (if now && !was then 1 else if was && !now then -1 else 0)
  {
    var before, after := Revoking(revokers), Revoking(revokers[id := pc]);
    if pc != Returned {
      assert after == before + {id};
    } else {
      assert after == before - {id};
    }
  }

  lemma HolderKeepsFlightOpen(s: State, id: nat, nr: nat)
    requires Books(s) && id in s.resolvers && nr < |s.flights| && Holds(s.resolvers[id], nr)
    ensures s.flights[nr].waiters > 0 && FlightOpen(s, nr)
  {
    assert FlightBooked(s, nr);
    MemberMeansNonempty(Holders(s.resolvers, nr), id);
  }
}
