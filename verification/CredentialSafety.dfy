/** The safety invariant survives every step when nothing opens over stale holders. */
module CredentialSafety {
  import opened Wrappers
  import opened Credentials
  import opened CredentialInvariant
  import CredentialSteps

  // --- Debts carried over a step ------------------------------------------------------

  ghost predicate KeepsDeleters(s: State, s': State) {
    && (forall id :: RevokerOwesDelete(s, id) ==> RevokerOwesDelete(s', id))
    && (forall nr :: FlightOwesDelete(s, nr) ==> FlightOwesDelete(s', nr))
    && (forall id :: RotatorOwesDelete(s, id) ==> RotatorOwesDelete(s', id))
  }

  ghost predicate KeepsMarkers(s: State, s': State) {
    && (forall id :: RevokerOwesMark(s, id) ==> RevokerOwesMark(s', id))
    && (forall id :: ResolverOwesMark(s, id) ==> ResolverOwesMark(s', id))
    && (forall id :: RotatorOwesMark(s, id) ==> RotatorOwesMark(s', id))
  }

  lemma DebtsCarried(s: State, s': State)
    ensures KeepsDeleters(s, s') && OwesDelete(s) ==> OwesDelete(s')
    ensures KeepsMarkers(s, s') && OwesMark(s) ==> OwesMark(s')
  {}

  ghost predicate SecretAccounted(s: State, s': State) {
    s'.begun && s'.secret.Some? ==> (s.begun && s.secret.Some? && KeepsDeleters(s, s')) || OwesDelete(s')
  }

  ghost predicate StoredAccounted(cfg: Config, s: State, s': State) {
    s'.begun && cfg.connections && s'.stored == Some(Active) ==>
      (s.begun && s.stored == Some(Active) && KeepsMarkers(s, s')) || OwesMark(s')
  }

  predicate AllOk(s: State) {
    && (forall nr :: 0 <= nr < |s.flights| ==> FlightOk(s, nr))
    && (forall id :: id in s.rotators ==> RotatorOk(s, s.rotators[id]))
    && (forall id :: id in s.resolvers ==> ResolverOk(s, s.resolvers[id]))
    && (s.revocations > 0 ==> s.begun)
  }

  lemma SafeFrom(cfg: Config, s: State, s': State)
    requires Safe(cfg, s) && AllOk(s') && SecretAccounted(s, s') && StoredAccounted(cfg, s, s')
    ensures Safe(cfg, s')
  {
    DebtsCarried(s, s');
  }

  // --- Steps that touch no holder -------------------------------------------------------

  /** Stores and counters may change, holders may close, flights may be flagged or settled. */
  lemma AllOkFrame(s: State, s': State)
    requires AllOk(s) && s'.rotators == s.rotators && s'.resolvers == s.resolvers
    requires s'.begun == s.begun && s'.revocations <= s.revocations && (s'.entry == s.entry || s'.entry.None?)
    requires |s'.flights| == |s.flights|
    requires forall k :: 0 <= k < |s.flights| ==>
               && s'.flights[k].stale == s.flights[k].stale && s'.flights[k].pc == s.flights[k].pc
               && (s.flights[k].cancelled ==> s'.flights[k].cancelled)
    ensures AllOk(s') && (StaleOpen(s') ==> StaleOpen(s))
  {
    if StaleOpen(s') && !(exists id :: id in s.rotators && LeaseOpen(s.rotators[id]) && s.rotators[id].stale) {
      var k :| 0 <= k < |s'.flights| && FlightOpen(s', k) && s'.flights[k].stale;
      assert FlightOpen(s, k) && s.flights[k].stale;
    }
    forall k | 0 <= k < |s'.flights| ensures FlightOk(s', k) { assert FlightOk(s, k); }
    forall id | id in s'.rotators ensures RotatorOk(s', s'.rotators[id]) { assert RotatorOk(s, s.rotators[id]); }
    forall id | id in s'.resolvers ensures ResolverOk(s', s'.resolvers[id]) { assert ResolverOk(s, s.resolvers[id]); }
  }

  lemma AgeAccounts(cfg: Config, s: State)
    ensures SecretAccounted(s, Step(cfg, s, Age)) && StoredAccounted(cfg, s, Step(cfg, s, Age))
  {}

  lemma AgeKeepsSafe(cfg: Config, s: State)
    requires Safe(cfg, s)
    ensures Safe(cfg, Step(cfg, s, Age))
  {
    AllOkFrame(s, Step(cfg, s, Age));
    AgeAccounts(cfg, s);
    hide SecretAccounted, StoredAccounted;
    SafeFrom(cfg, s, Step(cfg, s, Age));
  }

  lemma StartRotationKeepsSafe(cfg: Config, s: State, id: nat)
    requires Books(s) && Safe(cfg, s) && id !in s.rotators && !LateOpening(s)
    ensures Safe(cfg, Step(cfg, s, StartRotation(id)))
  {
    var s' := Step(cfg, s, StartRotation(id));
    assert s.revocations == 0 ==> (StaleOpen(s') ==> StaleOpen(s)) by {
      forall other | other in s'.rotators && LeaseOpen(s'.rotators[other]) && s'.rotators[other].stale
        ensures s.revocations == 0 ==> StaleOpen(s)
      {}
    }
    assert AllOk(s') by {
      forall nr | 0 <= nr < |s'.flights| ensures FlightOk(s', nr) { assert FlightOk(s, nr); }
      forall other | other in s'.rotators
        ensures RotatorOk(s', s'.rotators[other])
      {
        if other != id { assert RotatorOk(s, s.rotators[other]); }
      }
      forall other | other in s'.resolvers
        ensures ResolverOk(s', s'.resolvers[other])
      {
        assert ResolverOk(s, s.resolvers[other]);
      }
    }
    SafeFrom(cfg, s, s');
  }

  /** A revocation finds every open holder and marks it, so nothing fresh is left. */
  lemma StartRevocationKeepsSafe(cfg: Config, s: State, id: nat)
    requires Books(s) && Safe(cfg, s) && id !in s.revokers
    ensures Safe(cfg, Step(cfg, s, StartRevocation(id)))
  {
    var s' := Step(cfg, s, StartRevocation(id));
    assert AllOk(s') by {
      forall nr | 0 <= nr < |s'.flights| ensures FlightOk(s', nr) { assert FlightOk(s, nr); }
      forall other | other in s'.rotators
        ensures RotatorOk(s', s'.rotators[other])
      {
        assert RotatorOk(s, s.rotators[other]);
      }
      forall other | other in s'.resolvers
        ensures ResolverOk(s', s'.resolvers[other])
      {
        forall nr | 0 <= nr < |s'.flights| && Holds(s'.resolvers[other], nr)
          ensures s'.flights[nr].stale
        {
          CredentialInvariant.HolderKeepsFlightOpen(s, other, nr);
        }
      }
    }
    assert RevokerOwesDelete(s', id) && RevokerOwesMark(s', id);
    SafeFrom(cfg, s, s');
  }

  lemma StepRevokerKeepsSafe(cfg: Config, s: State, id: nat)
    requires Books(s) && Safe(cfg, s) && id in s.revokers && s.revokers[id] != Returned
    ensures Safe(cfg, RevokerStep(cfg, s, id, s.revokers[id]))
  {
    var s' := RevokerStep(cfg, s, id, s.revokers[id]);
    MemberMeansNonempty(Revoking(s.revokers), id);
    AllOkFrame(s, s');
    RevokerAccounts(cfg, s, id);
    SafeFrom(cfg, s, s');
  }

  lemma RevokerAccounts(cfg: Config, s: State, id: nat)
    requires id in s.revokers && s.revokers[id] != Returned && s.begun
    ensures SecretAccounted(s, RevokerStep(cfg, s, id, s.revokers[id]))
    ensures StoredAccounted(cfg, s, RevokerStep(cfg, s, id, s.revokers[id]))
  {}

  // --- Flights --------------------------------------------------------------------------

  lemma FlightAccounts(cfg: Config, s: State, nr: nat, redeemed: Option<Credential>)
    requires nr < |s.flights| && (s.begun && s.flights[nr].pc.PutSecret? ==> FlightOpen(s, nr) && s.flights[nr].stale)
    requires s.flights[nr].stale ==> s.flights[nr].cancelled
    ensures SecretAccounted(s, FlightStep(s, nr, redeemed))
    ensures StoredAccounted(cfg, s, FlightStep(s, nr, redeemed))
  {
    if s.flights[nr].pc.PutSecret? && s.begun {
      assert FlightOwesDelete(FlightStep(s, nr, redeemed), nr);
    }
  }

  lemma FlightAllOk(cfg: Config, s: State, nr: nat, redeemed: Option<Credential>)
    requires AllOk(s) && nr < |s.flights|
    requires s.begun && FlightOpen(s, nr) && !s.flights[nr].stale ==> s.secret.None?
    ensures AllOk(FlightStep(s, nr, redeemed))
  {
    var s' := FlightStep(s, nr, redeemed);
    assert StaleOpen(s') == StaleOpen(s) by {
      forall k | 0 <= k < |s.flights| ensures s'.flights[k].stale == s.flights[k].stale {}
    }
    forall k | 0 <= k < |s'.flights| ensures FlightOk(s', k) { assert FlightOk(s, k); }
    forall other | other in s'.rotators
      ensures RotatorOk(s', s'.rotators[other])
    {
      assert RotatorOk(s, s.rotators[other]);
    }
    forall other | other in s'.resolvers
      ensures ResolverOk(s', s'.resolvers[other])
    {
      assert ResolverOk(s, s.resolvers[other]);
    }
  }

  lemma StepFlightKeepsSafe(cfg: Config, s: State, nr: nat, redeemed: Option<Credential>)
    requires Books(s) && Safe(cfg, s) && nr < |s.flights|
    ensures Safe(cfg, FlightStep(s, nr, redeemed))
  {
    assert FlightBooked(s, nr) && FlightOk(s, nr);
    if s.begun && FlightOpen(s, nr) && !s.flights[nr].stale {
      CalmHasNoSecret(cfg, s);
    }
    FlightAllOk(cfg, s, nr, redeemed);
    FlightAccounts(cfg, s, nr, redeemed);
    SafeFrom(cfg, s, FlightStep(s, nr, redeemed));
  }

  lemma SettleAccounts(cfg: Config, s: State, nr: nat)
    requires nr < |s.flights|
    ensures SecretAccounted(s, SettleStep(s, nr)) && StoredAccounted(cfg, s, SettleStep(s, nr))
  {}

  lemma SettleKeepsSafe(cfg: Config, s: State, nr: nat)
    requires Books(s) && Safe(cfg, s) && nr < |s.flights|
    ensures Safe(cfg, SettleStep(s, nr))
  {
    AllOkFrame(s, SettleStep(s, nr));
    SettleAccounts(cfg, s, nr);
    hide SettleStep, Books;
    SafeFrom(cfg, s, SettleStep(s, nr));
  }

  // --- Resolvers ------------------------------------------------------------------------

  /** One resolver moves; stores and flags may change with it. */
  lemma ResolverAllOk(s: State, s': State, id: nat, resolver: Resolver)
    requires AllOk(s) && s'.resolvers == s.resolvers[id := resolver]
    requires ResolverOk(s'.(resolvers := s.resolvers), resolver)
    requires AllOk(s'.(resolvers := s.resolvers))
    ensures AllOk(s')
  {
    var mid := s'.(resolvers := s.resolvers);
    assert StaleOpen(s') == StaleOpen(mid);
    forall k | 0 <= k < |s'.flights| ensures FlightOk(s', k) { assert FlightOk(mid, k); }
    forall other | other in s'.rotators
      ensures RotatorOk(s', s'.rotators[other])
    {
      assert RotatorOk(mid, s'.rotators[other]);
    }
    forall other | other in s'.resolvers
      ensures ResolverOk(s', s'.resolvers[other])
    {
      if other != id { assert ResolverOk(mid, s.resolvers[other]); }
    }
  }

  /** Past the redemption a resolver of a revoked key works for a stale flight. */
  lemma ResolverFlightStale(cfg: Config, s: State, id: nat)
    requires Books(s) && Safe(cfg, s) && id in s.resolvers && s.begun
    requires s.resolvers[id].pc.PutActive? || (s.resolvers[id].pc.Checking? && s.resolvers[id].pc.site != Before)
    ensures HasFlight(s, s.resolvers[id])
    ensures s.flights[s.resolvers[id].flight.value].stale && s.flights[s.resolvers[id].flight.value].cancelled
  {
    var nr := s.resolvers[id].flight.value;
    assert ResolverPlaced(s, s.resolvers[id]);
    assert Holds(s.resolvers[id], nr) && ResolverOk(s, s.resolvers[id]) && FlightOk(s, nr);
  }

  lemma CheckingAccounts(cfg: Config, s: State, id: nat)
    requires id in s.resolvers && s.resolvers[id].pc.Checking?
    requires s.begun && s.resolvers[id].pc.site != Before ==>
               HasFlight(s, s.resolvers[id]) && s.flights[s.resolvers[id].flight.value].cancelled
    ensures SecretAccounted(s, CheckingStep(cfg, s, id, s.resolvers[id]))
    ensures StoredAccounted(cfg, s, CheckingStep(cfg, s, id, s.resolvers[id]))
  {}

  lemma CheckingKeepsSafe(cfg: Config, s: State, id: nat)
    requires Books(s) && Safe(cfg, s) && id in s.resolvers && s.resolvers[id].pc.Checking?
    ensures Safe(cfg, CheckingStep(cfg, s, id, s.resolvers[id]))
  {
    var resolver := s.resolvers[id];
    var s' := CheckingStep(cfg, s, id, resolver);
    assert ResolverPlaced(s, resolver);
    if s.begun && resolver.pc.site != Before {
      ResolverFlightStale(cfg, s, id);
    }
    AllOkFrame(s, s'.(resolvers := s.resolvers));
    CheckingAccounts(cfg, s, id);
    ResolverAllOk(s, s', id, s'.resolvers[id]);
    SafeFrom(cfg, s, s');
  }

  /** Reading, waiting for the flight, and writing the outcome to the connection store. */
  lemma PlainAccounts(cfg: Config, s: State, id: nat)
    requires id in s.resolvers && CredentialSteps.PlainPc(s.resolvers[id].pc)
    requires s.begun && s.resolvers[id].pc.PutActive? ==>
               HasFlight(s, s.resolvers[id]) && s.flights[s.resolvers[id].flight.value].stale
    ensures SecretAccounted(s, ResolverStep(cfg, s, id, s.resolvers[id]))
    ensures StoredAccounted(cfg, s, ResolverStep(cfg, s, id, s.resolvers[id]))
  {
    if s.begun && s.resolvers[id].pc.PutActive? {
      assert ResolverOwesMark(ResolverStep(cfg, s, id, s.resolvers[id]), id);
    }
  }

  /** A waiter of a fresh flight can only learn that there is no secret. */
  lemma WaitingOk(cfg: Config, s: State, id: nat)
    requires Books(s) && Safe(cfg, s) && id in s.resolvers && CredentialSteps.PlainPc(s.resolvers[id].pc)
    ensures var s' := ResolverStep(cfg, s, id, s.resolvers[id]);
            id in s'.resolvers && ResolverOk(s, s'.resolvers[id])
  {
    var resolver := s.resolvers[id];
    assert ResolverPlaced(s, resolver) && ResolverOk(s, resolver);
    if resolver.pc.Waiting? {
      HolderKeepsFlightOpen(s, id, resolver.flight.value);
      assert FlightOk(s, resolver.flight.value);
    }
  }

  lemma PlainAllOk(cfg: Config, s: State, id: nat)
    requires AllOk(s) && id in s.resolvers && CredentialSteps.PlainPc(s.resolvers[id].pc)
    ensures AllOk(ResolverStep(cfg, s, id, s.resolvers[id]).(resolvers := s.resolvers))
  {
    AllOkFrame(s, ResolverStep(cfg, s, id, s.resolvers[id]).(resolvers := s.resolvers));
  }

  lemma PlainKeepsSafe(cfg: Config, s: State, id: nat)
    requires Books(s) && Safe(cfg, s) && id in s.resolvers && CredentialSteps.PlainPc(s.resolvers[id].pc)
    ensures Safe(cfg, ResolverStep(cfg, s, id, s.resolvers[id]))
  {
    hide ResolverStep, Books, SecretAccounted, StoredAccounted;
    var s' := ResolverStep(cfg, s, id, s.resolvers[id]);
    if s.begun && s.resolvers[id].pc.PutActive? {
      ResolverFlightStale(cfg, s, id);
    }
    PlainAccounts(cfg, s, id);
    WaitingOk(cfg, s, id);
    PlainFrame(cfg, s, id);
    PlainAllOk(cfg, s, id);
    ResolverAllOk(s, s', id, s'.resolvers[id]);
    SafeFrom(cfg, s, s');
  }

  lemma PlainFrame(cfg: Config, s: State, id: nat)
    requires id in s.resolvers && CredentialSteps.PlainPc(s.resolvers[id].pc)
    ensures var s' := ResolverStep(cfg, s, id, s.resolvers[id]);
            id in s'.resolvers && s'.resolvers == s.resolvers[id := s'.resolvers[id]] && s'.flights == s.flights
              && s'.begun == s.begun
  {}

  lemma JoinKeepsSafe(cfg: Config, s: State, id: nat, nr: nat)
    requires Books(s) && Safe(cfg, s) && id in s.resolvers && s.resolvers[id].pc.Acquire? && s.entry == Some(nr)
    ensures Safe(cfg, SetResolver(CredentialSteps.Joined(s, nr), id, Resolver(Some(nr), Waiting)))
  {
    var s' := SetResolver(CredentialSteps.Joined(s, nr), id, Resolver(Some(nr), Waiting));
    AllOkFrame(s, CredentialSteps.Joined(s, nr));
    ResolverAllOk(s, s', id, Resolver(Some(nr), Waiting));
    JoinAccounts(cfg, s, id, nr);
    SafeFrom(cfg, s, s');
  }

  lemma JoinAccounts(cfg: Config, s: State, id: nat, nr: nat)
    requires id in s.resolvers && s.resolvers[id].pc.Acquire? && nr < |s.flights|
    ensures var s' := SetResolver(CredentialSteps.Joined(s, nr), id, Resolver(Some(nr), Waiting));
            SecretAccounted(s, s') && StoredAccounted(cfg, s, s')
  {}

  lemma OpenKeepsSafe(cfg: Config, s: State, id: nat)
    requires Books(s) && Safe(cfg, s) && id in s.resolvers && s.resolvers[id].pc.Acquire? && s.entry.None?
    requires s.revocations == 0 && !LateOpening(s)
    ensures Safe(cfg, SetResolver(CredentialSteps.Opened(s), id, Resolver(Some(|s.flights|), Waiting)))
  {
    var resolver := Resolver(Some(|s.flights|), Waiting);
    var grown := CredentialSteps.Opened(s);
    var s' := SetResolver(grown, id, resolver);
    assert StaleOpen(grown) ==> StaleOpen(s);
    assert AllOk(grown) by {
      forall k | 0 <= k < |grown.flights|
        ensures FlightOk(grown, k)
      {
        if k < |s.flights| { assert FlightOk(s, k); }
      }
      forall other | other in grown.rotators
        ensures RotatorOk(grown, grown.rotators[other])
      {
        assert RotatorOk(s, s.rotators[other]);
      }
      forall other | other in grown.resolvers
        ensures ResolverOk(grown, grown.resolvers[other])
      {
        assert ResolverOk(s, s.resolvers[other]) && ResolverPlaced(s, s.resolvers[other]);
      }
    }
    ResolverAllOk(grown, s', id, resolver);
    OpenAccounts(cfg, s, id);
    SafeFrom(cfg, s, s');
  }

  lemma OpenAccounts(cfg: Config, s: State, id: nat)
    requires id in s.resolvers && s.resolvers[id].pc.Acquire? && s.entry.None?
    ensures var s' := SetResolver(CredentialSteps.Opened(s), id, Resolver(Some(|s.flights|), Waiting));
            SecretAccounted(s, s') && StoredAccounted(cfg, s, s')
  {}

  lemma ReleaseAccounts(cfg: Config, s: State, id: nat, nr: nat)
    requires id in s.resolvers && s.resolvers[id].pc.Release? && nr < |s.flights| && s.flights[nr].waiters > 0
    requires s.flights[nr].settled ==> Settleable(s.flights[nr])
    ensures var s' := SetResolver(CredentialSteps.Left(s, nr), id, s.resolvers[id].(pc := Done));
            SecretAccounted(s, s') && StoredAccounted(cfg, s, s')
  {}

  lemma ReleaseKeepsSafe(cfg: Config, s: State, id: nat, nr: nat)
    requires Books(s) && Safe(cfg, s) && id in s.resolvers && s.resolvers[id].pc.Release?
    requires nr < |s.flights| && s.flights[nr].waiters > 0
    ensures Safe(cfg, SetResolver(CredentialSteps.Left(s, nr), id, s.resolvers[id].(pc := Done)))
  {
    var s' := SetResolver(CredentialSteps.Left(s, nr), id, s.resolvers[id].(pc := Done));
    assert FlightBooked(s, nr);
    AllOkFrame(s, CredentialSteps.Left(s, nr));
    ResolverAllOk(s, s', id, s.resolvers[id].(pc := Done));
    ReleaseAccounts(cfg, s, id, nr);
    hide Books;
    SafeFrom(cfg, s, s');
  }

  lemma GiveUpKeepsSafe(cfg: Config, s: State, id: nat, resolver: Resolver)
    requires Books(s) && Safe(cfg, s) && !HoldingPc(resolver.pc)
    requires id in s.resolvers ==> s.resolvers[id].pc.Acquire?
    ensures Safe(cfg, SetResolver(s, id, resolver))
  {
    var s' := SetResolver(s, id, resolver);
    ResolverAllOk(s, s', id, resolver);
    SafeFrom(cfg, s, s');
  }

  lemma ResolverKeepsSafe(cfg: Config, s: State, id: nat)
    requires Books(s) && Safe(cfg, s) && id in s.resolvers && NothingLate(cfg)
    ensures Safe(cfg, ResolverStep(cfg, s, id, s.resolvers[id]))
  {
    hide Safe;
    var resolver := s.resolvers[id];
    if resolver.pc.Checking? {
      CheckingKeepsSafe(cfg, s, id);
    } else if CredentialSteps.PlainPc(resolver.pc) {
      PlainKeepsSafe(cfg, s, id);
    } else if resolver.pc.Acquire? {
      if s.revocations > 0 {
        GiveUpKeepsSafe(cfg, s, id, resolver.(pc := Done));
      } else if s.entry.Some? {
        JoinKeepsSafe(cfg, s, id, s.entry.value);
      } else if !LateOpening(s) {
        OpenKeepsSafe(cfg, s, id);
      }
    } else if resolver.pc.Release? {
      if HasFlight(s, resolver) && s.flights[resolver.flight.value].waiters > 0 {
        ReleaseKeepsSafe(cfg, s, id, resolver.flight.value);
      }
    }
  }

  // --- Rotations ------------------------------------------------------------------------

  lemma RotatorAccounts(cfg: Config, s: State, id: nat, rotated: Credential)
    requires id in s.rotators
    requires s.begun && (s.rotators[id].pc.StoreSecret? || s.rotators[id].pc.StoreActive?) ==> s.rotators[id].stale
    requires s.rotators[id].stale ==> s.rotators[id].cancelled
    ensures SecretAccounted(s, RotatorStep(cfg, s, id, s.rotators[id], rotated))
    ensures StoredAccounted(cfg, s, RotatorStep(cfg, s, id, s.rotators[id], rotated))
  {
    var s' := RotatorStep(cfg, s, id, s.rotators[id], rotated);
    if s.begun && s.rotators[id].pc.StoreSecret? {
      assert RotatorOwesDelete(s', id);
    }
    if s.begun && s.rotators[id].pc.StoreActive? {
      assert RotatorOwesMark(s', id);
    }
  }

  lemma RotatorAllOk(cfg: Config, s: State, id: nat, rotated: Credential)
    requires AllOk(s) && id in s.rotators
    requires s.begun && LeaseOpen(s.rotators[id]) && !s.rotators[id].stale ==> s.secret.None?
    ensures AllOk(RotatorStep(cfg, s, id, s.rotators[id], rotated))
  {
    var s' := RotatorStep(cfg, s, id, s.rotators[id], rotated);
    assert RotatorOk(s, s.rotators[id]);
    assert StaleOpen(s') ==> StaleOpen(s) by {
      forall other | other in s'.rotators && LeaseOpen(s'.rotators[other]) && s'.rotators[other].stale
        ensures StaleOpen(s)
      {
        assert other in s.rotators && LeaseOpen(s.rotators[other]) && s.rotators[other].stale;
      }
    }
    forall k | 0 <= k < |s'.flights| ensures FlightOk(s', k) { assert FlightOk(s, k); }
    forall other | other in s'.rotators
      ensures RotatorOk(s', s'.rotators[other])
    {
      assert RotatorOk(s, s.rotators[other]);
    }
    forall other | other in s'.resolvers
      ensures ResolverOk(s', s'.resolvers[other])
    {
      assert ResolverOk(s, s.resolvers[other]);
    }
  }

  lemma RotatorKeepsSafe(cfg: Config, s: State, id: nat, rotated: Credential)
    requires Books(s) && Safe(cfg, s) && id in s.rotators
    ensures Safe(cfg, RotatorStep(cfg, s, id, s.rotators[id], rotated))
  {
    assert RotatorOk(s, s.rotators[id]);
    if s.begun && LeaseOpen(s.rotators[id]) && !s.rotators[id].stale {
      CalmHasNoSecret(cfg, s);
    }
    RotatorAllOk(cfg, s, id, rotated);
    RotatorAccounts(cfg, s, id, rotated);
    SafeFrom(cfg, s, RotatorStep(cfg, s, id, s.rotators[id], rotated));
  }

  // --- All steps ------------------------------------------------------------------------

  lemma StepKeepsSafe(cfg: Config, s: State, action: Action)
    requires Books(s) && Safe(cfg, s) && NothingLate(cfg)
    ensures Safe(cfg, Step(cfg, s, action))
  {
    hide Books, Safe;
    match action
    case Age => AgeKeepsSafe(cfg, s);
    case StartResolve(id) =>
      if id !in s.resolvers { GiveUpKeepsSafe(cfg, s, id, Resolver(None, Read)); }
    case StartRotation(id) =>
      if id !in s.rotators && !LateOpening(s) { StartRotationKeepsSafe(cfg, s, id); }
    case StartRevocation(id) =>
      if id !in s.revokers { StartRevocationKeepsSafe(cfg, s, id); }
    case StepFlight(nr, redeemed) =>
      if nr < |s.flights| { StepFlightKeepsSafe(cfg, s, nr, redeemed); }
    case Settle(nr) =>
      if nr < |s.flights| { SettleKeepsSafe(cfg, s, nr); }
    case StepResolver(id) =>
      if id in s.resolvers { ResolverKeepsSafe(cfg, s, id); }
    case StepRotator(id, rotated) =>
      if id in s.rotators { RotatorKeepsSafe(cfg, s, id, rotated); }
    case StepRevoker(id) =>
      if id in s.revokers && s.revokers[id] != Returned { StepRevokerKeepsSafe(cfg, s, id); }
  }
}
