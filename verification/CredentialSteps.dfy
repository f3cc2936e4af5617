/** Every step of the process keeps the bookkeeping and, when nothing opens late, the safety invariant. */
module CredentialSteps {
  import opened Wrappers
  import opened Credentials
  import opened CredentialInvariant

  // --- Bookkeeping --------------------------------------------------------------------

  predicate SameCounts(s: State, s': State) {
    && |s'.flights| == |s.flights| && s'.entry == s.entry && s'.revocations == s.revocations
       && s'.revokers == s.revokers
    && (forall nr :: 0 <= nr < |s.flights| ==>
          s'.flights[nr].waiters == s.flights[nr].waiters && s'.flights[nr].settled == s.flights[nr].settled
          && (Settleable(s.flights[nr]) ==> Settleable(s'.flights[nr])))
  }

  /** Steps that change no count: flags, stores, flight progress. */
  lemma SameCountsKeepBooks(s: State, s': State)
    requires Books(s) && SameCounts(s, s') && s'.resolvers == s.resolvers
    ensures Books(s')
  {
    forall nr | 0 <= nr < |s'.flights|
      ensures FlightBooked(s', nr)
    {
      assert FlightBooked(s, nr);
    }
    forall id | id in s'.resolvers
      ensures ResolverPlaced(s', s'.resolvers[id])
    {
      assert ResolverPlaced(s, s.resolvers[id]);
    }
  }

  /** A resolver moves on without acquiring or releasing. */
  lemma MoveKeepsBooks(s: State, s': State, id: nat, resolver: Resolver)
    requires Books(s) && SameCounts(s, s') && s'.resolvers == s.resolvers[id := resolver]
    requires ResolverPlaced(s, resolver)
    requires if id in s.resolvers
             then resolver.flight == s.resolvers[id].flight && HoldingPc(resolver.pc) == HoldingPc(s.resolvers[id].pc)
             else !HoldingPc(resolver.pc)
    ensures Books(s')
  {
    forall nr | 0 <= nr < |s'.flights|
      ensures FlightBooked(s', nr)
    {
      assert FlightBooked(s, nr);
      HoldersUpdate(s.resolvers, id, resolver, nr);
    }
    forall other | other in s'.resolvers
      ensures ResolverPlaced(s', s'.resolvers[other])
    {
      if other != id {
        assert ResolverPlaced(s, s.resolvers[other]);
      }
    }
  }

  function Joined(s: State, nr: nat): State
    requires nr < |s.flights|
  {
    SetFlight(s, nr, s.flights[nr].(waiters := s.flights[nr].waiters + 1))
  }

  lemma JoinKeepsBooks(s: State, id: nat, nr: nat)
    requires Books(s) && id in s.resolvers && s.resolvers[id].pc.Acquire? && s.entry == Some(nr)
    ensures Books(SetResolver(Joined(s, nr), id, Resolver(Some(nr), Waiting)))
  {
    var s' := SetResolver(Joined(s, nr), id, Resolver(Some(nr), Waiting));
    forall k | 0 <= k < |s'.flights|
      ensures FlightBooked(s', k)
    {
      assert FlightBooked(s, k);
      HoldersUpdate(s.resolvers, id, Resolver(Some(nr), Waiting), k);
    }
    forall other | other in s'.resolvers
      ensures ResolverPlaced(s', s'.resolvers[other])
    {
      if other != id {
        assert ResolverPlaced(s, s.resolvers[other]);
      }
    }
  }

  const NEW_FLIGHT := Flight(false, false, 1, false, Reread)

  function Opened(s: State): State {
    s.(flights := s.flights + [NEW_FLIGHT], entry := Some(|s.flights|))
  }

  lemma OpenKeepsBooks(s: State, id: nat)
    requires Books(s) && id in s.resolvers && s.resolvers[id].pc.Acquire? && s.entry.None?
    ensures Books(SetResolver(Opened(s), id, Resolver(Some(|s.flights|), Waiting)))
  {
    var resolver := Resolver(Some(|s.flights|), Waiting);
    var s' := SetResolver(Opened(s), id, resolver);
    forall k | 0 <= k < |s'.flights|
      ensures FlightBooked(s', k)
    {
      HoldersUpdate(s.resolvers, id, resolver, k);
      if k < |s.flights| {
        assert FlightBooked(s, k);
      } else {
        assert Holders(s.resolvers, k) == {} by {
          forall other | other in s.resolvers
            ensures !Holds(s.resolvers[other], k)
          {
            assert ResolverPlaced(s, s.resolvers[other]);
          }
        }
      }
    }
    forall other | other in s'.resolvers
      ensures ResolverPlaced(s', s'.resolvers[other])
    {
      if other != id {
        assert ResolverPlaced(s, s.resolvers[other]);
      }
    }
  }

  function Left(s: State, nr: nat): State
    requires nr < |s.flights| && s.flights[nr].waiters > 0
  {
    Clear(SetFlight(s, nr, s.flights[nr].(waiters := s.flights[nr].waiters - 1)), nr)
  }

  lemma ReleaseKeepsBooks(s: State, id: nat)
    requires Books(s) && id in s.resolvers && s.resolvers[id].pc.Release?
    requires HasFlight(s, s.resolvers[id]) && s.flights[s.resolvers[id].flight.value].waiters > 0
    ensures Books(SetResolver(Left(s, s.resolvers[id].flight.value), id, s.resolvers[id].(pc := Done)))
  {
    var nr := s.resolvers[id].flight.value;
    var s' := SetResolver(Left(s, nr), id, s.resolvers[id].(pc := Done));
    assert FlightBooked(s, nr);
    forall k | 0 <= k < |s'.flights|
      ensures FlightBooked(s', k)
    {
      assert FlightBooked(s, k);
      HoldersUpdate(s.resolvers, id, s.resolvers[id].(pc := Done), k);
    }
    forall other | other in s'.resolvers
      ensures ResolverPlaced(s', s'.resolvers[other])
    {
      if other != id {
        assert ResolverPlaced(s, s.resolvers[other]);
      }
    }
  }

  lemma SettleKeepsBooks(s: State, nr: nat)
    requires Books(s) && nr < |s.flights|
    ensures Books(SettleStep(s, nr))
  {
    var s' := SettleStep(s, nr);
    forall k | 0 <= k < |s'.flights|
      ensures FlightBooked(s', k)
    {
      assert FlightBooked(s, k) && FlightBooked(s, nr);
    }
    forall other | other in s'.resolvers
      ensures ResolverPlaced(s', s'.resolvers[other])
    {
      assert ResolverPlaced(s, s.resolvers[other]);
    }
  }

  /** Steps of a resolver that neither acquire nor release. */
  lemma CheckingSameCounts(cfg: Config, s: State, id: nat)
    requires id in s.resolvers && s.resolvers[id].pc.Checking?
    requires s.resolvers[id].pc.site == Before || HasFlight(s, s.resolvers[id])
    ensures var s' := CheckingStep(cfg, s, id, s.resolvers[id]);
            && SameCounts(s, s') && id in s'.resolvers && s'.resolvers == s.resolvers[id := s'.resolvers[id]]
            && s'.resolvers[id].flight == s.resolvers[id].flight
            && HoldingPc(s'.resolvers[id].pc) == HoldingPc(s.resolvers[id].pc)
  {}

  lemma CheckingKeepsBooks(cfg: Config, s: State, id: nat)
    requires Books(s) && id in s.resolvers && s.resolvers[id].pc.Checking?
    ensures Books(CheckingStep(cfg, s, id, s.resolvers[id]))
  {
    var s' := CheckingStep(cfg, s, id, s.resolvers[id]);
    assert ResolverPlaced(s, s.resolvers[id]);
    CheckingSameCounts(cfg, s, id);
    hide CheckingStep;
    assert ResolverPlaced(s, s'.resolvers[id]);
    MoveKeepsBooks(s, s', id, s'.resolvers[id]);
  }

  lemma AcquireKeepsBooks(cfg: Config, s: State, id: nat)
    requires Books(s) && id in s.resolvers && s.resolvers[id].pc.Acquire?
    ensures Books(AcquireStep(cfg, s, id, s.resolvers[id]))
  {
    if s.revocations > 0 {
      MoveKeepsBooks(s, SetResolver(s, id, s.resolvers[id].(pc := Done)), id, s.resolvers[id].(pc := Done));
    } else if s.entry.Some? {
      JoinKeepsBooks(s, id, s.entry.value);
    } else if !(LateOpening(s) && !cfg.lateFlights) {
      OpenKeepsBooks(s, id);
    }
  }

  predicate PlainPc(pc: ResolverPc) {
    pc.Read? || pc.Waiting? || pc.PutActive? || pc.MarkExpired?
  }

  lemma PlainMoveSameCounts(cfg: Config, s: State, id: nat)
    requires id in s.resolvers && PlainPc(s.resolvers[id].pc)
    ensures var resolver, s' := s.resolvers[id], ResolverStep(cfg, s, id, s.resolvers[id]);
            && SameCounts(s, s')
            && (s'.resolvers == s.resolvers
                || (&& id in s'.resolvers && s'.resolvers == s.resolvers[id := s'.resolvers[id]]
                    && s'.resolvers[id].flight == resolver.flight
                    && HoldingPc(s'.resolvers[id].pc) == HoldingPc(resolver.pc)))
  {}

  lemma PlainMoveKeepsBooks(cfg: Config, s: State, id: nat)
    requires Books(s) && id in s.resolvers && PlainPc(s.resolvers[id].pc)
    ensures Books(ResolverStep(cfg, s, id, s.resolvers[id]))
  {
    var s' := ResolverStep(cfg, s, id, s.resolvers[id]);
    PlainMoveSameCounts(cfg, s, id);
    assert ResolverPlaced(s, s.resolvers[id]);
    if s'.resolvers == s.resolvers {
      SameCountsKeepBooks(s, s');
    } else {
      hide ResolverStep;
      assert ResolverPlaced(s, s'.resolvers[id]) by {
        PlainMovePlaced(cfg, s, id);
      }
      MoveKeepsBooks(s, s', id, s'.resolvers[id]);
    }
  }

  lemma PlainMovePlaced(cfg: Config, s: State, id: nat)
    requires id in s.resolvers && PlainPc(s.resolvers[id].pc) && ResolverPlaced(s, s.resolvers[id])
    ensures var s' := ResolverStep(cfg, s, id, s.resolvers[id]);
            id in s'.resolvers && ResolverPlaced(s, s'.resolvers[id])
  {
    hide CheckingStep, AcquireStep;
    var pc := s.resolvers[id].pc;
    if pc.Waiting? {
      WaitingMovePlaced(cfg, s, id);
    }
  }

  lemma WaitingMovePlaced(cfg: Config, s: State, id: nat)
    requires id in s.resolvers && s.resolvers[id].pc.Waiting? && ResolverPlaced(s, s.resolvers[id])
    ensures var s' := ResolverStep(cfg, s, id, s.resolvers[id]);
            id in s'.resolvers && ResolverPlaced(s, s'.resolvers[id])
  {
    hide CheckingStep, AcquireStep;
  }

  lemma ReleaseStepKeepsBooks(cfg: Config, s: State, id: nat)
    requires Books(s) && id in s.resolvers && s.resolvers[id].pc.Release?
    ensures Books(ResolverStep(cfg, s, id, s.resolvers[id]))
  {
    assert ResolverPlaced(s, s.resolvers[id]);
    if s.flights[s.resolvers[id].flight.value].waiters > 0 {
      ReleaseKeepsBooks(s, id);
    }
  }

  lemma ResolverKeepsBooks(cfg: Config, s: State, id: nat)
    requires Books(s) && id in s.resolvers
    ensures Books(ResolverStep(cfg, s, id, s.resolvers[id]))
  {
    hide Books;
    var pc := s.resolvers[id].pc;
    if pc.Checking? {
      CheckingKeepsBooks(cfg, s, id);
    } else if pc.Acquire? {
      AcquireKeepsBooks(cfg, s, id);
    } else if pc.Release? {
      ReleaseStepKeepsBooks(cfg, s, id);
    } else if PlainPc(pc) {
      PlainMoveKeepsBooks(cfg, s, id);
    }
  }

  lemma RevokersKeepBooks(s: State, s': State, id: nat, pc: RevokerPc)
    requires Books(s) && SameCounts(s, s'.(revokers := s.revokers, revocations := s.revocations))
    requires s'.resolvers == s.resolvers
    requires s'.revokers == s.revokers[id := pc] && s'.revocations == |Revoking(s'.revokers)|
    ensures Books(s')
  {
    SameCountsKeepBooks(s, s'.(revokers := s.revokers, revocations := s.revocations));
    var mid := s'.(revokers := s.revokers, revocations := s.revocations);
    forall nr | 0 <= nr < |s'.flights|
      ensures FlightBooked(s', nr)
    {
      assert FlightBooked(mid, nr);
    }
    forall other | other in s'.resolvers
      ensures ResolverPlaced(s', s'.resolvers[other])
    {
      assert ResolverPlaced(mid, s'.resolvers[other]);
    }
  }

  lemma RotatorLeavesFlights(cfg: Config, s: State, id: nat, rotated: Credential)
    ensures var s' := Step(cfg, s, StepRotator(id, rotated));
            s'.flights == s.flights && s'.entry == s.entry && s'.revocations == s.revocations
            && s'.revokers == s.revokers && s'.resolvers == s.resolvers && s'.begun == s.begun
  {}

  lemma FlightStepSameCounts(s: State, nr: nat, redeemed: Option<Credential>)
    requires nr < |s.flights|
    ensures SameCounts(s, FlightStep(s, nr, redeemed)) && FlightStep(s, nr, redeemed).resolvers == s.resolvers
  {}

  /** Time, flights and rotations move no count. */
  lemma UncountedSteps(cfg: Config, s: State, action: Action)
    requires action.Age? || action.StartRotation? || action.StepRotator? || action.StepFlight?
    ensures SameCounts(s, Step(cfg, s, action)) && Step(cfg, s, action).resolvers == s.resolvers
  {
    if action.StepRotator? {
      RotatorLeavesFlights(cfg, s, action.id, action.rotated);
      hide Step;
    } else if action.StepFlight? {
      if action.nr < |s.flights| {
        FlightStepSameCounts(s, action.nr, action.redeemed);
      }
    }
  }

  lemma RevocationKeepsBooks(cfg: Config, s: State, id: nat)
    requires Books(s) && id !in s.revokers
    ensures Books(Step(cfg, s, StartRevocation(id)))
  {
    RevokingUpdate(s.revokers, id, Delete);
    RevokersKeepBooks(s, Step(cfg, s, StartRevocation(id)), id, Delete);
  }

  lemma RevokerKeepsBooks(cfg: Config, s: State, id: nat)
    requires Books(s) && id in s.revokers && s.revokers[id] != Returned
    ensures Books(Step(cfg, s, StepRevoker(id)))
  {
    var s' := Step(cfg, s, StepRevoker(id));
    RevokingUpdate(s.revokers, id, s'.revokers[id]);
    MemberMeansNonempty(Revoking(s.revokers), id);
    RevokersKeepBooks(s, s', id, s'.revokers[id]);
  }

  lemma StepKeepsBooks(cfg: Config, s: State, action: Action)
    requires Books(s)
    ensures Books(Step(cfg, s, action))
  {
    match action
    case StartResolve(id) =>
      if id !in s.resolvers { MoveKeepsBooks(s, Step(cfg, s, action), id, Resolver(None, Read)); }
    case StepResolver(id) =>
      if id in s.resolvers { ResolverKeepsBooks(cfg, s, id); }
    case Settle(nr) =>
      if nr < |s.flights| { SettleKeepsBooks(s, nr); }
    case StartRevocation(id) =>
      if id !in s.revokers { RevocationKeepsBooks(cfg, s, id); }
    case StepRevoker(id) =>
      if id in s.revokers && s.revokers[id] != Returned { RevokerKeepsBooks(cfg, s, id); }
    case _ =>
      hide Books;
      UncountedSteps(cfg, s, action);
      SameCountsKeepBooks(s, Step(cfg, s, action));
  }
}
