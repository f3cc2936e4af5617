/** What revocation guarantees, exactly when it does, and what the refresh bookkeeping is worth. */
module CredentialTheorems {
  import opened Wrappers
  import opened Credentials
  import opened CredentialInvariant
  import CredentialSteps
  import CredentialSafety

  predicate Reaches(cfg: Config, start: State, actions: seq<Action>, s: State) {
    Run(cfg, start, actions) == s
  }

  ghost predicate Reachable(cfg: Config, start: State, s: State) {
    exists actions :: Reaches(cfg, start, actions, s)
  }

  lemma {:induction false} RunKeepsInv(cfg: Config, s: State, actions: seq<Action>)
    requires Books(s) && Safe(cfg, s)
    ensures Books(Run(cfg, s, actions))
    ensures NothingLate(cfg) ==> Safe(cfg, Run(cfg, s, actions))
    decreases |actions|
  {
    if actions == [] {
    } else {
      var before := actions[..|actions| - 1];
      RunKeepsInv(cfg, s, before);
      CredentialSteps.StepKeepsBooks(cfg, Run(cfg, s, before), actions[|actions| - 1]);
      if NothingLate(cfg) {
        CredentialSafety.StepKeepsSafe(cfg, Run(cfg, s, before), actions[|actions| - 1]);
      }
    }
  }

  lemma ReachableInv(cfg: Config, secret: Option<Credential>, stored: Option<Status>, s: State)
    requires Reachable(cfg, Initial(secret, stored), s)
    ensures Books(s)
    ensures NothingLate(cfg) ==> Safe(cfg, s)
  {
    var actions :| Reaches(cfg, Initial(secret, stored), actions, s);
    RunKeepsInv(cfg, Initial(secret, stored), actions);
  }

  // --- Single flight ------------------------------------------------------------------

  /** A flight that has not settled: it may be redeeming the provider's rotating refresh token. */
  predicate Running(flight: Flight) {
    !flight.settled
  }

  /** At most one flight of a key runs at a time, so its refresh token is redeemed by one flight only. */
  lemma OneFlightAtATime(cfg: Config, secret: Option<Credential>, stored: Option<Status>, s: State, m: nat, n: nat)
    requires Reachable(cfg, Initial(secret, stored), s)
    requires m < |s.flights| && n < |s.flights| && Running(s.flights[m]) && Running(s.flights[n])
    ensures m == n
  {
    ReachableInv(cfg, secret, stored, s);
    assert FlightBooked(s, m) && FlightBooked(s, n);
  }

  predicate Redeems(s: State, nr: nat) {
    nr < |s.flights| && s.flights[nr].pc.Redeem?
  }

  /** A flight redeems only after its own reread found an expired credential. */
  lemma RedeemsWhatItRereadAsExpired(cfg: Config, s: State, action: Action, nr: nat)
    requires nr < |s.flights| && !Redeems(s, nr) && Redeems(Step(cfg, s, action), nr)
    ensures action.StepFlight? && action.nr == nr && s.flights[nr].pc == Reread
    ensures s.secret.Some? && s.secret.value.expired
  {
    if !action.StepFlight? {
      OthersKeepFlights(cfg, s, action, nr);
    }
  }

  lemma OthersKeepFlights(cfg: Config, s: State, action: Action, nr: nat)
    requires !action.StepFlight? && nr < |s.flights|
    ensures nr < |Step(cfg, s, action).flights| && Step(cfg, s, action).flights[nr].pc == s.flights[nr].pc
  {
    hide CheckNext, ResolverStep, RotatorStep, RevokerStep, LateOpening;
    match action
    case StepResolver(id) => if id in s.resolvers { ResolverNeverRedeems(cfg, s, id, nr); }
    case StepRotator(id, rotated) => if id in s.rotators { RotatorKeepsFlights(cfg, s, id, rotated); }
    case StepRevoker(id) => if id in s.revokers { RevokerKeepsFlights(cfg, s, id); }
    case _ =>
  }

  lemma RevokerKeepsFlights(cfg: Config, s: State, id: nat)
    requires id in s.revokers
    ensures RevokerStep(cfg, s, id, s.revokers[id]).flights == s.flights
  {}

  lemma RotatorKeepsFlights(cfg: Config, s: State, id: nat, rotated: Credential)
    requires id in s.rotators
    ensures RotatorStep(cfg, s, id, s.rotators[id], rotated).flights == s.flights
  {
    hide RotatorNext, SecretAfterRotator, StoredAfterRotator;
  }

  predicate SamePcs(s: State, s': State) {
    |s.flights| <= |s'.flights| && forall nr :: 0 <= nr < |s.flights| ==> s'.flights[nr].pc == s.flights[nr].pc
  }

  lemma CheckingKeepsPcs(cfg: Config, s: State, id: nat, resolver: Resolver)
    requires resolver.pc.Checking?
    ensures SamePcs(s, CheckingStep(cfg, s, id, resolver))
  {
    hide CheckNext, SecretAfterCheck, StoredAfterCheck;
  }

  lemma AcquireKeepsPcs(cfg: Config, s: State, id: nat, resolver: Resolver)
    ensures SamePcs(s, AcquireStep(cfg, s, id, resolver))
  {
    hide LateOpening;
  }

  lemma ResolverNeverRedeems(cfg: Config, s: State, id: nat, nr: nat)
    requires id in s.resolvers && nr < |s.flights|
    ensures var s' := ResolverStep(cfg, s, id, s.resolvers[id]);
            nr < |s'.flights| && s'.flights[nr].pc == s.flights[nr].pc
  {
    hide CheckingStep, AcquireStep;
    AcquireKeepsPcs(cfg, s, id, s.resolvers[id]);
    if s.resolvers[id].pc.Checking? {
      CheckingKeepsPcs(cfg, s, id, s.resolvers[id]);
    }
  }

  /**
    The waiter and revocation counts equal the open holders, and the map entry of a flight is
    dropped exactly when the flight is settled and nobody waits for it.
    */
  lemma CountsAreExact(cfg: Config, secret: Option<Credential>, stored: Option<Status>, s: State, nr: nat)
    requires Reachable(cfg, Initial(secret, stored), s) && nr < |s.flights|
    ensures s.flights[nr].waiters == |Holders(s.resolvers, nr)|
    ensures s.revocations == |Revoking(s.revokers)|
    ensures s.entry != Some(nr) <==> s.flights[nr].settled && Holders(s.resolvers, nr) == {}
  {
    ReachableInv(cfg, secret, stored, s);
    assert FlightBooked(s, nr);
  }

  // --- Revocation ---------------------------------------------------------------------

  lemma Go(cfg: Config, start: State, s: State, action: Action) returns (s': State)
    requires Reachable(cfg, start, s)
    ensures s' == Step(cfg, s, action) && Reachable(cfg, start, s')
  {
    var actions :| Reaches(cfg, start, actions, s);
    s' := Step(cfg, s, action);
    assert (actions + [action])[..|actions|] == actions;
    assert Reaches(cfg, start, actions + [action], s');
  }

  ghost predicate RevocationHolds(cfg: Config) {
    forall secret, stored, s :: Reachable(cfg, Initial(secret, stored), s) && Drained(s) ==> Clean(cfg, s)
  }

  /** Once everything has drained, the secret is gone and the connection is not active. */
  lemma RevocationHoldsWithoutLateOpenings(cfg: Config, secret: Option<Credential>, stored: Option<Status>, s: State)
    requires NothingLate(cfg) && Reachable(cfg, Initial(secret, stored), s) && Drained(s)
    ensures s.secret.None?
    ensures cfg.connections ==> s.stored != Some(Active)
  {
    ReachableInv(cfg, secret, stored, s);
    DrainedIsClean(cfg, s);
  }
}
