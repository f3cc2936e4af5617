/** Runs in which a refresh that begins after a revocation outlives it, and exactly when revocation is final. */
module CredentialLateFlights {
  import opened Wrappers
  import opened Credentials
  import opened CredentialTheorems
  import opened CredentialRuns

  const STALE := Credential(true)

  function Held(s: State, id: nat, pc: ResolverPc): State
    requires id in s.resolvers
  {
    s.(resolvers := s.resolvers[id := s.resolvers[id].(pc := pc)])
  }

  predicate Uncancelled(s: State, resolver: Resolver) {
    HasFlight(s, resolver) ==> !s.flights[resolver.flight.value].cancelled
  }

  /** A step of a check that finds no trace of a revocation. */
  lemma ResolverMoves(cfg: Config, start: State, s: State, id: nat, site: Site, check: Check, next: ResolverPc)
    returns (s': State)
    requires Reachable(cfg, start, s) && id in s.resolvers && s.resolvers[id].pc == Checking(site, check)
    requires Uncancelled(s, s.resolvers[id]) && !check.DeleteSecret? && !check.MarkRevoked? && !Cancels(check)
    requires var outcome := CheckNext(cfg, s, false, check);
             if outcome.Going? then next == Checking(site, outcome.check)
               else outcome.Passed? && next == OnPassed(cfg, site)
    ensures s' == Held(s, id, next) && Reachable(cfg, start, s')
  {
    hide Reachable, CheckNext;
    s' := Go(cfg, start, s, StepResolver(id));
  }

  lemma ResolverPasses(cfg: Config, start: State, s: State, id: nat, site: Site) returns (s': State)
    requires Reachable(cfg, start, s) && id in s.resolvers && s.resolvers[id].pc == Checking(site, Enter)
    requires Uncancelled(s, s.resolvers[id]) && s.revocations == 0 && s.secret.Some? && s.stored != Some(Revoked)
    ensures s' == Held(s, id, OnPassed(cfg, site)) && Reachable(cfg, start, s')
  {
    hide Reachable, OnPassed;
    var stored := if cfg.connections then s.stored else None;
    if cfg.connections {
      s' := ResolverMoves(cfg, start, s, id, site, Enter, Checking(site, ReadStored(false)));
      s' := ResolverMoves(cfg, start, s', id, site, ReadStored(false), Checking(site, ReadSecret(stored)));
    } else {
      s' := ResolverMoves(cfg, start, s, id, site, Enter, Checking(site, ReadSecret(stored)));
    }
    s' := ResolverMoves(cfg, start, s', id, site, ReadSecret(stored), Checking(site, Verdict(false, stored)));
    s' := ResolverMoves(cfg, start, s', id, site, Verdict(false, stored), OnPassed(cfg, site));
  }

  const OPENED := Flight(false, false, 1, false, Reread)

  /** A resolver finds the secret expired, passes its first check and opens a flight. */
  lemma OpensFlight(cfg: Config, start: State, s: State) returns (s': State)
    requires cfg.lateFlights && Reachable(cfg, start, s) && s.resolvers == map[] && s.flights == [] && s.entry.None?
    requires s.revocations == 0 && s.secret == Some(STALE) && s.stored != Some(Revoked)
    ensures s' == s.(resolvers := map[0 := Resolver(Some(0), Waiting)], flights := [OPENED], entry := Some(0))
    ensures Reachable(cfg, start, s')
  {
    hide Reachable, CheckNext, LateOpening;
    s' := Go(cfg, start, s, StartResolve(0));
    s' := Go(cfg, start, s', StepResolver(0));
    assert s'.resolvers == map[0 := Resolver(None, Checking(Before, Enter))];
    s' := ResolverPasses(cfg, start, s', 0, Before);
    s' := Go(cfg, start, s', StepResolver(0));
    assert s'.resolvers == map[0 := Resolver(Some(0), Waiting)];
  }

  function Flown(s: State, pc: FlightPc): State
    requires |s.flights| == 1
  {
    s.(flights := [s.flights[0].(pc := pc)])
  }

  /** The flight rereads, redeems and is about to store the new credential. */
  lemma FlightRedeems(cfg: Config, start: State, s: State) returns (s': State)
    requires Reachable(cfg, start, s) && s.flights == [OPENED] && s.secret == Some(STALE)
    ensures s' == Flown(s, PutSecret(TOKEN)) && Reachable(cfg, start, s')
  {
    hide Reachable;
    s' := Go(cfg, start, s, StepFlight(0, Some(TOKEN)));
    assert s' == Flown(s, Redeem);
    s' := Go(cfg, start, s', StepFlight(0, Some(TOKEN)));
    assert s' == Flown(s, CheckRedeemed(TOKEN));
    s' := Go(cfg, start, s', StepFlight(0, Some(TOKEN)));
    assert s' == Flown(s, PutSecret(TOKEN));
  }

  /** It stores the credential and settles. */
  lemma FlightStores(cfg: Config, start: State, s: State) returns (s': State)
    requires Reachable(cfg, start, s) && s.flights == [OPENED.(pc := PutSecret(TOKEN))] && s.entry == Some(0)
    ensures s' == s.(secret := Some(TOKEN), flights := [Flight(false, true, 1, false, Resolved)])
    ensures Reachable(cfg, start, s')
  {
    hide Reachable;
    s' := Go(cfg, start, s, StepFlight(0, None));
    assert s' == Flown(s, CheckPut).(secret := Some(TOKEN));
    s' := Go(cfg, start, s', StepFlight(0, None));
    assert s' == Flown(s, Resolved).(secret := Some(TOKEN));
    s' := Go(cfg, start, s', Settle(0));
    assert s'.flights == [Flight(false, true, 1, false, Resolved)];
  }

  const SETTLED := Flight(false, true, 1, false, Resolved)

  /** The resolver hears of it and passes its second check. */
  lemma ResolverHears(cfg: Config, start: State, s: State) returns (s': State)
    requires Reachable(cfg, start, s) && s.flights == [SETTLED] && s.resolvers == map[0 := Resolver(Some(0), Waiting)]
    requires s.revocations == 0 && s.secret.Some? && s.stored != Some(Revoked)
    ensures s' == Held(s, 0, OnPassed(cfg, After)) && Reachable(cfg, start, s')
  {
    hide Reachable, CheckNext, OnPassed;
    s' := Go(cfg, start, s, StepResolver(0));
    assert s' == Held(s, 0, Checking(After, Enter));
    s' := ResolverPasses(cfg, start, s', 0, After);
  }

  /** It writes the connection, passes its last check, and leaves. */
  lemma ResolverWritesActive(cfg: Config, start: State, s: State) returns (s': State)
    requires Reachable(cfg, start, s) && s.flights == [SETTLED] && s.resolvers == map[0 := Resolver(Some(0), PutActive)]
    requires s.revocations == 0 && s.secret.Some?
    ensures s' == Held(s, 0, Release).(stored := Some(Active)) && Reachable(cfg, start, s')
  {
    hide Reachable, CheckNext;
    s' := Go(cfg, start, s, StepResolver(0));
    assert s' == Held(s, 0, Checking(Confirm, Enter)).(stored := Some(Active));
    s' := ResolverPasses(cfg, start, s', 0, Confirm);
  }

  lemma ResolverLeaves(cfg: Config, start: State, s: State) returns (s': State)
    requires Reachable(cfg, start, s) && s.flights == [SETTLED] && s.entry == Some(0)
    requires s.resolvers == map[0 := Resolver(Some(0), Release)]
    ensures Reachable(cfg, start, s') && s'.entry.None? && s'.secret == s.secret && s'.stored == s.stored
    ensures s'.begun == s.begun && s'.rotators == s.rotators && s'.revokers == s.revokers
  {
    hide Reachable;
    s' := Go(cfg, start, s, StepResolver(0));
  }

  /** The secret grows old. */
  lemma Ages(cfg: Config, start: State, s: State) returns (s': State)
    requires Reachable(cfg, start, s) && s.secret.Some?
    ensures s' == s.(secret := Some(STALE)) && Reachable(cfg, start, s')
  {
    hide Reachable;
    s' := Go(cfg, start, s, Age);
  }

  // --- Without a connection store -----------------------------------------------------------

  function PlainFlight(start: State, secret: Option<Credential>, pc: RotatorPc, flight: Flight): State {
    start.(begun := true, revokers := map[0 := Returned], secret := secret,
           rotators := map[0 := Rotator(true, true, pc)],
           resolvers := map[0 := Resolver(Some(0), Waiting)], flights := [flight], entry := Some(0))
  }

  /** A cancelled rotation puts its secret back, and a flight opens over it. */
  lemma PlainFlightOpens(cfg: Config, start: State) returns (s: State)
    requires !cfg.connections && cfg.lateFlights && start == Initial(Some(TOKEN), None)
    ensures Reachable(cfg, start, s)
    ensures s == PlainFlight(start, Some(STALE), Guard(2, Enter), OPENED)
  {
    hide Reachable;
    s := SecretComesBack(cfg, start);
    s := Ages(cfg, start, s);
    s := OpensFlight(cfg, start, s);
  }

  lemma LateFlightKeepsSecret(cfg: Config, start: State) returns (s: State)
    requires !cfg.connections && cfg.lateFlights && start == Initial(Some(TOKEN), None)
    ensures Reachable(cfg, start, s) && Drained(s) && s.secret.Some?
  {
    hide Reachable;
    s := PlainFlightOpens(cfg, start);
    s := FlightRedeems(cfg, start, s);
    s := BacksOut(cfg, start, s, 0, 2);
    s := Moves(cfg, start, s, 0, Closed);
    assert s == PlainFlight(start, None, Closed, OPENED.(pc := PutSecret(TOKEN)));
    s := FlightStores(cfg, start, s);
    s := ResolverHears(cfg, start, s);
    s := ResolverLeaves(cfg, start, s);
  }

  // --- With a connection store --------------------------------------------------------------

  function StoredFlight(start: State, secret: Option<Credential>, stored: Status, zero: RotatorPc, one: RotatorPc,
                        pc: ResolverPc, flight: Flight): State {
    start.(begun := true, revokers := map[0 := Returned], secret := secret, stored := Some(stored),
           rotators := map[0 := Rotator(true, true, zero), 1 := Rotator(true, true, one)],
           resolvers := map[0 := Resolver(Some(0), pc)], flights := [flight], entry := Some(0))
  }

  /** Two cancelled rotations write the connection and the secret back, and a flight opens over both. */
  lemma StoredFlightOpens(cfg: Config, start: State) returns (s: State)
    requires cfg.connections && cfg.lateFlights && start == Initial(Some(TOKEN), Some(Active))
    ensures Reachable(cfg, start, s)
    ensures s == StoredFlight(start, Some(STALE), Active, Guard(3, Enter), Guard(2, Enter), Waiting, OPENED)
  {
    hide Reachable;
    s := TwoRotationsUnderWay(cfg, start);
    s := Revokes(cfg, start, s);
    assert s.rotators == map[0 := Rotator(true, true, StoreActive), 1 := Rotator(true, true, StoreSecret)];
    s := StoresActive(cfg, start, s, 0);
    s := StoresSecret(cfg, start, s, 1);
    s := Ages(cfg, start, s);
    s := OpensFlight(cfg, start, s);
    assert s.rotators == map[0 := Rotator(true, true, Guard(3, Enter)), 1 := Rotator(true, true, Guard(2, Enter))];
  }

  /** The rotations delete the secret before the flight stores its own, which the resolver then sees. */
  lemma StoredFlightSettles(cfg: Config, start: State) returns (s: State)
    requires cfg.connections && cfg.lateFlights && start == Initial(Some(TOKEN), Some(Active))
    ensures Reachable(cfg, start, s)
    ensures s ==
              StoredFlight(start, Some(TOKEN), Active, Guard(3, MarkRevoked), Guard(2, MarkRevoked), PutActive, SETTLED)
  {
    hide Reachable;
    s := StoredFlightOpens(cfg, start);
    s := FlightRedeems(cfg, start, s);
    s := BacksOut(cfg, start, s, 0, 3);
    s := BacksOut(cfg, start, s, 1, 2);
    assert s == StoredFlight(start, None, Active, Guard(3, MarkRevoked), Guard(2, MarkRevoked), Waiting,
                             OPENED.(pc := PutSecret(TOKEN)));
    s := FlightStores(cfg, start, s);
    s := ResolverHears(cfg, start, s);
  }

  /** The resolver writes the connection after both rotations have marked it revoked. */
  lemma LateFlightRevives(cfg: Config, start: State) returns (s: State)
    requires cfg.connections && cfg.lateFlights && start == Initial(Some(TOKEN), Some(Active))
    ensures Reachable(cfg, start, s) && Drained(s) && s.secret.Some? && s.stored == Some(Active)
  {
    hide Reachable;
    s := StoredFlightSettles(cfg, start);
    s := MarksAndCloses(cfg, start, s, 0, 3);
    s := MarksAndCloses(cfg, start, s, 1, 2);
    assert s == StoredFlight(start, Some(TOKEN), Revoked, Closed, Closed, PutActive, SETTLED);
    s := ResolverWritesActive(cfg, start, s);
    s := ResolverLeaves(cfg, start, s);
  }

  // --- Exactly when -------------------------------------------------------------------------

  lemma LateFlightsBreakIt(cfg: Config)
    requires cfg.lateFlights
    ensures !RevocationHolds(cfg)
  {
    hide Reachable, Drained;
    if cfg.connections {
      var s := LateFlightRevives(cfg, Initial(Some(TOKEN), Some(Active)));
      assert !Clean(cfg, s);
    } else {
      var s := LateFlightKeepsSecret(cfg, Initial(Some(TOKEN), None));
      assert !Clean(cfg, s);
    }
  }

  lemma LateLeasesBreakIt(cfg: Config)
    requires cfg.lateLeases
    ensures !RevocationHolds(cfg)
  {
    hide Reachable, Drained;
    if cfg.connections {
      var s := LateRotationRevives(cfg, Initial(Some(TOKEN), Some(Active)));
      assert !Clean(cfg, s);
    } else {
      var s := LateRotationKeepsSecret(cfg, Initial(Some(TOKEN), None));
      assert !Clean(cfg, s);
    }
  }

  /**
    Revocation is final, in every run, exactly when after it has returned neither a flight nor a
    lease is opened while one that it cancelled is still open.
    */
  lemma RevocationHoldsIffNothingOpensLate(cfg: Config)
    ensures RevocationHolds(cfg) <==> !cfg.lateFlights && !cfg.lateLeases
  {
    if cfg.lateFlights {
      LateFlightsBreakIt(cfg);
    } else if cfg.lateLeases {
      LateLeasesBreakIt(cfg);
    } else {
      forall secret, stored, s | Reachable(cfg, Initial(secret, stored), s) && Drained(s)
        ensures Clean(cfg, s)
      {
        RevocationHoldsWithoutLateOpenings(cfg, secret, stored, s);
      }
    }
  }
}
