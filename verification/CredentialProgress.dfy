/** What one refresh or one rotation comes to when nothing else touches its key meanwhile. */
module CredentialProgress {
  import opened Wrappers
  import opened Credentials

  /** The check is on its way to letting the operation pass. */
  predicate Passing(cfg: Config, check: Check) {
    match check
    case Enter => true
    case ReadStored(revoked) => cfg.connections && !revoked
    case ReadSecret(_) => true
    case Verdict(revoked, _) => !revoked
    case _ => false
  }

  /** A revocation runs, or the connection is marked revoked. */
  predicate Barred(cfg: Config, s: State) {
    s.revocations > 0 || (cfg.connections && s.stored == Some(Revoked))
  }

  /** The check is on its way to deleting the secret and marking the connection that `s` holds. */
  predicate Barring(cfg: Config, s: State, check: Check) {
    match check
    case Enter => true
    case ReadStored(revoked) => cfg.connections && (revoked || s.stored == Some(Revoked) || s.secret.None?)
    case ReadSecret(stored) => s.secret.None? && (cfg.connections ==> stored == s.stored)
    case Verdict(revoked, stored) => revoked && (cfg.connections ==> stored == s.stored)
    case DeleteSecret(stored) => cfg.connections ==> stored == s.stored
    case MarkRevoked => cfg.connections
  }

  /** The secret while a barring check is on its way. */
  function SecretBarred(check: Check, secret: Option<Credential>): Option<Credential> {
    if check.MarkRevoked? then None else secret
  }

  function StatusOr(cfg: Config, status: Status, stored: Option<Status>): Option<Status> {
    if cfg.connections then Some(status) else stored
  }

  lemma CheckPasses(cfg: Config, s: State, check: Check)
    requires Passing(cfg, check) && !Barred(cfg, s) && s.secret.Some?
    ensures SecretAfterCheck(check, s.secret) == s.secret && StoredAfterCheck(check, s.stored) == s.stored
    ensures !Cancels(check)
    ensures var outcome := CheckNext(cfg, s, false, check);
            outcome.Passed? || (outcome.Going? && Passing(cfg, outcome.check))
  {}

  /** A barring check goes on until it has deleted the secret and the connection is marked revoked. */
  lemma CheckBars(cfg: Config, from: State, s: State, cancelled: bool, check: Check)
    requires Barring(cfg, from, check) && (Barred(cfg, from) || from.secret.None?)
    requires from.revocations > 0 ==> cancelled || s.revocations > 0
    requires s.stored == from.stored && s.secret == SecretBarred(check, from.secret)
    ensures var outcome := CheckNext(cfg, s, cancelled, check);
            var secret, stored := SecretAfterCheck(check, s.secret), StoredAfterCheck(check, s.stored);
            if outcome.Going? then
              Barring(cfg, from, outcome.check) && secret == SecretBarred(outcome.check, from.secret)
              && stored == from.stored
            else outcome.Threw? && secret.None? && stored == StatusOr(cfg, Revoked, from.stored)
  {}

  function CheckRank(check: Check): nat {
    match check
    case Enter => 5
    case ReadStored(_) => 4
    case ReadSecret(_) => 3
    case Verdict(_, _) => 2
    case DeleteSecret(_) => 1
    case MarkRevoked => 0
  }

  lemma CheckFalls(cfg: Config, s: State, cancelled: bool, check: Check)
    ensures var outcome := CheckNext(cfg, s, cancelled, check);
            outcome.Going? ==> CheckRank(outcome.check) < CheckRank(check)
  {}

  // --- Rotations ------------------------------------------------------------------------

  /** Nothing stands against a rotation that begins here. */
  predicate Rotatable(cfg: Config, s: State) {
    !Barred(cfg, s) && s.secret.Some?
  }

  predicate RotatedSoFar(cfg: Config, from: State, s: State, pc: RotatorPc, rotated: Credential) {
    match pc
    case Guard(nr, check) =>
      && 1 <= nr <= 4 && Passing(cfg, check)
      && s.secret == (if nr == 1 then from.secret else Some(rotated))
      && s.stored == (if nr <= 2 then from.stored else StatusOr(cfg, Active, from.stored))
      && (nr == 3 ==> cfg.connections)
    case StoreSecret => s.secret == from.secret && s.stored == from.stored
    case StoreActive => cfg.connections && s.secret == Some(rotated) && s.stored == from.stored
    case _ => s.secret == Some(rotated) && s.stored == StatusOr(cfg, Active, from.stored)
  }

  predicate RefusedSoFar(cfg: Config, from: State, s: State, pc: RotatorPc) {
    match pc
    case Guard(nr, check) =>
      nr == 1 && Barring(cfg, from, check) && s.secret == SecretBarred(check, from.secret) && s.stored == from.stored
    case Close => s.secret.None? && s.stored == StatusOr(cfg, Revoked, from.stored)
    case Closed => s.secret.None? && s.stored == StatusOr(cfg, Revoked, from.stored)
    case _ => false
  }

  /** Where one rotation on its own can be, `from` being the state in which it began. */
  predicate RotatesAlone(cfg: Config, from: State, s: State, id: nat, rotated: Credential) {
    && id in s.rotators
    && s == from.(secret := s.secret, stored := s.stored, rotators := from.rotators[id := s.rotators[id]])
    && (if Rotatable(cfg, from) then
          !s.rotators[id].cancelled && RotatedSoFar(cfg, from, s, s.rotators[id].pc, rotated)
        else
          (from.revocations > 0 ==> s.rotators[id].cancelled) && RefusedSoFar(cfg, from, s, s.rotators[id].pc))
  }

  lemma RotatorStaysAlone(cfg: Config, from: State, s: State, id: nat, rotated: Credential)
    requires RotatesAlone(cfg, from, s, id, rotated)
    ensures RotatesAlone(cfg, from, Step(cfg, s, StepRotator(id, rotated)), id, rotated)
  {
    var rotator := s.rotators[id];
    if rotator.pc.Guard? {
      if Rotatable(cfg, from) {
        CheckPasses(cfg, s, rotator.pc.check);
      } else {
        CheckBars(cfg, from, s, rotator.cancelled, rotator.pc.check);
      }
      hide CheckNext, SecretAfterCheck, StoredAfterCheck, Cancels;
    }
  }

  /** So many steps of one rotation and of nothing else. */
  function Rotations(cfg: Config, s: State, id: nat, rotated: Credential, n: nat): State {
    if n == 0 then s else Step(cfg, Rotations(cfg, s, id, rotated, n - 1), StepRotator(id, rotated))
  }

  lemma {:induction false} RotationsStayAlone(cfg: Config, from: State, s: State, id: nat, rotated: Credential, n: nat)
    requires RotatesAlone(cfg, from, s, id, rotated)
    ensures RotatesAlone(cfg, from, Rotations(cfg, s, id, rotated, n), id, rotated)
  {
    if n == 0 {
    } else {
      hide RotatesAlone, Step;
      RotationsStayAlone(cfg, from, s, id, rotated, n - 1);
      RotatorStaysAlone(cfg, from, Rotations(cfg, s, id, rotated, n - 1), id, rotated);
    }
  }

  function RotatorRank(pc: RotatorPc): nat {
    match pc
    case Guard(nr, check) =>
      CheckRank(check) + (if nr == 1 then 23 else if nr == 2 then 16 else if nr == 3 then 9 else 2)
    case StoreSecret => 22
    case StoreActive => 15
    case Hook => 8
    case Close => 1
    case Closed => 0
  }

  lemma RotatorFalls(cfg: Config, s: State, rotator: Rotator)
    requires !rotator.pc.Closed?
    ensures RotatorRank(RotatorNext(cfg, s, rotator)) < RotatorRank(rotator.pc)
  {
    if rotator.pc.Guard? {
      CheckFalls(cfg, s, rotator.cancelled, rotator.pc.check);
      hide CheckNext, CheckRank;
    }
  }

  lemma {:induction false} RotationsFall(cfg: Config, s: State, id: nat, rotated: Credential, n: nat)
    requires id in s.rotators && RotatorRank(s.rotators[id].pc) <= 28
    ensures var s' := Rotations(cfg, s, id, rotated, n);
            id in s'.rotators && (RotatorRank(s'.rotators[id].pc) <= 28 - n || s'.rotators[id].pc.Closed?)
  {
    if n == 0 {
    } else {
      RotationsFall(cfg, s, id, rotated, n - 1);
      var s' := Rotations(cfg, s, id, rotated, n - 1);
      hide RotatorNext, RotatorRank, SecretAfterRotator, StoredAfterRotator;
      if !s'.rotators[id].pc.Closed? {
        RotatorFalls(cfg, s', s'.rotators[id]);
      } else {
        ClosedStays(cfg, s', s'.rotators[id]);
      }
    }
  }

  lemma ClosedStays(cfg: Config, s: State, rotator: Rotator)
    requires rotator.pc.Closed?
    ensures RotatorNext(cfg, s, rotator) == Closed
  {}

  /**
    A rotation left alone ends within 28 steps. It has then stored its credential and made the
    connection active; if a revocation ran or had marked the connection, or there was no
    credential to replace, it has left no secret behind and the connection revoked. Nothing else
    has changed.
    */
  lemma UndisturbedRotationStores(cfg: Config, s: State, id: nat, rotated: Credential, n: nat)
    requires id !in s.rotators && (cfg.lateLeases || !LateOpening(s)) && n >= 28
    ensures
      var s' := Rotations(cfg, Step(cfg, s, StartRotation(id)), id, rotated, n);
      && id in s'.rotators && s'.rotators[id].pc.Closed?
      && s' == s.(secret := s'.secret, stored := s'.stored, rotators := s.rotators[id := s'.rotators[id]])
      && (if s.secret.Some? && s.revocations == 0 && !(cfg.connections && s.stored == Some(Revoked)) then
            s'.secret == Some(rotated) && s'.stored == if cfg.connections then Some(Active) else s.stored
          else
            s'.secret.None? && s'.stored == if cfg.connections then Some(Revoked) else s.stored)
  {
    var begun := Step(cfg, s, StartRotation(id));
    assert RotatesAlone(cfg, s, begun, id, rotated);
    RotationsStayAlone(cfg, s, begun, id, rotated, n);
    RotationsFall(cfg, begun, id, rotated, n);
    hide Rotations;
  }

  // --- Refreshes ------------------------------------------------------------------------

  /** A step that belongs to the resolver or to the flight with the given number. */
  predicate Own(action: Action, id: nat, nr: nat, redeemed: Option<Credential>) {
    action == StepResolver(id) || action == StepFlight(nr, redeemed) || action == Settle(nr)
  }

  predicate NeedsRefresh(s: State) {
    s.secret.Some? && s.secret.value.expired
  }

  /** Before a flight, and without one. */
  predicate Grounded(cfg: Config, from: State, s: State, pc: ResolverPc) {
    match pc
    case Read => s.secret == from.secret && s.stored == from.stored
    case Checking(site, check) =>
      && site == Before && NeedsRefresh(from) && s.stored == from.stored
      && (if Barred(cfg, from) then Barring(cfg, from, check) && s.secret == SecretBarred(check, from.secret)
          else Passing(cfg, check) && s.secret == from.secret)
    case Acquire => NeedsRefresh(from) && !Barred(cfg, from) && s.secret == from.secret && s.stored == from.stored
    case Done =>
      if NeedsRefresh(from)
      then Barred(cfg, from) && s.secret.None? && s.stored == StatusOr(cfg, Revoked, from.stored)
      else s.secret == from.secret && s.stored == from.stored
    case _ => false
  }

  /** What a flight makes of the secret, and what the provider answered by then. */
  predicate Flies(from: State, secret: Option<Credential>, pc: FlightPc, redeemed: Option<Credential>) {
    match pc
    case Reread => secret == from.secret
    case Redeem => secret == from.secret
    case CheckRedeemed(token) => secret == from.secret && redeemed == Some(token)
    case PutSecret(token) => secret == from.secret && redeemed == Some(token)
    case CheckPut => redeemed.Some? && secret == redeemed
    case Resolved => redeemed.Some? && secret == redeemed
    case Rejected(revoked) => !revoked && redeemed.None? && secret == from.secret
    case Compensate => false
  }

  predicate Landed(cfg: Config, from: State, stored: Option<Status>, flight: FlightPc) {
    if flight.Resolved? then stored == StatusOr(cfg, Active, from.stored)
    else flight.Rejected? && stored == StatusOr(cfg, Expired, from.stored)
  }

  predicate Awaits(cfg: Config, from: State, stored: Option<Status>, pc: ResolverPc, flight: FlightPc) {
    match pc
    case Waiting => stored == from.stored
    case Checking(site, check) =>
      && flight.Resolved? && Passing(cfg, check)
      && ((site == After && stored == from.stored)
          || (site == Confirm && cfg.connections && stored == Some(Active)))
    case PutActive => cfg.connections && flight.Resolved? && stored == from.stored
    case MarkExpired => cfg.connections && flight.Rejected? && stored == from.stored
    case Release => Landed(cfg, from, stored, flight)
    case Done => Landed(cfg, from, stored, flight)
    case _ => false
  }

  predicate Airborne(cfg: Config, from: State, s: State, resolver: Resolver, redeemed: Option<Credential>) {
    && NeedsRefresh(from) && !Barred(cfg, from)
    && resolver.flight == Some(|from.flights|)
    && |s.flights| == |from.flights| + 1 && s.flights[..|from.flights|] == from.flights
    && var flight := s.flights[|from.flights|];
       && !flight.cancelled && flight.waiters == (if resolver.pc.Done? then 0 else 1)
       && (flight.settled ==> flight.pc.Resolved? || flight.pc.Rejected?)
       && s.entry == (if flight.settled && flight.waiters == 0 then None else Some(|from.flights|))
       && Flies(from, s.secret, flight.pc, redeemed)
       && Awaits(cfg, from, s.stored, resolver.pc, flight.pc)
  }

  /** Where one refresh on its own can be, `from` being the state in which it began. */
  predicate RefreshesAlone(cfg: Config, from: State, s: State, id: nat, redeemed: Option<Credential>) {
    && id in s.resolvers
    && s == from.(secret := s.secret, stored := s.stored, entry := s.entry, flights := s.flights,
                  resolvers := from.resolvers[id := s.resolvers[id]])
    && (if s.resolvers[id].flight.None?
        then s.flights == from.flights && s.entry == from.entry && Grounded(cfg, from, s, s.resolvers[id].pc)
        else Airborne(cfg, from, s, s.resolvers[id], redeemed))
  }

  /** Nobody refreshes, and a flight may open. */
  predicate Quiet(cfg: Config, s: State) {
    s.entry.None? && (cfg.lateFlights || !LateOpening(s))
  }

  lemma GroundCheckStaysAlone(cfg: Config, from: State, s: State, id: nat, redeemed: Option<Credential>)
    requires RefreshesAlone(cfg, from, s, id, redeemed)
    requires s.resolvers[id].flight.None? && s.resolvers[id].pc.Checking?
    ensures RefreshesAlone(cfg, from, CheckingStep(cfg, s, id, s.resolvers[id]), id, redeemed)
  {
    var pc := s.resolvers[id].pc;
    if Barred(cfg, from) {
      CheckBars(cfg, from, s, false, pc.check);
    } else {
      CheckPasses(cfg, s, pc.check);
    }
    hide CheckNext, SecretAfterCheck, StoredAfterCheck, Cancels, Barred, Barring, Passing, Airborne, SecretBarred;
  }

  lemma AcquireStaysAlone(cfg: Config, from: State, s: State, id: nat, redeemed: Option<Credential>)
    requires Quiet(cfg, from) && RefreshesAlone(cfg, from, s, id, redeemed)
    requires s.resolvers[id].flight.None? && s.resolvers[id].pc.Acquire?
    ensures RefreshesAlone(cfg, from, AcquireStep(cfg, s, id, s.resolvers[id]), id, redeemed)
  {
    hide Barring;
    assert LateOpening(s) ==> LateOpening(from);
    hide LateOpening;
  }

  lemma GroundStepStaysAlone(cfg: Config, from: State, s: State, id: nat, redeemed: Option<Credential>)
    requires Quiet(cfg, from) && RefreshesAlone(cfg, from, s, id, redeemed) && s.resolvers[id].flight.None?
    ensures RefreshesAlone(cfg, from, Step(cfg, s, StepResolver(id)), id, redeemed)
  {
    if s.resolvers[id].pc.Checking? {
      GroundCheckStaysAlone(cfg, from, s, id, redeemed);
    } else if s.resolvers[id].pc.Acquire? {
      AcquireStaysAlone(cfg, from, s, id, redeemed);
    }
    hide CheckingStep, AcquireStep, LateOpening, Barred, Barring, Airborne, SecretBarred;
  }

  lemma AirCheckStaysAlone(cfg: Config, from: State, s: State, id: nat, redeemed: Option<Credential>)
    requires RefreshesAlone(cfg, from, s, id, redeemed)
    requires s.resolvers[id].flight.Some? && s.resolvers[id].pc.Checking?
    ensures RefreshesAlone(cfg, from, CheckingStep(cfg, s, id, s.resolvers[id]), id, redeemed)
  {
    CheckPasses(cfg, s, s.resolvers[id].pc.check);
    hide CheckNext, SecretAfterCheck, StoredAfterCheck, Cancels, Barred, Passing, Grounded;
  }

  lemma ReleaseStaysAlone(cfg: Config, from: State, s: State, id: nat, redeemed: Option<Credential>)
    requires RefreshesAlone(cfg, from, s, id, redeemed)
    requires s.resolvers[id].flight.Some? && s.resolvers[id].pc.Release?
    ensures RefreshesAlone(cfg, from, Step(cfg, s, StepResolver(id)), id, redeemed)
  {
    hide CheckingStep, AcquireStep, Barred, Grounded, NeedsRefresh, Flies, Landed;
  }

  lemma WaitingStaysAlone(cfg: Config, from: State, s: State, id: nat, redeemed: Option<Credential>)
    requires RefreshesAlone(cfg, from, s, id, redeemed)
    requires s.resolvers[id].flight.Some? && s.resolvers[id].pc.Waiting?
    ensures RefreshesAlone(cfg, from, Step(cfg, s, StepResolver(id)), id, redeemed)
  {
    hide CheckingStep, AcquireStep, Barred, Grounded, NeedsRefresh, Clear;
  }

  lemma AirStepStaysAlone(cfg: Config, from: State, s: State, id: nat, redeemed: Option<Credential>)
    requires RefreshesAlone(cfg, from, s, id, redeemed) && s.resolvers[id].flight.Some?
    ensures RefreshesAlone(cfg, from, Step(cfg, s, StepResolver(id)), id, redeemed)
  {
    if s.resolvers[id].pc.Checking? {
      AirCheckStaysAlone(cfg, from, s, id, redeemed);
    } else if s.resolvers[id].pc.Release? {
      ReleaseStaysAlone(cfg, from, s, id, redeemed);
    } else if s.resolvers[id].pc.Waiting? {
      WaitingStaysAlone(cfg, from, s, id, redeemed);
    } else {
      hide CheckingStep, AcquireStep, Barred, Grounded, NeedsRefresh, Clear, Flies;
    }
  }

  lemma FlightStepStaysAlone(cfg: Config, from: State, s: State, id: nat, redeemed: Option<Credential>)
    requires RefreshesAlone(cfg, from, s, id, redeemed)
    ensures RefreshesAlone(cfg, from, Step(cfg, s, StepFlight(|from.flights|, redeemed)), id, redeemed)
  {
    hide Barred, Grounded, Passing;
  }

  lemma SettleStaysAlone(cfg: Config, from: State, s: State, id: nat, redeemed: Option<Credential>)
    requires RefreshesAlone(cfg, from, s, id, redeemed)
    ensures RefreshesAlone(cfg, from, Step(cfg, s, Settle(|from.flights|)), id, redeemed)
  {
    hide Barred, Grounded, LateOpening, Passing, NeedsRefresh, StatusOr;
  }

  lemma {:induction false} OwnRunStaysAlone(cfg: Config, from: State, s: State, id: nat, redeemed: Option<Credential>,
                                            actions: seq<Action>)
    requires Quiet(cfg, from) && RefreshesAlone(cfg, from, s, id, redeemed)
    requires forall action :: action in actions ==> Own(action, id, |from.flights|, redeemed)
    ensures RefreshesAlone(cfg, from, Run(cfg, s, actions), id, redeemed)
    decreases |actions|
  {
    if actions == [] {
    } else {
      var before, last := actions[..|actions| - 1], actions[|actions| - 1];
      OwnRunStaysAlone(cfg, from, s, id, redeemed, before);
      var s' := Run(cfg, s, before);
      hide Quiet, RefreshesAlone, Step;
      OwnStepStaysAlone(cfg, from, s', id, redeemed, last);
    }
  }

  lemma OwnStepStaysAlone(cfg: Config, from: State, s: State, id: nat, redeemed: Option<Credential>, action: Action)
    requires Quiet(cfg, from) && RefreshesAlone(cfg, from, s, id, redeemed)
    requires Own(action, id, |from.flights|, redeemed)
    ensures RefreshesAlone(cfg, from, Step(cfg, s, action), id, redeemed)
  {
    hide Quiet, Step, Grounded, Airborne;
    if action.StepFlight? {
      FlightStepStaysAlone(cfg, from, s, id, redeemed);
    } else if action.Settle? {
      SettleStaysAlone(cfg, from, s, id, redeemed);
    } else if s.resolvers[id].flight.None? {
      GroundStepStaysAlone(cfg, from, s, id, redeemed);
    } else {
      AirStepStaysAlone(cfg, from, s, id, redeemed);
    }
  }

  // --- It comes to an end ---------------------------------------------------------------

  function FlightRank(pc: FlightPc): nat {
    match pc
    case Reread => 6
    case Redeem => 5
    case CheckRedeemed(_) => 4
    case PutSecret(_) => 3
    case CheckPut => 2
    case Compensate => 1
    case Resolved => 0
    case Rejected(_) => 0
  }

  function ResolverRank(pc: ResolverPc): nat {
    match pc
    case Done => 0
    case Release => 1
    case MarkExpired => 2
    case Checking(Confirm, check) => 2 + CheckRank(check)
    case PutActive => 8
    case Checking(After, check) => 9 + CheckRank(check)
    case Waiting => 15
    case Acquire => 22
    case Checking(Before, check) => 23 + CheckRank(check)
    case Read => 29
  }

  /** Bounds the steps still to come. */
  function Rank(s: State, id: nat): nat
    requires id in s.resolvers
  {
    var resolver := s.resolvers[id];
    ResolverRank(resolver.pc)
    + (if resolver.pc.Waiting? && HasFlight(s, resolver) then FlightRank(s.flights[resolver.flight.value].pc) else 0)
  }

  /** The next step of a refresh: the flight's while its resolver waits for it, and then the resolver's. */
  function NextOwn(s: State, id: nat, redeemed: Option<Credential>): Action
    requires id in s.resolvers
  {
    var resolver := s.resolvers[id];
    if && resolver.pc.Waiting? && HasFlight(s, resolver)
       && !s.flights[resolver.flight.value].pc.Resolved? && !s.flights[resolver.flight.value].pc.Rejected?
    then StepFlight(resolver.flight.value, redeemed)
    else StepResolver(id)
  }

  predicate FallsBelow(s: State, id: nat, rank: nat) {
    id in s.resolvers && Rank(s, id) < rank
  }

  lemma CheckingFalls(cfg: Config, s: State, id: nat)
    requires id in s.resolvers && s.resolvers[id].pc.Checking?
    ensures FallsBelow(CheckingStep(cfg, s, id, s.resolvers[id]), id, Rank(s, id))
  {
    var site, check := s.resolvers[id].pc.site, s.resolvers[id].pc.check;
    CheckFalls(cfg, s, false, check);
    CheckFalls(cfg, s, true, check);
    hide CheckNext, SecretAfterCheck, StoredAfterCheck, Cancels, CheckRank, HasFlight;
  }

  lemma AcquireFalls(cfg: Config, from: State, s: State, id: nat, redeemed: Option<Credential>)
    requires Quiet(cfg, from) && RefreshesAlone(cfg, from, s, id, redeemed) && s.resolvers[id].pc.Acquire?
    ensures FallsBelow(AcquireStep(cfg, s, id, s.resolvers[id]), id, Rank(s, id))
  {
    assert LateOpening(s) ==> LateOpening(from);
    hide LateOpening, Barring, Passing;
  }

  lemma FlightFalls(cfg: Config, from: State, s: State, id: nat, redeemed: Option<Credential>)
    requires RefreshesAlone(cfg, from, s, id, redeemed) && s.resolvers[id].pc.Waiting?
    ensures FallsBelow(Step(cfg, s, NextOwn(s, id, redeemed)), id, Rank(s, id))
  {
    hide Barred, Passing, Landed, CheckingStep, AcquireStep, Clear;
  }

  lemma RanksFall(cfg: Config, from: State, s: State, id: nat, redeemed: Option<Credential>)
    requires Quiet(cfg, from) && RefreshesAlone(cfg, from, s, id, redeemed) && !s.resolvers[id].pc.Done?
    ensures FallsBelow(Step(cfg, s, NextOwn(s, id, redeemed)), id, Rank(s, id))
  {
    hide CheckingStep, AcquireStep, FlightStep, Barred, Grounded, Flies, Awaits, Clear;
    if s.resolvers[id].pc.Checking? {
      CheckingFalls(cfg, s, id);
    } else if s.resolvers[id].pc.Acquire? {
      AcquireFalls(cfg, from, s, id, redeemed);
    } else if s.resolvers[id].pc.Waiting? {
      FlightFalls(cfg, from, s, id, redeemed);
    } else if s.resolvers[id].pc.Release? {
      ReleaseFalls(cfg, from, s, id, redeemed);
    }
  }

  lemma ReleaseFalls(cfg: Config, from: State, s: State, id: nat, redeemed: Option<Credential>)
    requires RefreshesAlone(cfg, from, s, id, redeemed) && s.resolvers[id].pc.Release?
    ensures FallsBelow(Step(cfg, s, NextOwn(s, id, redeemed)), id, Rank(s, id))
  {
    hide CheckingStep, AcquireStep, FlightStep, Barred, Flies, Awaits;
  }

  /** A refresh on its own always gets to its end. */
  lemma {:induction false} RefreshEnds(cfg: Config, from: State, s: State, id: nat, redeemed: Option<Credential>)
    returns (more: seq<Action>)
    requires Quiet(cfg, from) && RefreshesAlone(cfg, from, s, id, redeemed)
    ensures forall action :: action in more ==> Own(action, id, |from.flights|, redeemed)
    ensures RefreshesAlone(cfg, from, Run(cfg, s, more), id, redeemed)
    ensures Run(cfg, s, more).resolvers[id].pc.Done?
    decreases Rank(s, id)
  {
    more := [];
    if !s.resolvers[id].pc.Done? {
      var action := NextOwn(s, id, redeemed);
      RanksFall(cfg, from, s, id, redeemed);
      assert action.StepFlight? ==> action.nr == |from.flights|;
      hide Quiet, RefreshesAlone, Step, Rank, NextOwn;
      OwnStepStaysAlone(cfg, from, s, id, redeemed, action);
      var rest := RefreshEnds(cfg, from, Step(cfg, s, action), id, redeemed);
      more := [action] + rest;
      RunsOn(cfg, s, action, rest);
    }
  }

  lemma {:induction false} RunsOn(cfg: Config, s: State, action: Action, rest: seq<Action>)
    ensures Run(cfg, s, [action] + rest) == Run(cfg, Step(cfg, s, action), rest)
    decreases |rest|
  {
    hide Step;
    var all := [action] + rest;
    assert all[|all| - 1] == if rest == [] then action else rest[|rest| - 1];
    if rest == [] {
      assert all[..|all| - 1] == [];
    } else {
      assert all[..|all| - 1] == [action] + rest[..|rest| - 1];
      RunsOn(cfg, s, action, rest[..|rest| - 1]);
    }
  }

  lemma RefreshBegins(cfg: Config, s: State, id: nat, redeemed: Option<Credential>)
    requires id !in s.resolvers
    ensures RefreshesAlone(cfg, s, Step(cfg, s, StartResolve(id)), id, redeemed)
  {
    hide Airborne, Barred, NeedsRefresh;
  }

  /** What a caller gets a credential from: the stored one while it is good, and else the provider's new one. */
  predicate Refreshed(cfg: Config, s: State, s': State, redeemed: Option<Credential>) {
    if s.secret.None? || !s.secret.value.expired then s'.secret == s.secret && s'.stored == s.stored
    else if s.revocations > 0 || (cfg.connections && s.stored == Some(Revoked)) then
      s'.secret.None? && s'.stored == if cfg.connections then Some(Revoked) else s.stored
    else if redeemed.Some? then
      s'.secret == redeemed && s'.stored == if cfg.connections then Some(Active) else s.stored
    else s'.secret == s.secret && s'.stored == if cfg.connections then Some(Expired) else s.stored
  }

  /**
    A refresh that ends undisturbed leaves a good credential alone and replaces an expired one by
    what the provider gave for it, with the connection active. If the provider refused, the old
    credential stays and the connection is marked expired; under a revocation the credential is
    deleted and the connection marked revoked.
    */
  lemma UndisturbedRefreshIsRecorded(cfg: Config, s: State, id: nat, redeemed: Option<Credential>,
                                     actions: seq<Action>)
    requires Quiet(cfg, s) && id !in s.resolvers
    requires forall action :: action in actions ==> Own(action, id, |s.flights|, redeemed)
    ensures var s' := Run(cfg, Step(cfg, s, StartResolve(id)), actions);
            && id in s'.resolvers && (s'.resolvers[id].pc.Done? ==> Refreshed(cfg, s, s', redeemed))
            && s' == s.(secret := s'.secret, stored := s'.stored, entry := s'.entry, flights := s'.flights,
                        resolvers := s.resolvers[id := s'.resolvers[id]])
  {
    RefreshBegins(cfg, s, id, redeemed);
    OwnRunStaysAlone(cfg, s, Step(cfg, s, StartResolve(id)), id, redeemed, actions);
    hide Step, Run;
  }

  /** And every such run can be carried on to its end. */
  lemma UndisturbedRefreshEnds(cfg: Config, s: State, id: nat, redeemed: Option<Credential>, actions: seq<Action>)
    returns (more: seq<Action>)
    requires Quiet(cfg, s) && id !in s.resolvers
    requires forall action :: action in actions ==> Own(action, id, |s.flights|, redeemed)
    ensures forall action :: action in more ==> Own(action, id, |s.flights|, redeemed)
    ensures var s' := Run(cfg, Run(cfg, Step(cfg, s, StartResolve(id)), actions), more);
            id in s'.resolvers && s'.resolvers[id].pc.Done? && Refreshed(cfg, s, s', redeemed)
  {
    var begun := Step(cfg, s, StartResolve(id));
    RefreshBegins(cfg, s, id, redeemed);
    hide Step, Quiet;
    OwnRunStaysAlone(cfg, s, begun, id, redeemed, actions);
    more := RefreshEnds(cfg, s, Run(cfg, begun, actions), id, redeemed);
    hide Run;
  }
}
