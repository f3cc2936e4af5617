/**
  Credential refresh, rotation and revocation of one key (connector and secret reference) in
  one process. Store calls take effect at some instant between the call and its return; each
  effect and each stretch of synchronous code is a step of its own, so anything else in the
  process may run in between.
 */
module Credentials {
  import opened Wrappers

  /** An OAuth credential with a refresh token. */
  datatype Credential = Credential(expired: bool)

  datatype Status = Active | Expired | Revoked

  /** The shared check that a refresh or rotation was not revoked, one store access at a time. */
  datatype Check =
    | Enter
    | ReadStored(revoked: bool)
    | ReadSecret(stored: Option<Status>)
    | Verdict(revoked: bool, stored: Option<Status>)
    | DeleteSecret(stored: Option<Status>)
    | MarkRevoked

  datatype FlightPc =
    | Reread
    | Redeem
    | CheckRedeemed(token: Credential)
    | PutSecret(token: Credential)
    | CheckPut
    | Compensate
    | Resolved
    | Rejected(revoked: bool)

  /** `stale` is history: a revocation found this flight open. */
  datatype Flight = Flight(cancelled: bool, settled: bool, waiters: nat, stale: bool, pc: FlightPc)

  datatype Site = Before | After | Confirm

  datatype ResolverPc =
    | Read
    | Checking(site: Site, check: Check)
    | Acquire
    | Waiting
    | PutActive
    | MarkExpired
    | Release
    | Done

  datatype Resolver = Resolver(flight: Option<nat>, pc: ResolverPc)

  datatype RotatorPc =
    | Guard(nr: nat, check: Check)
    | StoreSecret
    | StoreActive
    | Hook
    | Close
    | Closed

  /** A persistence lease and the rotation that holds it; `stale` as for flights. */
  datatype Rotator = Rotator(cancelled: bool, stale: bool, pc: RotatorPc)

  datatype RevokerPc = Delete | Mark | Finish | Returned

  /** Whether a connection store is configured, and whether a flight or a lease opens over stale holders. */
  datatype Config = Config(connections: bool, lateFlights: bool, lateLeases: bool)

  datatype State = State(
    secret: Option<Credential>, stored: Option<Status>,
    entry: Option<nat>, flights: seq<Flight>, revocations: nat,
    resolvers: map<nat, Resolver>, rotators: map<nat, Rotator>, revokers: map<nat, RevokerPc>,
    begun: bool)

  datatype Action =
    | Age
    | StartResolve(id: nat)
    | StartRotation(id: nat)
    | StartRevocation(id: nat)
    | StepFlight(nr: nat, redeemed: Option<Credential>)
    | Settle(nr: nat)
    | StepResolver(id: nat)
    | StepRotator(id: nat, rotated: Credential)
    | StepRevoker(id: nat)

  // --- The shared check -----------------------------------------------------------

  datatype Outcome = Going(check: Check) | Passed | Threw

  function CheckNext(cfg: Config, s: State, cancelled: bool, check: Check): Outcome {
    match check
    case Enter =>
      var revoked := cancelled || s.revocations > 0;
      if cfg.connections then Going(ReadStored(revoked))
      else if revoked then Going(Verdict(true, None))
      else Going(ReadSecret(None))
    case ReadStored(revoked) =>
      if revoked || s.stored == Some(Revoked) then Going(Verdict(true, s.stored)) else Going(ReadSecret(s.stored))
    case ReadSecret(stored) => Going(Verdict(s.secret.None?, stored))
    case Verdict(revoked, stored) => if revoked then Going(DeleteSecret(stored)) else Passed
    case DeleteSecret(stored) => if cfg.connections && stored != Some(Revoked) then Going(MarkRevoked) else Threw
    case MarkRevoked => Threw
  }

  function SecretAfterCheck(check: Check, secret: Option<Credential>): Option<Credential> {
    if check.DeleteSecret? then None else secret
  }

  function StoredAfterCheck(check: Check, stored: Option<Status>): Option<Status> {
    if check.MarkRevoked? then Some(Revoked) else stored
  }

  /** The verdict itself cancels the operation on whose behalf it was reached. */
  predicate Cancels(check: Check) {
    check.Verdict? && check.revoked
  }

  // --- Flights --------------------------------------------------------------------

  function SetFlight(s: State, nr: nat, flight: Flight): State
    requires nr < |s.flights|
  {
    s.(flights := s.flights[nr := flight])
  }

  /** Drop the map entry of a flight that is settled and has no waiters. */
  function Clear(s: State, nr: nat): State
    requires nr < |s.flights|
  {
    if s.flights[nr].settled && s.flights[nr].waiters == 0 && s.entry == Some(nr) then s.(entry := None) else s
  }

  /** The next program point of a flight, given the secret it would read. */
  function FlightNext(flight: Flight, secret: Option<Credential>, redeemed: Option<Credential>): FlightPc {
    match flight.pc
    case Reread => if secret.None? then Rejected(false) else if secret.value.expired then Redeem else Resolved
    case Redeem => if redeemed.None? then Rejected(false) else CheckRedeemed(redeemed.value)
    case CheckRedeemed(token) => if flight.cancelled then Rejected(true) else PutSecret(token)
    case PutSecret(_) => CheckPut
    case CheckPut => if flight.cancelled then Compensate else Resolved
    case Compensate => Rejected(true)
    case Resolved => Resolved
    case Rejected(revoked) => Rejected(revoked)
  }

  function SecretAfterFlight(pc: FlightPc, secret: Option<Credential>): Option<Credential> {
    if pc.PutSecret? then Some(pc.token) else if pc.Compensate? then None else secret
  }

  function FlightStep(s: State, nr: nat, redeemed: Option<Credential>): State
    requires nr < |s.flights|
  {
    var flight := s.flights[nr];
    s.(secret := SecretAfterFlight(flight.pc, s.secret),
       flights := s.flights[nr := flight.(pc := FlightNext(flight, s.secret, redeemed))])
  }

  function SettleStep(s: State, nr: nat): State
    requires nr < |s.flights|
  {
    if (s.flights[nr].pc.Resolved? || s.flights[nr].pc.Rejected?) && !s.flights[nr].settled
    then Clear(SetFlight(s, nr, s.flights[nr].(settled := true)), nr) else s
  }

  // --- Openings -------------------------------------------------------------------

  predicate FlightOpen(s: State, nr: nat) {
    s.entry == Some(nr)
  }

  predicate LeaseOpen(rotator: Rotator) {
    !rotator.pc.Closed?
  }

  /** Something a revocation found open is still open. */
  predicate StaleOpen(s: State) {
    || (exists nr :: 0 <= nr < |s.flights| && FlightOpen(s, nr) && s.flights[nr].stale)
    || (exists id :: id in s.rotators && LeaseOpen(s.rotators[id]) && s.rotators[id].stale)
  }

  predicate NothingLate(cfg: Config) {
    !cfg.lateFlights && !cfg.lateLeases
  }

  /** A flight or lease would open after a revocation while something it cancelled is still open. */
  predicate LateOpening(s: State) {
    s.begun && s.revocations == 0 && StaleOpen(s)
  }

  // --- Resolvers ------------------------------------------------------------------

  function SetResolver(s: State, id: nat, resolver: Resolver): State {
    s.(resolvers := s.resolvers[id := resolver])
  }

  predicate HasFlight(s: State, resolver: Resolver) {
    resolver.flight.Some? && resolver.flight.value < |s.flights|
  }

  function OnPassed(cfg: Config, site: Site): ResolverPc {
    match site
    case Before => Acquire
    case After => if cfg.connections then PutActive else Release
    case Confirm => Release
  }

  function CheckingStep(cfg: Config, s: State, id: nat, resolver: Resolver): State
    requires resolver.pc.Checking?
  {
    var site, check := resolver.pc.site, resolver.pc.check;
    var cancelled := site != Before && HasFlight(s, resolver) && s.flights[resolver.flight.value].cancelled;
    var pc := match CheckNext(cfg, s, cancelled, check)
      case Going(next) => Checking(site, next)
      case Passed => OnPassed(cfg, site)
      case Threw => if site == Before then Done else Release;
    var flights := if Cancels(check) && site != Before && HasFlight(s, resolver)
                   then s.flights[resolver.flight.value := s.flights[resolver.flight.value].(cancelled := true)]
                     else s.flights;
    s.(secret := SecretAfterCheck(check, s.secret), stored := StoredAfterCheck(check, s.stored),
       flights := flights, resolvers := s.resolvers[id := resolver.(pc := pc)])
  }

  function AcquireStep(cfg: Config, s: State, id: nat, resolver: Resolver): State {
    if s.revocations > 0 then SetResolver(s, id, resolver.(pc := Done))
    else if s.entry.Some? && s.entry.value < |s.flights| then
      var nr := s.entry.value;
      SetResolver(SetFlight(s, nr, s.flights[nr].(waiters := s.flights[nr].waiters + 1)), id,
                  Resolver(Some(nr), Waiting))
    else if LateOpening(s) && !cfg.lateFlights then s
    else
      SetResolver(s.(flights := s.flights + [Flight(false, false, 1, false, Reread)], entry := Some(|s.flights|)),
                  id, Resolver(Some(|s.flights|), Waiting))
  }

  function ResolverStep(cfg: Config, s: State, id: nat, resolver: Resolver): State {
    match resolver.pc
    case Read =>
      SetResolver(s, id,
                  resolver.(pc := if s.secret.Some? && s.secret.value.expired then Checking(Before, Enter) else Done))
    case Checking(_, _) => CheckingStep(cfg, s, id, resolver)
    case Acquire => AcquireStep(cfg, s, id, resolver)
    case Waiting =>
      if !HasFlight(s, resolver) then s
      else
        match s.flights[resolver.flight.value].pc {
          case Resolved => SetResolver(s, id, resolver.(pc := Checking(After, Enter)))
          case Rejected(revoked) =>
            SetResolver(s, id, resolver.(pc := if revoked || !cfg.connections then Release else MarkExpired))
          case _ => s
        }
    case PutActive => SetResolver(s.(stored := Some(Active)), id, resolver.(pc := Checking(Confirm, Enter)))
    case MarkExpired => SetResolver(s.(stored := Some(Expired)), id, resolver.(pc := Release))
    case Release =>
      if !HasFlight(s, resolver) || s.flights[resolver.flight.value].waiters == 0 then s
      else
        var nr := resolver.flight.value;
        SetResolver(Clear(SetFlight(s, nr, s.flights[nr].(waiters := s.flights[nr].waiters - 1)), nr),
                    id, resolver.(pc := Done))
    case Done => s
  }

  // --- Rotations --------------------------------------------------------------------

  function SetRotator(s: State, id: nat, rotator: Rotator): State {
    s.(rotators := s.rotators[id := rotator])
  }

  /** What follows the four checks of a rotation. */
  function AfterGuard(cfg: Config, nr: nat): RotatorPc {
    if nr == 1 then StoreSecret
    else if nr == 2 then if cfg.connections then StoreActive else Hook
    else if nr == 3 then Hook
    else Close
  }

  function RotatorNext(cfg: Config, s: State, rotator: Rotator): RotatorPc {
    match rotator.pc
    case Guard(nr, check) =>
      (match CheckNext(cfg, s, rotator.cancelled, check)
       case Going(next) => Guard(nr, next)
       case Passed => AfterGuard(cfg, nr)
       case Threw => Close)
    case StoreSecret => Guard(2, Enter)
    case StoreActive => Guard(3, Enter)
    case Hook => Guard(4, Enter)
    case Close => Closed
    case Closed => Closed
  }

  function SecretAfterRotator(pc: RotatorPc, secret: Option<Credential>, rotated: Credential): Option<Credential> {
    if pc.StoreSecret? then Some(rotated) else if pc.Guard? then SecretAfterCheck(pc.check, secret) else secret
  }

  function StoredAfterRotator(pc: RotatorPc, stored: Option<Status>): Option<Status> {
    if pc.StoreActive? then Some(Active) else if pc.Guard? then StoredAfterCheck(pc.check, stored) else stored
  }

  function RotatorStep(cfg: Config, s: State, id: nat, rotator: Rotator, rotated: Credential): State {
    var cancelled := rotator.cancelled || (rotator.pc.Guard? && Cancels(rotator.pc.check));
    s.(secret := SecretAfterRotator(rotator.pc, s.secret, rotated), stored := StoredAfterRotator(rotator.pc, s.stored),
       rotators := s.rotators[id := Rotator(cancelled, rotator.stale, RotatorNext(cfg, s, rotator))])
  }

  // --- Revocations ------------------------------------------------------------------

  function CancelLeases(rotators: map<nat, Rotator>): map<nat, Rotator> {
    map id | id in rotators ::
      if LeaseOpen(rotators[id]) then rotators[id].(cancelled := true, stale := true) else rotators[id]
  }

  function CancelEntry(s: State): State {
    if s.entry.Some? && s.entry.value < |s.flights|
    then SetFlight(s, s.entry.value, s.flights[s.entry.value].(cancelled := true, stale := true)) else s
  }

  function RevokerStep(cfg: Config, s: State, id: nat, pc: RevokerPc): State {
    match pc
    case Delete => s.(secret := None, revokers := s.revokers[id := if cfg.connections then Mark else Finish])
    case Mark => s.(stored := Some(Revoked), revokers := s.revokers[id := Finish])
    case Finish =>
      s.(revocations := if s.revocations > 0 then s.revocations - 1 else 0, revokers := s.revokers[id := Returned])
    case Returned => s
  }

  // --- The whole process --------------------------------------------------------------

  function Step(cfg: Config, s: State, action: Action): State {
    match action
    case Age => if s.secret.Some? then s.(secret := Some(Credential(true))) else s
    case StartResolve(id) => if id in s.resolvers then s else SetResolver(s, id, Resolver(None, Read))
    case StartRotation(id) =>
      if id in s.rotators || (LateOpening(s) && !cfg.lateLeases) then s
      else SetRotator(s, id, Rotator(s.revocations > 0, s.revocations > 0, Guard(1, Enter)))
    case StartRevocation(id) =>
      if id in s.revokers then s
      else
        CancelEntry(s).(revocations := s.revocations + 1, rotators := CancelLeases(s.rotators),
                        revokers := s.revokers[id := Delete], begun := true)
    case StepFlight(nr, redeemed) => if nr < |s.flights| then FlightStep(s, nr, redeemed) else s
    case Settle(nr) => if nr < |s.flights| then SettleStep(s, nr) else s
    case StepResolver(id) => if id in s.resolvers then ResolverStep(cfg, s, id, s.resolvers[id]) else s
    case StepRotator(id, rotated) =>
      if id in s.rotators then RotatorStep(cfg, s, id, s.rotators[id], rotated) else s
    case StepRevoker(id) => if id in s.revokers then RevokerStep(cfg, s, id, s.revokers[id]) else s
  }

  function Run(cfg: Config, s: State, actions: seq<Action>): State
    decreases |actions|
  {
    if actions == [] then s else Step(cfg, Run(cfg, s, actions[..|actions| - 1]), actions[|actions| - 1])
  }

  function Initial(secret: Option<Credential>, stored: Option<Status>): State {
    State(secret, stored, None, [], 0, map[], map[], map[], false)
  }

  /** Every revocation has returned, and no flight, waiter or lease is open. */
  predicate Drained(s: State) {
    && s.begun
    && s.entry.None?
    && (forall id :: id in s.rotators ==> !LeaseOpen(s.rotators[id]))
    && (forall id :: id in s.revokers ==> s.revokers[id] == Returned)
  }

  predicate Clean(cfg: Config, s: State) {
    s.secret.None? && (cfg.connections ==> s.stored != Some(Active))
  }
}
