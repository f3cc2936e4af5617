/** An order completes although answers get lost: what they were answers to is found by reading. */
module ProvisionLosses {
  import opened Wrappers
  import opened Provision
  import opened ProvisionInvariant
  import opened ProvisionProgress
  import opened ProvisionRecovery
  import PT = ProvisionTheorems

  /** Which of the answers never come back although what they answer took effect. */
  datatype Losses = Losses(identity: bool, line: bool, key: bool, connection: bool)

  const LOST := Fault(OutcomeUnknown, None)

  predicate Below(s: State, free: nat) {
    forall id :: id in s.ticks ==> id < free
  }

  predicate Ready(s: State, free: nat) {
    Below(s, free) && PT.IsOpen(s) && !s.row.attempted
  }

  predicate AtNumber(a: Answers, transport: Transport, s: State, free: nat) {
    && Ready(s, free) && s.row.phase == Number && s.row.transport == transport
    && s.row.identityId == Some(a.identityId) && s.row.number.None? && s.vault.None?
    && s.requests == [Request(Identity, Effective)]
  }

  predicate AtCredential(a: Answers, transport: Transport, s: State, free: nat) {
    && Ready(s, free) && s.row.phase == Credential && s.row.transport == transport
    && s.row.identityId == Some(a.identityId) && s.row.number == Some(a.line) && s.vault.None?
    && s.requests == [Request(Identity, Effective), Request(Number, Effective)]
  }

  predicate AtConnection(a: Answers, transport: Transport, s: State, free: nat) {
    && Ready(s, free) && s.row.phase == Connection && s.row.transport == transport
    && s.row.identityId == Some(a.identityId) && s.row.number == Some(a.line) && s.vault == Some(KeyOf(a))
    && s.requests == [Request(Identity, Effective), Request(Number, Effective), Request(Credential, Effective)]
  }

  /** The row after a lost answer: unsure, and due again in half a minute. */
  function Unsure(row: Order, clock: int, attemptedAt: Option<int>): Order {
    row.(version := row.version + 1, status := ProviderPending, attemptedAt := attemptedAt,
         nextAttemptAt := Some(clock + 30_000))
  }

  lemma WaitsHalfAMinute(start: State, s: State) returns (s': State)
    requires PT.Reachable(CLOSED, start, s)
    ensures PT.Reachable(CLOSED, start, s') && s' == s.(clock := s.clock + 30_000)
  {
    hide PT.Reachable;
    s' := PT.Go(CLOSED, start, s, Wait(s.clock + 30_000));
  }

  /** The answer of a provider call is lost; the row says so, and half a minute passes. */
  lemma AnswerIsLost(start: State, s: State, id: nat, request: nat) returns (s': State)
    requires PT.Reachable(CLOSED, start, s) && id in s.ticks && request < |s.requests|
    requires s.ticks[id] == Tick(s.row, s.clock, false, false, false, Await(request))
    ensures PT.Reachable(CLOSED, start, s')
    ensures s' == s.(row := Unsure(s.row, s.clock, None), clock := s.clock + 30_000, ticks := s'.ticks)
    ensures s'.ticks.Keys == s.ticks.Keys
  {
    hide PT.Reachable;
    var patch := Caught(s.ticks[id].(settled := true), LOST, s.clock);
    var failed := TickAnswers(start, s, id, Throws(LOST), patch);
    s' := WaitsHalfAMinute(start, failed);
  }

  // --- The identity ---------------------------------------------------------------------------

  lemma IdentityIsLost(a: Answers, start: State, s: State, free: nat) returns (s': State)
    requires PT.Reachable(CLOSED, start, s) && Ready(s, free) && s.row.phase == Identity && s.row.identityId.None?
    requires s.requests == [] && s.vault.None? && s.row.number.None?
    ensures PT.Reachable(CLOSED, start, s') && AtNumber(a, s.row.transport, s', free + 2)
  {
    hide PT.Reachable;
    var looked := PT.TickLooks(CLOSED, start, s, free);
    var awaiting := TickClaims(start, looked, free, Sees(None));
    var waiting := AnswerIsLost(start, awaiting, free, 0);
    assert waiting.requests == [Request(Identity, Effective)] && waiting.requests[0] == Request(Identity, Effective);
    s' := TickOf(CLOSED, waiting, free + 1, [Ok, Sees(Some(Bare(a))), Ok]);
    IdentityIsRecovered(CLOSED, waiting, free + 1, Bare(a));
    TickIsReachable(CLOSED, start, waiting, free + 1, [Ok, Sees(Some(Bare(a))), Ok]);
    hide TickOf;
  }

  lemma IdentityArrives(a: Answers, start: State, s: State, free: nat) returns (s': State)
    requires PT.Reachable(CLOSED, start, s) && Ready(s, free) && s.row.phase == Identity && s.row.identityId.None?
    requires s.requests == [] && s.vault.None? && s.row.number.None?
    ensures PT.Reachable(CLOSED, start, s') && AtNumber(a, s.row.transport, s', free + 2)
  {
    hide PT.Reachable;
    s' := IdentityTick(a, start, s, free);
  }

  // --- The line -------------------------------------------------------------------------------

  lemma OneTook(requests: seq<Request>, more: seq<Request>)
    requires requests == [Request(Identity, Effective)] + more
    ensures Took(requests, Identity)
  {
    assert requests[0] == Request(Identity, Effective);
  }

  lemma LineIsClaimed(a: Answers, start: State, s: State, free: nat) returns (s': State)
    requires PT.Reachable(CLOSED, start, s) && AtNumber(a, s.row.transport, s, free)
    ensures PT.Reachable(CLOSED, start, s')
    ensures var claimed := Apply(s.row, Journal(s.clock));
            s' == PT.Ticked(s, free, claimed, Await(1)).(row := claimed, requests := Settled(s.requests, Number))
  {
    hide PT.Reachable;
    OneTook(s.requests, []);
    var looked := PT.TickLooks(CLOSED, start, s, free);
    s' := TickClaims(start, looked, free, Sees(Some(Bare(a))));
    assert s'.ticks == PT.Ticked(s, free, Apply(s.row, Journal(s.clock)), Await(1)).ticks;
  }

  lemma LineIsLost(a: Answers, start: State, s: State, free: nat) returns (s': State)
    requires Accepted(s.row.transport, a)
    requires PT.Reachable(CLOSED, start, s) && AtNumber(a, s.row.transport, s, free)
    ensures PT.Reachable(CLOSED, start, s') && AtCredential(a, s.row.transport, s', free + 2)
  {
    hide PT.Reachable;
    var awaiting := LineIsClaimed(a, start, s, free);
    hide Took;
    var waiting := AnswerIsLost(start, awaiting, free, 1);
    assert waiting.requests == [Request(Identity, Effective), Request(Number, Effective)];
    BothTook(waiting.requests);
    s' := TickOf(CLOSED, waiting, free + 1, [Ok, Sees(Some(WithLine(a))), Ok]);
    LineIsRecovered(CLOSED, waiting, free + 1, WithLine(a), a.line);
    TickIsReachable(CLOSED, start, waiting, free + 1, [Ok, Sees(Some(WithLine(a))), Ok]);
    hide TickOf;
  }

  lemma LineArrives(a: Answers, start: State, s: State, free: nat) returns (s': State)
    requires Accepted(s.row.transport, a)
    requires PT.Reachable(CLOSED, start, s) && AtNumber(a, s.row.transport, s, free)
    ensures PT.Reachable(CLOSED, start, s') && AtCredential(a, s.row.transport, s', free + 2)
  {
    OneTook(s.requests, []);
    hide PT.Reachable, Took;
    s' := NumberTick(a, start, s, free);
  }

  // --- The key --------------------------------------------------------------------------------

  /** The key reaches the vault, and the vault's answer is lost. */
  lemma KeyIsStoredUnheard(a: Answers, start: State, s: State, id: nat, request: nat) returns (s': State)
    requires PT.Reachable(CLOSED, start, s) && id in s.ticks && request < |s.requests|
    requires s.ticks[id] == Tick(s.row, s.clock, false, false, false, Await(request))
    requires s.requests[request] == Request(Credential, Effective) && s.row.phase == Credential && s.vault.None?
    requires s.row.identityId == Some(a.identityId)
    ensures PT.Reachable(CLOSED, start, s')
    ensures s' == s.(row := Unsure(s.row, s.clock, None), vault := Some(KeyOf(a)), clock := s.clock + 30_000,
                     ticks := s'.ticks)
    ensures s'.ticks.Keys == s.ticks.Keys
  {
    hide PT.Reachable;
    var minted := PT.Go(CLOSED, start, s, Resume(id, Minted(a.material)));
    assert minted.ticks[id] == s.ticks[id].(settled := true, pc := PutVault(KeyOf(a)));
    var stored := PT.Go(CLOSED, start, minted, Resume(id, ThrowsAfterEffect(LOST)));
    var patch := Caught(s.ticks[id].(settled := true), LOST, s.clock);
    assert stored.ticks[id] == s.ticks[id].(settled := true, pc := Save(patch));
    var failed := TickSaves(start, stored, id, patch);
    s' := WaitsHalfAMinute(start, failed);
  }

  lemma KeyIsLost(a: Answers, start: State, s: State, free: nat) returns (s': State)
    requires Accepted(s.row.transport, a)
    requires PT.Reachable(CLOSED, start, s) && AtCredential(a, s.row.transport, s, free)
    ensures PT.Reachable(CLOSED, start, s') && AtConnection(a, s.row.transport, s', free + 2)
  {
    hide PT.Reachable, Took;
    BothTook(s.requests);
    var reading := TickChecksLine(a, start, s, free);
    var awaiting := TickClaims(start, reading, free, Ok);
    var waiting := KeyIsStoredUnheard(a, start, awaiting, free, 2);
    assert waiting.requests ==
           [Request(Identity, Effective), Request(Number, Effective), Request(Credential, Effective)];
    SettledTook(s.requests, Credential, Identity);
    SettledTook(s.requests, Credential, Number);
    s' := TickOf(CLOSED, waiting, free + 1, [Ok, Sees(Some(WithLine(a))), Ok, Ok, Ok]);
    KeyIsRecovered(CLOSED, waiting, free + 1, WithLine(a));
    TickIsReachable(CLOSED, start, waiting, free + 1, [Ok, Sees(Some(WithLine(a))), Ok, Ok, Ok]);
    hide TickOf;
  }

  lemma KeyIsHeard(a: Answers, start: State, s: State, free: nat) returns (s': State)
    requires Accepted(s.row.transport, a)
    requires PT.Reachable(CLOSED, start, s) && AtCredential(a, s.row.transport, s, free)
    ensures PT.Reachable(CLOSED, start, s') && AtConnection(a, s.row.transport, s', free + 2)
  {
    hide PT.Reachable, Took;
    BothTook(s.requests);
    s' := CredentialTick(a, start, s, free);
  }

  // --- The connection -------------------------------------------------------------------------

  lemma AllTook(requests: seq<Request>)
    requires requests == [Request(Identity, Effective), Request(Number, Effective), Request(Credential, Effective)]
    ensures Took(requests, Identity) && Took(requests, Number)
  {
    assert requests[0] == Request(Identity, Effective) && requests[1] == Request(Number, Effective);
  }

  lemma ConnectionIsLost(a: Answers, start: State, s: State, free: nat) returns (s': State)
    requires Accepted(s.row.transport, a)
    requires PT.Reachable(CLOSED, start, s) && AtConnection(a, s.row.transport, s, free)
    ensures PT.Reachable(CLOSED, start, s') && AtConnection(a, s.row.transport, s', free + 1)
  {
    hide PT.Reachable, Took;
    AllTook(s.requests);
    var reading := TickChecksLine(a, start, s, free);
    var binding := TickMayBind(a, start, reading, free);
    var failed := TickAnswers(start, binding, free, Throws(LOST), Caught(binding.ticks[free], LOST, s.clock));
    s' := WaitsHalfAMinute(start, failed);
  }

  /**
    Over either transport and for any of the answers that get lost, a new order completes with one
    effective mutation for each phase and all its receipts.
    */
  lemma LossyOrderCompletes(transport: Transport, version: nat, clock: int, a: Answers, lost: Losses)
    returns (s: State)
    requires Accepted(transport, a)
    ensures PT.Reachable(CLOSED, Initial(transport, version, clock), s)
    ensures s.row.phase == Complete && s.row.status == ReadyForSetup && s.row.connectionId == Some(a.connectionId)
    ensures s.row.identityId == Some(a.identityId) && s.row.number == Some(a.line) && s.vault == Some(KeyOf(a))
    ensures s.requests == [Request(Identity, Effective), Request(Number, Effective), Request(Credential, Effective)]
  {
    var start := Initial(transport, version, clock);
    assert PT.Reaches(CLOSED, start, [], start);
    hide PT.Reachable, Took, AtNumber, AtCredential;
    if lost.identity {
      s := IdentityIsLost(a, start, start, 0);
    } else {
      s := IdentityArrives(a, start, start, 0);
    }
    SameTransport(a, transport, s, 2);
    if lost.line {
      s := LineIsLost(a, start, s, 2);
    } else {
      s := LineArrives(a, start, s, 2);
    }
    SameTransport(a, transport, s, 4);
    if lost.key {
      s := KeyIsLost(a, start, s, 4);
    } else {
      s := KeyIsHeard(a, start, s, 4);
    }
    if lost.connection {
      s := ConnectionIsLost(a, start, s, 6);
    }
    AllTook(s.requests);
    s := ConnectionTick(a, start, s, 7);
  }

  lemma SameTransport(a: Answers, transport: Transport, s: State, free: nat)
    ensures AtNumber(a, transport, s, free) || AtCredential(a, transport, s, free) ==> s.row.transport == transport
  {}
}
