/** An order that nobody disturbs is provisioned: one purchase per phase, four ticks, all receipts. */
module ProvisionProgress {
  import opened Wrappers
  import opened Provision
  import opened ProvisionInvariant
  import PT = ProvisionTheorems

  /** Four ticks may run: nothing is claimed and nothing is due later. */
  predicate IsDue(s: State, id: nat) {
    id !in s.ticks && !s.row.attempted && PT.IsOpen(s)
  }

  function Settled(requests: seq<Request>, phase: Phase): seq<Request> {
    requests + [Request(phase, Effective)]
  }

  /** From an open journal to a mutation that took effect. */
  lemma TickMutates(start: State, s: State, id: nat) returns (s': State)
    requires PT.Reachable(CLOSED, start, s) && id in s.ticks && s.row.status != Cancelled
    requires s == PT.Ticked(s, id, s.row, Claiming(Journal(s.clock)))
    ensures PT.Reachable(CLOSED, start, s')
    ensures var claimed := Apply(s.row, Journal(s.clock));
            s' == PT.Ticked(s, id, claimed, Await(|s.requests|)).(row := claimed,
                                                                  requests := Settled(s.requests, s.row.phase))
  {
    var claimed := Apply(s.row, Journal(s.clock));
    s' := PT.Go(CLOSED, start, s, Resume(id, Ok));
    assert s'.ticks == PT.Ticked(s, id, claimed, Check(ForMutation)).ticks;
    s' := PT.TickSends(CLOSED, start, s', id);
    s' := PT.Go(CLOSED, start, s', Take(|s.requests|));
    assert s'.requests == Settled(s.requests, s.row.phase);
  }

  /** The last step of a tick: the save goes through. */
  lemma TickSaves(start: State, s: State, id: nat, patch: Patch) returns (s': State)
    requires PT.Reachable(CLOSED, start, s) && id in s.ticks && s.ticks[id].pc == Save(patch)
    requires s.ticks[id].order == s.row
    ensures PT.Reachable(CLOSED, start, s')
    ensures s' == s.(row := Apply(s.row, patch), ticks := s'.ticks) && s'.ticks.Keys == s.ticks.Keys
  {
    s' := PT.Go(CLOSED, start, s, Resume(id, Ok));
  }

  /** What the provider, the vault and the hub answer: an identity, a line, a key and a connection. */
  datatype Answers = Answers(identityId: string, line: PhoneNumber, material: string, connectionId: string)

  /** The answers the code accepts: a line that is ready, and a connection id of a proper length. */
  predicate Accepted(transport: Transport, a: Answers) {
    && (transport == Sms ==> a.line.smsReady && a.line.active)
    && 0 < |a.connectionId| <= 256
  }

  function Bare(a: Answers): View {
    View(a.identityId, true, false, None)
  }

  function WithLine(a: Answers): View {
    View(a.identityId, true, true, Some(a.line))
  }

  function KeyOf(a: Answers): Key {
    Key(a.identityId, a.material)
  }

  /** A tick that has nothing to show for its phase claims the journal. */
  lemma TickClaims(start: State, s: State, id: nat, reply: Reply) returns (s': State)
    requires PT.Reachable(CLOSED, start, s) && id in s.ticks
    requires ResumeStep(CLOSED, s, id, s.ticks[id], reply) == PT.Ticked(s, id, s.row, Claiming(Journal(s.clock)))
    requires s.row.status != Cancelled
    ensures PT.Reachable(CLOSED, start, s')
    ensures var claimed := Apply(s.row, Journal(s.clock));
            s' == PT.Ticked(s, id, claimed, Await(|s.requests|)).(row := claimed,
                                                                  requests := Settled(s.requests, s.row.phase))
  {
    hide ResumeStep, PT.Reachable;
    var claiming := PT.Go(CLOSED, start, s, Resume(id, reply));
    s' := TickMutates(start, claiming, id);
  }

  /** An answer that leads straight to a save. */
  lemma TickAnswers(start: State, s: State, id: nat, reply: Reply, patch: Patch) returns (s': State)
    requires PT.Reachable(CLOSED, start, s) && id in s.ticks && s.ticks[id].order == s.row
    requires var answered := ResumeStep(CLOSED, s, id, s.ticks[id], reply);
             answered == s.(ticks := answered.ticks) && answered.ticks.Keys == s.ticks.Keys
             && answered.ticks[id].pc == Save(patch) && answered.ticks[id].order == s.row
    ensures PT.Reachable(CLOSED, start, s')
    ensures s' == s.(row := Apply(s.row, patch), ticks := s'.ticks) && s'.ticks.Keys == s.ticks.Keys
  {
    hide ResumeStep, PT.Reachable;
    var answered := PT.Go(CLOSED, start, s, Resume(id, reply));
    s' := TickSaves(start, answered, id, patch);
  }

  ghost predicate Advanced(s: State, s': State, id: nat, row: Order, requests: seq<Request>, vault: Option<Key>) {
    s' == State(row, s.clock, requests, vault, s'.ticks) && s'.ticks.Keys == s.ticks.Keys + {id}
  }

  lemma IdentityTick(a: Answers, start: State, s: State, id: nat) returns (s': State)
    requires PT.Reachable(CLOSED, start, s) && IsDue(s, id) && s.row.phase == Identity && s.row.identityId.None?
    ensures PT.Reachable(CLOSED, start, s')
    ensures Advanced(s, s', id, Apply(Apply(s.row, Journal(s.clock)), Adopt(a.identityId)),
                     Settled(s.requests, Identity), s.vault)
  {
    hide PT.Reachable;
    var looked := PT.TickLooks(CLOSED, start, s, id);
    var awaiting := TickClaims(start, looked, id, Sees(None));
    assert awaiting.requests[|s.requests|] == Request(Identity, Effective);
    s' := TickAnswers(start, awaiting, id, Receives(Bare(a)), Adopt(a.identityId));
  }

  predicate HasMailbox(a: Answers, s: State) {
    s.row.identityId == Some(a.identityId) && Took(s.requests, Identity)
  }

  lemma SettledTook(requests: seq<Request>, phase: Phase, other: Phase)
    ensures Took(Settled(requests, phase), phase)
    ensures Took(requests, other) ==> Took(Settled(requests, phase), other)
  {
    var settled := Settled(requests, phase);
    assert settled[|requests|] == Request(phase, Effective);
    if i :| 0 <= i < |requests| && requests[i] == Request(other, Effective) {
      assert settled[i] == Request(other, Effective);
    }
  }

  /** After the purchase: an SMS line is confirmed by a read of its own, an iMessage line comes with the answer. */
  lemma NumberArrives(a: Answers, start: State, s: State, id: nat, request: nat) returns (s': State)
    requires Accepted(s.row.transport, a)
    requires PT.Reachable(CLOSED, start, s) && id in s.ticks
    requires s.ticks[id] == Tick(s.row, s.clock, false, false, false, Await(request))
    requires request < |s.requests| && s.requests[request] == Request(Number, Effective)
    requires s.row.phase == Number && s.row.number.None? && HasMailbox(a, s)
    ensures PT.Reachable(CLOSED, start, s')
    ensures s' == s.(row := Apply(s.row, Attach(a.line)), ticks := s'.ticks) && s'.ticks.Keys == s.ticks.Keys
  {
    hide PT.Reachable;
    assert Took(s.requests, Number);
    if s.row.transport == Sms {
      var confirming := PT.Go(CLOSED, start, s, Resume(id, Purchased(a.line)));
      assert confirming.ticks[id].pc == Confirm(a.line);
      s' := TickAnswers(start, confirming, id, Sees(Some(WithLine(a))), Attach(a.line));
    } else {
      s' := TickAnswers(start, s, id, Receives(WithLine(a)), Attach(a.line));
    }
  }

  lemma NumberTick(a: Answers, start: State, s: State, id: nat) returns (s': State)
    requires Accepted(s.row.transport, a)
    requires PT.Reachable(CLOSED, start, s) && IsDue(s, id) && s.row.phase == Number && s.row.number.None?
    requires HasMailbox(a, s)
    ensures PT.Reachable(CLOSED, start, s')
    ensures Advanced(s, s', id, Apply(Apply(s.row, Journal(s.clock)), Attach(a.line)), Settled(s.requests, Number),
                     s.vault)
  {
    hide PT.Reachable, Took;
    SettledTook(s.requests, Number, Identity);
    var looked := PT.TickLooks(CLOSED, start, s, id);
    var awaiting := TickClaims(start, looked, id, Sees(Some(Bare(a))));
    s' := NumberArrives(a, start, awaiting, id, |s.requests|);
  }

  /** From a read that shows the recorded line to the vault. */
  lemma TickChecksLine(a: Answers, start: State, s: State, id: nat) returns (s': State)
    requires Accepted(s.row.transport, a)
    requires PT.Reachable(CLOSED, start, s) && IsDue(s, id) && HasMailbox(a, s) && Took(s.requests, Number)
    requires s.row.number == Some(a.line) && (s.row.phase == Credential || s.row.phase == Connection)
    ensures PT.Reachable(CLOSED, start, s') && s' == PT.Ticked(s, id, s.row, ReadVault)
  {
    hide PT.Reachable, Took;
    var looked := PT.TickLooks(CLOSED, start, s, id);
    s' := PT.Go(CLOSED, start, looked, Resume(id, Sees(Some(WithLine(a)))));
    assert s'.ticks == PT.Ticked(s, id, s.row, ReadVault).ticks;
  }

  lemma KeyIsStored(a: Answers, start: State, s: State, id: nat, request: nat) returns (s': State)
    requires PT.Reachable(CLOSED, start, s) && id in s.ticks
    requires s.ticks[id] == Tick(s.row, s.clock, false, false, false, Await(request))
    requires request < |s.requests| && s.requests[request] == Request(Credential, Effective)
    requires s.row.phase == Credential && s.vault.None? && s.row.identityId == Some(a.identityId)
    ensures PT.Reachable(CLOSED, start, s')
    ensures s' == s.(vault := Some(KeyOf(a)), ticks := s'.ticks) && s'.ticks.Keys == s.ticks.Keys
    ensures s'.ticks[id].pc == Verify && s'.ticks[id].order == s.row
  {
    hide PT.Reachable;
    s' := PT.Go(CLOSED, start, s, Resume(id, Minted(a.material)));
    assert s'.ticks[id].pc == PutVault(KeyOf(a));
    s' := PT.Go(CLOSED, start, s', Resume(id, Ok));
  }

  lemma KeyArrives(a: Answers, start: State, s: State, id: nat, request: nat) returns (s': State)
    requires PT.Reachable(CLOSED, start, s) && id in s.ticks
    requires s.ticks[id] == Tick(s.row, s.clock, false, false, false, Await(request))
    requires request < |s.requests| && s.requests[request] == Request(Credential, Effective)
    requires s.row.phase == Credential && s.vault.None? && s.row.identityId == Some(a.identityId)
    ensures PT.Reachable(CLOSED, start, s')
    ensures s' == s.(row := Apply(s.row, ISSUED), vault := Some(KeyOf(a)), ticks := s'.ticks)
    ensures s'.ticks.Keys == s.ticks.Keys
  {
    hide PT.Reachable;
    var stored := KeyIsStored(a, start, s, id, request);
    s' := TickAnswers(start, stored, id, Ok, ISSUED);
  }

  lemma CredentialTick(a: Answers, start: State, s: State, id: nat) returns (s': State)
    requires Accepted(s.row.transport, a)
    requires PT.Reachable(CLOSED, start, s) && IsDue(s, id) && HasMailbox(a, s) && Took(s.requests, Number)
    requires s.row.number == Some(a.line) && s.row.phase == Credential && s.vault.None?
    ensures PT.Reachable(CLOSED, start, s')
    ensures Advanced(s, s', id, Apply(Apply(s.row, Journal(s.clock)), ISSUED), Settled(s.requests, Credential),
                     Some(KeyOf(a)))
  {
    hide PT.Reachable, Took;
    var reading := TickChecksLine(a, start, s, id);
    var awaiting := TickClaims(start, reading, id, Ok);
    s' := KeyArrives(a, start, awaiting, id, |s.requests|);
  }

  /** With its key in the vault, a tick is authorized to connect. */
  lemma TickMayBind(a: Answers, start: State, s: State, id: nat) returns (s': State)
    requires PT.Reachable(CLOSED, start, s) && id in s.ticks && s == PT.Ticked(s, id, s.row, ReadVault)
    requires s.row.status != Cancelled && s.row.phase == Connection
    requires s.row.identityId == Some(a.identityId) && s.vault == Some(KeyOf(a))
    ensures PT.Reachable(CLOSED, start, s') && s' == PT.Ticked(s, id, s.row, Bind)
  {
    hide PT.Reachable;
    var checking := PT.Go(CLOSED, start, s, Resume(id, Ok));
    assert checking.ticks == PT.Ticked(s, id, s.row, Check(ForBinding)).ticks;
    PT.TickedTwice(s, id, Check(ForBinding), Bind);
    s' := PT.TickIsAuthorized(CLOSED, start, checking, id, ForBinding);
  }

  lemma ConnectionTick(a: Answers, start: State, s: State, id: nat) returns (s': State)
    requires Accepted(s.row.transport, a)
    requires PT.Reachable(CLOSED, start, s) && IsDue(s, id) && HasMailbox(a, s) && Took(s.requests, Number)
    requires s.row.number == Some(a.line) && s.row.phase == Connection && s.vault == Some(KeyOf(a))
    ensures PT.Reachable(CLOSED, start, s')
    ensures Advanced(s, s', id, Apply(s.row, Finish(a.connectionId)), s.requests, s.vault)
  {
    hide PT.Reachable, Took;
    var reading := TickChecksLine(a, start, s, id);
    var binding := TickMayBind(a, start, reading, id);
    s' := TickAnswers(start, binding, id, Bound(a.connectionId), Finish(a.connectionId));
  }

  predicate Bought(a: Answers, s: State) {
    && s.row.phase == Credential && s.row.status == Pending && !s.row.attempted && s.row.nextAttemptAt.None?
    && s.row.number == Some(a.line) && s.row.identityId == Some(a.identityId) && s.vault.None?
    && s.requests == [Request(Identity, Effective), Request(Number, Effective)]
  }

  lemma HalfWay(a: Answers, start: State) returns (s: State)
    requires Accepted(start.row.transport, a)
    requires start == Initial(start.row.transport, start.row.version, start.clock)
    ensures PT.Reachable(CLOSED, start, s) && Bought(a, s) && s.ticks.Keys == {0, 1}
    ensures s.row.transport == start.row.transport
  {
    assert PT.Reaches(CLOSED, start, [], start);
    hide PT.Reachable, Took;
    var first := IdentityTick(a, start, start, 0);
    SettledTook([], Identity, Identity);
    s := NumberTick(a, start, first, 1);
  }

  /**
    Over either transport, and whatever accepted answers come back, four undisturbed ticks complete
    a new order, with one effective mutation for each phase and exactly those answers as receipts.
    */
  lemma UndisturbedOrderCompletes(transport: Transport, version: nat, clock: int, a: Answers) returns (s: State)
    requires Accepted(transport, a)
    ensures PT.Reachable(CLOSED, Initial(transport, version, clock), s)
    ensures s.row.phase == Complete && s.row.status == ReadyForSetup && s.row.connectionId == Some(a.connectionId)
    ensures s.row.identityId == Some(a.identityId) && s.row.number == Some(a.line) && s.vault == Some(KeyOf(a))
    ensures s.requests == [Request(Identity, Effective), Request(Number, Effective), Request(Credential, Effective)]
  {
    hide PT.Reachable, Took;
    var start := Initial(transport, version, clock);
    var bought := HalfWay(a, start);
    BothTook(bought.requests);
    SettledTook(bought.requests, Credential, Identity);
    SettledTook(bought.requests, Credential, Number);
    var third := CredentialTick(a, start, bought, 2);
    s := ConnectionTick(a, start, third, 3);
  }

  lemma BothTook(requests: seq<Request>)
    requires requests == [Request(Identity, Effective), Request(Number, Effective)]
    ensures Took(requests, Identity) && Took(requests, Number)
  {
    assert requests[0] == Request(Identity, Effective) && requests[1] == Request(Number, Effective);
  }
}
