/** What every run of the provisioning ticks guarantees, and the one assumption it rests on. */
module ProvisionTheorems {
  import opened Wrappers
  import opened Provision
  import opened ProvisionInvariant
  import ProvisionRows
  import ProvisionSteps

  predicate Reaches(world: World, start: State, actions: seq<Action>, s: State) {
    Run(world, start, actions) == s
  }

  ghost predicate Reachable(world: World, start: State, s: State) {
    exists actions :: Reaches(world, start, actions, s)
  }

  lemma InitialInv(transport: Transport, version: nat, clock: int)
    ensures Inv(Initial(transport, version, clock))
  {}

  lemma ReachableInv(transport: Transport, version: nat, clock: int, s: State)
    requires Reachable(CLOSED, Initial(transport, version, clock), s)
    ensures Inv(s)
  {
    var actions :| Reaches(CLOSED, Initial(transport, version, clock), actions, s);
    InitialInv(transport, version, clock);
    ProvisionSteps.RunKeepsInv(Initial(transport, version, clock), actions);
  }

  // --- At most once -------------------------------------------------------------------

  /**
    In every interleaving the identity and number phases each send at most one mutation that
    took effect or may have, and at most one mint request ever leaves the client.
    */
  lemma BuysAtMostOnce(transport: Transport, version: nat, clock: int, s: State, i: nat, j: nat)
    requires Reachable(CLOSED, Initial(transport, version, clock), s)
    requires i < j < |s.requests| && s.requests[i].phase == s.requests[j].phase
    ensures s.requests[i].phase == Identity || s.requests[i].phase == Number
    ensures s.requests[i].state == Refused || s.requests[j].state == Refused
  {
    ReachableInv(transport, version, clock, s);
    assert AtMostOncePerPhase(s.requests) && Buyable(s.requests[i].phase);
  }

  // --- The assumption is necessary ------------------------------------------------------

  lemma Go(world: World, start: State, s: State, action: Action) returns (s': State)
    requires Reachable(world, start, s)
    ensures s' == Step(world, s, action) && Reachable(world, start, s')
  {
    var actions :| Reaches(world, start, actions, s);
    s' := Step(world, s, action);
    assert (actions + [action])[..|actions|] == actions;
    assert Reaches(world, start, actions + [action], s');
  }

  const STRANGER := View("other", true, false, None)

  function Ticked(s: State, id: nat, order: Order, pc: Pc): State {
    s.(ticks := s.ticks[id := Tick(order, s.clock, false, false, false, pc)])
  }

  /** The order is neither complete nor cancelled, and its next attempt is due. */
  predicate IsOpen(s: State) {
    && s.row.phase != Complete && s.row.status != Cancelled
    && (s.row.nextAttemptAt.Some? ==> s.row.nextAttemptAt.value <= s.clock || s.row.nextAttemptAt.value == 0)
  }

  /** One tick up to the read of the identity, on an order that is due. */
  lemma TickLooks(world: World, start: State, s: State, id: nat) returns (s': State)
    requires Reachable(world, start, s) && id !in s.ticks
    requires IsOpen(s) && (s.row.phase == Identity || s.row.identityId.Some?)
    ensures s' == Ticked(s, id, s.row, Look) && Reachable(world, start, s')
  {
    s' := Go(world, start, s, Begin(id));
    s' := Go(world, start, s', Resume(id, Ok));
    assert s'.ticks == Ticked(s, id, s.row, Look).ticks;
  }

  /** From the read on, a tick that sees no purchase on an open journal claims it. */
  lemma TickClaims(start: State, s: State, id: nat, view: Option<View>) returns (s': State)
    requires Reachable(World(true), start, s) && id in s.ticks && s == Ticked(s, id, s.row, Look)
    requires s.row.status == Pending && !s.row.attempted && s.row.transport == Sms
    requires if s.row.phase == Identity then view.None?
             else (s.row.phase == Number && s.row.number.None? && s.row.identityId == Some("other")
                   && view == Some(STRANGER))
    ensures s' ==
              Ticked(s, id, Apply(s.row, Journal(s.clock)), Check(ForMutation)).(row := Apply(s.row, Journal(s.clock)))
    ensures Reachable(World(true), start, s')
  {
    s' := Go(World(true), start, s, Resume(id, Sees(view)));
    assert s'.ticks[id] == Tick(s.row, s.clock, false, false, false, Claiming(Journal(s.clock)));
    s' := Go(World(true), start, s', Resume(id, Ok));
    assert s'.ticks == Ticked(s, id, Apply(s.row, Journal(s.clock)), Check(ForMutation)).ticks;
  }

  /** The questions of the authorization, in turn, and the answer that passes each. */
  function PassedBy(pc: Pc): (Reply, Pc)
    requires pc.Check? || pc.CanProvision? || pc.Fund? || pc.Recheck?
  {
    match pc
    case Check(purpose) => (Ok, CanProvision(purpose))
    case CanProvision(purpose) => (Answer(true), Fund(purpose))
    case Fund(purpose) => (Answer(true), Recheck(purpose))
    case Recheck(purpose) => (Ok, if purpose.ForMutation? then Send else Bind)
  }

  lemma TickPasses(world: World, start: State, s: State, id: nat, pc: Pc) returns (s': State)
    requires pc.Check? || pc.CanProvision? || pc.Fund? || pc.Recheck?
    requires Reachable(world, start, s) && id in s.ticks && s == Ticked(s, id, s.row, pc) && s.row.status != Cancelled
    ensures s' == Ticked(s, id, s.row, PassedBy(pc).1) && Reachable(world, start, s')
  {
    hide Reachable;
    s' := Go(world, start, s, Resume(id, PassedBy(pc).0));
    assert s'.ticks == Ticked(s, id, s.row, PassedBy(pc).1).ticks;
  }

  lemma TickedTwice(s: State, id: nat, pc: Pc, pc': Pc)
    ensures var once := Ticked(s, id, s.row, pc);
            once == Ticked(once, id, once.row, pc) && Ticked(once, id, once.row, pc') == Ticked(s, id, s.row, pc')
  {
    var once := Ticked(s, id, s.row, pc);
    assert once.ticks == Ticked(once, id, once.row, pc).ticks;
    assert Ticked(once, id, once.row, pc').ticks == Ticked(s, id, s.row, pc').ticks;
  }

  /** An undisturbed tick passes all the questions of the authorization. */
  lemma TickIsAuthorized(world: World, start: State, s: State, id: nat, purpose: Purpose) returns (s': State)
    requires Reachable(world, start, s) && id in s.ticks && s == Ticked(s, id, s.row, Check(purpose))
    requires s.row.status != Cancelled
    ensures s' == Ticked(s, id, s.row, if purpose.ForMutation? then Send else Bind) && Reachable(world, start, s')
  {
    hide Reachable;
    var allowed := TickPasses(world, start, s, id, Check(purpose));
    TickedTwice(s, id, CanProvision(purpose), Fund(purpose));
    var funding := TickPasses(world, start, allowed, id, CanProvision(purpose));
    TickedTwice(s, id, Fund(purpose), Recheck(purpose));
    var rechecking := TickPasses(world, start, funding, id, Fund(purpose));
    TickedTwice(s, id, Recheck(purpose), if purpose.ForMutation? then Send else Bind);
    s' := TickPasses(world, start, rechecking, id, Recheck(purpose));
  }

  /** An undisturbed claimant is authorized and sends its mutation. */
  lemma TickSends(world: World, start: State, s: State, id: nat) returns (s': State)
    requires Reachable(world, start, s) && id in s.ticks && s == Ticked(s, id, s.row, Check(ForMutation))
    requires s.row.status != Cancelled
    ensures s' ==
              Ticked(s, id, s.row, Await(|s.requests|)).(requests := s.requests + [Request(s.row.phase, Outstanding)])
    ensures Reachable(world, start, s')
  {
    var ready := TickIsAuthorized(world, start, s, id, ForMutation);
    s' := Go(world, start, ready, Resume(id, Ok));
    assert s'.ticks == Ticked(s, id, s.row, Await(|s.requests|)).ticks;
  }

  /** A tick that finds the journal open and no number buys one, whoever made the identity. */
  lemma TickBuys(start: State, s: State, id: nat) returns (s': State)
    requires Reachable(World(true), start, s) && id !in s.ticks
    requires var row := s.row;
             row.phase == Number && row.status == Pending && !row.attempted && row.transport == Sms
             && row.number.None? && row.nextAttemptAt.None? && row.identityId == Some("other")
    ensures Reachable(World(true), start, s')
    ensures s'.requests == s.requests + [Request(Number, Outstanding)]
    ensures s'.row == Apply(s.row, Journal(s.clock))
    ensures id in s'.ticks && s'.ticks == s.ticks[id := s'.ticks[id]]
  {
    s' := TickLooks(World(true), start, s, id);
    assert s' == Ticked(s', id, s'.row, Look);
    s' := TickClaims(start, s', id, Some(STRANGER));
    assert s' == Ticked(s', id, s'.row, Check(ForMutation));
    s' := TickSends(World(true), start, s', id);
  }

  /** Tick 0 claims the journal for the identity. */
  lemma FirstTickClaims(start: State) returns (s: State)
    requires start == Initial(Sms, 0, 0)
    ensures Reachable(World(true), start, s)
    ensures s ==
              Ticked(start, 0, Apply(start.row, Journal(0)), Check(ForMutation)).(row := Apply(start.row, Journal(0)))
  {
    assert Reaches(World(true), start, [], start);
    hide Reachable;
    s := TickLooks(World(true), start, start, 0);
    s := TickClaims(start, s, 0, None);
  }

  /** Tick 0 is then overtaken: tick 1 adopts a stranger's identity. */
  lemma StrangerAdopted(start: State) returns (s: State)
    requires start == Initial(Sms, 0, 0)
    ensures Reachable(World(true), start, s)
    ensures s.requests == [] && s.ticks.Keys == {0, 1}
    ensures s.ticks[0] == Tick(Apply(start.row, Journal(0)), 0, false, false, false, Check(ForMutation))
    ensures s.row == Apply(Apply(start.row, Journal(0)), Adopt("other"))
  {
    hide Reachable;
    s := FirstTickClaims(start);
    s := TickLooks(World(true), start, s, 1);
    var claimed := s;
    s := Go(World(true), start, s, Resume(1, Sees(Some(STRANGER))));
    assert s.ticks[1] == claimed.ticks[1].(pc := Save(Adopt("other")));
    s := Go(World(true), start, s, Resume(1, Ok));
  }

  /** An overtaken claimant clears the claim it finds, whoever made it. */
  lemma TickReleases(start: State, s: State, id: nat) returns (s': State)
    requires Reachable(World(true), start, s) && id in s.ticks
    requires s.ticks[id].pc == Check(ForMutation) && s.ticks[id].order.version < s.row.version
    requires s.row.attempted && s.row.status == Pending
    ensures Reachable(World(true), start, s')
    ensures s' == s.(row := s.row.(attempted := false, version := s.row.version + 1), ticks := s'.ticks)
    ensures s'.ticks.Keys == s.ticks.Keys
  {
    hide Reachable;
    s' := Go(World(true), start, s, Resume(id, Ok));
    assert s'.ticks[id].pc == Release(None);
    s' := Go(World(true), start, s', Resume(id, Ok));
    assert s'.ticks[id].pc == ReleaseWrite(s.row, None);
    s' := Go(World(true), start, s', Resume(id, Ok));
  }

  /**
    Releasing does not ask whose claim the row holds: the overtaken tick 0 reopens the journal
    under tick 2's live purchase, and tick 3 buys a second number.
    */
  lemma ForeignIdentityBuysTwice(start: State) returns (s: State)
    requires start == Initial(Sms, 0, 0)
    ensures Reachable(World(true), start, s)
    ensures s.requests == [Request(Number, Outstanding), Request(Number, Outstanding)]
  {
    hide Reachable;
    s := StrangerAdopted(start);
    s := TickBuys(start, s, 2);
    s := TickReleases(start, s, 0);
    s := TickBuys(start, s, 3);
  }

  ghost predicate AlwaysAtMostOnce(world: World) {
    forall transport, version, clock, s :: Reachable(world, Initial(transport, version, clock), s) ==>
      AtMostOncePerPhase(s.requests)
  }

  /** At-most-once holds exactly when nothing but this order can create what its reads show. */
  lemma AtMostOnceIffClosedWorld(world: World)
    ensures AlwaysAtMostOnce(world) <==> !world.foreign
  {
    if world.foreign {
      var start := Initial(Sms, 0, 0);
      var s := ForeignIdentityBuysTwice(start);
      assert !AtMostOncePerPhase(s.requests) by {
        assert Counts(s.requests[0]) && Counts(s.requests[1]);
      }
    } else {
      forall transport, version, clock, s | Reachable(world, Initial(transport, version, clock), s)
        ensures AtMostOncePerPhase(s.requests)
      {
        ReachableInv(transport, version, clock, s);
      }
    }
  }

  // --- The row and its receipts, in every world ---------------------------------------------

  lemma InitialRows(transport: Transport, version: nat, clock: int)
    ensures ProvisionRows.RowInv(Initial(transport, version, clock))
  {}

  /** Every state that any world's run reaches has its row in order, and every tick fits the row. */
  lemma ReachableRows(world: World, transport: Transport, version: nat, clock: int, s: State)
    requires Reachable(world, Initial(transport, version, clock), s)
    ensures ProvisionRows.RowInv(s)
  {
    hide ProvisionRows.RowInv;
    var actions :| Reaches(world, Initial(transport, version, clock), actions, s);
    InitialRows(transport, version, clock);
    ProvisionRows.RowNeverGoesBack(world, Initial(transport, version, clock), actions);
  }

  /**
    A tick that returns after saving an identity or a number leaves a row that holds one, even
    if the order was cancelled or rewritten under it; the row keeps it in every later state.
    */
  lemma ReturnedReceiptsAreOnTheRow(world: World, transport: Transport, version: nat, clock: int, s: State, id: nat,
                                    later: seq<Action>)
    requires Reachable(world, Initial(transport, version, clock), s)
    requires id in s.ticks && s.ticks[id].pc.Ended? && s.ticks[id].pc.end.Finished?
    ensures var receipt, row := s.ticks[id].pc.end.receipt, Run(world, s, later).row;
            && (receipt.identityId.Some? ==> row.identityId.Some?)
            && (receipt.number.Some? ==> row.number.Some?)
  {
    hide Reachable, RowOk;
    ReachableRows(world, transport, version, clock, s);
    assert RowTickOk(s.row, s.vault, s.ticks[id]);
    ProvisionRows.RowNeverGoesBack(world, s, later);
  }

  /** Every reachable phase has its receipts, and a connected order has its credential in the vault. */
  lemma PhaseImpliesReceipts(world: World, transport: Transport, version: nat, clock: int, s: State)
    requires Reachable(world, Initial(transport, version, clock), s)
    ensures s.row.phase != Identity ==> s.row.identityId.Some?
    ensures s.row.phase.Rank() >= Credential.Rank() ==> s.row.number.Some?
    ensures s.row.phase.Rank() >= Connection.Rank() ==>
              s.vault.Some? && Some(s.vault.value.identityId) == s.row.identityId
    ensures s.row.phase == Complete ==> s.row.connectionId.Some?
  {
    ReachableRows(world, transport, version, clock, s);
  }
}
