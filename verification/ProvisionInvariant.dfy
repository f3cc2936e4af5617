/** The invariant behind at-most-once provisioning, and the proof that every step keeps it. */
module ProvisionInvariant {
  import opened Wrappers
  import opened Provision

  const CLOSED := World(false)

  predicate Buyable(phase: Phase) {
    phase == Identity || phase == Number || phase == Credential
  }

  /** A request that took effect or may have; a mint counts even when the provider refused it. */
  predicate Counts(request: Request) {
    request.state != Refused || request.phase == Credential
  }

  predicate Unspent(requests: seq<Request>, phase: Phase) {
    forall i :: 0 <= i < |requests| && requests[i].phase == phase ==> !Counts(requests[i])
  }

  predicate AtMostOncePerPhase(requests: seq<Request>) {
    forall i, j :: 0 <= i < j < |requests| && Counts(requests[i]) && Counts(requests[j]) ==>
      requests[i].phase != requests[j].phase
  }

  predicate MintSent(requests: seq<Request>) {
    exists i :: 0 <= i < |requests| && requests[i].phase == Credential
  }

  // --- Rows and patches -------------------------------------------------------------

  /** Each phase has the receipts of the phases before it. */
  predicate RowOk(row: Order, vault: Option<Key>) {
    && (row.phase.Rank() >= 1 ==> row.identityId.Some?)
    && (row.phase.Rank() >= 2 ==> row.number.Some?)
    && (row.phase.Rank() >= 3 ==> vault.Some? && Some(vault.value.identityId) == row.identityId)
    && (row.phase == Complete ==> row.connectionId.Some?)
  }

  predicate KeepsReceipts(row: Order, row': Order) {
    && (row.identityId.Some? ==> row'.identityId == row.identityId)
    && (row.number.Some? ==> row'.number.Some? && SameLine(row.number.value, row'.number.value))
    && (row.connectionId.Some? ==> row'.connectionId.Some?)
  }

  predicate RowAdvances(row: Order, row': Order) {
    || row' == row
    || (&& row'.version == row.version + 1
        && row.phase.Rank() <= row'.phase.Rank() <= row.phase.Rank() + 1
        && KeepsReceipts(row, row')
        && (row.status == Cancelled ==> row'.status == Cancelled))
  }

  predicate Plain(patch: Patch) {
    && patch.phase.None? && patch.identityId.None? && patch.number.None? && patch.connectionId.None?
    && patch.attempted != Some(true)
    && (patch.status == Some(NeedsReview) || patch.status == Some(ProviderPending))
  }

  predicate Journals(patch: Patch) {
    && patch.phase.None? && patch.identityId.None? && patch.number.None? && patch.connectionId.None?
    && patch.attempted == Some(true) && patch.status == Some(Pending)
  }

  predicate Advancing(patch: Patch) {
    patch.attempted == Some(false) && patch.status.Some? && patch.status != Some(Cancelled)
  }

  predicate Adopts(order: Order, patch: Patch) {
    && Advancing(patch) && order.phase == Identity && patch.phase == Some(Number)
    && patch.identityId.Some? && patch.number.None? && patch.connectionId.None?
    && (order.identityId.Some? ==> patch.identityId == order.identityId)
  }

  predicate TakesNumber(order: Order, patch: Patch) {
    && Advancing(patch) && order.phase == Number && (patch.phase.None? || patch.phase == Some(Credential))
    && patch.identityId.None? && patch.number.Some? && patch.connectionId.None?
    && (order.number.Some? ==> SameLine(order.number.value, patch.number.value))
  }

  predicate Issues(order: Order, patch: Patch) {
    && Advancing(patch) && order.phase == Credential && patch.phase == Some(Connection)
    && patch.identityId.None? && patch.number.None? && patch.connectionId.None?
  }

  predicate Completes(order: Order, patch: Patch) {
    && Advancing(patch) && order.phase == Connection && patch.phase == Some(Complete)
    && patch.identityId.None? && patch.number.None? && patch.connectionId.Some?
  }

  predicate KeyMatches(vault: Option<Key>, order: Order) {
    vault.Some? && Some(vault.value.identityId) == order.identityId
  }

  lemma CaughtIsPlain(tick: Tick, fault: Fault, clock: int)
    ensures Plain(Caught(tick, fault, clock))
    ensures Caught(tick, fault, clock).attempted == (if Reopens(tick) then Some(false) else None)
  {}

  // --- Ticks --------------------------------------------------------------------------

  /** A snapshot is an earlier row, or the row itself. */
  predicate SnapshotOf(row: Order, order: Order) {
    order.version <= row.version && (order.version == row.version ==> order == row)
  }

  /** The tick has claimed the journal and not yet sent its mutation. */
  predicate Holding(tick: Tick) {
    match tick.pc
    case Check(purpose) => purpose.ForMutation?
    case CanProvision(purpose) => purpose.ForMutation?
    case Fund(purpose) => purpose.ForMutation?
    case Recheck(purpose) => purpose.ForMutation?
    case BackOff(purpose, _) => purpose.ForMutation?
    case Release(_) => true
    case ReleaseWrite(_, _) => true
    case Send => true
    case _ => false
  }

  /** The steps up to the mutation, and the way back from a claim. */
  predicate Gating(pc: Pc) {
    pc.Fetch? || pc.Look? || pc.Claiming? || pc.Check? || pc.CanProvision? || pc.Fund? || pc.Recheck? || pc.BackOff?
    || pc.Release? || pc.ReleaseWrite?
  }

  predicate Ending(pc: Pc) {
    pc.Save? || pc.Reread? || pc.MergeWrite? || pc.Ended?
  }

  /** One of the questions of the authorization. */
  predicate Authorizing(pc: Pc, purpose: Purpose) {
    pc == Check(purpose) || pc == CanProvision(purpose) || pc == Fund(purpose) || pc == Recheck(purpose)
  }

  predicate Fresh(s: State, tick: Tick) {
    tick.order.version == s.row.version
  }

  /** The tick is about to reopen the journal after a refusal. */
  predicate Reopening(s: State, tick: Tick) {
    tick.pc.Save? && Plain(tick.pc.patch) && tick.pc.patch.attempted == Some(false) && Fresh(s, tick)
  }

  predicate Held(s: State, tick: Tick) {
    s.row.attempted && tick.order.phase == s.row.phase && Buyable(s.row.phase) && Unspent(s.requests, s.row.phase)
  }

  // --- A tick and the row, in any world -------------------------------------------------

  predicate SaveShape(vault: Option<Key>, order: Order, patch: Patch) {
    || Plain(patch)
    || Adopts(order, patch)
    || TakesNumber(order, patch)
    || (Issues(order, patch) && KeyMatches(vault, order))
    || Completes(order, patch)
  }

  /** What a tick that stands at a step is about to write, and what it knows of the row and the vault. */
  predicate RowPcOk(row: Order, vault: Option<Key>, tick: Tick) {
    match tick.pc
    case Look => tick.order.phase != Complete
    case Claiming(patch) => Journals(patch)
    case Check(purpose) => purpose.ForMutation? || tick.order.phase == Connection
    case CanProvision(purpose) => purpose.ForMutation? || tick.order.phase == Connection
    case Fund(purpose) => purpose.ForMutation? || tick.order.phase == Connection
    case Recheck(purpose) => purpose.ForMutation? || tick.order.phase == Connection
    case BackOff(purpose, patch) =>
      (purpose.ForMutation? || tick.order.phase == Connection) && Plain(patch) && patch.attempted.None?
    case ReleaseWrite(current, _) => SnapshotOf(row, current) && current.status != Cancelled
    case Confirm(_) => tick.order.phase == Number
    case ReadVault => tick.order.phase == Credential || tick.order.phase == Connection
    case PutVault(key) => tick.order.phase == Credential && Some(key.identityId) == tick.order.identityId
    case Verify => tick.order.phase == Credential && KeyMatches(vault, tick.order)
    case Bind => tick.order.phase == Connection
    case Save(patch) => SaveShape(vault, tick.order, patch)
    case MergeWrite(_, _, current) => SnapshotOf(row, current)
    case Ended(end) => end.Finished? ==> !Missing(end.receipt, row)
    case _ => true
  }

  predicate RowTickOk(row: Order, vault: Option<Key>, tick: Tick) {
    && SnapshotOf(row, tick.order)
    && (tick.pc.Fetch? || tick.pc.Ended? || tick.order.status != Cancelled)
    && RowPcOk(row, vault, tick)
  }

  // --- A tick and the journal, in a closed world ----------------------------------------

  predicate SaveEarned(s: State, tick: Tick, patch: Patch) {
    && (Reopening(s, tick) ==> Unspent(s.requests, s.row.phase))
    && (Adopts(tick.order, patch) ==> Took(s.requests, Identity))
    && (TakesNumber(tick.order, patch) ==> Took(s.requests, Number))
  }

  predicate SaveOk(s: State, tick: Tick, patch: Patch) {
    SaveShape(s.vault, tick.order, patch) && SaveEarned(s, tick, patch)
  }

  predicate GatePcOk(s: State, tick: Tick) {
    match tick.pc
    case Claiming(_) =>
      Buyable(tick.order.phase) && !tick.order.attempted && (tick.order.phase == Number ==> tick.order.number.None?)
    case Check(purpose) => purpose.ForMutation? ==> Held(s, tick)
    case CanProvision(purpose) => purpose.ForMutation? ==> Held(s, tick)
    case Fund(purpose) => purpose.ForMutation? ==> Held(s, tick)
    case Recheck(purpose) => purpose.ForMutation? ==> Held(s, tick)
    case BackOff(purpose, _) => purpose.ForMutation? ==> Held(s, tick)
    case Release(_) => Held(s, tick)
    case ReleaseWrite(_, _) => Held(s, tick)
    case Send => Held(s, tick)
    case Await(i) =>
      i < |s.requests| && s.requests[i].phase == tick.order.phase && s.requests[i].state != Refused
        && Buyable(tick.order.phase)
    case Confirm(_) => Took(s.requests, Number)
    case PutVault(_) => MintSent(s.requests)
    case Save(patch) => SaveEarned(s, tick, patch)
    case _ => true
  }

  predicate TickOk(s: State, tick: Tick) {
    && RowTickOk(s.row, s.vault, tick)
    && GatePcOk(s, tick)
    && (tick.refused || tick.unsent ==> Ending(tick.pc))
  }

  predicate Exclusive(s: State) {
    && (forall i, j :: i in s.ticks && j in s.ticks && Holding(s.ticks[i]) && Holding(s.ticks[j]) ==> i == j)
    && (forall i, j :: i in s.ticks && j in s.ticks && Reopening(s, s.ticks[i]) ==> !Holding(s.ticks[j]))
    && (forall i, j :: i in s.ticks && j in s.ticks && s.ticks[i].pc.Await? && s.ticks[i].pc == s.ticks[j].pc ==>
        i == j)
  }

  predicate SharedOk(s: State) {
    && AtMostOncePerPhase(s.requests)
    && (forall i :: 0 <= i < |s.requests| ==>
          Buyable(s.requests[i].phase) && s.requests[i].phase.Rank() <= s.row.phase.Rank())
    && (!s.row.attempted && Buyable(s.row.phase) ==>
          Unspent(s.requests, s.row.phase) || (s.row.phase == Number && s.row.number.Some?))
    && (s.vault.Some? ==> MintSent(s.requests))
    && RowOk(s.row, s.vault)
  }

  predicate Inv(s: State) {
    && SharedOk(s)
    && Exclusive(s)
    && (forall id :: id in s.ticks ==> TickOk(s, s.ticks[id]))
  }

  // --- What a step leaves to the other ticks ------------------------------------------

  predicate Later(s: State, s': State) {
    && (s'.row == s.row || (s'.row.version == s.row.version + 1 && KeepsReceipts(s.row, s'.row)))
    && (Took(s.requests, Identity) ==> Took(s'.requests, Identity))
    && (Took(s.requests, Number) ==> Took(s'.requests, Number))
    && (MintSent(s.requests) ==> MintSent(s'.requests))
    && (s.vault.Some? ==> s'.vault == s.vault)
  }

  predicate SameGate(s: State, s': State) {
    && s'.row.attempted == s.row.attempted && s'.row.phase == s.row.phase
    && (Unspent(s.requests, s.row.phase) ==> Unspent(s'.requests, s.row.phase))
  }

  predicate AwaitKept(s: State, s': State, tick: Tick) {
    tick.pc.Await? && tick.pc.request < |s.requests| ==>
      && tick.pc.request < |s'.requests|
      && s'.requests[tick.pc.request].phase == s.requests[tick.pc.request].phase
      && (s.requests[tick.pc.request].state != Refused ==> s'.requests[tick.pc.request].state != Refused)
  }

  lemma OtherRowTickKeeps(row: Order, vault: Option<Key>, row': Order, vault': Option<Key>, tick: Tick)
    requires RowTickOk(row, vault, tick)
    requires row' == row || (row'.version == row.version + 1 && KeepsReceipts(row, row'))
    requires vault.Some? ==> vault' == vault
    ensures RowTickOk(row', vault', tick)
  {
    hide Plain, Adopts, TakesNumber, Issues, Completes, Journals;
  }

  lemma OtherGateKeeps(s: State, s': State, tick: Tick)
    requires GatePcOk(s, tick) && Later(s, s') && AwaitKept(s, s', tick) && SnapshotOf(s.row, tick.order)
    requires SameGate(s, s') || (!Holding(tick) && !Reopening(s', tick))
    ensures GatePcOk(s', tick)
  {
    hide Took, Unspent, MintSent, Adopts, TakesNumber, Plain;
  }

  lemma OtherTickKeeps(s: State, s': State, tick: Tick)
    requires TickOk(s, tick) && Later(s, s') && AwaitKept(s, s', tick)
    requires SameGate(s, s') || (!Holding(tick) && !Reopening(s', tick))
    ensures TickOk(s', tick)
  {
    OtherRowTickKeeps(s.row, s.vault, s'.row, s'.vault, tick);
    OtherGateKeeps(s, s', tick);
    hide RowTickOk, GatePcOk;
  }

  predicate NoOtherHolds(s: State, id: nat) {
    forall j :: j in s.ticks && j != id ==> !Holding(s.ticks[j])
  }

  predicate NoOtherReopens(s: State, id: nat) {
    forall j :: j in s.ticks && j != id ==> !Reopening(s, s.ticks[j])
  }

  predicate NoOtherAwaits(s: State, id: nat, pc: Pc) {
    forall j :: j in s.ticks && j != id ==> s.ticks[j].pc != pc
  }

  /** What tick `id` must respect for the others when it moves the system from `s` to `s'`. */
  predicate Respects(s: State, s': State, id: nat) {
    && id in s'.ticks && s'.ticks == s.ticks[id := s'.ticks[id]]
    && Later(s, s')
    && (SameGate(s, s') || (NoOtherHolds(s, id) && s'.row != s.row) || (NoOtherHolds(s, id) && NoOtherReopens(s, id)))
    && (forall j :: j in s.ticks && j != id ==> AwaitKept(s, s', s.ticks[j]))
    && (Holding(s'.ticks[id]) ==> NoOtherHolds(s, id) && (NoOtherReopens(s, id) || s'.row != s.row))
    && (Reopening(s', s'.ticks[id]) ==> NoOtherHolds(s, id) && !Holding(s'.ticks[id]))
    && (s'.ticks[id].pc.Await? ==> NoOtherAwaits(s, id, s'.ticks[id].pc))
  }

  lemma OthersKeep(s: State, s': State, id: nat, other: nat)
    requires Inv(s) && Respects(s, s', id) && other in s.ticks && other != id
    ensures TickOk(s', s.ticks[other])
    ensures Reopening(s', s.ticks[other]) ==> Reopening(s, s.ticks[other]) && s'.row == s.row
  {
    OtherTickKeeps(s, s', s.ticks[other]);
  }

  lemma StepKeepsRest(s: State, s': State, id: nat)
    requires Inv(s) && Respects(s, s', id)
    requires SharedOk(s') && TickOk(s', s'.ticks[id])
    ensures Inv(s')
  {
    hide SharedOk, TickOk, SameGate, Later, AwaitKept;
    forall other | other in s.ticks && other != id
      ensures TickOk(s', s.ticks[other])
      ensures Reopening(s', s.ticks[other]) ==> Reopening(s, s.ticks[other]) && s'.row == s.row
    {
      OthersKeep(s, s', id, other);
    }
  }

  /** A tick that holds the journal is alone with it. */
  lemma HolderIsAlone(s: State, id: nat)
    requires Inv(s) && id in s.ticks && Holding(s.ticks[id])
    ensures NoOtherHolds(s, id) && NoOtherReopens(s, id)
  {}
}
