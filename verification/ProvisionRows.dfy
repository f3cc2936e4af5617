/** The row, the vault and the receipts: what every step keeps in every world, whatever the provider shows. */
module ProvisionRows {
  import opened Wrappers
  import opened Provision
  import opened ProvisionInvariant

  predicate RowInv(s: State) {
    RowOk(s.row, s.vault) && forall id :: id in s.ticks ==> RowTickOk(s.row, s.vault, s.ticks[id])
  }

  /** What a step needs to know: the row is in order, and its own tick fits it. */
  predicate Fits(s: State, id: nat) {
    id in s.ticks && RowOk(s.row, s.vault) && RowTickOk(s.row, s.vault, s.ticks[id])
  }

  /** What a step of one tick does to the row and the vault, and where it leaves that tick. */
  predicate RowMoves(s: State, s': State, id: nat) {
    && id in s'.ticks && s'.ticks == s.ticks[id := s'.ticks[id]]
    && RowAdvances(s.row, s'.row) && (s.vault.Some? ==> s'.vault == s.vault)
    && RowOk(s'.row, s'.vault) && RowTickOk(s'.row, s'.vault, s'.ticks[id])
  }

  lemma Stays(s: State, id: nat)
    requires Fits(s, id)
    ensures RowMoves(s, s, id)
  {
    assert s.ticks == s.ticks[id := s.ticks[id]];
  }

  lemma PutMoves(s: State, id: nat, tick: Tick)
    requires Fits(s, id) && RowTickOk(s.row, s.vault, tick)
    ensures RowMoves(s, s.(ticks := s.ticks[id := tick]), id)
  {
    hide RowTickOk, RowOk;
  }

  lemma CaughtIsSave(vault: Option<Key>, tick: Tick, fault: Fault, clock: int)
    ensures SaveShape(vault, tick.order, Caught(tick, fault, clock))
  {
    CaughtIsPlain(tick, fault, clock);
  }

  /** The error path: a plain patch, saved over a row whose snapshot the tick has. */
  lemma FailMoves(s: State, id: nat, tick: Tick, fault: Fault)
    requires Fits(s, id) && SnapshotOf(s.row, tick.order) && tick.order.status != Cancelled
    ensures RowMoves(s, Fail(s, id, tick, fault), id)
  {
    CaughtIsSave(s.vault, tick, fault, s.clock);
    hide Caught, RowOk, SaveShape, SnapshotOf;
    PutMoves(s, id, tick.(pc := Save(Caught(tick, fault, s.clock))));
  }

  lemma FetchMoves(s: State, id: nat, reply: Reply)
    requires Fits(s, id) && s.ticks[id].pc.Fetch?
    ensures RowMoves(s, FetchStep(s, id, s.ticks[id], reply), id)
  {
    PutMoves(s, id, FetchStep(s, id, s.ticks[id], reply).ticks[id]);
  }

  lemma LeaseMoves(s: State, id: nat)
    requires Fits(s, id) && s.ticks[id].order.status != Cancelled
    ensures RowMoves(s, Lease(s, id, s.ticks[id]), id)
  {
    PutMoves(s, id, Lease(s, id, s.ticks[id]).ticks[id]);
  }

  lemma NumberKnownMoves(s: State, id: nat, tick: Tick, number: Option<PhoneNumber>)
    requires Fits(s, id) && SnapshotOf(s.row, tick.order)
    requires tick.order.status != Cancelled && tick.order.phase == Number
    ensures RowMoves(s, NumberKnown(s, id, tick, number), id)
  {
    if number.Some? && tick.order.number.Some? && !SameLine(tick.order.number.value, number.value) {
      FailMoves(s, id, tick, BAD_RECEIPT);
    } else {
      hide RowOk;
      PutMoves(s, id, NumberKnown(s, id, tick, number).ticks[id]);
    }
  }

  lemma LookAtNumberMoves(s: State, id: nat, view: View)
    requires Fits(s, id) && s.ticks[id].pc.Look? && s.ticks[id].order.phase == Number
    ensures RowMoves(s, LookAtNumber(s, id, s.ticks[id], view), id)
  {
    hide RowOk;
    var tick := s.ticks[id];
    var number := Selected(tick.order, view);
    if number.Some? {
      NumberKnownMoves(s, id, tick, number);
    } else if tick.order.number.Some?
              || (tick.order.attempted && tick.order.transport == IMessage && view.iMessageEnabled) {
      PutMoves(s, id, LookAtNumber(s, id, tick, view).ticks[id]);
    } else {
      LeaseMoves(s, id);
    }
  }

  lemma LookAtLineMoves(world: World, s: State, id: nat, view: View)
    requires Fits(s, id) && s.ticks[id].pc.Look? && Visible(world, s, Some(view)) && Matches(s.ticks[id].order, view)
    requires s.ticks[id].order.phase == Credential || s.ticks[id].order.phase == Connection
    ensures RowMoves(s, LookStep(world, s, id, s.ticks[id], Sees(Some(view))), id)
  {
    hide RowOk;
    var tick := s.ticks[id];
    if LookStep(world, s, id, tick, Sees(Some(view))) == Put(s, id, tick, ReadVault) {
      PutMoves(s, id, tick.(pc := ReadVault));
    } else {
      FailMoves(s, id, tick, BAD_RECEIPT);
    }
  }

  lemma LookMoves(world: World, s: State, id: nat, reply: Reply)
    requires Fits(s, id) && s.ticks[id].pc.Look?
    ensures RowMoves(s, LookStep(world, s, id, s.ticks[id], reply), id)
  {
    hide RowOk, Visible;
    var tick := s.ticks[id];
    if reply.Throws? {
      FailMoves(s, id, tick, reply.fault);
    } else if !reply.Sees? || !Visible(world, s, reply.seen) {
      Stays(s, id);
    } else if reply.seen.None? && tick.order.phase == Identity {
      LeaseMoves(s, id);
    } else if reply.seen.None? {
      PutMoves(s, id, tick.(pc := Save(Review(s.clock))));
    } else if tick.order.phase == Identity && !tick.order.attempted && tick.order.identityId.None? {
      PutMoves(s, id, tick.(pc := Save(Review(s.clock))));
    } else if !Matches(tick.order, reply.seen.value) {
      FailMoves(s, id, tick, BAD_RECEIPT);
    } else if tick.order.phase == Identity {
      PutMoves(s, id, tick.(pc := Save(Adopt(reply.seen.value.id))));
    } else if tick.order.phase == Number {
      LookAtNumberMoves(s, id, reply.seen.value);
    } else {
      LookAtLineMoves(world, s, id, reply.seen.value);
    }
  }

  // --- Steps that write the row -----------------------------------------------------------

  /** A write followed by the next step of the tick. */
  lemma WriteMoves(s: State, id: nat, row: Order, tick: Tick)
    requires Fits(s, id) && RowAdvances(s.row, row) && RowOk(row, s.vault) && RowTickOk(row, s.vault, tick)
    ensures RowMoves(s, s.(row := row, ticks := s.ticks[id := tick]), id)
  {
    hide RowTickOk, RowOk, RowAdvances;
  }

  lemma KeepsPhase(row: Order, patch: Patch, vault: Option<Key>)
    requires RowOk(row, vault) && (Journals(patch) || Plain(patch)) && row.status != Cancelled
    ensures RowOk(Apply(row, patch), vault) && RowAdvances(row, Apply(row, patch))
  {}

  lemma OwnClaim(s: State, id: nat)
    requires Fits(s, id) && s.ticks[id].pc.Claiming?
    ensures SnapshotOf(s.row, s.ticks[id].order) && s.ticks[id].order.status != Cancelled
    ensures Journals(s.ticks[id].pc.patch)
  {}

  lemma ClaimedTickFits(row: Order, vault: Option<Key>, tick: Tick, patch: Patch, reply: Reply, clock: int)
    requires Journals(patch) && tick.order == row && row.status != Cancelled
    ensures RowTickOk(Apply(row, patch), vault, tick.(order := Apply(row, patch), pc := Check(ForMutation)))
    ensures reply.ThrowsAfterEffect? ==>
              RowTickOk(Apply(row, patch), vault, tick.(pc := Save(Caught(tick, reply.fault, clock))))
  {
    if reply.ThrowsAfterEffect? {
      CaughtIsSave(vault, tick, reply.fault, clock);
      hide Caught, SaveShape;
    }
  }

  lemma ClaimMoves(s: State, id: nat, reply: Reply)
    requires Fits(s, id) && s.ticks[id].pc.Claiming?
    ensures RowMoves(s, ClaimStep(s, id, s.ticks[id], s.ticks[id].pc.patch, reply), id)
  {
    var tick, patch := s.ticks[id], s.ticks[id].pc.patch;
    OwnClaim(s, id);
    hide RowOk, RowMoves, Caught, Journals;
    if reply.Throws? {
      FailMoves(s, id, tick, reply.fault);
    } else if s.row.version != tick.order.version {
      PutMoves(s, id, tick.(pc := Leave));
    } else {
      hide RowTickOk, RowAdvances, Apply;
      KeepsPhase(s.row, patch, s.vault);
      ClaimedTickFits(s.row, s.vault, tick, patch, reply, s.clock);
      WriteMoves(s, id, Apply(s.row, patch), ClaimStep(s, id, tick, patch, reply).ticks[id]);
    }
  }

  lemma DenyMoves(s: State, id: nat, tick: Tick, purpose: Purpose, thrown: Option<Fault>)
    requires Fits(s, id) && SnapshotOf(s.row, tick.order) && tick.order.status != Cancelled
    ensures RowMoves(s, Deny(s, id, tick, purpose, thrown), id)
  {
    hide RowOk;
    if !purpose.ForMutation? && thrown.Some? {
      FailMoves(s, id, tick, thrown.value);
    } else {
      PutMoves(s, id, Deny(s, id, tick, purpose, thrown).ticks[id]);
    }
  }

  lemma AuthorizeMoves(s: State, id: nat, purpose: Purpose, reply: Reply)
    requires Fits(s, id) && Authorizing(s.ticks[id].pc, purpose)
    ensures RowMoves(s, AuthorizeStep(s, id, s.ticks[id], purpose, reply), id)
  {
    hide RowOk;
    var tick := s.ticks[id];
    var s' := AuthorizeStep(s, id, tick, purpose, reply);
    if reply.Throws? {
      DenyMoves(s, id, tick, purpose, Some(reply.fault));
    } else if reply.Ok? && !StillCurrent(s, tick) && (tick.pc.Check? || tick.pc.Recheck?) {
      DenyMoves(s, id, tick, purpose, None);
    } else if s' == s {
      Stays(s, id);
    } else {
      PutMoves(s, id, s'.ticks[id]);
    }
  }

  /** A write and then a way out, as if from a state that has the new row. */
  lemma MovesOn(s: State, mid: State, s': State, id: nat)
    requires Fits(s, id) && mid == s.(row := mid.row)
    requires RowAdvances(s.row, mid.row) && mid.row.version == s.row.version + 1
    requires RowMoves(mid, s', id) && s'.row == mid.row
    ensures RowMoves(s, s', id)
  {
    hide RowTickOk, RowOk;
  }

  lemma BackOffMoves(s: State, id: nat, reply: Reply)
    requires Fits(s, id) && s.ticks[id].pc.BackOff?
    ensures RowMoves(s, BackOffStep(s, id, s.ticks[id], s.ticks[id].pc.purpose, s.ticks[id].pc.patch, reply), id)
  {
    var tick, purpose, patch := s.ticks[id], s.ticks[id].pc.purpose, s.ticks[id].pc.patch;
    if reply.Throws? {
      DenyMoves(s, id, tick, purpose, Some(reply.fault));
    } else if s.row.version != tick.order.version {
      DenyMoves(s, id, tick, purpose, None);
    } else {
      KeepsPhase(s.row, patch, s.vault);
      var mid := s.(row := Apply(s.row, patch));
      OtherRowTickKeeps(s.row, s.vault, mid.row, mid.vault, tick);
      var after := if reply.ThrowsAfterEffect? then tick else tick.(order := mid.row);
      DenyMoves(mid, id, after, purpose, if reply.ThrowsAfterEffect? then Some(reply.fault) else None);
      MovesOn(s, mid, BackOffStep(s, id, tick, purpose, patch, reply), id);
    }
  }

  lemma ReleasedMoves(s: State, id: nat, tick: Tick, thrown: Option<Fault>)
    requires Fits(s, id) && SnapshotOf(s.row, tick.order) && tick.order.status != Cancelled
    ensures RowMoves(s, Released(s, id, tick, thrown), id)
  {
    hide RowOk;
    if thrown.Some? {
      FailMoves(s, id, tick, thrown.value);
    } else {
      PutMoves(s, id, tick.(pc := Leave));
    }
  }

  lemma ReleaseMoves(s: State, id: nat, reply: Reply)
    requires Fits(s, id) && s.ticks[id].pc.Release?
    ensures RowMoves(s, ReleaseStep(s, id, s.ticks[id], s.ticks[id].pc.thrown, reply), id)
  {
    hide RowOk;
    var tick, thrown := s.ticks[id], s.ticks[id].pc.thrown;
    if reply.Throws? {
      FailMoves(s, id, tick, reply.fault);
    } else if !s.row.attempted || s.row.status == Cancelled {
      ReleasedMoves(s, id, tick, thrown);
    } else {
      PutMoves(s, id, tick.(pc := ReleaseWrite(s.row, thrown)));
    }
  }

  lemma ReleaseWriteMoves(s: State, id: nat, reply: Reply)
    requires Fits(s, id) && s.ticks[id].pc.ReleaseWrite?
    ensures RowMoves(s, ReleaseWriteStep(s, id, s.ticks[id], s.ticks[id].pc.current, s.ticks[id].pc.thrown, reply), id)
  {
    var tick, current, thrown := s.ticks[id], s.ticks[id].pc.current, s.ticks[id].pc.thrown;
    if reply.Throws? {
      FailMoves(s, id, tick, reply.fault);
    } else if s.row.version != current.version {
      ReleasedMoves(s, id, tick, thrown);
    } else {
      var mid := s.(row := s.row.(attempted := false, version := s.row.version + 1));
      OtherRowTickKeeps(s.row, s.vault, mid.row, mid.vault, tick);
      if reply.ThrowsAfterEffect? {
        FailMoves(mid, id, tick, reply.fault);
      } else {
        ReleasedMoves(mid, id, tick.(order := mid.row), thrown);
      }
      MovesOn(s, mid, ReleaseWriteStep(s, id, tick, current, thrown, reply), id);
    }
  }

  /** Each of the five final patches takes the row one phase on at most, with the receipts of its phase. */
  lemma SaveAdvances(row: Order, vault: Option<Key>, patch: Patch)
    requires RowOk(row, vault) && SaveShape(vault, row, patch) && row.status != Cancelled
    ensures RowOk(Apply(row, patch), vault) && RowAdvances(row, Apply(row, patch))
    ensures !Missing(ReceiptOf(patch), Apply(row, patch))
  {}

  lemma EndedTickOk(row: Order, vault: Option<Key>, tick: Tick, end: End)
    requires SnapshotOf(row, tick.order) && (end.Finished? ==> !Missing(end.receipt, row))
    ensures RowTickOk(row, vault, tick.(pc := Ended(end)))
  {}

  lemma OwnSave(s: State, id: nat)
    requires Fits(s, id) && s.ticks[id].pc.Save?
    ensures SnapshotOf(s.row, s.ticks[id].order) && s.ticks[id].order.status != Cancelled
    ensures SaveShape(s.vault, s.ticks[id].order, s.ticks[id].pc.patch)
  {}

  lemma SavedMoves(s: State, id: nat, end: End)
    requires Fits(s, id) && s.ticks[id].pc.Save? && s.row.version == s.ticks[id].order.version
    requires end.Finished? ==> end.receipt == ReceiptOf(s.ticks[id].pc.patch)
    ensures var row := Apply(s.row, s.ticks[id].pc.patch);
            RowMoves(s, s.(row := row, ticks := s.ticks[id := s.ticks[id].(order := row, pc := Ended(end))]), id)
  {
    OwnSave(s, id);
    var tick, row := s.ticks[id], Apply(s.row, s.ticks[id].pc.patch);
    assert tick.order == s.row;
    hide RowTickOk, RowOk, RowAdvances, SaveShape, Missing, ReceiptOf, Apply;
    SaveAdvances(s.row, s.vault, tick.pc.patch);
    EndedTickOk(row, s.vault, tick.(order := row), end);
    WriteMoves(s, id, row, tick.(order := row, pc := Ended(end)));
  }

  lemma SaveMoves(s: State, id: nat, reply: Reply)
    requires Fits(s, id) && s.ticks[id].pc.Save?
    ensures RowMoves(s, SaveStep(s, id, s.ticks[id], s.ticks[id].pc.patch, reply), id)
  {
    var tick, patch := s.ticks[id], s.ticks[id].pc.patch;
    OwnSave(s, id);
    if reply.Throws? {
      hide RowTickOk, RowOk, RowMoves, SaveShape, Missing;
      EndedTickOk(s.row, s.vault, tick, Failed);
      PutMoves(s, id, tick.(pc := Ended(Failed)));
    } else if s.row.version != tick.order.version {
      hide RowOk, RowMoves, SaveShape, Missing;
      PutMoves(s, id, tick.(pc := Reread(ReceiptOf(patch), 0)));
    } else {
      hide RowTickOk, RowOk, RowMoves, SaveShape, Missing, ReceiptOf, Apply;
      SavedMoves(s, id, if reply.ThrowsAfterEffect? then Failed else Finished(ReceiptOf(patch)));
    }
  }

  lemma RereadMoves(s: State, id: nat, reply: Reply)
    requires Fits(s, id) && s.ticks[id].pc.Reread?
    ensures RowMoves(s, RereadStep(s, id, s.ticks[id], s.ticks[id].pc.receipt, s.ticks[id].pc.attempt, reply), id)
  {
    hide RowOk, RowMoves;
    PutMoves(s, id, RereadStep(s, id, s.ticks[id], s.ticks[id].pc.receipt, s.ticks[id].pc.attempt, reply).ticks[id]);
  }

  lemma MergeAdvances(row: Order, vault: Option<Key>, receipt: Receipt)
    requires RowOk(row, vault)
    ensures RowOk(Merge(receipt, row), vault) && RowAdvances(row, Merge(receipt, row))
    ensures !Missing(receipt, Merge(receipt, row))
  {}

  lemma MergedMoves(s: State, id: nat, receipt: Receipt, end: End)
    requires Fits(s, id) && (end.Finished? ==> end.receipt == receipt)
    ensures var row := Merge(receipt, s.row);
            RowMoves(s, s.(row := row, ticks := s.ticks[id := s.ticks[id].(pc := Ended(end))]), id)
  {
    var row := Merge(receipt, s.row);
    assert SnapshotOf(row, s.ticks[id].order);
    hide RowTickOk, RowOk, RowAdvances, Missing, Merge, SnapshotOf;
    MergeAdvances(s.row, s.vault, receipt);
    EndedTickOk(row, s.vault, s.ticks[id], end);
    WriteMoves(s, id, row, s.ticks[id].(pc := Ended(end)));
  }

  lemma OwnMerge(s: State, id: nat)
    requires Fits(s, id) && s.ticks[id].pc.MergeWrite?
    ensures SnapshotOf(s.row, s.ticks[id].order) && SnapshotOf(s.row, s.ticks[id].pc.current)
    ensures s.ticks[id].order.status != Cancelled
  {}

  lemma MergeWriteMoves(s: State, id: nat, reply: Reply)
    requires Fits(s, id) && s.ticks[id].pc.MergeWrite?
    ensures var pc := s.ticks[id].pc;
            RowMoves(s, MergeWriteStep(s, id, s.ticks[id], pc.receipt, pc.attempt, pc.current, reply), id)
  {
    var tick, pc := s.ticks[id], s.ticks[id].pc;
    OwnMerge(s, id);
    if reply.Throws? {
      hide RowTickOk, RowOk, RowMoves, Missing;
      EndedTickOk(s.row, s.vault, tick, Failed);
      PutMoves(s, id, tick.(pc := Ended(Failed)));
    } else if s.row.version != pc.current.version {
      hide RowOk, RowMoves, Missing;
      PutMoves(s, id, tick.(pc := Reread(pc.receipt, pc.attempt + 1)));
    } else {
      hide RowTickOk, RowOk, RowMoves, Missing, Merge;
      MergedMoves(s, id, pc.receipt, if reply.ThrowsAfterEffect? then Failed else Finished(pc.receipt));
    }
  }

  // --- The mutation, the vault and the binding ----------------------------------------------

  /** Requests and the flags of a tick do not concern the row. */
  lemma RequestsAside(s: State, s': State, requests: seq<Request>, id: nat)
    requires RowMoves(s, s', id)
    ensures RowMoves(s, s'.(requests := requests), id) && RowMoves(s.(requests := requests), s', id)
  {}

  lemma SendMoves(s: State, id: nat, reply: Reply)
    requires Fits(s, id) && s.ticks[id].pc.Send?
    ensures RowMoves(s, SendStep(s, id, s.ticks[id], reply), id)
  {
    hide RowOk;
    var tick := s.ticks[id];
    if reply.Throws? && reply.fault.code == InvalidInput {
      FailMoves(s, id, tick.(refused := true, unsent := true, settled := true), reply.fault);
    } else if reply == Ok {
      PutMoves(s, id, tick.(pc := Await(|s.requests|)));
      RequestsAside(s, Put(s, id, tick, Await(|s.requests|)), SendStep(s, id, tick, reply).requests, id);
    } else {
      Stays(s, id);
    }
  }

  lemma RefusalMoves(s: State, id: nat, fault: Fault, requests: seq<Request>)
    requires Fits(s, id) && s.ticks[id].pc.Await?
    ensures RowMoves(s, Fail(s.(requests := requests), id, s.ticks[id].(settled := true, refused := true), fault), id)
  {
    hide RowOk;
    var flagged := s.ticks[id].(settled := true, refused := true);
    FailMoves(s, id, flagged, fault);
    RequestsAside(s, Fail(s, id, flagged, fault), requests, id);
  }

  lemma AnswerMoves(s: State, id: nat, reply: Reply)
    requires Fits(s, id) && s.ticks[id].pc.Await? && s.ticks[id].pc.request < |s.requests| && !reply.Throws?
    ensures RowMoves(s, AwaitStep(s, id, s.ticks[id], s.ticks[id].pc.request, reply), id)
  {
    hide RowOk;
    var tick, request := s.ticks[id], s.ticks[id].pc.request;
    var s', settled := AwaitStep(s, id, tick, request, reply), tick.(settled := true);
    if s' == s {
      Stays(s, id);
    } else if reply.Receives? && !Matches(tick.order, reply.view) {
      FailMoves(s, id, settled, BAD_RECEIPT);
    } else if reply.Receives? && tick.order.phase == Number {
      NumberKnownMoves(s, id, settled, Selected(tick.order, reply.view));
    } else {
      PutMoves(s, id, s'.ticks[id]);
    }
  }

  lemma AwaitMoves(s: State, id: nat, reply: Reply)
    requires Fits(s, id) && s.ticks[id].pc.Await? && s.ticks[id].pc.request < |s.requests|
    ensures RowMoves(s, AwaitStep(s, id, s.ticks[id], s.ticks[id].pc.request, reply), id)
  {
    hide RowOk, RowTickOk, Fail;
    var tick, request := s.ticks[id], s.ticks[id].pc.request;
    if !reply.Throws? {
      AnswerMoves(s, id, reply);
    } else if AwaitStep(s, id, tick, request, reply) == s {
      Stays(s, id);
    } else if reply.fault.code == ProviderRejected {
      RefusalMoves(s, id, reply.fault, s.requests[request := s.requests[request].(state := Refused)]);
    } else {
      OwnSnapshot(s, id);
      FailMoves(s, id, tick.(settled := true), reply.fault);
    }
  }

  lemma OwnSnapshot(s: State, id: nat)
    requires Fits(s, id) && !s.ticks[id].pc.Fetch? && !s.ticks[id].pc.Ended?
    ensures SnapshotOf(s.row, s.ticks[id].order) && s.ticks[id].order.status != Cancelled
  {}

  lemma ConfirmMoves(world: World, s: State, id: nat, reply: Reply)
    requires Fits(s, id) && s.ticks[id].pc.Confirm?
    ensures RowMoves(s, ConfirmStep(world, s, id, s.ticks[id], s.ticks[id].pc.purchased, reply), id)
  {
    hide RowOk, Visible;
    var tick, purchased := s.ticks[id], s.ticks[id].pc.purchased;
    if reply.Throws? {
      FailMoves(s, id, tick, reply.fault);
    } else if !reply.Sees? || !Visible(world, s, reply.seen) {
      Stays(s, id);
    } else if reply.seen.None? || !Matches(tick.order, reply.seen.value) {
      FailMoves(s, id, tick, BAD_RECEIPT);
    } else {
      var number := Selected(tick.order, reply.seen.value);
      if number.None? || !SameLine(purchased, number.value) {
        FailMoves(s, id, tick, BAD_RECEIPT);
      } else {
        NumberKnownMoves(s, id, tick, number);
      }
    }
  }

  lemma ReadVaultMoves(s: State, id: nat, reply: Reply)
    requires Fits(s, id) && s.ticks[id].pc.ReadVault?
    ensures RowMoves(s, ReadVaultStep(s, id, s.ticks[id], reply), id)
  {
    hide RowOk;
    var tick := s.ticks[id];
    if reply.Throws? {
      FailMoves(s, id, tick, reply.fault);
    } else if tick.order.phase == Credential && s.vault.None? {
      LeaseMoves(s, id);
    } else if s.vault.None? || Some(s.vault.value.identityId) != tick.order.identityId {
      FailMoves(s, id, tick, BAD_RECEIPT);
    } else {
      PutMoves(s, id, ReadVaultStep(s, id, tick, reply).ticks[id]);
    }
  }

  lemma VaultFills(s: State, mid: State, s': State, id: nat)
    requires Fits(s, id) && mid == s.(vault := mid.vault) && (s.vault.Some? ==> mid.vault == s.vault)
    requires RowMoves(mid, s', id)
    ensures RowMoves(s, s', id)
  {
    hide RowTickOk, RowOk, RowAdvances;
  }

  lemma PutVaultMoves(s: State, id: nat, reply: Reply)
    requires Fits(s, id) && s.ticks[id].pc.PutVault?
    ensures RowMoves(s, PutVaultStep(s, id, s.ticks[id], s.ticks[id].pc.key, reply), id)
  {
    var tick, key := s.ticks[id], s.ticks[id].pc.key;
    OwnSnapshot(s, id);
    if reply.Throws? {
      hide RowTickOk, RowOk, RowMoves, Fail;
      FailMoves(s, id, tick, reply.fault);
    } else if s.vault.Some? && s.vault.value != key {
      hide RowTickOk, RowOk, RowMoves, Fail;
      FailMoves(s, id, tick, Fault(OutcomeUnknown, None));
    } else {
      VaultTakes(s, id);
      hide RowTickOk, RowOk, RowMoves, Fail, SnapshotOf;
      var mid := s.(vault := Some(key));
      if reply.ThrowsAfterEffect? {
        FailMoves(mid, id, tick, reply.fault);
      } else {
        PutMoves(mid, id, tick.(pc := Verify));
      }
      VaultFills(s, mid, PutVaultStep(s, id, tick, key, reply), id);
    }
  }

  /** With its key in the vault the tick may go on to verify it. */
  lemma VaultTakes(s: State, id: nat)
    requires Fits(s, id) && s.ticks[id].pc.PutVault?
    requires s.vault.None? || s.vault.value == s.ticks[id].pc.key
    ensures var vault := Some(s.ticks[id].pc.key);
            Fits(s.(vault := vault), id) && RowTickOk(s.row, vault, s.ticks[id].(pc := Verify))
    ensures Some(s.ticks[id].pc.key.identityId) == s.ticks[id].order.identityId
  {}

  lemma BindMoves(s: State, id: nat, reply: Reply)
    requires Fits(s, id) && s.ticks[id].pc.Bind?
    ensures RowMoves(s, BindStep(s, id, s.ticks[id], reply), id)
  {
    hide RowOk;
    var tick := s.ticks[id];
    if reply.Throws? {
      FailMoves(s, id, tick, reply.fault);
    } else if !reply.Bound? {
      Stays(s, id);
    } else if |reply.connectionId| == 0 || |reply.connectionId| > 256 {
      FailMoves(s, id, tick, BAD_RECEIPT);
    } else {
      PutMoves(s, id, tick.(pc := Save(Finish(reply.connectionId))));
    }
  }

  /** `Leave` and `Verify`: one awaited read, then the way out. */
  lemma LastReadMoves(world: World, s: State, id: nat, reply: Reply)
    requires Fits(s, id) && (s.ticks[id].pc.Leave? || s.ticks[id].pc.Verify?)
    ensures RowMoves(s, ResumeStep(world, s, id, s.ticks[id], reply), id)
  {
    hide RowOk;
    var tick := s.ticks[id];
    if reply.Throws? {
      FailMoves(s, id, tick, reply.fault);
    } else {
      PutMoves(s, id, tick.(pc := if tick.pc.Leave? then Ended(Finished(NO_RECEIPT)) else Save(ISSUED)));
    }
  }

  // --- All steps ----------------------------------------------------------------------------

  lemma GateMoves(world: World, s: State, id: nat, reply: Reply)
    requires Fits(s, id) && Gating(s.ticks[id].pc)
    ensures RowMoves(s, ResumeStep(world, s, id, s.ticks[id], reply), id)
  {
    assert id in s.ticks;
    hide Fits, RowMoves, FetchStep, LookStep, ClaimStep, AuthorizeStep, BackOffStep, ReleaseStep, ReleaseWriteStep,
         SendStep, AwaitStep, ConfirmStep, ReadVaultStep, PutVaultStep, BindStep, SaveStep, RereadStep, MergeWriteStep,
         Fail;
    match s.ticks[id].pc
    case Fetch => FetchMoves(s, id, reply);
    case Look => LookMoves(world, s, id, reply);
    case Claiming(_) => ClaimMoves(s, id, reply);
    case Check(purpose) => AuthorizeMoves(s, id, purpose, reply);
    case CanProvision(purpose) => AuthorizeMoves(s, id, purpose, reply);
    case Fund(purpose) => AuthorizeMoves(s, id, purpose, reply);
    case Recheck(purpose) => AuthorizeMoves(s, id, purpose, reply);
    case BackOff(_, _) => BackOffMoves(s, id, reply);
    case Release(_) => ReleaseMoves(s, id, reply);
    case ReleaseWrite(_, _) => ReleaseWriteMoves(s, id, reply);
  }

  lemma MutationMoves(world: World, s: State, id: nat, reply: Reply)
    requires Fits(s, id) && !Gating(s.ticks[id].pc) && !Ending(s.ticks[id].pc)
    ensures RowMoves(s, ResumeStep(world, s, id, s.ticks[id], reply), id)
  {
    assert id in s.ticks;
    hide Fits, RowMoves, FetchStep, LookStep, ClaimStep, AuthorizeStep, BackOffStep, ReleaseStep, ReleaseWriteStep,
         SendStep, AwaitStep, ConfirmStep, ReadVaultStep, PutVaultStep, BindStep, SaveStep, RereadStep, MergeWriteStep,
         Fail;
    match s.ticks[id].pc
    case Leave => LastReadMoves(world, s, id, reply);
    case Send => SendMoves(s, id, reply);
    case Await(request) => if request < |s.requests| { AwaitMoves(s, id, reply); } else { Stays(s, id); }
    case Confirm(_) => ConfirmMoves(world, s, id, reply);
    case ReadVault => ReadVaultMoves(s, id, reply);
    case PutVault(_) => PutVaultMoves(s, id, reply);
    case Verify => LastReadMoves(world, s, id, reply);
    case Bind => BindMoves(s, id, reply);
  }

  lemma SaveOrEndMoves(world: World, s: State, id: nat, reply: Reply)
    requires Fits(s, id) && (s.ticks[id].pc.Save? || s.ticks[id].pc.Ended?)
    ensures RowMoves(s, ResumeStep(world, s, id, s.ticks[id], reply), id)
  {
    assert id in s.ticks;
    hide Fits, RowMoves, SaveStep;
    if s.ticks[id].pc.Save? {
      SaveMoves(s, id, reply);
    } else {
      Stays(s, id);
    }
  }

  lemma LateReceiptMoves(world: World, s: State, id: nat, reply: Reply)
    requires Fits(s, id) && (s.ticks[id].pc.Reread? || s.ticks[id].pc.MergeWrite?)
    ensures RowMoves(s, ResumeStep(world, s, id, s.ticks[id], reply), id)
  {
    assert id in s.ticks;
    hide Fits, RowMoves, RereadStep, MergeWriteStep;
    if s.ticks[id].pc.Reread? {
      RereadMoves(s, id, reply);
    } else {
      MergeWriteMoves(s, id, reply);
    }
  }

  lemma ResumeMoves(world: World, s: State, id: nat, reply: Reply)
    requires Fits(s, id)
    ensures RowMoves(s, ResumeStep(world, s, id, s.ticks[id], reply), id)
  {
    hide RowMoves, ResumeStep;
    if Gating(s.ticks[id].pc) {
      GateMoves(world, s, id, reply);
    } else if Ending(s.ticks[id].pc) {
      if s.ticks[id].pc.Save? || s.ticks[id].pc.Ended? {
        SaveOrEndMoves(world, s, id, reply);
      } else {
        LateReceiptMoves(world, s, id, reply);
      }
    } else {
      MutationMoves(world, s, id, reply);
    }
  }

  lemma MovesKeepInv(s: State, s': State, id: nat)
    requires RowInv(s) && RowMoves(s, s', id)
    ensures RowInv(s')
  {
    hide RowTickOk, RowOk;
    forall other | other in s'.ticks
      ensures RowTickOk(s'.row, s'.vault, s'.ticks[other])
    {
      if other != id {
        OtherRowTickKeeps(s.row, s.vault, s'.row, s'.vault, s.ticks[other]);
      }
    }
  }

  lemma CancelKeepsInv(s: State)
    requires RowInv(s) && s.row.status != Cancelled
    ensures var row := s.row.(status := Cancelled, version := s.row.version + 1);
            RowInv(s.(row := row)) && RowAdvances(s.row, row)
  {
    var row := s.row.(status := Cancelled, version := s.row.version + 1);
    hide RowTickOk;
    forall id | id in s.ticks
      ensures RowTickOk(row, s.vault, s.ticks[id])
    {
      OtherRowTickKeeps(s.row, s.vault, row, s.vault, s.ticks[id]);
    }
  }

  /** A new tick, or one whose process ended. */
  lemma OutsideKeepsInv(s: State, id: nat, tick: Tick)
    requires RowInv(s) && RowTickOk(s.row, s.vault, tick)
    ensures RowInv(s.(ticks := s.ticks[id := tick]))
  {
    hide RowTickOk, RowOk;
  }

  /**
    In every world each step keeps the row in order, raises the version by one if it writes, keeps
    receipts, never lowers the phase, and never revives a cancelled order.
    */
  lemma StepAdvancesRow(world: World, s: State, action: Action)
    requires RowInv(s)
    ensures RowInv(Step(world, s, action)) && RowAdvances(s.row, Step(world, s, action).row)
  {
    hide RowTickOk, RowOk, ResumeStep;
    match action
    case Cancel => if s.row.status != Cancelled { CancelKeepsInv(s); }
    case Begin(id) =>
      if id !in s.ticks {
        FreshTickOk(s);
        OutsideKeepsInv(s, id, Tick(s.row, 0, false, false, false, Fetch));
      }
    case Crash(id) =>
      if id in s.ticks {
        CrashedTickOk(s, id);
        OutsideKeepsInv(s, id, s.ticks[id].(pc := Ended(Failed)));
      }
    case Resume(id, reply) =>
      if id in s.ticks {
        ResumeMoves(world, s, id, reply);
        MovesKeepInv(s, ResumeStep(world, s, id, s.ticks[id], reply), id);
      }
    case _ =>
  }

  lemma FreshTickOk(s: State)
    ensures RowTickOk(s.row, s.vault, Tick(s.row, 0, false, false, false, Fetch))
  {}

  lemma CrashedTickOk(s: State, id: nat)
    requires id in s.ticks && RowTickOk(s.row, s.vault, s.ticks[id])
    ensures RowTickOk(s.row, s.vault, s.ticks[id].(pc := Ended(Failed)))
  {}

  predicate RowReaches(row: Order, row': Order) {
    && row.version <= row'.version
    && row.phase.Rank() <= row'.phase.Rank()
    && KeepsReceipts(row, row')
    && (row.status == Cancelled ==> row'.status == Cancelled)
  }

  lemma ReachesOn(a: Order, b: Order, c: Order)
    requires RowReaches(a, b) && RowAdvances(b, c)
    ensures RowReaches(a, c)
  {}

  /**
    Whatever any tick does later, in any world: receipts stay, the phase does not go back, and a
    cancelled order stays cancelled.
    */
  lemma {:induction false} RowNeverGoesBack(world: World, s: State, actions: seq<Action>)
    requires RowInv(s)
    ensures RowInv(Run(world, s, actions)) && RowReaches(s.row, Run(world, s, actions).row)
    decreases |actions|
  {
    if actions == [] {
    } else {
      var init, last := actions[..|actions| - 1], actions[|actions| - 1];
      hide RowInv, RowReaches, RowAdvances, Step;
      RowNeverGoesBack(world, s, init);
      StepAdvancesRow(world, Run(world, s, init), last);
      ReachesOn(s.row, Run(world, s, init).row, Run(world, s, actions).row);
    }
  }
}
