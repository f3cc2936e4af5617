/** Every step of every tick keeps the provisioning invariant. */
module ProvisionSteps {
  import opened Wrappers
  import opened Provision
  import opened ProvisionInvariant
  import ProvisionRows

  lemma TicksFrame(s: State, s': State, tick: Tick)
    requires s' == s.(ticks := s'.ticks)
    ensures SharedOk(s) ==> SharedOk(s')
    ensures TickOk(s, tick) ==> TickOk(s', tick)
    ensures Reopening(s', tick) ==> Reopening(s, tick)
  {}

  lemma SharedTicks(s: State, ticks: map<nat, Tick>)
    requires SharedOk(s)
    ensures SharedOk(s.(ticks := ticks))
  {}

  /** A step that changes nothing but its own tick. */
  lemma LocalKeeps(s: State, id: nat, tick: Tick)
    requires Inv(s) && TickOk(s, tick)
    requires Holding(tick) ==> id in s.ticks && Holding(s.ticks[id])
    requires Reopening(s, tick) ==> NoOtherHolds(s, id)
    requires !tick.pc.Await?
    ensures Inv(s.(ticks := s.ticks[id := tick]))
  {
    var s' := s.(ticks := s.ticks[id := tick]);
    if Holding(tick) {
      HolderIsAlone(s, id);
    }
    hide SharedOk, TickOk, Exclusive, Reopening, Holding;
    TicksFrame(s, s', tick);
    StepKeepsRest(s, s', id);
  }

  /** A step that writes the row. */
  lemma WriteKeeps(s: State, id: nat, row: Order, tick: Tick)
    requires Inv(s) && id in s.ticks
    requires row.version == s.row.version + 1 && KeepsReceipts(s.row, row)
    requires (row.attempted == s.row.attempted && row.phase == s.row.phase) || NoOtherHolds(s, id)
    requires Holding(tick) ==> NoOtherHolds(s, id)
    requires !tick.pc.Await?
    requires var s' := s.(row := row, ticks := s.ticks[id := tick]);
             SharedOk(s') && TickOk(s', tick) && !Reopening(s', tick)
    ensures Inv(s.(row := row, ticks := s.ticks[id := tick]))
  {
    hide SharedOk, TickOk, Exclusive, Holding, KeepsReceipts;
    StepKeepsRest(s, s.(row := row, ticks := s.ticks[id := tick]), id);
  }

  lemma FailKeeps(s: State, id: nat, tick: Tick, fault: Fault)
    requires Inv(s) && id in s.ticks
    requires SnapshotOf(s.row, tick.order) && tick.order.status != Cancelled && !tick.refused && !tick.unsent
    ensures Inv(Fail(s, id, tick, fault))
  {
    CaughtIsPlain(tick, fault, s.clock);
    LocalKeeps(s, id, tick.(pc := Save(Caught(tick, fault, s.clock))));
  }

  lemma OwnTickOk(s: State, id: nat)
    requires Inv(s) && id in s.ticks
    ensures SharedOk(s) && TickOk(s, s.ticks[id])
  {}

  /** The row of a later phase names its identity, so the check on fetching never fails. */
  lemma FetchedTickOk(s: State, id: nat, reply: Reply)
    requires SharedOk(s) && id in s.ticks && TickOk(s, s.ticks[id]) && s.ticks[id].pc.Fetch?
    ensures var s' := FetchStep(s, id, s.ticks[id], reply);
            s' == s.(ticks := s.ticks[id := s'.ticks[id]]) && TickOk(s, s'.ticks[id])
            && (s'.ticks[id].pc.Look? || s'.ticks[id].pc.Ended?)
  {
    hide AtMostOncePerPhase, Unspent, MintSent, Caught;
  }

  lemma FetchKeeps(s: State, id: nat, reply: Reply)
    requires Inv(s) && id in s.ticks && s.ticks[id].pc.Fetch?
    ensures Inv(FetchStep(s, id, s.ticks[id], reply))
  {
    hide SharedOk, TickOk, Exclusive, FetchStep;
    OwnTickOk(s, id);
    FetchedTickOk(s, id, reply);
    LocalKeeps(s, id, FetchStep(s, id, s.ticks[id], reply).ticks[id]);
  }

  lemma LeaseKeeps(s: State, id: nat)
    requires Inv(s) && id in s.ticks && s.ticks[id].order.status != Cancelled && !s.ticks[id].refused
    requires !s.ticks[id].unsent
    requires Buyable(s.ticks[id].order.phase)
    requires s.ticks[id].order.phase == Number ==> s.ticks[id].order.number.None?
    ensures Inv(Lease(s, id, s.ticks[id]))
  {
    hide SharedOk, Exclusive;
    LocalKeeps(s, id, Lease(s, id, s.ticks[id]).ticks[id]);
  }

  lemma NumberKnownKeeps(s: State, id: nat, tick: Tick, number: Option<PhoneNumber>)
    requires Inv(s) && id in s.ticks
    requires SnapshotOf(s.row, tick.order) && tick.order.status != Cancelled && !tick.refused && !tick.unsent
    requires tick.order.phase == Number && (number.Some? ==> Took(s.requests, Number))
    ensures Inv(NumberKnown(s, id, tick, number))
  {
    hide SharedOk, Exclusive;
    var s' := NumberKnown(s, id, tick, number);
    if number.Some? && tick.order.number.Some? && !SameLine(tick.order.number.value, number.value) {
      FailKeeps(s, id, tick, BAD_RECEIPT);
    } else {
      LocalKeeps(s, id, s'.ticks[id]);
    }
  }

  lemma LookAtNumberKeeps(s: State, id: nat, view: View)
    requires Inv(s) && id in s.ticks && s.ticks[id].pc.Look? && s.ticks[id].order.phase == Number
    requires view.number.Some? ==> Took(s.requests, Number)
    ensures Inv(LookAtNumber(s, id, s.ticks[id], view))
  {
    hide SharedOk, Exclusive;
    var tick := s.ticks[id];
    var number := Selected(tick.order, view);
    if number.Some? {
      NumberKnownKeeps(s, id, tick, number);
    } else if tick.order.number.Some?
      || (tick.order.attempted && tick.order.transport == IMessage && view.iMessageEnabled) {
      LocalKeeps(s, id, LookAtNumber(s, id, tick, view).ticks[id]);
    } else {
      LeaseKeeps(s, id);
    }
  }

  lemma LookAtIdentityKeeps(s: State, id: nat, view: Option<View>)
    requires Inv(s) && id in s.ticks && s.ticks[id].pc.Look? && s.ticks[id].order.phase == Identity
    requires Visible(CLOSED, s, view)
    ensures Inv(LookStep(CLOSED, s, id, s.ticks[id], Sees(view)))
  {
    hide SharedOk, Exclusive;
    var tick := s.ticks[id];
    if view.None? {
      LeaseKeeps(s, id);
    } else if !tick.order.attempted && tick.order.identityId.None? {
      LocalKeeps(s, id, tick.(pc := Save(Review(s.clock))));
    } else if !Matches(tick.order, view.value) {
      FailKeeps(s, id, tick, BAD_RECEIPT);
    } else {
      LocalKeeps(s, id, tick.(pc := Save(Adopt(view.value.id))));
    }
  }

  lemma LookAtLineKeeps(s: State, id: nat, view: View)
    requires Inv(s) && id in s.ticks && s.ticks[id].pc.Look?
    requires s.ticks[id].order.phase == Credential || s.ticks[id].order.phase == Connection
    requires Visible(CLOSED, s, Some(view)) && Matches(s.ticks[id].order, view)
    ensures Inv(LookStep(CLOSED, s, id, s.ticks[id], Sees(Some(view))))
  {
    hide SharedOk, Exclusive;
    var tick := s.ticks[id];
    if LookStep(CLOSED, s, id, tick, Sees(Some(view))) == Put(s, id, tick, ReadVault) {
      LocalKeeps(s, id, tick.(pc := ReadVault));
    } else {
      FailKeeps(s, id, tick, BAD_RECEIPT);
    }
  }

  lemma LookKeeps(s: State, id: nat, reply: Reply)
    requires Inv(s) && id in s.ticks && s.ticks[id].pc.Look?
    ensures Inv(LookStep(CLOSED, s, id, s.ticks[id], reply))
  {
    hide SharedOk, Exclusive;
    var tick := s.ticks[id];
    OwnTickOk(s, id);
    hide Inv;
    if reply.Throws? {
      FailKeeps(s, id, tick, reply.fault);
    } else if reply.Sees? && Visible(CLOSED, s, reply.seen) {
      var view := reply.seen;
      if tick.order.phase == Identity {
        LookAtIdentityKeeps(s, id, view);
      } else if view.None? {
        LocalKeeps(s, id, tick.(pc := Save(Review(s.clock))));
      } else if !Matches(tick.order, view.value) {
        FailKeeps(s, id, tick, BAD_RECEIPT);
      } else if tick.order.phase == Number {
        LookAtNumberKeeps(s, id, view.value);
      } else {
        LookAtLineKeeps(s, id, view.value);
      }
    }
  }

  lemma OpenMeansNoHolder(s: State, id: nat)
    requires Inv(s) && !s.row.attempted
    ensures NoOtherHolds(s, id)
  {
    hide SharedOk, Exclusive;
    forall j | j in s.ticks && j != id
      ensures !Holding(s.ticks[j])
    {
      OwnTickOk(s, j);
    }
  }

  lemma ClaimKeepsShared(s: State, patch: Patch)
    requires SharedOk(s) && Journals(patch)
    ensures SharedOk(s.(row := Apply(s.row, patch))) && KeepsReceipts(s.row, Apply(s.row, patch))
  {
    hide AtMostOncePerPhase, Unspent, MintSent;
  }

  /** An open phase without a receipt is unspent, so the claimant may hold it. */
  lemma ClaimedTickOk(s: State, id: nat, reply: Reply)
    requires SharedOk(s) && id in s.ticks && TickOk(s, s.ticks[id]) && s.ticks[id].pc.Claiming?
    requires s.row.version == s.ticks[id].order.version && !reply.Throws?
    ensures var s' := ClaimStep(s, id, s.ticks[id], s.ticks[id].pc.patch, reply);
            TickOk(s', s'.ticks[id]) && !Reopening(s', s'.ticks[id]) && !s'.ticks[id].pc.Await?
  {
    hide AtMostOncePerPhase, Unspent, MintSent, RowOk, Caught;
    if reply.ThrowsAfterEffect? {
      CaughtIsPlain(s.ticks[id], reply.fault, s.clock);
    }
  }

  lemma ClaimKeeps(s: State, id: nat, reply: Reply)
    requires Inv(s) && id in s.ticks && s.ticks[id].pc.Claiming?
    ensures Inv(ClaimStep(s, id, s.ticks[id], s.ticks[id].pc.patch, reply))
  {
    hide SharedOk, Exclusive, Caught;
    var tick := s.ticks[id];
    OwnTickOk(s, id);
    if reply.Throws? {
      FailKeeps(s, id, tick, reply.fault);
    } else if s.row.version != tick.order.version {
      LocalKeeps(s, id, tick.(pc := Leave));
    } else {
      var s' := ClaimStep(s, id, tick, tick.pc.patch, reply);
      assert tick.order == s.row;
      ClaimKeepsShared(s, tick.pc.patch);
      SharedTicks(s.(row := s'.row), s'.ticks);
      ClaimedTickOk(s, id, reply);
      OpenMeansNoHolder(s, id);
      hide Inv, TickOk, Reopening, Holding, NoOtherHolds, KeepsReceipts;
      WriteKeeps(s, id, s'.row, s'.ticks[id]);
    }
  }

  lemma DenyKeeps(s: State, id: nat, purpose: Purpose, thrown: Option<Fault>)
    requires Inv(s) && id in s.ticks && !s.ticks[id].refused && !s.ticks[id].unsent
    requires s.ticks[id].order.status != Cancelled
    requires purpose.ForMutation? ==> Holding(s.ticks[id]) && Held(s, s.ticks[id])
    ensures Inv(Deny(s, id, s.ticks[id], purpose, thrown))
  {
    hide SharedOk, Exclusive;
    var tick := s.ticks[id];
    if purpose.ForMutation? {
      LocalKeeps(s, id, tick.(pc := Release(thrown)));
    } else if thrown.None? {
      LocalKeeps(s, id, tick.(pc := Leave));
    } else {
      FailKeeps(s, id, tick, thrown.value);
    }
  }

  lemma AnswerKeeps(s: State, id: nat, purpose: Purpose, pc: Pc)
    requires Inv(s) && id in s.ticks && Authorizing(s.ticks[id].pc, purpose)
    requires || Authorizing(pc, purpose) || pc == (if purpose.ForMutation? then Send else Bind)
             || (pc.BackOff? && pc.purpose == purpose && Plain(pc.patch) && pc.patch.attempted.None?)
    ensures Inv(Put(s, id, s.ticks[id], pc))
  {
    hide SharedOk, Exclusive;
    LocalKeeps(s, id, s.ticks[id].(pc := pc));
  }

  lemma AuthorizeKeeps(s: State, id: nat, purpose: Purpose, reply: Reply)
    requires Inv(s) && id in s.ticks && Authorizing(s.ticks[id].pc, purpose)
    ensures Inv(AuthorizeStep(s, id, s.ticks[id], purpose, reply))
  {
    hide SharedOk, Exclusive;
    var tick := s.ticks[id];
    OwnTickOk(s, id);
    hide Inv;
    var s' := AuthorizeStep(s, id, tick, purpose, reply);
    if reply.Throws? {
      DenyKeeps(s, id, purpose, Some(reply.fault));
    } else if reply.Ok? && !StillCurrent(s, tick) && (tick.pc.Check? || tick.pc.Recheck?) {
      DenyKeeps(s, id, purpose, None);
    } else if s' != s {
      AnswerKeeps(s, id, purpose, s'.ticks[id].pc);
    }
  }

  /** Writing a row that neither opens nor closes the journal nor changes phase. */
  lemma PlainWriteKeepsShared(s: State, order: Order, patch: Patch)
    requires SharedOk(s) && s.row == order && Plain(patch) && patch.attempted.None?
    ensures SharedOk(s.(row := Apply(order, patch)))
    ensures KeepsReceipts(order, Apply(order, patch))
  {}

  lemma BackOffWriteKeeps(s: State, id: nat, patch: Patch, tick: Tick)
    requires Inv(s) && id in s.ticks && s.row == s.ticks[id].order
    requires Plain(patch) && patch.attempted.None?
    requires Holding(tick) ==> NoOtherHolds(s, id)
    requires !tick.pc.Await? && TickOk(s.(row := Apply(s.row, patch)), tick)
    requires !Reopening(s.(row := Apply(s.row, patch)), tick)
    ensures Inv(s.(row := Apply(s.row, patch), ticks := s.ticks[id := tick]))
  {
    PlainWriteKeepsShared(s, s.row, patch);
    WriteKeeps(s, id, Apply(s.row, patch), tick);
  }

  /** After the back-off is written, a denied claimant still holds the journal it must release. */
  lemma BackedOffTickOk(s: State, tick: Tick, reply: Reply)
    requires TickOk(s, tick) && tick.pc.BackOff? && Fresh(s, tick)
    ensures var purpose, patch := tick.pc.purpose, tick.pc.patch;
            var written := s.(row := Apply(s.row, patch));
            var after := (if reply.ThrowsAfterEffect? then tick else tick.(order := written.row));
            && (purpose.ForMutation? ==>
                Holding(tick) && (forall thrown :: TickOk(written, after.(pc := Release(thrown)))))
            && (!purpose.ForMutation? ==> TickOk(written, after.(pc := Leave)))
            && (forall fault :: TickOk(written, tick.(pc := Save(Caught(tick, fault, s.clock)))))
            && (forall fault :: !Reopening(written, tick.(pc := Save(Caught(tick, fault, s.clock)))))
  {
    hide Unspent, Took;
  }

  lemma BackedOff(s: State, id: nat, reply: Reply)
    requires id in s.ticks && TickOk(s, s.ticks[id]) && s.ticks[id].pc.BackOff? && Fresh(s, s.ticks[id])
    requires !reply.Throws?
    ensures var s' := BackOffStep(s, id, s.ticks[id], s.ticks[id].pc.purpose, s.ticks[id].pc.patch, reply);
            && s'.ticks.Keys == s.ticks.Keys
            && s' == s.(row := Apply(s.row, s.ticks[id].pc.patch), ticks := s.ticks[id := s'.ticks[id]])
            && TickOk(s.(row := s'.row), s'.ticks[id]) && !Reopening(s.(row := s'.row), s'.ticks[id])
            && !s'.ticks[id].pc.Await? && (Holding(s'.ticks[id]) ==> Holding(s.ticks[id]))
  {
    BackedOffTickOk(s, s.ticks[id], reply);
    hide RowPcOk, GatePcOk, TickOk, Apply, Caught;
  }

  lemma BackOffKeeps(s: State, id: nat, reply: Reply)
    requires Inv(s) && id in s.ticks && s.ticks[id].pc.BackOff?
    ensures Inv(BackOffStep(s, id, s.ticks[id], s.ticks[id].pc.purpose, s.ticks[id].pc.patch, reply))
  {
    hide SharedOk, Exclusive;
    var tick, purpose, patch := s.ticks[id], s.ticks[id].pc.purpose, s.ticks[id].pc.patch;
    if reply.Throws? {
      DenyKeeps(s, id, purpose, Some(reply.fault));
    } else if s.row.version != tick.order.version {
      DenyKeeps(s, id, purpose, None);
    } else {
      OwnTickOk(s, id);
      BackedOff(s, id, reply);
      if purpose.ForMutation? {
        HolderIsAlone(s, id);
      }
      hide Inv, TickOk, NoOtherHolds, NoOtherReopens, BackOffStep, Apply, Reopening;
      BackOffWriteKeeps(s, id, patch, BackOffStep(s, id, tick, purpose, patch, reply).ticks[id]);
    }
  }

  lemma ReleaseKeeps(s: State, id: nat, reply: Reply)
    requires Inv(s) && id in s.ticks && s.ticks[id].pc.Release?
    ensures Inv(ReleaseStep(s, id, s.ticks[id], s.ticks[id].pc.thrown, reply))
  {
    hide SharedOk, Exclusive;
    var tick, thrown := s.ticks[id], s.ticks[id].pc.thrown;
    OwnTickOk(s, id);
    hide Inv;
    if reply.Throws? {
      FailKeeps(s, id, tick, reply.fault);
    } else if (!s.row.attempted || s.row.status == Cancelled) && thrown.Some? {
      FailKeeps(s, id, tick, thrown.value);
    } else {
      LocalKeeps(s, id, ReleaseStep(s, id, tick, thrown, reply).ticks[id]);
    }
  }

  /** Clearing the claim of an unspent phase reopens the journal and touches nothing else. */
  lemma ReleaseKeepsShared(s: State)
    requires SharedOk(s) && Unspent(s.requests, s.row.phase)
    ensures var row := s.row.(attempted := false, version := s.row.version + 1);
            SharedOk(s.(row := row)) && KeepsReceipts(s.row, row)
  {
    hide AtMostOncePerPhase, Unspent, MintSent;
  }

  lemma ReleasedTickOk(s: State, id: nat, reply: Reply)
    requires Inv(s) && id in s.ticks && s.ticks[id].pc.ReleaseWrite? && !reply.Throws?
    requires s.row.version == s.ticks[id].pc.current.version
    ensures var tick := s.ticks[id];
            var s' := ReleaseWriteStep(s, id, tick, tick.pc.current, tick.pc.thrown, reply);
            TickOk(s', s'.ticks[id]) && !Reopening(s', s'.ticks[id]) && !Holding(s'.ticks[id])
              && !s'.ticks[id].pc.Await?
  {
    hide SharedOk, Exclusive, Caught;
    var tick := s.ticks[id];
    var s' := ReleaseWriteStep(s, id, tick, tick.pc.current, tick.pc.thrown, reply);
    if reply.ThrowsAfterEffect? {
      CaughtIsPlain(tick, reply.fault, s.clock);
    } else if tick.pc.thrown.Some? {
      CaughtIsPlain(tick.(order := s'.row), tick.pc.thrown.value, s.clock);
    }
  }

  lemma ReleaseWriteKeeps(s: State, id: nat, reply: Reply)
    requires Inv(s) && id in s.ticks && s.ticks[id].pc.ReleaseWrite?
    ensures Inv(ReleaseWriteStep(s, id, s.ticks[id], s.ticks[id].pc.current, s.ticks[id].pc.thrown, reply))
  {
    hide SharedOk, Exclusive, Caught;
    var tick, current, thrown := s.ticks[id], s.ticks[id].pc.current, s.ticks[id].pc.thrown;
    if reply.Throws? {
      FailKeeps(s, id, tick, reply.fault);
    } else if s.row.version != current.version {
      if thrown.None? {
        LocalKeeps(s, id, tick.(pc := Leave));
      } else {
        FailKeeps(s, id, tick, thrown.value);
      }
    } else {
      var s' := ReleaseWriteStep(s, id, tick, current, thrown, reply);
      assert current == s.row && Unspent(s.requests, s.row.phase);
      ReleaseKeepsShared(s);
      SharedTicks(s.(row := s'.row), s'.ticks);
      HolderIsAlone(s, id);
      ReleasedTickOk(s, id, reply);
      hide TickOk, Reopening, Holding, NoOtherHolds, NoOtherReopens, KeepsReceipts;
      WriteKeeps(s, id, s'.row, s'.ticks[id]);
    }
  }

  // --- The mutation -------------------------------------------------------------------

  lemma SentTickOk(s: State, id: nat)
    requires id in s.ticks && TickOk(s, s.ticks[id]) && s.ticks[id].pc.Send?
    ensures var s' := SendStep(s, id, s.ticks[id], Ok);
            TickOk(s', s'.ticks[id])
  {
    hide Unspent;
  }

  lemma NobodyAwaitsNext(s: State, id: nat)
    requires Inv(s)
    ensures NoOtherAwaits(s, id, Await(|s.requests|))
  {
    hide SharedOk, Exclusive;
    forall j | j in s.ticks && j != id
      ensures s.ticks[j].pc != Await(|s.requests|)
    {
      OwnTickOk(s, j);
    }
  }

  lemma SenderHolds(s: State, id: nat)
    requires id in s.ticks && TickOk(s, s.ticks[id]) && s.ticks[id].pc.Send?
    ensures Held(s, s.ticks[id])
  {}

  lemma SentKeeps(s: State, id: nat)
    requires Inv(s) && id in s.ticks && s.ticks[id].pc.Send?
    ensures Inv(SendStep(s, id, s.ticks[id], Ok))
  {
    var tick := s.ticks[id];
    HolderIsAlone(s, id);
    OwnTickOk(s, id);
    NobodyAwaitsNext(s, id);
    SenderHolds(s, id);
    hide SharedOk, TickOk, Exclusive, Took, MintSent, Unspent, NoOtherAwaits, NoOtherHolds, NoOtherReopens;
    var s' := SendStep(s, id, tick, Ok);
    var sent := Request(tick.order.phase, Outstanding);
    TookAppend(s.requests, sent);
    SentKeepsShared(s, sent);
    SharedTicks(s.(requests := s'.requests), s'.ticks);
    SentTickOk(s, id);
    StepKeepsRest(s, s', id);
  }

  lemma SendKeeps(s: State, id: nat, reply: Reply)
    requires Inv(s) && id in s.ticks && s.ticks[id].pc.Send?
    ensures Inv(SendStep(s, id, s.ticks[id], reply))
  {
    hide SharedOk, Exclusive;
    var tick := s.ticks[id];
    if reply.Throws? && reply.fault.code == InvalidInput {
      HolderIsAlone(s, id);
      var flagged := tick.(refused := true, unsent := true, settled := true);
      CaughtIsPlain(flagged, reply.fault, s.clock);
      hide Caught;
      LocalKeeps(s, id, flagged.(pc := Save(Caught(flagged, reply.fault, s.clock))));
    } else if reply == Ok {
      SentKeeps(s, id);
    }
  }

  lemma TookAppend(requests: seq<Request>, request: Request)
    ensures Took(requests, Identity) ==> Took(requests + [request], Identity)
    ensures Took(requests, Number) ==> Took(requests + [request], Number)
    ensures MintSent(requests) ==> MintSent(requests + [request])
  {
    forall i | 0 <= i < |requests|
      ensures (requests + [request])[i] == requests[i]
    {}
  }

  lemma SentKeepsShared(s: State, request: Request)
    requires SharedOk(s) && s.row.attempted && Buyable(request.phase) && request.phase == s.row.phase
    requires Unspent(s.requests, request.phase)
    ensures SharedOk(s.(requests := s.requests + [request]))
  {
    TookAppend(s.requests, request);
  }

  /** Recording how a request ended, in place. */
  lemma EndRequestKeepsShared(s: State, i: nat, state: RequestState)
    requires SharedOk(s) && i < |s.requests| && s.requests[i].state == Outstanding
    ensures SharedOk(s.(requests := s.requests[i := s.requests[i].(state := state)]))
    ensures forall phase :: Unspent(s.requests, phase) ==>
              Unspent(s.requests[i := s.requests[i].(state := state)], phase)
    ensures forall phase :: Took(s.requests, phase) ==> Took(s.requests[i := s.requests[i].(state := state)], phase)
    ensures MintSent(s.requests) ==> MintSent(s.requests[i := s.requests[i].(state := state)])
  {
    var requests := s.requests[i := s.requests[i].(state := state)];
    forall phase | Took(s.requests, phase)
      ensures Took(requests, phase)
    {
      var k :| 0 <= k < |s.requests| && s.requests[k] == Request(phase, Effective);
      assert requests[k] == Request(phase, Effective);
    }
    if MintSent(s.requests) {
      var k :| 0 <= k < |s.requests| && s.requests[k].phase == Credential;
      assert requests[k].phase == Credential;
    }
  }

  lemma RefusedIsUnspent(requests: seq<Request>, i: nat)
    requires AtMostOncePerPhase(requests) && i < |requests| && Counts(requests[i]) && requests[i].phase != Credential
    ensures Unspent(requests[i := requests[i].(state := Refused)], requests[i].phase)
  {}

  /** The state after a refusal: the request can no longer count and the tick is about to save. */
  function Refusal(s: State, id: nat, fault: Fault): State
    requires id in s.ticks && s.ticks[id].pc.Await? && s.ticks[id].pc.request < |s.requests|
  {
    var i, flagged := s.ticks[id].pc.request, s.ticks[id].(settled := true, refused := true);
    Fail(s.(requests := s.requests[i := s.requests[i].(state := Refused)]), id, flagged, fault)
  }

  lemma RefusedTickOk(s: State, id: nat, fault: Fault)
    requires Inv(s) && id in s.ticks && s.ticks[id].pc.Await?
    ensures TickOk(Refusal(s, id, fault), Refusal(s, id, fault).ticks[id])
  {
    var flagged := s.ticks[id].(settled := true, refused := true);
    CaughtIsPlain(flagged, fault, s.clock);
    if Reopens(flagged) {
      RefusedIsUnspent(s.requests, s.ticks[id].pc.request);
    }
  }

  lemma OpenRequestExcludesHolders(s: State, id: nat)
    requires Inv(s) && id in s.ticks && s.ticks[id].pc.Await? && Fresh(s, s.ticks[id])
    ensures NoOtherHolds(s, id)
  {
    assert Counts(s.requests[s.ticks[id].pc.request]);
    assert !Unspent(s.requests, s.row.phase);
  }

  /** No other tick awaits the refused request. */
  lemma RefusalKeepsAwaits(s: State, id: nat, fault: Fault)
    requires Inv(s) && id in s.ticks && s.ticks[id].pc.Await? && s.ticks[id].pc.request < |s.requests|
    ensures forall j :: j in s.ticks && j != id ==> AwaitKept(s, Refusal(s, id, fault), s.ticks[j])
  {
    hide SharedOk, TickOk, Caught;
    forall j | j in s.ticks && j != id
      ensures AwaitKept(s, Refusal(s, id, fault), s.ticks[j])
    {
      if s.ticks[j].pc.Await? {
        assert s.ticks[j].pc != s.ticks[id].pc;
      }
    }
  }

  lemma RefusalKeeps(s: State, id: nat, fault: Fault)
    requires Inv(s) && id in s.ticks && s.ticks[id].pc.Await?
    requires s.requests[s.ticks[id].pc.request].state == Outstanding
    ensures Inv(Refusal(s, id, fault))
  {
    var s', i := Refusal(s, id, fault), s.ticks[id].pc.request;
    EndRequestKeepsShared(s, i, Refused);
    SharedTicks(s.(requests := s'.requests), s'.ticks);
    RefusedTickOk(s, id, fault);
    if Fresh(s, s.ticks[id]) {
      OpenRequestExcludesHolders(s, id);
    }
    RefusalKeepsAwaits(s, id, fault);
    hide SharedOk, TickOk, Exclusive, Took, MintSent, Unspent, AwaitKept, NoOtherHolds, NoOtherReopens, Caught;
    StepKeepsRest(s, s', id);
  }

  lemma SettledKeeps(s: State, id: nat, reply: Reply)
    requires Inv(s) && id in s.ticks && s.ticks[id].pc.Await?
    requires reply.Throws? ==> reply.fault.code != ProviderRejected
    ensures Inv(AwaitStep(s, id, s.ticks[id], s.ticks[id].pc.request, reply))
  {
    hide SharedOk, Exclusive;
    var tick, i := s.ticks[id], s.ticks[id].pc.request;
    var s', settled := AwaitStep(s, id, tick, i, reply), tick.(settled := true);
    if reply.Throws? {
      if reply.fault.code != InvalidInput { FailKeeps(s, id, settled, reply.fault); }
    } else if s.requests[i].state == Effective {
      assert s.requests[i] == Request(tick.order.phase, Effective);
      if reply.Receives? && !Matches(tick.order, reply.view) {
        FailKeeps(s, id, settled, BAD_RECEIPT);
      } else if reply.Receives? && tick.order.phase == Number {
        NumberKnownKeeps(s, id, settled, Selected(tick.order, reply.view));
      } else if s' != s {
        LocalKeeps(s, id, s'.ticks[id]);
      }
    }
  }

  lemma ConfirmKeeps(s: State, id: nat, reply: Reply)
    requires Inv(s) && id in s.ticks && s.ticks[id].pc.Confirm?
    ensures Inv(ConfirmStep(CLOSED, s, id, s.ticks[id], s.ticks[id].pc.purchased, reply))
  {
    hide SharedOk, Exclusive;
    var tick, purchased := s.ticks[id], s.ticks[id].pc.purchased;
    OwnTickOk(s, id);
    hide Inv;
    if reply.Throws? {
      FailKeeps(s, id, tick, reply.fault);
    } else if reply.Sees? && Visible(CLOSED, s, reply.seen) {
      if reply.seen.None? || !Matches(tick.order, reply.seen.value) {
        FailKeeps(s, id, tick, BAD_RECEIPT);
      } else {
        var number := Selected(tick.order, reply.seen.value);
        if number.None? || !SameLine(purchased, number.value) {
          FailKeeps(s, id, tick, BAD_RECEIPT);
        } else {
          NumberKnownKeeps(s, id, tick, number);
        }
      }
    }
  }

  // --- The vault, the binding and the final save ----------------------------------------

  lemma ReadVaultKeeps(s: State, id: nat, reply: Reply)
    requires Inv(s) && id in s.ticks && s.ticks[id].pc.ReadVault?
    ensures Inv(ReadVaultStep(s, id, s.ticks[id], reply))
  {
    hide SharedOk, Exclusive;
    var tick := s.ticks[id];
    OwnTickOk(s, id);
    hide Inv;
    if reply.Throws? {
      FailKeeps(s, id, tick, reply.fault);
    } else if tick.order.phase == Credential && s.vault.None? {
      LeaseKeeps(s, id);
    } else if s.vault.None? || Some(s.vault.value.identityId) != tick.order.identityId {
      FailKeeps(s, id, tick, BAD_RECEIPT);
    } else {
      LocalKeeps(s, id, ReadVaultStep(s, id, tick, reply).ticks[id]);
    }
  }

  lemma VaultKeepsInv(s: State, key: Key)
    requires Inv(s) && MintSent(s.requests) && (s.vault.None? || s.vault == Some(key))
    ensures Inv(s.(vault := Some(key)))
  {
    var s' := s.(vault := Some(key));
    forall id | id in s.ticks
      ensures TickOk(s', s.ticks[id])
    {
      OtherTickKeeps(s, s', s.ticks[id]);
    }
  }

  lemma PutVaultKeeps(s: State, id: nat, reply: Reply)
    requires Inv(s) && id in s.ticks && s.ticks[id].pc.PutVault?
    ensures Inv(PutVaultStep(s, id, s.ticks[id], s.ticks[id].pc.key, reply))
  {
    hide SharedOk, Exclusive;
    var tick, key := s.ticks[id], s.ticks[id].pc.key;
    if reply.Throws? {
      FailKeeps(s, id, tick, reply.fault);
    } else if s.vault.Some? && s.vault.value != key {
      FailKeeps(s, id, tick, Fault(OutcomeUnknown, None));
    } else {
      var stored := s.(vault := Some(key));
      VaultKeepsInv(s, key);
      if reply.ThrowsAfterEffect? {
        FailKeeps(stored, id, tick, reply.fault);
      } else {
        LocalKeeps(stored, id, tick.(pc := Verify));
      }
    }
  }

  lemma BindKeeps(s: State, id: nat, reply: Reply)
    requires Inv(s) && id in s.ticks && s.ticks[id].pc.Bind?
    ensures Inv(BindStep(s, id, s.ticks[id], reply))
  {
    hide SharedOk, Exclusive;
    var tick := s.ticks[id];
    OwnTickOk(s, id);
    hide Inv;
    if reply.Throws? {
      FailKeeps(s, id, tick, reply.fault);
    } else if reply.Bound? && !(|reply.connectionId| == 0 || |reply.connectionId| > 256) {
      LocalKeeps(s, id, tick.(pc := Save(Finish(reply.connectionId))));
    } else if reply.Bound? {
      FailKeeps(s, id, tick, BAD_RECEIPT);
    }
  }

  /** A fresh final save meets no holder: either it leaves the gate alone or the phase is spent. */
  lemma SaveMeetsNoHolder(s: State, id: nat)
    requires Inv(s) && id in s.ticks && s.ticks[id].pc.Save? && Fresh(s, s.ticks[id])
    ensures var row := Apply(s.row, s.ticks[id].pc.patch);
            (row.attempted == s.row.attempted && row.phase == s.row.phase) || NoOtherHolds(s, id)
  {
    var tick, patch := s.ticks[id], s.ticks[id].pc.patch;
    if Plain(patch) {
    } else if Completes(tick.order, patch) {
      assert !Buyable(s.row.phase);
    } else {
      assert !Unspent(s.requests, s.row.phase);
    }
  }

  lemma SaveKeepsGate(s: State, tick: Tick, patch: Patch)
    requires SharedOk(s) && tick.pc == Save(patch) && tick.order == s.row && SaveOk(s, tick, patch)
    ensures var row := Apply(s.row, patch);
            !row.attempted && Buyable(row.phase) ==>
              Unspent(s.requests, row.phase) || (row.phase == Number && row.number.Some?)
  {
    hide AtMostOncePerPhase, Took, MintSent, RowOk;
    var row := Apply(s.row, patch);
    if s.row.phase.Rank() < row.phase.Rank() {
      forall i | 0 <= i < |s.requests|
        ensures s.requests[i].phase != row.phase
      {}
    }
  }

  lemma SaveKeepsShared(s: State, id: nat)
    requires Inv(s) && id in s.ticks && s.ticks[id].pc.Save? && Fresh(s, s.ticks[id])
    ensures SharedOk(s.(row := Apply(s.row, s.ticks[id].pc.patch)))
    ensures KeepsReceipts(s.row, Apply(s.row, s.ticks[id].pc.patch))
  {
    var tick, patch := s.ticks[id], s.ticks[id].pc.patch;
    assert TickOk(s, tick) && tick.order == s.row && SaveOk(s, tick, patch);
    ProvisionRows.SaveAdvances(s.row, s.vault, patch);
    SaveKeepsGate(s, tick, patch);
  }

  /** A row write by a tick that is done with it. */
  lemma FinalWriteKeeps(s: State, id: nat, row: Order, tick: Tick)
    requires Inv(s) && id in s.ticks && tick.pc.Ended? && SharedOk(s.(row := row))
    requires row.version == s.row.version + 1 && KeepsReceipts(s.row, row)
    requires (row.attempted == s.row.attempted && row.phase == s.row.phase) || NoOtherHolds(s, id)
    requires SnapshotOf(row, tick.order)
    requires tick.pc.end.Finished? ==> !Missing(tick.pc.end.receipt, row)
    ensures Inv(s.(row := row, ticks := s.ticks[id := tick]))
  {
    WriteKeeps(s, id, row, tick);
  }

  lemma SavedKeeps(s: State, id: nat, reply: Reply)
    requires Inv(s) && id in s.ticks && s.ticks[id].pc.Save? && Fresh(s, s.ticks[id]) && !reply.Throws?
    ensures Inv(SaveStep(s, id, s.ticks[id], s.ticks[id].pc.patch, reply))
  {
    hide SharedOk, Exclusive, RowPcOk, GatePcOk, NoOtherHolds;
    var tick, patch := s.ticks[id], s.ticks[id].pc.patch;
    OwnTickOk(s, id);
    SaveMeetsNoHolder(s, id);
    SaveKeepsShared(s, id);
    assert tick.order == s.row && !Missing(ReceiptOf(patch), Apply(s.row, patch));
    hide Inv, TickOk, Apply, ReceiptOf, Missing;
    FinalWriteKeeps(s, id, Apply(s.row, patch), SaveStep(s, id, tick, patch, reply).ticks[id]);
  }

  lemma SaveKeeps(s: State, id: nat, reply: Reply)
    requires Inv(s) && id in s.ticks && s.ticks[id].pc.Save?
    ensures Inv(SaveStep(s, id, s.ticks[id], s.ticks[id].pc.patch, reply))
  {
    hide SharedOk, Exclusive, SaveOk;
    var tick, patch := s.ticks[id], s.ticks[id].pc.patch;
    if !reply.Throws? && Fresh(s, tick) {
      SavedKeeps(s, id, reply);
    } else {
      LocalKeeps(s, id, SaveStep(s, id, tick, patch, reply).ticks[id]);
    }
  }

  lemma RereadTickOk(s: State, id: nat, reply: Reply)
    requires id in s.ticks && TickOk(s, s.ticks[id]) && s.ticks[id].pc.Reread?
    ensures var s' := RereadStep(s, id, s.ticks[id], s.ticks[id].pc.receipt, s.ticks[id].pc.attempt, reply);
            s' == s.(ticks := s.ticks[id := s'.ticks[id]]) && TickOk(s, s'.ticks[id])
            && (s'.ticks[id].pc.Ended? || s'.ticks[id].pc.MergeWrite?)
  {}

  lemma RereadKeeps(s: State, id: nat, reply: Reply)
    requires Inv(s) && id in s.ticks && s.ticks[id].pc.Reread?
    ensures Inv(RereadStep(s, id, s.ticks[id], s.ticks[id].pc.receipt, s.ticks[id].pc.attempt, reply))
  {
    hide SharedOk, TickOk, Exclusive, RereadStep;
    OwnTickOk(s, id);
    RereadTickOk(s, id, reply);
    hide Inv;
    LocalKeeps(s, id, RereadStep(s, id, s.ticks[id], s.ticks[id].pc.receipt, s.ticks[id].pc.attempt, reply).ticks[id]);
  }

  lemma MergeKeepsShared(s: State, receipt: Receipt)
    requires SharedOk(s)
    ensures SharedOk(s.(row := Merge(receipt, s.row))) && KeepsReceipts(s.row, Merge(receipt, s.row))
    ensures !Missing(receipt, Merge(receipt, s.row))
  {}

  lemma MergedKeeps(s: State, id: nat, receipt: Receipt, end: End)
    requires Inv(s) && id in s.ticks && (end.Finished? ==> end.receipt == receipt)
    ensures Inv(s.(row := Merge(receipt, s.row), ticks := s.ticks[id := s.ticks[id].(pc := Ended(end))]))
  {
    hide SharedOk, Exclusive;
    MergeKeepsShared(s, receipt);
    assert SnapshotOf(s.row, s.ticks[id].order);
    FinalWriteKeeps(s, id, Merge(receipt, s.row), s.ticks[id].(pc := Ended(end)));
  }

  lemma MergeWriteKeeps(s: State, id: nat, reply: Reply)
    requires Inv(s) && id in s.ticks && s.ticks[id].pc.MergeWrite?
    ensures Inv(MergeWriteStep(s, id, s.ticks[id], s.ticks[id].pc.receipt, s.ticks[id].pc.attempt,
                               s.ticks[id].pc.current, reply))
  {
    hide SharedOk, Exclusive;
    var tick, receipt := s.ticks[id], s.ticks[id].pc.receipt;
    if reply.Throws? {
      LocalKeeps(s, id, tick.(pc := Ended(Failed)));
    } else if s.row.version != tick.pc.current.version {
      LocalKeeps(s, id, tick.(pc := Reread(receipt, tick.pc.attempt + 1)));
    } else {
      assert SnapshotOf(s.row, tick.pc.current);
      MergedKeeps(s, id, receipt, if reply.ThrowsAfterEffect? then Failed else Finished(receipt));
    }
  }

  lemma AwaitKeeps(s: State, id: nat, reply: Reply)
    requires Inv(s) && id in s.ticks && s.ticks[id].pc.Await?
    ensures Inv(AwaitStep(s, id, s.ticks[id], s.ticks[id].pc.request, reply))
  {
    hide SharedOk, Exclusive;
    if reply.Throws? && reply.fault.code == ProviderRejected {
      if s.requests[s.ticks[id].pc.request].state == Outstanding { RefusalKeeps(s, id, reply.fault); }
    } else {
      SettledKeeps(s, id, reply);
    }
  }

  /** `Leave` and `Verify`: one awaited read, then the way out. */
  lemma LastReadKeeps(s: State, id: nat, reply: Reply)
    requires Inv(s) && id in s.ticks && (s.ticks[id].pc.Leave? || s.ticks[id].pc.Verify?)
    ensures Inv(ResumeStep(CLOSED, s, id, s.ticks[id], reply))
  {
    hide SharedOk, Exclusive;
    var tick := s.ticks[id];
    if reply.Throws? {
      FailKeeps(s, id, tick, reply.fault);
    } else {
      LocalKeeps(s, id, tick.(pc := if tick.pc.Leave? then Ended(Finished(NO_RECEIPT)) else Save(ISSUED)));
    }
  }

  // --- All steps ------------------------------------------------------------------------

  lemma GateStepKeeps(s: State, id: nat, reply: Reply)
    requires Inv(s) && id in s.ticks && Gating(s.ticks[id].pc)
    ensures Inv(ResumeStep(CLOSED, s, id, s.ticks[id], reply))
  {
    hide Inv;
    match s.ticks[id].pc
    case Fetch => FetchKeeps(s, id, reply);
    case Look => LookKeeps(s, id, reply);
    case Claiming(_) => ClaimKeeps(s, id, reply);
    case Check(purpose) => AuthorizeKeeps(s, id, purpose, reply);
    case CanProvision(purpose) => AuthorizeKeeps(s, id, purpose, reply);
    case Fund(purpose) => AuthorizeKeeps(s, id, purpose, reply);
    case Recheck(purpose) => AuthorizeKeeps(s, id, purpose, reply);
    case BackOff(_, _) => BackOffKeeps(s, id, reply);
    case Release(_) => ReleaseKeeps(s, id, reply);
    case ReleaseWrite(_, _) => ReleaseWriteKeeps(s, id, reply);
  }

  lemma MutationStepKeeps(s: State, id: nat, reply: Reply)
    requires Inv(s) && id in s.ticks && !Gating(s.ticks[id].pc) && !Ending(s.ticks[id].pc)
    ensures Inv(ResumeStep(CLOSED, s, id, s.ticks[id], reply))
  {
    hide Inv;
    match s.ticks[id].pc
    case Leave => LastReadKeeps(s, id, reply);
    case Send => SendKeeps(s, id, reply);
    case Await(_) => AwaitKeeps(s, id, reply);
    case Confirm(_) => ConfirmKeeps(s, id, reply);
    case ReadVault => ReadVaultKeeps(s, id, reply);
    case PutVault(_) => PutVaultKeeps(s, id, reply);
    case Verify => LastReadKeeps(s, id, reply);
    case Bind => BindKeeps(s, id, reply);
  }

  lemma EndingStepKeeps(s: State, id: nat, reply: Reply)
    requires Inv(s) && id in s.ticks && Ending(s.ticks[id].pc)
    ensures Inv(ResumeStep(CLOSED, s, id, s.ticks[id], reply))
  {
    hide Inv;
    match s.ticks[id].pc
    case Save(_) => SaveKeeps(s, id, reply);
    case Reread(_, _) => RereadKeeps(s, id, reply);
    case MergeWrite(_, _, _) => MergeWriteKeeps(s, id, reply);
    case Ended(_) =>
  }

  lemma ResumeKeeps(s: State, id: nat, reply: Reply)
    requires Inv(s) && id in s.ticks
    ensures Inv(ResumeStep(CLOSED, s, id, s.ticks[id], reply))
  {
    if Gating(s.ticks[id].pc) {
      GateStepKeeps(s, id, reply);
    } else if Ending(s.ticks[id].pc) {
      EndingStepKeeps(s, id, reply);
    } else {
      MutationStepKeeps(s, id, reply);
    }
  }

  lemma CancelKeeps(s: State)
    requires Inv(s) && s.row.status != Cancelled
    ensures Inv(Step(CLOSED, s, Cancel))
  {
    var s' := Step(CLOSED, s, Cancel);
    forall id | id in s.ticks
      ensures TickOk(s', s.ticks[id]) && !Reopening(s', s.ticks[id])
    {
      OtherTickKeeps(s, s', s.ticks[id]);
    }
  }

  lemma TakeKeeps(s: State, i: nat)
    requires Inv(s) && i < |s.requests| && s.requests[i].state == Outstanding
    ensures Inv(Step(CLOSED, s, Take(i)))
  {
    var s' := Step(CLOSED, s, Take(i));
    EndRequestKeepsShared(s, i, Effective);
    forall id | id in s.ticks
      ensures TickOk(s', s.ticks[id])
    {
      OtherTickKeeps(s, s', s.ticks[id]);
    }
  }

  lemma WaitKeeps(s: State, until: int)
    requires Inv(s)
    ensures Inv(s.(clock := until))
  {
    var s' := s.(clock := until);
    forall id | id in s.ticks
      ensures TickOk(s', s.ticks[id])
    {
      OtherTickKeeps(s, s', s.ticks[id]);
    }
  }

  lemma StepKeepsInv(s: State, action: Action)
    requires Inv(s)
    ensures Inv(Step(CLOSED, s, action))
  {
    match action
    case Wait(until) => if s.clock <= until { WaitKeeps(s, until); }
    case Cancel => if s.row.status != Cancelled { CancelKeeps(s); }
    case Take(i) => if i < |s.requests| && s.requests[i].state == Outstanding { TakeKeeps(s, i); }
    case Begin(id) => if id !in s.ticks { LocalKeeps(s, id, Tick(s.row, 0, false, false, false, Fetch)); }
    case Crash(id) => if id in s.ticks { LocalKeeps(s, id, s.ticks[id].(pc := Ended(Failed))); }
    case Resume(id, reply) => if id in s.ticks { ResumeKeeps(s, id, reply); }
  }

  lemma {:induction false} RunKeepsInv(s: State, actions: seq<Action>)
    requires Inv(s)
    ensures Inv(Run(CLOSED, s, actions))
    decreases |actions|
  {
    if actions == [] {
    } else {
      RunKeepsInv(s, actions[..|actions| - 1]);
      StepKeepsInv(Run(CLOSED, s, actions[..|actions| - 1]), actions[|actions| - 1]);
    }
  }
}
