/** What every verification has proved so far, kept by every step over the claim journal. */
module BillingInvariant {
  import opened Wrappers
  import opened Journal
  import opened Billing
  import JM = JournalMachine
  import JT = JournalTheorems

  // --- Journal calls as a client sees them ----------------------------------------------

  predicate SameCall(before: JM.Call, after: JM.Call) {
    && after.key == before.key && after.op == before.op && after.began == before.began
    && (before.pc.Done? ==> after.pc == before.pc)
  }

  /** What a client relies on between two of its own steps. */
  ghost predicate Continues(j: JM.State, j': JM.State) {
    && (forall id :: id in j.calls ==> id in j'.calls && SameCall(j.calls[id], j'.calls[id]))
    && (forall key: Key :: JM.LogOf(j, key) <= JM.LogOf(j', key))
    && j.clock <= j'.clock
  }

  lemma ResumedIsSameCall(j: JM.State, id: nat, access: JM.Access)
    requires id in j.calls
    ensures var j' := JM.ResumeStep(j, id, j.calls[id], access);
            j'.calls.Keys == j.calls.Keys && SameCall(j.calls[id], j'.calls[id]) && j'.clock == j.clock
            && forall other :: other in j.calls && other != id ==> j'.calls[other] == j.calls[other]
  {}

  lemma JournalContinues(j: JM.State, action: JM.Action)
    ensures Continues(j, JM.Step(j, action))
  {
    JT.StepExtends(j, action);
    if action.Resume? && action.id in j.calls {
      ResumedIsSameCall(j, action.id, action.access);
      hide JM.ResumeStep;
    }
  }

  // --- The invariant --------------------------------------------------------------------

  predicate IsClaimCall(j: JM.State, v: Verification, call: nat) {
    call in j.calls && j.calls[call].key == ReplayKey(v.token) && j.calls[call].op.Acquire?
  }

  predicate IsCloseCall(j: JM.State, v: Verification, owner: Token, call: nat) {
    && call in j.calls && j.calls[call].key == ReplayKey(v.token)
    && j.calls[call].op == JM.Close(owner, Ttl(v), Completed)
    && v.sampled <= j.calls[call].began
  }

  /** In a setting without late claims the claim was on disk before the token expired. */
  ghost predicate ClaimedInTime(setting: Setting, j: JM.State, v: Verification, owner: Token) {
    setting.lateClaims
    || exists i :: 0 <= i < |JM.LogOf(j, ReplayKey(v.token))|
                   && IsClaimOf(JM.LogOf(j, ReplayKey(v.token))[i].record, Some(owner))
                   && !Expired(v.token, JM.LogOf(j, ReplayKey(v.token))[i].at)
  }

  ghost predicate Owns(setting: Setting, j: JM.State, v: Verification, claim: nat, owner: Token) {
    && IsClaimCall(j, v, claim) && j.calls[claim].pc == JM.Done(JM.Acquired(owner))
    && ClaimedInTime(setting, j, v, owner)
  }

  /** Without overlapping claims a verification closes under its own owner. */
  ghost predicate StageOk(setting: Setting, j: JM.State, v: Verification) {
    && v.sampled <= j.clock && v.tolerance >= 0.0
    && match v.stage
       case Checked => true
       case Claiming(claim) => IsClaimCall(j, v, claim)
       case Owning(claim, owner) => Owns(setting, j, v, claim, owner)
       case Completing(claim, owner, closing, close) =>
         Owns(setting, j, v, claim, owner)
           && (!setting.overlaps ==> closing == owner && IsCloseCall(j, v, owner, close))
       case Releasing(claim, owner, closing, close) =>
         Owns(setting, j, v, claim, owner) && (!setting.overlaps ==> closing == owner)
       case Trusted(claim, owner, closed) =>
         && Owns(setting, j, v, claim, owner)
         && (!setting.overlaps ==>
               closed.Some? && IsCloseCall(j, v, owner, closed.value)
                 && j.calls[closed.value].pc == JM.Done(JM.Returned))
       case Refused => true
  }

  predicate HasClaim(stage: Stage) {
    !stage.Checked? && !stage.Refused?
  }

  predicate IsRegistered(stage: Stage) {
    stage.Owning? || stage.Completing? || stage.Releasing?
  }

  predicate IsBusy(stage: Stage) {
    stage.Claiming? || IsRegistered(stage)
  }

  /** One busy verification for each slot, and the slot's entry is its own. */
  predicate SlotsOk(s: State) {
    && (forall a, b | a in s.verifications && b in s.verifications
                      && IsBusy(s.verifications[a].stage) && IsBusy(s.verifications[b].stage)
                      && SlotOf(s.verifications[a]) == SlotOf(s.verifications[b]) :: a == b)
    && (forall id :: id in s.verifications && IsRegistered(s.verifications[id].stage) ==>
        HasEntry(s, s.verifications[id]))
  }

  predicate HasEntry(s: State, v: Verification)
    requires IsRegistered(v.stage)
  {
    SlotOf(v) in s.owners && s.owners[SlotOf(v)] == LocalOwner(v.stage.owner, Ttl(v))
  }

  predicate DistinctClaims(s: State) {
    forall a, b | a in s.verifications && b in s.verifications && a != b
                  && HasClaim(s.verifications[a].stage) && HasClaim(s.verifications[b].stage) ::
      s.verifications[a].stage.claim != s.verifications[b].stage.claim
  }

  ghost predicate StagesOk(setting: Setting, s: State) {
    forall id :: id in s.verifications ==> StageOk(setting, s.journal, s.verifications[id])
  }

  predicate ClaimsBegun(s: State) {
    forall id :: id in s.verifications && HasClaim(s.verifications[id].stage) ==>
      s.verifications[id].stage.claim in s.journal.calls
  }

  ghost predicate Inv(setting: Setting, s: State) {
    && JM.Inv(s.journal) && StagesOk(setting, s) && DistinctClaims(s) && ClaimsBegun(s)
    && (!setting.overlaps ==> SlotsOk(s))
  }

  // --- The journal moves ------------------------------------------------------------------

  lemma StageContinues(setting: Setting, j: JM.State, j': JM.State, v: Verification)
    requires StageOk(setting, j, v) && Continues(j, j')
    ensures StageOk(setting, j', v)
  {}

  lemma StoreKeepsInv(setting: Setting, s: State, action: JM.Action)
    requires Inv(setting, s)
    ensures Inv(setting, s.(journal := JM.Step(s.journal, action)))
  {
    JM.StepKeepsInv(s.journal, action);
    JournalContinues(s.journal, action);
    hide JM.Inv, JM.Step, StageOk;
    forall id | id in s.verifications
      ensures StageOk(setting, JM.Step(s.journal, action), s.verifications[id])
    {
      StageContinues(setting, s.journal, JM.Step(s.journal, action), s.verifications[id]);
    }
  }

  // --- One verification moves -------------------------------------------------------------

  /** A verification changes its stage and perhaps its slot's entry; the journal stays. */
  ghost predicate Moves(s: State, s': State, id: nat, stage: Stage) {
    && id in s.verifications && s'.verifications == s.verifications[id := s.verifications[id].(stage := stage)]
    && s'.journal == s.journal
    && forall slot :: slot != SlotOf(s.verifications[id]) ==>
         (slot in s'.owners <==> slot in s.owners) && (slot in s.owners ==> s'.owners[slot] == s.owners[slot])
  }

  /** A stage may follow if it keeps the claim. */
  predicate KeepsClaim(before: Stage, after: Stage) {
    HasClaim(after) ==> HasClaim(before) && after.claim == before.claim
  }

  lemma SlotIgnoresStage(v: Verification, stage: Stage)
    ensures SlotOf(v.(stage := stage)) == SlotOf(v) && Ttl(v.(stage := stage)) == Ttl(v)
  {}

  /** What a verification relies on in the journal is not affected by its stage either. */
  lemma ReliesIgnoresStage(setting: Setting, j: JM.State, v: Verification, stage: Stage)
    ensures forall claim, owner :: Owns(setting, j, v.(stage := stage), claim, owner) ==
              Owns(setting, j, v, claim, owner)
    ensures forall owner, call :: IsCloseCall(j, v.(stage := stage), owner, call) == IsCloseCall(j, v, owner, call)
  {}

  lemma MoveKeepsSlots(s: State, s': State, id: nat, stage: Stage)
    requires SlotsOk(s) && Moves(s, s', id, stage)
    requires IsBusy(stage) ==> IsBusy(s.verifications[id].stage)
    requires IsRegistered(stage) ==> HasEntry(s', s'.verifications[id])
    requires s'.owners == s.owners || IsBusy(s.verifications[id].stage)
    ensures SlotsOk(s')
  {
    hide SlotOf, Ttl;
    SlotIgnoresStage(s.verifications[id], stage);
    forall other | other in s'.verifications && IsRegistered(s'.verifications[other].stage)
      ensures HasEntry(s', s'.verifications[other])
    {
      if other != id {
        assert HasEntry(s, s.verifications[other]);
      }
    }
  }

  lemma MoveKeepsInv(setting: Setting, s: State, s': State, id: nat, stage: Stage)
    requires Inv(setting, s) && Moves(s, s', id, stage) && KeepsClaim(s.verifications[id].stage, stage)
    requires StageOk(setting, s.journal, s'.verifications[id])
    requires !setting.overlaps ==>
               && (IsBusy(stage) ==> IsBusy(s.verifications[id].stage))
               && (IsRegistered(stage) ==> HasEntry(s', s'.verifications[id]))
               && (s'.owners == s.owners || IsBusy(s.verifications[id].stage))
    ensures Inv(setting, s')
  {
    if !setting.overlaps {
      MoveKeepsSlots(s, s', id, stage);
    }
    hide JM.Inv, StageOk, SlotsOk, HasEntry;
    assert Moves(s, s', id, stage);
    forall other | other in s'.verifications
      ensures StageOk(setting, s'.journal, s'.verifications[other])
    {
      assert other != id ==> StageOk(setting, s.journal, s.verifications[other]);
    }
  }

  /** An acquisition the store reports is on disk, and not in the future. */
  lemma AcquiredIsOnDisk(j: JM.State, call: nat, owner: Token) returns (i: nat)
    requires JM.Inv(j) && call in j.calls && j.calls[call].pc == JM.Done(JM.Acquired(owner))
    ensures var log := JM.LogOf(j, j.calls[call].key);
            i < |log| && IsClaimOf(log[i].record, Some(owner)) && log[i].at <= j.clock
  {
    var log := JM.LogOf(j, j.calls[call].key);
    assert JM.HasClaim(log, owner) && JM.KeyInv(j, j.calls[call].key);
    i :| 0 <= i < |log| && IsClaimOf(log[i].record, Some(owner));
  }

  lemma LearnedIsOwned(setting: Setting, s: State, id: nat)
    requires JM.Inv(s.journal) && id in s.verifications && s.verifications[id].stage.Claiming?
    requires var v := s.verifications[id];
             && StageOk(setting, s.journal, v) && s.journal.calls[v.stage.claim].pc.Done?
             && s.journal.calls[v.stage.claim].pc.outcome.Acquired?
             && (Expired(v.token, s.journal.clock) ==> setting.lateClaims)
    ensures var v := s.verifications[id];
            Owns(setting, s.journal, v, v.stage.claim, s.journal.calls[v.stage.claim].pc.outcome.owner)
  {
    var v := s.verifications[id];
    var i := AcquiredIsOnDisk(s.journal, v.stage.claim, s.journal.calls[v.stage.claim].pc.outcome.owner);
  }

  lemma LearnKeepsInv(setting: Setting, s: State, id: nat)
    requires Inv(setting, s) && id in s.verifications
    ensures Inv(setting, LearnStep(setting, s, id))
  {
    var v, s' := s.verifications[id], LearnStep(setting, s, id);
    if s' == s {
      return;
    }
    assert StageOk(setting, s.journal, v);
    if s'.verifications[id].stage.Owning? {
      LearnedIsOwned(setting, s, id);
    }
    hide Inv, Owns, SlotOf;
    MoveKeepsInv(setting, s, s', id, s'.verifications[id].stage);
  }

  lemma CheckedIsOk(setting: Setting, j: JM.State, v: Verification)
    requires v.stage.Checked? && v.sampled <= j.clock && v.tolerance >= 0.0
    ensures StageOk(setting, j, v)
  {}

  lemma PresentKeepsSlots(s: State, id: nat, v: Verification)
    requires SlotsOk(s) && id !in s.verifications && v.stage.Checked?
    ensures SlotsOk(s.(verifications := s.verifications[id := v]))
  {
    hide SlotOf, Ttl;
    var s' := s.(verifications := s.verifications[id := v]);
    forall other | other in s'.verifications && IsRegistered(s'.verifications[other].stage)
      ensures HasEntry(s', s'.verifications[other])
    {
      assert HasEntry(s, s.verifications[other]);
    }
  }

  lemma PresentKeepsInv(setting: Setting, s: State, action: Action)
    requires Inv(setting, s) && action.Present?
    ensures Inv(setting, Step(setting, s, action))
  {
    hide JM.Inv, StageOk, SlotsOk;
    var s' := Step(setting, s, action);
    if s' == s {
      return;
    }
    var v := s'.verifications[action.id];
    CheckedIsOk(setting, s.journal, v);
    if !setting.overlaps {
      PresentKeepsSlots(s, action.id, v);
    }
  }

  // --- A verification calls the journal ---------------------------------------------------

  lemma NewClaimIsDistinct(s: State, id: nat, call: nat)
    requires DistinctClaims(s) && ClaimsBegun(s) && id in s.verifications && call !in s.journal.calls
    ensures DistinctClaims(SetStage(s, id, Claiming(call)))
  {}

  lemma NewClaimKeepsSlots(s: State, id: nat, call: nat)
    requires SlotsOk(s) && id in s.verifications && s.verifications[id].stage.Checked?
    requires SlotOf(s.verifications[id]) !in s.owners && !Overlaps(s, id)
    ensures SlotsOk(SetStage(s, id, Claiming(call)))
  {
    hide SlotOf, Ttl;
    SlotIgnoresStage(s.verifications[id], Claiming(call));
    var s' := SetStage(s, id, Claiming(call));
    forall other | other in s.verifications && other != id && IsBusy(s.verifications[other].stage)
      ensures SlotOf(s.verifications[other]) != SlotOf(s.verifications[id])
    {
      assert IsRegistered(s.verifications[other].stage) ==> HasEntry(s, s.verifications[other]);
    }
    forall other | other in s'.verifications && IsRegistered(s'.verifications[other].stage)
      ensures HasEntry(s', s'.verifications[other])
    {
      assert HasEntry(s, s.verifications[other]);
    }
  }

  function Begun(s: State, v: Verification, call: nat, op: JM.Op, lease: real): State {
    s.(journal := JM.Step(s.journal, JM.Begin(call, ReplayKey(v.token), op, lease)))
  }

  lemma BegunCall(s: State, v: Verification, call: nat, op: JM.Op, lease: real)
    requires Unused(s, call, lease) && JM.ValidRequest(op, lease)
    ensures var j := Begun(s, v, call, op, lease).journal;
            && call in j.calls && j.calls.Keys == s.journal.calls.Keys + {call} && j.clock == s.journal.clock
            && j.calls[call] == JM.Call(ReplayKey(v.token), op, lease, j.clock, 0, 0, JM.ReadRoot)
  {}

  lemma PositiveTtl(v: Verification)
    ensures Ttl(v) > 0.0
  {}

  lemma BegunClaimKeepsInv(setting: Setting, s: State, id: nat, call: nat, lease: real)
    requires Inv(setting, s) && id in s.verifications && s.verifications[id].stage.Checked? && Unused(s, call, lease)
    requires SlotOf(s.verifications[id]) !in s.owners && (Overlaps(s, id) ==> setting.overlaps)
    ensures var v := s.verifications[id];
            Inv(setting, SetStage(Begun(s, v, call, JM.Acquire(Ttl(v)), lease), id, Claiming(call)))
  {
    hide JM.Inv, JM.Step, SlotsOk, StageOk, ReplayKey, SlotOf, Overlaps, Ttl;
    var v := s.verifications[id];
    PositiveTtl(v);
    var begun := Begun(s, v, call, JM.Acquire(Ttl(v)), lease);
    var s' := SetStage(begun, id, Claiming(call));
    StoreKeepsInv(setting, s, JM.Begin(call, ReplayKey(v.token), JM.Acquire(Ttl(v)), lease));
    BegunCall(s, v, call, JM.Acquire(Ttl(v)), lease);
    NewClaimIsDistinct(s, id, call);
    if !setting.overlaps {
      NewClaimKeepsSlots(s, id, call);
    }
    SameSlots(SetStage(s, id, Claiming(call)), s');
    ClaimingIsOk(setting, begun.journal, v, call);
  }

  lemma ClaimingIsOk(setting: Setting, j: JM.State, v: Verification, call: nat)
    requires StageOk(setting, j, v) && IsClaimCall(j, v, call)
    ensures StageOk(setting, j, v.(stage := Claiming(call)))
  {}

  lemma ClaimKeepsInv(setting: Setting, s: State, id: nat, call: nat, lease: real)
    requires Inv(setting, s) && id in s.verifications
    ensures Inv(setting, ClaimStep(setting, s, id, call, lease))
  {
    hide JM.Inv, JM.Step, SlotsOk, ReplayKey, SlotOf, Overlaps;
    var v, s' := s.verifications[id], ClaimStep(setting, s, id, call, lease);
    assert StageOk(setting, s.journal, v);
    if s' == s {
      return;
    }
    if SlotOf(v) in s.owners {
      hide Inv;
      MoveKeepsInv(setting, s, s', id, Refused);
    } else {
      BegunClaimKeepsInv(setting, s, id, call, lease);
    }
  }

  lemma SameSlots(s: State, s': State)
    requires s'.verifications == s.verifications && s'.owners == s.owners
    ensures SlotsOk(s') == SlotsOk(s) && DistinctClaims(s') == DistinctClaims(s)
  {
    hide SlotOf, Ttl;
  }

  /** The call of a closing verification: it begins, then the verification refers to it. */
  lemma CloseBegins(setting: Setting, s: State, id: nat, call: nat, kind: Kind, lease: real)
    requires Inv(setting, s) && id in s.verifications && IsRegistered(s.verifications[id].stage) && kind != Kind.Claim
    requires SlotOf(s.verifications[id]) in s.owners && Unused(s, call, lease)
    ensures var v, entry := s.verifications[id], s.owners[SlotOf(s.verifications[id])];
            var begun := Begun(s, v, call, JM.Close(entry.token, entry.ttl, kind), lease);
            && Inv(setting, begun) && StageOk(setting, begun.journal, v)
            && (!setting.overlaps ==> entry == LocalOwner(v.stage.owner, Ttl(v)) && HasEntry(begun, v))
            && (!setting.overlaps && kind == Completed ==> IsCloseCall(begun.journal, v, v.stage.owner, call))
  {
    var v, entry := s.verifications[id], s.owners[SlotOf(s.verifications[id])];
    var op := JM.Close(entry.token, entry.ttl, kind);
    assert StageOk(setting, s.journal, v);
    StoreKeepsInv(setting, s, JM.Begin(call, ReplayKey(v.token), op, lease));
    if !setting.overlaps {
      assert HasEntry(s, v);
      PositiveTtl(v);
      BegunCall(s, v, call, op, lease);
    }
    hide JM.Inv, JM.Step, ReplayKey, Ttl;
    assert StageOk(setting, Begun(s, v, call, op, lease).journal, v);
  }

  lemma CompleteKeepsInv(setting: Setting, s: State, id: nat, call: nat, lease: real)
    requires Inv(setting, s) && id in s.verifications
    ensures Inv(setting, CompleteStep(s, id, call, lease))
  {
    hide JM.Inv, JM.Step, SlotOf, ReplayKey, Ttl, Owns, IsCloseCall;
    var v, s' := s.verifications[id], CompleteStep(s, id, call, lease);
    SlotIgnoresStage(v, s'.verifications[id].stage);
    ReliesIgnoresStage(setting, s'.journal, v, s'.verifications[id].stage);
    assert StageOk(setting, s.journal, v);
    if s' == s {
      return;
    }
    if SlotOf(v) !in s.owners {
      assert !setting.overlaps ==> HasEntry(s, v);
      hide Inv, SlotsOk;
      MoveKeepsInv(setting, s, s', id, s'.verifications[id].stage);
    } else {
      hide Inv;
      CloseBegins(setting, s, id, call, Completed, lease);
      var entry := s.owners[SlotOf(v)];
      MoveKeepsInv(setting, Begun(s, v, call, JM.Close(entry.token, entry.ttl, Completed), lease), s', id,
                   s'.verifications[id].stage);
    }
  }

  lemma ReleaseKeepsInv(setting: Setting, s: State, id: nat, call: nat, lease: real)
    requires Inv(setting, s) && id in s.verifications && s.verifications[id].stage.Completing? && Unused(s, call, lease)
    ensures Inv(setting, ReleaseStep(s, id, call, lease))
  {
    hide JM.Inv, JM.Step, SlotOf, ReplayKey, Ttl, Owns, IsCloseCall;
    var v, s' := s.verifications[id], ReleaseStep(s, id, call, lease);
    SlotIgnoresStage(v, s'.verifications[id].stage);
    ReliesIgnoresStage(setting, s'.journal, v, s'.verifications[id].stage);
    assert StageOk(setting, s.journal, v);
    hide Inv;
    if SlotOf(v) !in s.owners {
      MoveKeepsInv(setting, s, s', id, Refused);
    } else {
      CloseBegins(setting, s, id, call, Available, lease);
      var entry := s.owners[SlotOf(v)];
      MoveKeepsInv(setting, Begun(s, v, call, JM.Close(entry.token, entry.ttl, Available), lease), s', id,
                   s'.verifications[id].stage);
    }
  }

  lemma SettleKeepsInv(setting: Setting, s: State, id: nat, call: nat, lease: real)
    requires Inv(setting, s) && id in s.verifications
    ensures Inv(setting, SettleStep(s, id, call, lease))
  {
    hide JM.Inv, SlotOf, Owns, IsCloseCall, ReleaseStep;
    var v, s' := s.verifications[id], SettleStep(s, id, call, lease);
    assert StageOk(setting, s.journal, v);
    if s' == s {
      return;
    }
    hide Inv;
    if v.stage.Completing? && s' == ReleaseStep(s, id, call, lease) {
      ReleaseKeepsInv(setting, s, id, call, lease);
    } else {
      SlotIgnoresStage(v, s'.verifications[id].stage);
      ReliesIgnoresStage(setting, s'.journal, v, s'.verifications[id].stage);
      MoveKeepsInv(setting, s, s', id, s'.verifications[id].stage);
    }
  }

  // --- Every step ---------------------------------------------------------------------------

  lemma StepKeepsInv(setting: Setting, s: State, action: Action)
    requires Inv(setting, s)
    ensures Inv(setting, Step(setting, s, action))
  {
    hide Inv;
    match action
    case Store(inner) => StoreKeepsInv(setting, s, inner);
    case Present(_, _, _, _) => PresentKeepsInv(setting, s, action);
    case Claim(id, call, lease) => if id in s.verifications { ClaimKeepsInv(setting, s, id, call, lease); }
    case Learn(id) => if id in s.verifications { LearnKeepsInv(setting, s, id); }
    case Complete(id, call, lease) => if id in s.verifications { CompleteKeepsInv(setting, s, id, call, lease); }
    case Settle(id, call, lease) => if id in s.verifications { SettleKeepsInv(setting, s, id, call, lease); }
  }

  predicate Reaches(setting: Setting, start: State, actions: seq<Action>, s: State) {
    Run(setting, start, actions) == s
  }

  ghost predicate Reachable(setting: Setting, start: State, s: State) {
    exists actions :: Reaches(setting, start, actions, s)
  }

  lemma {:induction false} RunKeepsInv(setting: Setting, s: State, actions: seq<Action>)
    requires Inv(setting, s)
    ensures Inv(setting, Run(setting, s, actions))
    decreases |actions|
  {
    if actions == [] {
      return;
    }
    hide Inv;
    RunKeepsInv(setting, s, actions[..|actions| - 1]);
    StepKeepsInv(setting, Run(setting, s, actions[..|actions| - 1]), actions[|actions| - 1]);
  }

  lemma ReachableInv(setting: Setting, now: real, s: State)
    requires Reachable(setting, Initial(now), s)
    ensures Inv(setting, s)
  {
    JM.InitialInv(now);
    var actions :| Reaches(setting, Initial(now), actions, s);
    RunKeepsInv(setting, Initial(now), actions);
  }
}
