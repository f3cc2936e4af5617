/** What one verification comes to when nobody else uses its key, with and without a failing completion. */
module BillingProgress {
  import opened Wrappers
  import opened Journal
  import opened Billing
  import opened JournalProgress
  import JM = JournalMachine

  /** So many undisturbed steps of one call to the journal. */
  function Calls(s: State, call: nat, n: nat): State {
    s.(journal := Resumed(s.journal, call, n))
  }

  /** From `s` on only the verification's own steps were made. */
  ghost predicate Leads(s: State, t: State, id: nat, stage: Stage, owners: map<Slot, LocalOwner>, calls: set<nat>)
    requires id in s.verifications
  {
    && t.verifications == s.verifications[id := s.verifications[id].(stage := stage)]
    && t.owners == owners && t.journal.clock == s.journal.clock
    && t.journal.calls.Keys == s.journal.calls.Keys + calls
    && (forall key: Key :: key != ReplayKey(s.verifications[id].token) ==>
          JM.LogOf(t.journal, key) == JM.LogOf(s.journal, key))
    && JM.Inv(t.journal)
  }

  lemma LeadsOn(s: State, t: State, u: State, id: nat, between: Stage, stage: Stage, mine: map<Slot, LocalOwner>,
                owners: map<Slot, LocalOwner>, call: nat, calls: set<nat>)
    requires id in s.verifications && id in t.verifications
    requires Leads(s, t, id, between, mine, {call}) && Leads(t, u, id, stage, owners, calls)
    ensures Leads(s, u, id, stage, owners, {call} + calls)
  {
    hide JM.Inv, ReplayKey;
  }

  function LogFor(s: State, v: Verification): Log {
    JM.LogOf(s.journal, ReplayKey(v.token))
  }

  /** The chain has grown by one node, which leaves the lock as given. */
  predicate Grows(before: Log, after: Log, lock: Lock) {
    |after| == |before| + 1 && before <= after && LockOf(HeadOf(after)) == lock
  }

  lemma PositiveTtl(v: Verification)
    ensures Ttl(v) > 0.0
  {}

  lemma Begins(j: JM.State, call: nat, key: Key, op: JM.Op, lease: real)
    requires JM.Inv(j) && call !in j.calls && JM.ValidRequest(op, lease)
    ensures var j' := JM.Step(j, JM.Begin(call, key, op, lease));
            && JM.Inv(j') && j'.clock == j.clock
            && j'.calls == j.calls[call := JM.Call(key, op, lease, j.clock, 0, 0, JM.ReadRoot)]
            && forall other: Key :: JM.LogOf(j', other) == JM.LogOf(j, other)
  {
    hide JM.Inv;
    JM.StepKeepsInv(j, JM.Begin(call, key, op, lease));
  }

  /** A verification begins a call, which then runs to its end. */
  function Called(s: State, id: nat, stage: Stage, call: nat, op: JM.Op, lease: real, n: nat): State
    requires id in s.verifications
  {
    Calls(SetStage(s, id, stage).(
            journal := JM.Step(s.journal, JM.Begin(call, ReplayKey(s.verifications[id].token), op, lease))), call, n)
  }

  lemma CallEnds(s: State, id: nat, stage: Stage, call: nat, op: JM.Op, lease: real, n: nat)
    requires JM.Inv(s.journal) && id in s.verifications && call !in s.journal.calls && JM.ValidRequest(op, lease)
    requires var log := LogFor(s, s.verifications[id]); |log| < MAX_CLAIM_CHAIN_DEPTH && n >= |log| + 3
    ensures
      var t := Called(s, id, stage, call, op, lease, n);
      var log, log' := LogFor(s, s.verifications[id]), LogFor(t, s.verifications[id]);
      && Leads(s, t, id, stage, s.owners, {call}) && t.journal.calls[call].pc.Done?
      && var outcome := t.journal.calls[call].pc.outcome;
         if Admits(LockOf(HeadOf(log)), op, s.journal.clock) then
           Grows(log, log', LockOf(HeadOf(log')))
             && Achieves(op, lease, s.journal.clock, Uuid(call, 0), LockOf(HeadOf(log')), outcome)
         else log' == log && outcome == JournalProgress.Refused(op, LockOf(HeadOf(log)))
  {
    var key := ReplayKey(s.verifications[id].token);
    hide JM.Inv, JM.Step, Resumed, ReplayKey, Admits, Achieves, JournalProgress.Refused, LockOf, HeadOf;
    Begins(s.journal, call, key, op, lease);
    var begun := JM.Step(s.journal, JM.Begin(call, key, op, lease));
    UndisturbedCallFollowsTheLock(begun, call, n);
    ResumedKeepsInv(begun, call, n);
  }

  // --- Claiming -------------------------------------------------------------------------

  /** Nothing keeps the verification from claiming and from going on with its claim. */
  predicate Unhindered(setting: Setting, s: State, id: nat) {
    && id in s.verifications && s.verifications[id].stage.Checked?
    && (setting.overlaps || !Overlaps(s, id))
    && (setting.lateClaims || !Expired(s.verifications[id].token, s.journal.clock))
  }

  /** The claim goes to the journal, and its answer comes back. */
  function Claims(setting: Setting, s: State, id: nat, call: nat, lease: real, n: nat): State {
    Step(setting, Calls(Step(setting, s, Action.Claim(id, call, lease)), call, n), Learn(id))
  }

  lemma NobodyCalls(j: JM.State, call: nat, n: nat)
    requires call !in j.calls
    ensures Resumed(j, call, n) == j
  {
    if n == 0 {
    } else {
      NobodyCalls(j, call, n - 1);
    }
  }

  lemma ClaimBegins(setting: Setting, s: State, id: nat, call: nat, lease: real, n: nat)
    requires Unhindered(setting, s, id) && call !in s.journal.calls && lease > 0.0
    requires SlotOf(s.verifications[id]) !in s.owners
    ensures Calls(Step(setting, s, Action.Claim(id, call, lease)), call, n) ==
            Called(s, id, Claiming(call), call, JM.Acquire(Ttl(s.verifications[id])), lease, n)
  {
    hide JM.Step, Resumed, ReplayKey, Ttl, Overlaps, Expired;
  }

  /** What comes back from the claim decides. */
  lemma LearnAnswers(setting: Setting, s: State, id: nat, call: nat)
    requires id in s.verifications && s.verifications[id].stage == Claiming(call)
    requires call in s.journal.calls && s.journal.calls[call].pc.Done?
    requires setting.lateClaims || !Expired(s.verifications[id].token, s.journal.clock)
    ensures var v, outcome := s.verifications[id], s.journal.calls[call].pc.outcome;
            Step(setting, s, Learn(id)) ==
            if outcome.Acquired? then
              SetStage(s, id, Owning(call, outcome.owner)).(
                owners := s.owners[SlotOf(v) := LocalOwner(outcome.owner, Ttl(v))])
            else SetStage(s, id, Stage.Refused)
  {
    hide ReplayKey, Ttl, Expired;
  }

  lemma RefusedStays(setting: Setting, s: State, id: nat, call: nat, lease: real)
    requires id in s.verifications && s.verifications[id].stage.Refused?
    ensures Step(setting, s, Learn(id)) == s && Step(setting, s, Complete(id, call, lease)) == s
    ensures Step(setting, s, Settle(id, call, lease)) == s
  {}

  /** The claim is the verification's exactly if its instance holds none and the lock is open. */
  lemma ClaimFollowsTheLock(setting: Setting, s: State, id: nat, call: nat, lease: real, n: nat)
    requires JM.Inv(s.journal) && Unhindered(setting, s, id) && call !in s.journal.calls && lease > 0.0
    requires var log := LogFor(s, s.verifications[id]); |log| < MAX_CLAIM_CHAIN_DEPTH && n >= |log| + 3
    ensures
      var v, t := s.verifications[id], Claims(setting, s, id, call, lease, n);
      var log, log' := LogFor(s, v), LogFor(t, v);
      if SlotOf(v) in s.owners then
        Leads(s, t, id, Stage.Refused, s.owners, {}) && log' == log
      else if Open(LockOf(HeadOf(log)), s.journal.clock) then
        && Leads(s, t, id, Owning(call, Uuid(call, 0)), s.owners[SlotOf(v) := LocalOwner(Uuid(call, 0), Ttl(v))],
                 {call})
        && Grows(log, log', Held(Uuid(call, 0), s.journal.clock + lease))
      else Leads(s, t, id, Stage.Refused, s.owners, {call}) && log' == log
  {
    var v := s.verifications[id];
    PositiveTtl(v);
    hide JM.Inv, JM.Step, Resumed, ReplayKey, Ttl, LockOf, HeadOf, Overlaps, Expired;
    if SlotOf(v) in s.owners {
      NobodyCalls(s.journal, call, n);
    } else {
      ClaimBegins(setting, s, id, call, lease, n);
      CallEnds(s, id, Claiming(call), call, JM.Acquire(Ttl(v)), lease, n);
      var t := Called(s, id, Claiming(call), call, JM.Acquire(Ttl(v)), lease, n);
      hide Called;
      LearnAnswers(setting, t, id, call);
      hide Step;
    }
  }

  // --- Completing -----------------------------------------------------------------------

  /** The verification holds the lock of its key, and its instance knows. */
  predicate Holds(s: State, id: nat, claim: nat, owner: Token) {
    && id in s.verifications
    && var v := s.verifications[id];
       && v.stage == Owning(claim, owner)
       && SlotOf(v) in s.owners && s.owners[SlotOf(v)] == LocalOwner(owner, Ttl(v))
       && LockOf(HeadOf(LogFor(s, v))).Held? && LockOf(HeadOf(LogFor(s, v))).owner == owner
  }

  function Completes(setting: Setting, s: State, id: nat, call: nat, lease: real, n: nat): State {
    Step(setting, Calls(Step(setting, s, Complete(id, call, lease)), call, n), Settle(id, call + 1, lease))
  }

  lemma CompleteBegins(setting: Setting, s: State, id: nat, claim: nat, owner: Token, call: nat, lease: real, n: nat)
    requires Holds(s, id, claim, owner) && call !in s.journal.calls && lease > 0.0
    ensures Calls(Step(setting, s, Complete(id, call, lease)), call, n) ==
            Called(s, id, Completing(claim, owner, owner, call), call,
                   JM.Close(owner, Ttl(s.verifications[id]), Completed), lease, n)
  {
    hide JM.Step, Resumed, ReplayKey, Ttl, LockOf, HeadOf;
  }

  lemma CompleteSettles(setting: Setting, s: State, id: nat, claim: nat, owner: Token, call: nat, next: nat,
                        lease: real)
    requires id in s.verifications && s.verifications[id].stage == Completing(claim, owner, owner, call)
    requires call in s.journal.calls && s.journal.calls[call].pc == JM.Done(JM.Returned)
    requires next !in s.journal.calls && lease > 0.0
    ensures Step(setting, s, Settle(id, next, lease)) ==
            SetStage(s, id, Trusted(claim, owner, Some(call))).(owners := s.owners - {SlotOf(s.verifications[id])})
  {
    hide ReplayKey, Ttl, ReleaseStep;
  }

  lemma CompletionIsTrusted(setting: Setting, s: State, id: nat, claim: nat, owner: Token, call: nat, lease: real,
                            n: nat)
    requires JM.Inv(s.journal) && Holds(s, id, claim, owner) && lease > 0.0
    requires call !in s.journal.calls && call + 1 !in s.journal.calls
    requires var log := LogFor(s, s.verifications[id]); |log| < MAX_CLAIM_CHAIN_DEPTH && n >= |log| + 3
    ensures
      var v, t := s.verifications[id], Completes(setting, s, id, call, lease, n);
      && Leads(s, t, id, Trusted(claim, owner, Some(call)), s.owners - {SlotOf(v)}, {call})
      && Grows(LogFor(s, v), LogFor(t, v), Finished(owner, s.journal.clock + Ttl(v)))
  {
    var v := s.verifications[id];
    var op, stage := JM.Close(owner, Ttl(v), Completed), Completing(claim, owner, owner, call);
    PositiveTtl(v);
    hide JM.Inv, JM.Step, Resumed, ReplayKey, Ttl, LockOf, HeadOf;
    CompleteBegins(setting, s, id, claim, owner, call, lease, n);
    hide Step;
    CallEnds(s, id, stage, call, op, lease, n);
    var t := Called(s, id, stage, call, op, lease, n);
    hide Called;
    CompleteSettles(setting, t, id, claim, owner, call, call + 1, lease);
  }

  // --- A completion that fails ----------------------------------------------------------

  /** The call's next access fails before it has any effect. */
  function Broken(s: State, call: nat, n: nat): State {
    s.(journal := JM.Step(Resumed(s.journal, call, n), JM.Resume(call, JM.Throws)))
  }

  function Fails(setting: Setting, s: State, id: nat, call: nat, lease: real, m: nat, n: nat): State {
    var failed := Broken(Step(setting, s, Complete(id, call, lease)), call, m);
    var released := Calls(Step(setting, failed, Settle(id, call + 1, lease)), call + 1, n);
    Step(setting, released, Settle(id, call + 2, lease))
  }

  /** Until its link a call has changed nothing but itself. */
  lemma NothingYet(j: JM.State, call: nat, m: nat)
    requires JM.Inv(j) && call in j.calls && j.calls[call].pc == JM.ReadRoot && Verdict(j, call).Link?
    requires var log := JM.LogOf(j, j.calls[call].key); |log| < MAX_CLAIM_CHAIN_DEPTH && m <= |log| + 2
    ensures var j' := Resumed(j, call, m);
            && call in j'.calls && !j'.calls[call].pc.Done?
            && j' == j.(calls := j.calls[call := j'.calls[call]])
  {
    var log := JM.LogOf(j, j.calls[call].key);
    hide JM.Inv, Resumed, Verdict;
    if m == |log| + 2 {
      DecidesAlone(j, call);
    } else {
      ReadsAlone(j, call, m);
    }
  }

  lemma Throws(j: JM.State, call: nat)
    requires call in j.calls && !j.calls[call].pc.Done?
    ensures JM.Step(j, JM.Resume(call, JM.Throws)) ==
            j.(calls := j.calls[call := j.calls[call].(pc := JM.Done(JM.Failed))])
  {}

  lemma CloserLinks(j: JM.State, call: nat, owner: Token, ttl: real)
    requires call in j.calls && j.calls[call].op == JM.Close(owner, ttl, Completed)
    requires var lock := LockOf(HeadOf(JM.LogOf(j, j.calls[call].key))); lock.Held? && lock.owner == owner
    ensures Verdict(j, call).Link?
  {
    VerdictByTheLock(j, call);
  }

  lemma BrokenChangesNothing(j: JM.State, call: nat, key: Key, owner: Token, ttl: real, lease: real, m: nat)
    requires JM.Inv(j) && call !in j.calls && ttl > 0.0 && lease > 0.0
    requires var lock := LockOf(HeadOf(JM.LogOf(j, key))); lock.Held? && lock.owner == owner
    requires |JM.LogOf(j, key)| < MAX_CLAIM_CHAIN_DEPTH && m <= |JM.LogOf(j, key)| + 2
    ensures
      var begun := JM.Step(j, JM.Begin(call, key, JM.Close(owner, ttl, Completed), lease));
      var j' := JM.Step(Resumed(begun, call, m), JM.Resume(call, JM.Throws));
      && JM.Inv(j') && call in j'.calls && j'.calls[call].pc == JM.Done(JM.Failed)
      && j' == j.(calls := j.calls[call := j'.calls[call]])
  {
    var begun := JM.Step(j, JM.Begin(call, key, JM.Close(owner, ttl, Completed), lease));
    hide JM.Inv, Resumed, Verdict;
    Begins(j, call, key, JM.Close(owner, ttl, Completed), lease);
    CloserLinks(begun, call, owner, ttl);
    NothingYet(begun, call, m);
    ResumedKeepsInv(begun, call, m);
    JM.StepKeepsInv(Resumed(begun, call, m), JM.Resume(call, JM.Throws));
    Throws(Resumed(begun, call, m), call);
    hide JM.Step;
  }

  lemma ReleaseBegins(setting: Setting, s: State, id: nat, claim: nat, owner: Token, call: nat, next: nat, lease: real,
                      n: nat)
    requires id in s.verifications && s.verifications[id].stage == Completing(claim, owner, owner, call)
    requires call in s.journal.calls && s.journal.calls[call].pc == JM.Done(JM.Failed)
    requires next !in s.journal.calls && lease > 0.0
    requires var v := s.verifications[id];
             SlotOf(v) in s.owners && s.owners[SlotOf(v)] == LocalOwner(owner, Ttl(v))
    ensures Calls(Step(setting, s, Settle(id, next, lease)), next, n) ==
            Called(s, id, Releasing(claim, owner, owner, next), next,
                   JM.Close(owner, Ttl(s.verifications[id]), Available), lease, n)
  {
    hide JM.Step, Resumed, ReplayKey, Ttl;
  }

  lemma ReleaseSettles(setting: Setting, s: State, id: nat, claim: nat, owner: Token, call: nat, next: nat,
                       lease: real)
    requires id in s.verifications && s.verifications[id].stage == Releasing(claim, owner, owner, call)
    requires call in s.journal.calls && s.journal.calls[call].pc == JM.Done(JM.Returned)
    requires next !in s.journal.calls && lease > 0.0
    ensures Step(setting, s, Settle(id, next, lease)) ==
            SetStage(s, id, Stage.Refused).(owners := s.owners - {SlotOf(s.verifications[id])})
  {
    hide ReplayKey, Ttl;
  }

  lemma CompletionBreaks(setting: Setting, s: State, id: nat, claim: nat, owner: Token, call: nat, lease: real, m: nat)
    requires JM.Inv(s.journal) && Holds(s, id, claim, owner) && lease > 0.0 && call !in s.journal.calls
    requires var log := LogFor(s, s.verifications[id]); |log| < MAX_CLAIM_CHAIN_DEPTH && m <= |log| + 2
    ensures
      var v, t := s.verifications[id], Broken(Step(setting, s, Complete(id, call, lease)), call, m);
      && Leads(s, t, id, Completing(claim, owner, owner, call), s.owners, {call})
      && t.journal.calls[call].pc == JM.Done(JM.Failed) && LogFor(t, v) == LogFor(s, v)
  {
    var v := s.verifications[id];
    PositiveTtl(v);
    hide JM.Inv, JM.Step, Resumed, ReplayKey, Ttl, LockOf, HeadOf;
    BrokenChangesNothing(s.journal, call, ReplayKey(v.token), owner, Ttl(v), lease, m);
  }

  lemma ReleaseFreesTheLock(setting: Setting, s: State, id: nat, claim: nat, owner: Token, call: nat, lease: real,
                            n: nat)
    requires JM.Inv(s.journal) && id in s.verifications && lease > 0.0
    requires s.verifications[id].stage == Completing(claim, owner, owner, call)
    requires Holds(SetStage(s, id, Owning(claim, owner)), id, claim, owner)
    requires call in s.journal.calls && s.journal.calls[call].pc == JM.Done(JM.Failed)
    requires call + 1 !in s.journal.calls && call + 2 !in s.journal.calls
    requires var log := LogFor(s, s.verifications[id]); |log| < MAX_CLAIM_CHAIN_DEPTH && n >= |log| + 3
    ensures
      var v := s.verifications[id];
      var released := Calls(Step(setting, s, Settle(id, call + 1, lease)), call + 1, n);
      var t := Step(setting, released, Settle(id, call + 2, lease));
      && Leads(s, t, id, Stage.Refused, s.owners - {SlotOf(v)}, {call + 1})
      && Grows(LogFor(s, v), LogFor(t, v), Free)
  {
    var v := s.verifications[id];
    var stage, op := Releasing(claim, owner, owner, call + 1), JM.Close(owner, Ttl(v), Available);
    PositiveTtl(v);
    hide JM.Inv, JM.Step, Resumed, ReplayKey, Ttl, LockOf, HeadOf, ReleaseStep;
    ReleaseBegins(setting, s, id, claim, owner, call, call + 1, lease, n);
    hide Step;
    CallEnds(s, id, stage, call + 1, op, lease, n);
    var released := Called(s, id, stage, call + 1, op, lease, n);
    hide Called;
    ReleaseSettles(setting, released, id, claim, owner, call + 1, call + 2, lease);
  }

  /** A completion that fails before its link takes effect is followed by a release of the claim. */
  lemma FailureReleases(setting: Setting, s: State, id: nat, claim: nat, owner: Token, call: nat, lease: real, m: nat,
                        n: nat)
    requires JM.Inv(s.journal) && Holds(s, id, claim, owner) && lease > 0.0
    requires call !in s.journal.calls && call + 1 !in s.journal.calls && call + 2 !in s.journal.calls
    requires var log := LogFor(s, s.verifications[id]);
             |log| < MAX_CLAIM_CHAIN_DEPTH && m <= |log| + 2 && n >= |log| + 3
    ensures
      var v, t := s.verifications[id], Fails(setting, s, id, call, lease, m, n);
      && Leads(s, t, id, Stage.Refused, s.owners - {SlotOf(v)}, {call} + {call + 1})
      && Grows(LogFor(s, v), LogFor(t, v), Free)
  {
    var v := s.verifications[id];
    var failed := Broken(Step(setting, s, Complete(id, call, lease)), call, m);
    hide JM.Inv, Step, Broken, Calls, ReplayKey, Ttl, LockOf, HeadOf;
    CompletionBreaks(setting, s, id, claim, owner, call, lease, m);
    ReleaseFreesTheLock(setting, failed, id, claim, owner, call, lease, n);
    hide Leads, Grows;
    LeadsOn(s, failed, Fails(setting, s, id, call, lease, m, n), id, Completing(claim, owner, owner, call),
            Stage.Refused, s.owners, s.owners - {SlotOf(v)}, call, {call + 1});
  }

  // --- The whole verification -----------------------------------------------------------

  predicate Ready(setting: Setting, s: State, id: nat, call: nat, lease: real, n: nat) {
    && Unhindered(setting, s, id) && lease > 0.0
    && call !in s.journal.calls && call + 1 !in s.journal.calls
    && call + 2 !in s.journal.calls && call + 3 !in s.journal.calls
    && |LogFor(s, s.verifications[id])| + 1 < MAX_CLAIM_CHAIN_DEPTH && n >= |LogFor(s, s.verifications[id])| + 4
  }

  /** No verification of this key is registered in the instance, and nobody holds or has used up its claim. */
  predicate Claimable(s: State, v: Verification) {
    SlotOf(v) !in s.owners && Open(LockOf(HeadOf(LogFor(s, v))), s.journal.clock)
  }

  /** Two more nodes: the claim and what ended it. */
  predicate GrowsTwice(before: Log, after: Log, lock: Lock) {
    |after| == |before| + 2 && before <= after && LockOf(HeadOf(after)) == lock
  }

  /** A claim that may be made is the verification's, which its instance registers. */
  lemma ClaimIsHeld(setting: Setting, s: State, id: nat, call: nat, lease: real, n: nat)
    requires JM.Inv(s.journal) && Ready(setting, s, id, call, lease, n) && Claimable(s, s.verifications[id])
    ensures
      var v, t := s.verifications[id], Claims(setting, s, id, call, lease, n);
      && Leads(s, t, id, Owning(call, Uuid(call, 0)), t.owners, {call}) && SlotOf(v) !in s.owners
      && t.owners == s.owners[SlotOf(v) := LocalOwner(Uuid(call, 0), Ttl(v))]
      && Grows(LogFor(s, v), LogFor(t, v), Held(Uuid(call, 0), s.journal.clock + lease))
      && JM.Inv(t.journal) && Holds(t, id, call, Uuid(call, 0)) && t.journal.clock == s.journal.clock
      && id in t.verifications && t.verifications[id] == v.(stage := Owning(call, Uuid(call, 0)))
      && |LogFor(t, v)| < MAX_CLAIM_CHAIN_DEPTH && n >= |LogFor(t, v)| + 3 && lease > 0.0
      && |LogFor(t, v)| == |LogFor(s, v)| + 1
      && call + 1 !in t.journal.calls && call + 2 !in t.journal.calls && call + 3 !in t.journal.calls
  {
    hide JM.Inv, Claims, ReplayKey, ReplayTtl, LockOf, HeadOf, Overlaps, Expired;
    ClaimFollowsTheLock(setting, s, id, call, lease, n);
  }

  lemma SameKey(s: State, v: Verification, stage: Stage)
    ensures var w := v.(stage := stage); LogFor(s, w) == LogFor(s, v) && SlotOf(w) == SlotOf(v) && Ttl(w) == Ttl(v)
  {}

  lemma ForgetsItsEntry(owners: map<Slot, LocalOwner>, slot: Slot, entry: LocalOwner)
    requires slot !in owners
    ensures owners[slot := entry] - {slot} == owners
  {}

  lemma GrowsOn(log: Log, claimed: Log, closed: Log, held: Lock, lock: Lock)
    requires Grows(log, claimed, held) && Grows(claimed, closed, lock)
    ensures GrowsTwice(log, closed, lock)
  {}

  lemma ClaimableIsTrusted(setting: Setting, s: State, id: nat, call: nat, lease: real, n: nat)
    requires id in s.verifications && Claimable(s, s.verifications[id])
    requires JM.Inv(s.journal) && Ready(setting, s, id, call, lease, n)
    ensures
      var v := s.verifications[id];
      var t := Completes(setting, Claims(setting, s, id, call, lease, n), id, call + 1, lease, n);
      && Leads(s, t, id, Trusted(call, Uuid(call, 0), Some(call + 1)), s.owners, {call} + {call + 1})
      && GrowsTwice(LogFor(s, v), LogFor(t, v), Finished(Uuid(call, 0), s.journal.clock + Ttl(v)))
  {
    hide *;
    var v, owner := s.verifications[id], Uuid(call, 0);
    var t := Claims(setting, s, id, call, lease, n);
    var u := Completes(setting, t, id, call + 1, lease, n);
    ClaimIsHeld(setting, s, id, call, lease, n);
    SameKey(t, v, Owning(call, owner));
    SameKey(u, v, Owning(call, owner));
    CompletionIsTrusted(setting, t, id, call, owner, call + 1, lease, n);
    GrowsOn(LogFor(s, v), LogFor(t, v), LogFor(u, v), Held(owner, s.journal.clock + lease),
            Finished(owner, s.journal.clock + Ttl(v)));
    ForgetsItsEntry(s.owners, SlotOf(v), LocalOwner(owner, Ttl(v)));
    LeadsOn(s, t, u, id, Owning(call, owner), Trusted(call, owner, Some(call + 1)), t.owners, s.owners, call,
            {call + 1});
  }

  lemma RefusalIsFinal(setting: Setting, s: State, id: nat, call: nat, lease: real, n: nat)
    requires id in s.verifications && s.verifications[id].stage.Refused? && call !in s.journal.calls
    ensures Completes(setting, s, id, call, lease, n) == s
  {
    RefusedStays(setting, s, id, call, lease);
    RefusedStays(setting, s, id, call + 1, lease);
    NobodyCalls(s.journal, call, n);
    hide Step, Resumed;
  }

  /**
    Any token, for a purchase or not: a verification that meets nobody is trusted exactly if its
    key may be claimed. It then leaves the key completed until the claim has run its full time,
    and otherwise it leaves the key as it was. Its instance remembers nothing of it.
    */
  lemma UndisturbedVerificationFollowsTheLock(setting: Setting, s: State, id: nat, call: nat, lease: real, n: nat)
    requires JM.Inv(s.journal) && Ready(setting, s, id, call, lease, n)
    ensures
      var v := s.verifications[id];
      var t := Completes(setting, Claims(setting, s, id, call, lease, n), id, call + 1, lease, n);
      if Claimable(s, v) then
        && Leads(s, t, id, Trusted(call, Uuid(call, 0), Some(call + 1)), s.owners, {call} + {call + 1})
        && GrowsTwice(LogFor(s, v), LogFor(t, v), Finished(Uuid(call, 0), s.journal.clock + Ttl(v)))
      else
        && t.verifications == s.verifications[id := v.(stage := Stage.Refused)] && t.owners == s.owners
        && LogFor(t, v) == LogFor(s, v)
  {
    hide JM.Inv, Step, Claims, Completes, ReplayKey, Ttl, LockOf, HeadOf, Overlaps, Expired;
    if Claimable(s, s.verifications[id]) {
      hide Claimable, Leads, GrowsTwice;
      ClaimableIsTrusted(setting, s, id, call, lease, n);
    } else {
      ClaimFollowsTheLock(setting, s, id, call, lease, n);
      RefusalIsFinal(setting, Claims(setting, s, id, call, lease, n), id, call + 1, lease, n);
    }
  }

  lemma FailureFreesTheLock(setting: Setting, s: State, id: nat, call: nat, lease: real, m: nat, n: nat)
    requires id in s.verifications && Claimable(s, s.verifications[id])
    requires JM.Inv(s.journal) && Ready(setting, s, id, call, lease, n) && m <= |LogFor(s, s.verifications[id])| + 3
    ensures
      var v, t := s.verifications[id], Claims(setting, s, id, call, lease, n);
      var u := Fails(setting, t, id, call + 1, lease, m, n);
      && Leads(s, u, id, Stage.Refused, s.owners, {call} + {call + 1, call + 2})
      && Grows(LogFor(t, v), LogFor(u, v), Free) && SlotOf(v) !in s.owners
  {
    hide *;
    var v, owner := s.verifications[id], Uuid(call, 0);
    var t := Claims(setting, s, id, call, lease, n);
    var u := Fails(setting, t, id, call + 1, lease, m, n);
    ClaimIsHeld(setting, s, id, call, lease, n);
    SameKey(t, v, Owning(call, owner));
    SameKey(u, v, Owning(call, owner));
    FailureReleases(setting, t, id, call, owner, call + 1, lease, m, n);
    ForgetsItsEntry(s.owners, SlotOf(v), LocalOwner(owner, Ttl(v)));
    assert {call + 1} + {call + 1 + 1} == {call + 1, call + 2};
    LeadsOn(s, t, u, id, Owning(call, owner), Stage.Refused, t.owners, s.owners, call, {call + 1, call + 2});
  }

  /** If its completion fails, at whichever access, it is refused and the key is free for the next presentation. */
  lemma FailedCompletionGivesTheClaimBack(setting: Setting, s: State, id: nat, call: nat, lease: real, m: nat, n: nat)
    requires id in s.verifications && Claimable(s, s.verifications[id])
    requires JM.Inv(s.journal) && Ready(setting, s, id, call, lease, n) && m <= |LogFor(s, s.verifications[id])| + 3
    ensures
      var v := s.verifications[id];
      var t := Fails(setting, Claims(setting, s, id, call, lease, n), id, call + 1, lease, m, n);
      && Leads(s, t, id, Stage.Refused, s.owners, {call} + {call + 1, call + 2})
      && LockOf(HeadOf(LogFor(t, v))) == Free && Claimable(t, v)
  {
    hide JM.Inv, Fails, Claims, Ready, ReplayKey, LockOf, HeadOf;
    FailureFreesTheLock(setting, s, id, call, lease, m, n);
  }

  /** The completion keeps every presentation of the token out until it has expired, and a purchase for a century. */
  lemma CompletionOutlastsTheToken(v: Verification, now: real)
    requires v.sampled <= now
    ensures (v.token.exp + v.tolerance) * 1000.0 <= now + Ttl(v)
    ensures v.token.purchase.Some? ==> now + RETENTION_MS <= now + Ttl(v)
  {
    TtlReachesPastExpiry(v.token.exp, v.sampled, v.tolerance);
  }
}
