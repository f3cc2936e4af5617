/** Runs in which one signed token is trusted twice, and exactly when there are none. */
module BillingRuns {
  import opened Wrappers
  import opened Journal
  import opened Billing
  import opened BillingInvariant
  import opened BillingTheorems
  import opened JournalProgress
  import JM = JournalMachine

  // --- A call that meets nobody -----------------------------------------------------------

  lemma Go(setting: Setting, start: State, s: State, action: Action) returns (s': State)
    requires Reachable(setting, start, s)
    ensures s' == Step(setting, s, action) && Reachable(setting, start, s')
  {
    var actions :| Reaches(setting, start, actions, s);
    s' := Step(setting, s, action);
    assert (actions + [action])[..|actions|] == actions;
    assert Reaches(setting, start, actions + [action], s');
  }

  /** The journal's own progress, seen from a verification. */
  lemma {:induction false} Resumes(setting: Setting, start: State, s: State, call: nat, n: nat) returns (s': State)
    requires Reachable(setting, start, s)
    ensures s' == s.(journal := Resumed(s.journal, call, n)) && Reachable(setting, start, s')
  {
    if n == 0 {
      s' := s;
    } else {
      hide Reachable, JM.Step;
      s' := Resumes(setting, start, s, call, n - 1);
      s' := Go(setting, start, s', Store(JM.Resume(call, JM.Normal)));
    }
  }

  ghost predicate LinkedUndisturbed(s: State, s': State, call: nat)
    requires call in s.journal.calls
  {
    var j, j', c := s.journal, s'.journal, s.journal.calls[call];
    var pc := Verdict(j, call);
    && s' == s.(journal := j') && j'.clock == j.clock && pc.Link?
    && JM.LogOf(j', c.key) == JM.LogOf(j, c.key) + [Entry(pc.record, j.clock)]
    && j'.calls == j.calls[call := c.(pc := JM.Done(JM.OnLinked(c.(pc := pc))), drawn := c.drawn + 2)]
  }

  lemma LinkedOutcome(c: JM.Call, pc: JM.Pc)
    requires pc.Link?
    ensures JM.OnLinked(c.(pc := pc, drawn := c.drawn + 2)) == JM.OnLinked(c.(pc := pc))
  {}

  lemma DecidesAlone(setting: Setting, start: State, s: State, call: nat) returns (s': State)
    requires Reachable(setting, start, s) && JM.Inv(s.journal) && call in s.journal.calls
    requires s.journal.calls[call].pc == JM.ReadRoot
    requires |JM.LogOf(s.journal, s.journal.calls[call].key)| < MAX_CLAIM_CHAIN_DEPTH
    ensures Reachable(setting, start, s') && JM.Inv(s'.journal)
    ensures s' == s.(journal := Ran(s.journal, call, Verdict(s.journal, call)))
  {
    hide JM.Inv, Reachable, JM.AfterHead, Resumed;
    var n := |JM.LogOf(s.journal, s.journal.calls[call].key)| + 2;
    JournalProgress.DecidesAlone(s.journal, call);
    ResumedKeepsInv(s.journal, call, n);
    s' := Resumes(setting, start, s, call, n);
  }

  lemma EndedIsLinked(s: State, call: nat)
    requires call in s.journal.calls && Verdict(s.journal, call).Link?
    ensures LinkedUndisturbed(s, s.(journal := Ended(s.journal, call)), call)
  {
    SameHead(s.journal, call);
    hide JM.AfterHead, JM.OnLinked, HeadOf, Verdict;
    LinkedOutcome(s.journal.calls[call], Verdict(s.journal, call));
  }

  /** Alone in the store, a call that may link does link. */
  lemma RunsAlone(setting: Setting, start: State, s: State, call: nat) returns (s': State)
    requires Reachable(setting, start, s) && JM.Inv(s.journal) && call in s.journal.calls
    requires s.journal.calls[call].pc == JM.ReadRoot && Verdict(s.journal, call).Link?
    requires |JM.LogOf(s.journal, s.journal.calls[call].key)| < MAX_CLAIM_CHAIN_DEPTH
    ensures Reachable(setting, start, s') && JM.Inv(s'.journal) && LinkedUndisturbed(s, s', call)
  {
    hide JM.Inv, Reachable, Verdict, LinkedUndisturbed, Resumed, Ended;
    var n := |JM.LogOf(s.journal, s.journal.calls[call].key)| + 3;
    LinksAlone(s.journal, call);
    ResumedKeepsInv(s.journal, call, n);
    s' := Resumes(setting, start, s, call, n);
    EndedIsLinked(s, call);
  }

  // --- Verifications of one token ---------------------------------------------------------

  const ONCE := SignedToken("presented", None, 1.0)
  const LEASE := 100.0

  function OnceAt(site: nat, stage: Stage): Verification {
    Verification(site, ONCE, 0.0, 0.0, stage)
  }

  function OnceSlot(site: nat): Slot {
    Slot(site, ReplayKey(ONCE))
  }

  lemma Presents(setting: Setting, start: State, s: State, id: nat, site: nat) returns (s': State)
    requires Reachable(setting, start, s) && id !in s.verifications && s.journal.clock == 0.0
    ensures Reachable(setting, start, s')
    ensures s' == s.(verifications := s.verifications[id := OnceAt(site, Checked)])
  {
    assert Seconds(0.0) == 0.0;
    hide Reachable;
    s' := Go(setting, start, s, Present(id, site, ONCE, 0.0));
  }

  lemma OnceTtl()
    ensures TokenTtl(1.0, 0.0, 0.0) == 1000.0
  {
    assert Seconds(0.0) == 0.0;
    assert Ceiling(1000.0) == 1000.0;
  }

  lemma OnceVerification(site: nat, stage: Stage)
    ensures Ttl(OnceAt(site, stage)) == 1000.0 && SlotOf(OnceAt(site, stage)) == OnceSlot(site)
  {
    OnceTtl();
  }

  function OnceLog(s: State): Log {
    JM.LogOf(s.journal, ReplayKey(ONCE))
  }

  predicate Stands(s: State, id: nat, site: nat, stage: Stage) {
    id in s.verifications && s.verifications[id] == OnceAt(site, stage)
  }

  /** What a step of a verification leaves besides the journal's calls and files. */
  ghost predicate Advanced(s: State, s': State, id: nat, site: nat, stage: Stage, owners: map<Slot, LocalOwner>,
                           call: nat, log: Log) {
    && s'.verifications == s.verifications[id := OnceAt(site, stage)] && s'.owners == owners
    && s'.journal.clock == s.journal.clock && s'.journal.calls.Keys == s.journal.calls.Keys + {call}
    && OnceLog(s') == log
  }

  lemma Begins(setting: Setting, start: State, s: State, call: nat, op: JM.Op, action: Action) returns (s': State)
    requires Reachable(setting, start, s) && JM.Inv(s.journal) && call !in s.journal.calls && JM.ValidRequest(op, LEASE)
    requires Step(setting, s, action).journal == JM.Step(s.journal, JM.Begin(call, ReplayKey(ONCE), op, LEASE))
    ensures s' == Step(setting, s, action) && Reachable(setting, start, s') && JM.Inv(s'.journal)
    ensures s'.journal.calls ==
              s.journal.calls[call := JM.Call(ReplayKey(ONCE), op, LEASE, s.journal.clock, 0, 0, JM.ReadRoot)]
    ensures s'.journal.clock == s.journal.clock && OnceLog(s') == OnceLog(s)
  {
    hide JM.Inv, Reachable;
    JM.StepKeepsInv(s.journal, JM.Begin(call, ReplayKey(ONCE), op, LEASE));
    s' := Go(setting, start, s, action);
  }

  function ClaimRecord(s: State, call: nat): Record {
    Node(ReplayKey(ONCE), Kind.Claim, Uuid(call, 1), if OnceLog(s) == [] then None
         else Some(HeadOf(OnceLog(s)).value.token),
         Uuid(call, 0), s.journal.clock + LEASE)
  }

  predicate MayClaim(setting: Setting, s: State, id: nat, site: nat) {
    && Stands(s, id, site, Checked) && OnceSlot(site) !in s.owners && (setting.overlaps || !Overlaps(s, id))
    && |OnceLog(s)| < 10 && Open(LockOf(HeadOf(OnceLog(s))), s.journal.clock)
  }

  /** A claim is linked; the verification has not heard of it yet. */
  lemma ClaimLinks(setting: Setting, start: State, s: State, id: nat, site: nat, call: nat) returns (s': State)
    requires Reachable(setting, start, s) && JM.Inv(s.journal) && call !in s.journal.calls
    requires MayClaim(setting, s, id, site)
    ensures Reachable(setting, start, s') && JM.Inv(s'.journal)
    ensures Advanced(s, s', id, site, Claiming(call), s.owners, call,
                     OnceLog(s) + [Entry(ClaimRecord(s, call), s.journal.clock)])
    ensures s'.journal.calls == s.journal.calls[call := s'.journal.calls[call]]
    ensures s'.journal.calls[call].pc == JM.Done(JM.Acquired(Uuid(call, 0)))
  {
    OnceVerification(site, Checked);
    hide JM.Inv, Reachable, ReplayKey, TokenTtl, Ttl, SlotOf, Overlaps;
    var begun := Begins(setting, start, s, call, JM.Acquire(1000.0), Action.Claim(id, call, LEASE));
    s' := RunsAlone(setting, start, begun, call);
  }

  lemma Learns(setting: Setting, start: State, s: State, id: nat, site: nat, call: nat) returns (s': State)
    requires Reachable(setting, start, s) && Stands(s, id, site, Claiming(call))
    requires (s.journal.clock < 1000.0 || setting.lateClaims)
    requires call in s.journal.calls && s.journal.calls[call].pc == JM.Done(JM.Acquired(Uuid(call, 0)))
    ensures Reachable(setting, start, s')
    ensures s' == s.(verifications := s.verifications[id := OnceAt(site, Owning(call, Uuid(call, 0)))],
                     owners := s.owners[OnceSlot(site) := LocalOwner(Uuid(call, 0), 1000.0)])
  {
    OnceVerification(site, Claiming(call));
    hide Reachable, ReplayKey, Ttl, SlotOf;
    s' := Go(setting, start, s, Learn(id));
  }

  function CompletedRecord(s: State, call: nat, owner: Token): Record
    requires JM.HoldsHead(HeadOf(OnceLog(s)), owner)
  {
    Node(ReplayKey(ONCE), Completed, Uuid(call, 1), Some(HeadOf(OnceLog(s)).value.token), owner,
         s.journal.clock + 1000.0)
  }

  /** A verification whose instance has its owner registered completes and is trusted. */
  lemma Trusts(setting: Setting, start: State, s: State, id: nat, site: nat, claim: nat, owner: Token, call: nat)
    returns (s': State)
    requires Reachable(setting, start, s) && JM.Inv(s.journal) && call !in s.journal.calls
    requires call + 1 !in s.journal.calls
    requires Stands(s, id, site, Owning(claim, owner)) && OnceSlot(site) in s.owners
    requires s.owners[OnceSlot(site)] == LocalOwner(owner, 1000.0)
    requires |OnceLog(s)| < 10 && JM.HoldsHead(HeadOf(OnceLog(s)), owner)
    ensures Reachable(setting, start, s') && JM.Inv(s'.journal)
    ensures Advanced(s, s', id, site, Trusted(claim, owner, Some(call)), s.owners - {OnceSlot(site)}, call,
                     OnceLog(s) + [Entry(CompletedRecord(s, call, owner), s.journal.clock)])
  {
    OnceVerification(site, Owning(claim, owner));
    OnceVerification(site, Completing(claim, owner, owner, call));
    hide JM.Inv, Reachable, ReplayKey, TokenTtl, Ttl, SlotOf;
    var begun := Begins(setting, start, s, call, JM.Close(owner, 1000.0, Completed), Complete(id, call, LEASE));
    var linked := RunsAlone(setting, start, begun, call);
    s' := Go(setting, start, linked, Settle(id, call + 1, LEASE));
  }

  /** One verification runs from its claim to its end without meeting anybody. */
  lemma IsTrusted(setting: Setting, start: State, s: State, id: nat, site: nat, call: nat) returns (s': State)
    requires Reachable(setting, start, s) && JM.Inv(s.journal)
    requires call !in s.journal.calls && call + 1 !in s.journal.calls && call + 2 !in s.journal.calls
    requires MayClaim(setting, s, id, site) && |OnceLog(s)| < 8 && (s.journal.clock < 1000.0 || setting.lateClaims)
    ensures Reachable(setting, start, s') && JM.Inv(s'.journal)
    ensures s'.verifications == s.verifications[id := OnceAt(site, Trusted(call, Uuid(call, 0), Some(call + 1)))]
    ensures s'.owners == s.owners && s'.journal.clock == s.journal.clock
    ensures s'.journal.calls.Keys == s.journal.calls.Keys + {call, call + 1}
    ensures ClosedBy(OnceLog(s), OnceLog(s'), Uuid(call, 0), s.journal.clock)
  {
    hide JM.Inv, Reachable, ReplayKey, MayClaim, Overlaps, ClosedBy, HeadOf, LockOf;
    var log := OnceLog(s);
    assert |log| < 8 && OnceSlot(site) !in s.owners by {
      MayClaimFacts(setting, s, id, site);
    }
    var claim := ClaimRecord(s, call);
    AppendedHead(log, Entry(claim, s.journal.clock));
    var linked := ClaimLinks(setting, start, s, id, site, call);
    var claimed := Learns(setting, start, linked, id, site, call);
    s' := Trusts(setting, start, claimed, id, site, call, Uuid(call, 0), call + 1);
    IsClosedBy(log, claim, CompletedRecord(claimed, call + 1, Uuid(call, 0)), Uuid(call, 0), s.journal.clock);
    assert s.owners[OnceSlot(site) := LocalOwner(Uuid(call, 0), 1000.0)] - {OnceSlot(site)} == s.owners;
  }

  /** A chain grew by a claim of an owner and by its completion. */
  ghost predicate ClosedBy(before: Log, after: Log, owner: Token, clock: real) {
    && |after| == |before| + 2 && before <= after
    && HeadOf(after).Some? && HeadOf(after).value.Node? && HeadOf(after).value.owner == owner
    && HeadBefore(after, |before| + 1).Some? && HeadBefore(after, |before| + 1).value.Node?
    && HeadBefore(after, |before| + 1).value.kind == Kind.Claim
    && Open(LockOf(HeadOf(after)), clock + 1000.0)
  }

  lemma AppendedHead(log: Log, entry: Entry)
    ensures HeadOf(log + [entry]) == Some(entry.record)
  {}

  lemma IsClosedBy(log: Log, claim: Record, closing: Record, owner: Token, clock: real)
    requires claim.Node? && claim.kind == Kind.Claim && closing.Node? && closing.owner == owner
    requires closing.kind == Completed && closing.expiresAt == clock + 1000.0
    ensures ClosedBy(log, log + [Entry(claim, clock)] + [Entry(closing, clock)], owner, clock)
  {}

  lemma MayClaimFacts(setting: Setting, s: State, id: nat, site: nat)
    requires MayClaim(setting, s, id, site)
    ensures Stands(s, id, site, Checked) && OnceSlot(site) !in s.owners
    ensures Open(LockOf(HeadOf(OnceLog(s))), s.journal.clock)
  {}

  lemma TimePasses(setting: Setting, start: State, s: State, now: real) returns (s': State)
    requires Reachable(setting, start, s) && JM.Inv(s.journal) && s.journal.clock <= now
    ensures Reachable(setting, start, s') && JM.Inv(s'.journal)
    ensures s' == s.(journal := s.journal.(clock := now))
  {
    hide JM.Inv, Reachable;
    JM.StepKeepsInv(s.journal, JM.Tick(now));
    s' := Go(setting, start, s, Store(JM.Tick(now)));
  }

  /** Three verifications of the token are checked at once, two of them in one instance. */
  lemma AllPresented(setting: Setting, start: State) returns (s: State)
    requires start == Initial(0.0)
    ensures Reachable(setting, start, s) && JM.Inv(s.journal)
    ensures s == start.(verifications := map[0 := OnceAt(0, Checked), 1 := OnceAt(0, Checked), 2 := OnceAt(1, Checked)])
  {
    JM.InitialInv(0.0);
    assert Reaches(setting, start, [], start);
    hide JM.Inv, Reachable;
    s := Presents(setting, start, start, 0, 0);
    s := Presents(setting, start, s, 1, 0);
    s := Presents(setting, start, s, 2, 1);
  }

  // --- A late claim -----------------------------------------------------------------------

  lemma NobodyClaims(s: State, id: nat)
    requires id in s.verifications && forall other :: other in s.verifications ==>
               !s.verifications[other].stage.Claiming?
    ensures !Overlaps(s, id)
  {}

  /** The token was checked twice before it expired; the second instance claims after it expired. */
  lemma LateClaimIsTrustedToo(setting: Setting) returns (s: State)
    requires setting.lateClaims
    ensures Reachable(setting, Initial(0.0), s) && TrustedTogether(s, 0, 2)
    ensures Expired(s.verifications[2].token, s.journal.clock)
  {
    var start := Initial(0.0);
    hide JM.Inv, Reachable, ReplayKey, Overlaps;
    var presented := AllPresented(setting, start);
    NobodyClaims(presented, 0);
    assert OnceLog(presented) == [];
    var once := IsTrusted(setting, start, presented, 0, 0, 10);
    var later := TimePasses(setting, start, once, 1000.0);
    NobodyClaims(later, 2);
    s := IsTrusted(setting, start, later, 2, 1, 20);
  }

  // --- Overlapping claims -----------------------------------------------------------------

  /** Two verifications of one instance have claimed the same key, and each thinks that it owns it. */
  predicate BothOwn(s: State) {
    && s.verifications ==
       map[0 := OnceAt(0, Owning(10, Uuid(10, 0))), 1 := OnceAt(0, Owning(20, Uuid(20, 0))), 2 := OnceAt(1, Checked)]
    && s.owners == map[OnceSlot(0) := LocalOwner(Uuid(10, 0), 1000.0)]
    && s.journal.clock == 100.0 && s.journal.calls.Keys == {10, 20} && TwoClaims(OnceLog(s))
  }

  predicate TwoClaims(log: Log) {
    && |log| == 2 && IsClaimOf(log[0].record, Some(Uuid(10, 0))) && IsClaimOf(log[1].record, Some(Uuid(20, 0)))
    && log[1].record.expiresAt == 200.0
  }

  predicate FirstLinked(s: State) {
    && s.verifications == map[0 := OnceAt(0, Claiming(10)), 1 := OnceAt(0, Checked), 2 := OnceAt(1, Checked)]
    && s.owners == map[] && s.journal.clock == 100.0
    && s.journal.calls.Keys == {10} && s.journal.calls[10].pc == JM.Done(JM.Acquired(Uuid(10, 0)))
    && |OnceLog(s)| == 1 && IsClaimOf(OnceLog(s)[0].record, Some(Uuid(10, 0)))
       && OnceLog(s)[0].record.expiresAt == 100.0
  }

  /** The first link takes effect, but the instance does not hear of it before the lease is over. */
  lemma FirstLinks(setting: Setting, start: State) returns (s: State)
    requires setting.overlaps && start == Initial(0.0)
    ensures Reachable(setting, start, s) && JM.Inv(s.journal) && FirstLinked(s)
  {
    hide JM.Inv, Reachable, ReplayKey, Overlaps;
    var presented := AllPresented(setting, start);
    assert OnceLog(presented) == [];
    var linked := ClaimLinks(setting, start, presented, 0, 0, 10);
    s := TimePasses(setting, start, linked, 100.0);
    assert OnceLog(s) == OnceLog(linked);
  }

  /** The second takes over, and the first registers last. */
  lemma BothClaim(setting: Setting, start: State) returns (s: State)
    requires setting.overlaps && start == Initial(0.0)
    ensures Reachable(setting, start, s) && JM.Inv(s.journal) && BothOwn(s)
  {
    hide JM.Inv, Reachable, ReplayKey, Overlaps;
    var first := FirstLinks(setting, start);
    var linked := ClaimLinks(setting, start, first, 1, 0, 20);
    assert linked.journal.calls[10] == first.journal.calls[10];
    var one := Learns(setting, start, linked, 1, 0, 20);
    s := Learns(setting, start, one, 0, 0, 10);
    assert OnceLog(s) == OnceLog(linked);
  }

  lemma OvertakenVerdict(j: JM.State, call: nat, owner: Token)
    requires call in j.calls && j.calls[call].op == JM.Close(owner, 1000.0, Completed)
    requires !JM.HoldsHead(HeadOf(JM.LogOf(j, j.calls[call].key)), owner)
    ensures Verdict(j, call) == JM.Done(JM.OwnershipLost)
  {}

  lemma ClosingBegins(setting: Setting, start: State, s: State) returns (s': State)
    requires Reachable(setting, start, s) && JM.Inv(s.journal) && BothOwn(s)
    ensures Reachable(setting, start, s') && JM.Inv(s'.journal)
    ensures Advanced(s, s', 0, 0, Completing(10, Uuid(10, 0), Uuid(10, 0), 11), s.owners, 11, OnceLog(s))
    ensures s'.journal.calls[11] ==
              JM.Call(ReplayKey(ONCE), JM.Close(Uuid(10, 0), 1000.0, Completed), LEASE, 100.0, 0, 0, JM.ReadRoot)
  {
    OnceVerification(0, Owning(10, Uuid(10, 0)));
    hide JM.Inv, Reachable, ReplayKey, TokenTtl, Ttl, SlotOf, TwoClaims;
    s' := Begins(setting, start, s, 11, JM.Close(Uuid(10, 0), 1000.0, Completed), Complete(0, 11, LEASE));
  }

  lemma LossSettles(setting: Setting, start: State, s: State) returns (s': State)
    requires Reachable(setting, start, s) && Stands(s, 0, 0, Completing(10, Uuid(10, 0), Uuid(10, 0), 11))
    requires 11 in s.journal.calls && 12 !in s.journal.calls && s.journal.calls[11].pc == JM.Done(JM.OwnershipLost)
    ensures Reachable(setting, start, s')
    ensures s' == s.(verifications := s.verifications[0 := OnceAt(0, Refused)], owners := s.owners - {OnceSlot(0)})
  {
    OnceVerification(0, Completing(10, Uuid(10, 0), Uuid(10, 0), 11));
    hide Reachable, ReplayKey, Ttl, SlotOf, ReleaseStep;
    s' := Go(setting, start, s, Settle(0, 12, LEASE));
  }

  /** The first finds its claim overtaken; closing it takes the second one's registration along. */
  lemma FirstLoses(setting: Setting, start: State, s: State) returns (s': State)
    requires Reachable(setting, start, s) && JM.Inv(s.journal) && BothOwn(s)
    ensures Reachable(setting, start, s') && JM.Inv(s'.journal)
    ensures Advanced(s, s', 0, 0, Refused, map[], 11, OnceLog(s))
  {
    hide JM.Inv, Reachable, ReplayKey, Verdict, JM.AfterHead;
    var begun := ClosingBegins(setting, start, s);
    OvertakenVerdict(begun.journal, 11, Uuid(10, 0));
    var decided := DecidesAlone(setting, start, begun, 11);
    s' := LossSettles(setting, start, decided);
  }

  /** The second has nothing to close any more: it returns silently and is trusted. */
  lemma SecondIsTrusted(setting: Setting, start: State, s: State) returns (s': State)
    requires Reachable(setting, start, s) && Stands(s, 1, 0, Owning(20, Uuid(20, 0))) && s.owners == map[]
    requires 21 !in s.journal.calls
    ensures Reachable(setting, start, s')
    ensures s' == s.(verifications := s.verifications[1 := OnceAt(0, Trusted(20, Uuid(20, 0), None))])
  {
    hide Reachable;
    s' := Go(setting, start, s, Complete(1, 21, LEASE));
  }

  /** With overlapping claims a token is trusted twice while it lives, once without any completion. */
  lemma OverlapIsTrustedTwice(setting: Setting) returns (s: State)
    requires setting.overlaps
    ensures Reachable(setting, Initial(0.0), s) && TrustedTogether(s, 1, 2)
    ensures !Expired(s.verifications[1].token, s.journal.clock)
    ensures forall i :: !CompletedAt(s, s.verifications[1], i)
  {
    var start := Initial(0.0);
    hide JM.Inv, Reachable, ReplayKey, Overlaps;
    var both := BothClaim(setting, start);
    var lost := FirstLoses(setting, start, both);
    var silent := SecondIsTrusted(setting, start, lost);
    var later := TimePasses(setting, start, silent, 200.0);
    assert OnceLog(later) == OnceLog(both);
    s := IsTrusted(setting, start, later, 2, 1, 30);
    var log := OnceLog(s);
    assert forall i :: 0 <= i < 2 ==> log[i] == OnceLog(later)[i];
    assert HeadBefore(log, 3) == Some(log[2].record) && HeadOf(log) == Some(log[3].record);
  }

  // --- Exactly when -------------------------------------------------------------------------

  ghost predicate TrustsOncePerWindow(setting: Setting) {
    forall now, s, a, b ::
      Reachable(setting, Initial(now), s) && TrustedApart(s, a, b) ==>
        exists i, j :: WindowsApart(s, s.verifications[a], s.verifications[b], i, j)
  }

  predicate TrustedApart(s: State, a: nat, b: nat) {
    && a in s.verifications && b in s.verifications && a != b
    && s.verifications[a].stage.Trusted? && s.verifications[b].stage.Trusted?
    && ReplayKey(s.verifications[a].token) == ReplayKey(s.verifications[b].token)
  }

  ghost predicate TrustsOnceBeforeExpiry(setting: Setting) {
    forall now, s, a, b ::
      Reachable(setting, Initial(now), s) && TrustedTogether(s, a, b) && a != b ==>
        Expired(s.verifications[a].token, s.journal.clock)
  }

  ghost predicate TrustsEachTokenOnce(setting: Setting) {
    forall now, s, a, b :: Reachable(setting, Initial(now), s) && TrustedTogether(s, a, b) ==> a == b
  }

  /**
    Trust is backed by completions a window apart, in every run, exactly if no claims of a key
    overlap in one instance.
    */
  lemma TrustsOncePerWindowIff(setting: Setting)
    ensures TrustsOncePerWindow(setting) <==> !setting.overlaps
  {
    hide Reachable, CompletedAt;
    if setting.overlaps {
      var s := OverlapIsTrustedTwice(setting);
      assert TrustedApart(s, 1, 2);
      forall i, j
        ensures !WindowsApart(s, s.verifications[1], s.verifications[2], i, j)
      {
        assert !CompletedAt(s, s.verifications[1], i);
      }
    } else {
      forall now, s, a, b | Reachable(setting, Initial(now), s) && TrustedApart(s, a, b)
        ensures exists i, j :: WindowsApart(s, s.verifications[a], s.verifications[b], i, j)
      {
        var i, j := TrustedOncePerWindow(setting, now, s, a, b);
      }
    }
  }

  /** While a token lives it is trusted at most once, in every run, exactly under the same condition. */
  lemma TrustsOnceBeforeExpiryIff(setting: Setting)
    ensures TrustsOnceBeforeExpiry(setting) <==> !setting.overlaps
  {
    hide Reachable;
    if setting.overlaps {
      var s := OverlapIsTrustedTwice(setting);
    } else {
      forall now, s, a, b | Reachable(setting, Initial(now), s) && TrustedTogether(s, a, b) && a != b
        ensures Expired(s.verifications[a].token, s.journal.clock)
      {
        TrustedOnceBeforeExpiry(setting, now, s, a, b);
      }
    }
  }

  /** It is trusted at most once for ever exactly if, besides, nobody goes on with a claim won after its expiry. */
  lemma TrustsEachTokenOnceIff(setting: Setting)
    ensures TrustsEachTokenOnce(setting) <==> !setting.overlaps && !setting.lateClaims
  {
    hide Reachable;
    if setting.overlaps {
      var s := OverlapIsTrustedTwice(setting);
    } else if setting.lateClaims {
      var s := LateClaimIsTrustedToo(setting);
    } else {
      forall now, s, a, b | Reachable(setting, Initial(now), s) && TrustedTogether(s, a, b)
        ensures a == b
      {
        PromptVerifiersTrustOnce(setting, now, s, a, b);
      }
    }
  }
}
