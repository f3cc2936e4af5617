/** What one call comes to when nobody else touches its key and no access fails. */
module JournalProgress {
  import opened Wrappers
  import opened Journal
  import opened JournalMachine

  function WithPc(s: State, call: nat, pc: Pc): State
    requires call in s.calls
  {
    s.(calls := s.calls[call := s.calls[call].(pc := pc)])
  }

  function LastIndex(log: Log): nat {
    if log == [] then 0 else |log| - 1
  }

  // --- Reading ------------------------------------------------------------------------

  lemma ReadsNext(s: State, call: nat, d: nat)
    requires Inv(s) && call in s.calls
    requires var log := LogOf(s, s.calls[call].key);
             d < |log| < MAX_CLAIM_CHAIN_DEPTH && s.calls[call].pc == ReadNext(log[d].record, d)
    ensures var log := LogOf(s, s.calls[call].key);
            AfterRead(s, s.calls[call]) == if d + 1 < |log| then ReadNext(log[d + 1].record, d + 1)
              else Decide(HeadOf(log), d)
  {
    var key := s.calls[call].key;
    var log := LogOf(s, key);
    assert KeyInv(s, key);
    SuccessorFreeIffHead(s.files, key, log, Some(log[d].record), d);
    if d + 1 < |log| {
      assert MayFollow(HeadBefore(log, d + 1), log[d + 1].record, log[d + 1].at);
    }
  }

  lemma RootedLog(log: Log, key: Key)
    requires LogInv(log, key)
    ensures Rooted(log, key)
  {}

  lemma ReadsRoot(s: State, call: nat)
    requires Inv(s) && call in s.calls && s.calls[call].pc.ReadRoot?
    ensures var log := LogOf(s, s.calls[call].key);
            AfterRead(s, s.calls[call]) == if log == [] then Decide(None, 0) else ReadNext(log[0].record, 0)
  {
    hide LogInv, TokensDrawn, CallInv;
    assert KeyInv(s, s.calls[call].key);
    assert Rooted(LogOf(s, s.calls[call].key), s.calls[call].key) by {
      RootedLog(LogOf(s, s.calls[call].key), s.calls[call].key);
    }
  }

  /** So many steps of one call, none of them disturbed. */
  function Resumed(s: State, call: nat, n: nat): State {
    if n == 0 then s else Step(Resumed(s, call, n - 1), Resume(call, Normal))
  }

  lemma ResumedOnce(s: State, call: nat, n: nat)
    ensures Resumed(s, call, n + 1) == Step(Resumed(s, call, n), Resume(call, Normal))
  {
    hide Step;
  }

  /** Only the last program point counts, and no chain depends on it. */
  lemma PcTwice(s: State, call: nat, a: Pc, b: Pc)
    requires call in s.calls
    ensures WithPc(WithPc(s, call, a), call, b) == WithPc(s, call, b)
    ensures Ran(WithPc(s, call, a), call, b) == Ran(s, call, b)
    ensures forall key: Key :: LogOf(WithPc(s, call, a), key) == LogOf(s, key)
    ensures call in WithPc(s, call, a).calls && WithPc(s, call, a).calls[call] == s.calls[call].(pc := a)
  {}

  function Ran(s: State, call: nat, pc: Pc): State
    requires call in s.calls
  {
    s.(calls := s.calls[call := s.calls[call].(pc := pc, drawn := s.calls[call].drawn + 2)])
  }

  lemma {:induction false} ResumedKeepsInv(s: State, call: nat, n: nat)
    requires Inv(s)
    ensures Inv(Resumed(s, call, n))
  {
    if n == 0 {
    } else {
      hide Inv, Step;
      ResumedKeepsInv(s, call, n - 1);
      StepKeepsInv(Resumed(s, call, n - 1), Resume(call, Normal));
    }
  }

  /** Where an undisturbed call is after so many reads of a chain. */
  function Reading(log: Log, n: nat): Pc
    requires n <= |log| + 1
  {
    if n == 0 then ReadRoot
    else if n <= |log| then ReadNext(log[n - 1].record, n - 1)
    else Decide(HeadOf(log), LastIndex(log))
  }

  lemma ReadStep(s: State, call: nat)
    requires call in s.calls && (s.calls[call].pc.ReadRoot? || s.calls[call].pc.ReadNext?)
    ensures Step(s, Resume(call, Normal)) == WithPc(s, call, AfterRead(s, s.calls[call]))
  {}

  /** One more read of an undisturbed call. */
  lemma ReadsOneMore(s: State, call: nat, log: Log, n: nat)
    requires Inv(s) && call in s.calls && log == LogOf(s, s.calls[call].key)
    requires |log| < MAX_CLAIM_CHAIN_DEPTH && n <= |log| && s.calls[call].pc == Reading(log, n)
    ensures Step(s, Resume(call, Normal)) == WithPc(s, call, Reading(log, n + 1))
  {
    ReadStep(s, call);
    if n == 0 {
      ReadsRoot(s, call);
    } else {
      ReadsNext(s, call, n - 1);
    }
    hide Inv, AfterRead, Step;
  }

  lemma ReadsNothing(s: State, call: nat)
    requires call in s.calls && s.calls[call].pc == ReadRoot
    ensures Resumed(s, call, 0) == WithPc(s, call, Reading(LogOf(s, s.calls[call].key), 0))
  {
    assert s.calls[call := s.calls[call]] == s.calls;
  }

  lemma {:induction false} ReadsAlone(s: State, call: nat, n: nat)
    requires Inv(s) && call in s.calls && s.calls[call].pc == ReadRoot
    requires |LogOf(s, s.calls[call].key)| < MAX_CLAIM_CHAIN_DEPTH && n <= |LogOf(s, s.calls[call].key)| + 1
    ensures Resumed(s, call, n) == WithPc(s, call, Reading(LogOf(s, s.calls[call].key), n))
  {
    hide Inv, Step, Reading, Resumed, WithPc, LogOf, MAX_CLAIM_CHAIN_DEPTH;
    if n == 0 {
      ReadsNothing(s, call);
    } else {
      ReadsAlone(s, call, n - 1);
      ResumedKeepsInv(s, call, n - 1);
      ResumedOnce(s, call, n - 1);
      var log := LogOf(s, s.calls[call].key);
      PcTwice(s, call, Reading(log, n - 1), Reading(log, n));
      ReadsOneMore(Resumed(s, call, n - 1), call, log, n - 1);
    }
  }

  // --- Deciding and linking ---------------------------------------------------------------

  lemma HeadHasNoSuccessor(s: State, key: Key)
    requires Inv(s) && |LogOf(s, key)| < MAX_CLAIM_CHAIN_DEPTH
    ensures PathAfter(key, HeadOf(LogOf(s, key))) !in s.files
  {
    assert KeyInv(s, key);
    var log := LogOf(s, key);
    SuccessorFreeIffHead(s.files, key, log, HeadOf(log), LastIndex(log));
  }

  /** What an undisturbed call decides on once it has found the head. */
  function Verdict(s: State, call: nat): Pc
    requires call in s.calls
  {
    var c := s.calls[call];
    var log := LogOf(s, c.key);
    AfterHead(call, c, HeadOf(log), LastIndex(log), s.clock)
  }

  lemma DecisionIgnoresPc(id: nat, call: Call, pc: Pc, head: Option<Record>, depth: nat, now: real)
    ensures AfterHead(id, call.(pc := pc), head, depth, now) == AfterHead(id, call, head, depth, now)
  {}

  lemma SameHead(s: State, call: nat)
    requires call in s.calls && Verdict(s, call).Link?
    ensures Verdict(s, call).head == HeadOf(LogOf(s, s.calls[call].key))
    ensures Verdict(s, call).record.key == s.calls[call].key
  {}

  lemma DecideStep(s: State, call: nat)
    requires call in s.calls && s.calls[call].pc.Decide?
    ensures var c := s.calls[call];
            Step(s, Resume(call, Normal)) == Ran(s, call, AfterHead(call, c, c.pc.head, c.pc.depth, s.clock))
  {
    hide AfterHead;
  }

  lemma DecidesAlone(s: State, call: nat)
    requires Inv(s) && call in s.calls && s.calls[call].pc == ReadRoot
    requires |LogOf(s, s.calls[call].key)| < MAX_CLAIM_CHAIN_DEPTH
    ensures Resumed(s, call, |LogOf(s, s.calls[call].key)| + 2) == Ran(s, call, Verdict(s, call))
  {
    var c := s.calls[call];
    var log := LogOf(s, c.key);
    var pc := Decide(HeadOf(log), LastIndex(log));
    ReadsAlone(s, call, |log| + 1);
    ResumedOnce(s, call, |log| + 1);
    hide Inv, AfterHead, Step, HeadOf, Resumed;
    DecideStep(WithPc(s, call, pc), call);
    PcTwice(s, call, pc, Verdict(s, call));
    DecisionIgnoresPc(call, c, pc, HeadOf(log), LastIndex(log), s.clock);
  }

  /** The end of an undisturbed call: its record is linked, or its outcome is known without one. */
  function Ended(s: State, call: nat): State
    requires call in s.calls
  {
    var c, pc := s.calls[call], Verdict(s, call);
    var decided := Ran(s, call, pc);
    if !pc.Link? then decided
    else WithPc(Publish(decided, PathAfter(c.key, pc.head), pc.record), call, Done(OnLinked(decided.calls[call])))
  }

  lemma VerdictEnds(s: State, call: nat)
    requires call in s.calls && !Verdict(s, call).Link?
    ensures Verdict(s, call).Done?
  {}

  lemma LinkStepAlone(s: State, call: nat)
    requires call in s.calls && s.calls[call].pc.Link?
    requires PathAfter(s.calls[call].key, s.calls[call].pc.head) !in s.files
    ensures var c := s.calls[call];
            Step(s, Resume(call, Normal)) ==
            WithPc(Publish(s, PathAfter(c.key, c.pc.head), c.pc.record), call, Done(OnLinked(c)))
  {
    hide OnLinked;
  }

  lemma DoneStays(s: State, call: nat)
    requires call in s.calls && s.calls[call].pc.Done?
    ensures Step(s, Resume(call, Normal)) == s
  {}

  lemma LinksAlone(s: State, call: nat)
    requires Inv(s) && call in s.calls && s.calls[call].pc == ReadRoot
    requires |LogOf(s, s.calls[call].key)| < MAX_CLAIM_CHAIN_DEPTH
    ensures Resumed(s, call, |LogOf(s, s.calls[call].key)| + 3) == Ended(s, call)
  {
    hide Inv, Resumed, Verdict, OnLinked, Publish, Step;
    DecidesAlone(s, call);
    ResumedOnce(s, call, |LogOf(s, s.calls[call].key)| + 2);
    var decided := Ran(s, call, Verdict(s, call));
    if Verdict(s, call).Link? {
      HeadHasNoSuccessor(s, s.calls[call].key);
      SameHead(s, call);
      LinkStepAlone(decided, call);
    } else {
      VerdictEnds(s, call);
      DoneStays(decided, call);
    }
  }

  lemma EndedIsDone(s: State, call: nat)
    requires call in s.calls
    ensures call in Ended(s, call).calls && Ended(s, call).calls[call].pc.Done?
  {
    if !Verdict(s, call).Link? {
      VerdictEnds(s, call);
    }
    hide Verdict, Publish;
  }

  /** An undisturbed call ends within three more steps than the chain has records, and stays where it ended. */
  lemma {:induction false} EndsAlone(s: State, call: nat, n: nat)
    requires Inv(s) && call in s.calls && s.calls[call].pc == ReadRoot
    requires |LogOf(s, s.calls[call].key)| < MAX_CLAIM_CHAIN_DEPTH && n >= |LogOf(s, s.calls[call].key)| + 3
    ensures Resumed(s, call, n) == Ended(s, call)
    decreases n
  {
    if n == |LogOf(s, s.calls[call].key)| + 3 {
      LinksAlone(s, call);
    } else {
      EndsAlone(s, call, n - 1);
      ResumedOnce(s, call, n - 1);
      EndedIsDone(s, call);
      hide Inv, Ended, Resumed, Step;
      DoneStays(Ended(s, call), call);
    }
  }

  /** The lock lets the operation through. */
  predicate Admits(lock: Lock, op: Op, now: real) {
    match op
    case Acquire(_) => Open(lock, now)
    case Renew(owner) => lock.Held? && lock.owner == owner
    case Close(owner, _, _) => lock.Held? && lock.owner == owner
  }

  /** What it leaves the lock in, and reports. `drawn` is the owner that an acquisition draws. */
  predicate Achieves(op: Op, lease: real, now: real, drawn: Token, lock: Lock, outcome: Outcome) {
    match op
    case Acquire(_) => lock == Held(drawn, now + lease) && outcome == Acquired(drawn)
    case Renew(owner) => lock == Held(owner, now + lease) && outcome == Stopped
    case Close(owner, ttl, kind) =>
      outcome == Returned && if kind == Completed then lock == Finished(owner, now + ttl) else lock == Free
  }

  /** What it reports of a lock that does not let it through. */
  function Refused(op: Op, lock: Lock): Outcome {
    match op
    case Acquire(_) => if lock.Finished? then AlreadyCompleted else InProgress
    case Renew(_) => Stopped
    case Close(_, _, kind) => if kind == Completed then OwnershipLost else Returned
  }

  lemma VerdictByTheLock(s: State, call: nat)
    requires call in s.calls && (s.calls[call].op.Close? ==> s.calls[call].op.kind != Kind.Claim)
    ensures var c, pc := s.calls[call], Verdict(s, call);
            var lock := LockOf(HeadOf(LogOf(s, c.key)));
            if Admits(lock, c.op, s.clock) then
              && pc.Link? && pc.record.Node? && pc.record.key == c.key
              && Achieves(c.op, c.lease, s.clock, Uuid(call, c.drawn), LockOf(Some(pc.record)), OnLinked(c.(pc := pc)))
            else pc == Done(Refused(c.op, lock))
  {}

  /** Nothing but the call, and the chain of its key, is different. */
  ghost predicate Alone(s: State, s': State, call: nat)
    requires call in s.calls
  {
    && s'.clock == s.clock
    && s'.calls.Keys == s.calls.Keys
    && (forall other :: other in s.calls && other != call ==> s'.calls[other] == s.calls[other])
    && (forall key: Key :: key != s.calls[call].key ==> LogOf(s', key) == LogOf(s, key))
  }

  lemma EndedByTheLock(s: State, call: nat)
    requires call in s.calls && (s.calls[call].op.Close? ==> s.calls[call].op.kind != Kind.Claim)
    ensures var c, s' := s.calls[call], Ended(s, call);
            var log, log' := LogOf(s, c.key), LogOf(s', c.key);
            var lock := LockOf(HeadOf(log));
            && Alone(s, s', call)
            && s'.calls[call] == c.(pc := s'.calls[call].pc, drawn := c.drawn + 2) && s'.calls[call].pc.Done?
            && if Admits(lock, c.op, s.clock) then
                 && |log'| == |log| + 1 && log <= log' && log'[|log|].at == s.clock && log'[|log|].record.Node?
                 && Achieves(c.op, c.lease, s.clock, Uuid(call, c.drawn), LockOf(HeadOf(log')),
                             s'.calls[call].pc.outcome)
               else log' == log && s'.calls[call].pc.outcome == Refused(c.op, lock)
  {
    VerdictByTheLock(s, call);
    var c, pc := s.calls[call], Verdict(s, call);
    assert pc.Link? ==> OnLinked(c.(pc := pc)) == OnLinked(c.(pc := pc, drawn := c.drawn + 2));
    hide Verdict, OnLinked, Admits, Achieves, Refused;
  }

  /**
    A call that nobody disturbs reports and leaves behind what the lock it finds implies: an open
    lock is acquired for the length of the lease, a held one is renewed, completed or freed by its
    holder, and any other lock stays as it is and is named in the answer.
    */
  lemma UndisturbedCallFollowsTheLock(s: State, call: nat, n: nat)
    requires Inv(s) && call in s.calls && s.calls[call].pc == ReadRoot
    requires s.calls[call].op.Close? ==> s.calls[call].op.kind != Kind.Claim
    requires |LogOf(s, s.calls[call].key)| < MAX_CLAIM_CHAIN_DEPTH && n >= |LogOf(s, s.calls[call].key)| + 3
    ensures var c, s' := s.calls[call], Resumed(s, call, n);
            var log, log' := LogOf(s, c.key), LogOf(s', c.key);
            var lock := LockOf(HeadOf(log));
            && Alone(s, s', call)
            && s'.calls[call] == c.(pc := s'.calls[call].pc, drawn := c.drawn + 2) && s'.calls[call].pc.Done?
            && if Admits(lock, c.op, s.clock) then
                 && |log'| == |log| + 1 && log <= log' && log'[|log|].at == s.clock && log'[|log|].record.Node?
                 && Achieves(c.op, c.lease, s.clock, Uuid(call, c.drawn), LockOf(HeadOf(log')),
                             s'.calls[call].pc.outcome)
               else log' == log && s'.calls[call].pc.outcome == Refused(c.op, lock)
  {
    EndsAlone(s, call, n);
    EndedByTheLock(s, call);
    hide Inv, Ended, Resumed;
  }
}
