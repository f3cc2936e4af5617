/**
  What every run of the journal guarantees, for any number of store instances, keys and
  workers, any interleaving of their file-system accesses, and any failing access.
 */
module JournalTheorems {
  import opened Wrappers
  import opened Journal
  import opened JournalMachine

  function Reached(start: real, actions: seq<Action>): State {
    Run(Initial(start), actions)
  }

  lemma ReachedInv(start: real, actions: seq<Action>)
    ensures Inv(Reached(start, actions))
  {
    InitialInv(start);
    RunKeepsInv(Initial(start), actions);
  }

  lemma ReachedLog(start: real, actions: seq<Action>, key: Key)
    ensures var s := Reached(start, actions);
            LogInv(LogOf(s, key), key) && forall i :: 0 <= i < |LogOf(s, key)| ==> LogOf(s, key)[i].at <= s.clock
  {
    ReachedInv(start, actions);
    assert KeyInv(Reached(start, actions), key);
  }

  // --- The chain ------------------------------------------------------------------

  /** A version-1 record can only be the root; the rest is blocks `claim+ [completed | available]`, one per owner. */
  ghost predicate WellShaped(log: Log) {
    && (forall i :: 0 <= i < |log| && log[i].record.Legacy? ==> i == 0)
    && (forall i :: 0 <= i < |log| && log[i].record.Node? && log[i].record.kind != Claim ==>
          i > 0 && IsClaimOf(log[i - 1].record, Owner(log[i].record)))
    && OneBlockPerOwner(log)
  }

  /** The files of every key form one chain of that shape, however the calls interleave. */
  lemma EveryChainIsWellShaped(start: real, actions: seq<Action>, key: Key)
    ensures var s := Reached(start, actions);
            Layout(s.files, key, LogOf(s, key)) && WellShaped(LogOf(s, key))
  {
    ReachedInv(start, actions);
    var s := Reached(start, actions);
    var log := LogOf(s, key);
    assert KeyInv(s, key);
    forall i | 0 <= i < |log| && log[i].record.Node? && log[i].record.kind != Claim
      ensures i > 0 && IsClaimOf(log[i - 1].record, Owner(log[i].record))
    {
      ClosingNodeFollowsItsClaim(log, key, i);
    }
  }

  ghost predicate Extends(s: State, s': State) {
    && (forall path :: path in s.files ==> path in s'.files && s'.files[path] == s.files[path])
    && (forall key: Key :: LogOf(s, key) <= LogOf(s', key))
  }

  lemma StepExtends(s: State, action: Action)
    ensures Extends(s, Step(s, action))
  {
    var s' := Step(s, action);
    forall key: Key
      ensures LogOf(s, key) <= LogOf(s', key)
    {}
  }

  /** Nodes are immutable: a later state of a run holds every file and log entry unchanged. */
  lemma {:induction false} RecordsNeverChange(s: State, actions: seq<Action>)
    ensures Extends(s, Run(s, actions))
    decreases |actions|
  {
    if actions == [] {
    } else {
      var earlier := Run(s, actions[..|actions| - 1]);
      RecordsNeverChange(s, actions[..|actions| - 1]);
      StepExtends(earlier, actions[|actions| - 1]);
      forall key: Key
        ensures LogOf(s, key) <= LogOf(Run(s, actions), key)
      {
        assert LogOf(s, key) <= LogOf(earlier, key) <= LogOf(Run(s, actions), key);
      }
    }
  }

  // --- Linearizability ------------------------------------------------------------

  /** The several reads of readHead end with the node that is the head at the instant of the last one. */
  lemma ReadHeadReturnsTheHead(start: real, actions: seq<Action>, id: nat)
    requires var s := Reached(start, actions);
             && id in s.calls && !s.calls[id].pc.Decide?
             && Step(s, Resume(id, Normal)).calls[id].pc.Decide?
    ensures var s := Reached(start, actions);
            Step(s, Resume(id, Normal)).calls[id].pc.head == HeadOf(LogOf(s, s.calls[id].key))
  {
    ReachedInv(start, actions);
    hide Chained, OneBlockPerOwner, InTimeOrder, MayFollow, TokensDrawn, Run;
    var s := Reached(start, actions);
    var call := s.calls[id];
    assert KeyInv(s, call.key);
    if call.pc.ReadNext? {
      SuccessorFreeIffHead(s.files, call.key, LogOf(s, call.key), Some(call.pc.current), call.pc.depth);
    }
  }

  /** readHead never meets a successor it would reject as invalid; it can only find the chain too long. */
  lemma NoInvalidSuccessor(start: real, actions: seq<Action>, id: nat)
    requires var s := Reached(start, actions);
             && id in s.calls && (s.calls[id].pc.ReadRoot? || s.calls[id].pc.ReadNext?)
             && AfterRead(s, s.calls[id]) == Done(Failed)
    ensures var s := Reached(start, actions);
            |LogOf(s, s.calls[id].key)| == MAX_CLAIM_CHAIN_DEPTH + 1
  {
    ReachedInv(start, actions);
    var s := Reached(start, actions);
    var call := s.calls[id];
    var log := LogOf(s, call.key);
    assert KeyInv(s, call.key);
    if call.pc.ReadNext? {
      SuccessorFreeIffHead(s.files, call.key, log, Some(call.pc.current), call.pc.depth);
      assert s.files[Next(call.key, log[call.pc.depth].record.token)] == log[call.pc.depth + 1].record;
      assert MayFollow(HeadBefore(log, call.pc.depth + 1), log[call.pc.depth + 1].record, log[call.pc.depth + 1].at);
    }
  }

  /** The node a successful link was prepared for is still the head, and its record is what the call is for. */
  lemma LinkedMeansStillHead(start: real, actions: seq<Action>, id: nat, access: Access)
    requires var s := Reached(start, actions);
             && id in s.calls && s.calls[id].pc.Link? && access != Throws
             && PathAfter(s.calls[id].key, s.calls[id].pc.head) !in s.files
    ensures var s := Reached(start, actions);
            var call, s' := s.calls[id], Step(s, Resume(id, access));
            && call.pc.head == HeadOf(LogOf(s, call.key))
            && LogOf(s', call.key) == LogOf(s, call.key) + [Entry(call.pc.record, s.clock)]
            && Serves(id, call, call.pc.record)
  {
    ReachedInv(start, actions);
    var s := Reached(start, actions);
    var call := s.calls[id];
    assert KeyInv(s, call.key);
    SuccessorFreeIffHead(s.files, call.key, LogOf(s, call.key), call.pc.head, call.pc.depth);
  }

  predicate Links(s: State, id: nat, access: Access) {
    && id in s.calls && s.calls[id].pc.Link? && access != Throws
    && PathAfter(s.calls[id].key, s.calls[id].pc.head) !in s.files
  }

  lemma OnlyLinksAppend(s: State, action: Action, key: Key)
    requires Layout(s.files, key, LogOf(s, key))
    requires !(action.Resume? && Links(s, action.id, action.access))
    requires !(action.WriteLegacy? && action.key == key && LogOf(s, key) == [])
    ensures LogOf(Step(s, action), key) == LogOf(s, key)
  {}

  lemma ReachedLayout(start: real, actions: seq<Action>, key: Key)
    ensures Layout(Reached(start, actions).files, key, LogOf(Reached(start, actions), key))
  {
    hide LogInv, Layout, Reached, CallInv;
    ReachedInv(start, actions);
    assert KeyInv(Reached(start, actions), key);
  }

  lemma LegacyIsUnowned(s: State, action: Action)
    requires action.WriteLegacy? && LogOf(s, action.key) == []
    ensures var after := LogOf(Step(s, action), action.key);
            after == [] || LockOf(HeadOf(after)) == Unowned(action.expiresAt)
  {}

  /** The node of a successful link makes one move of its own key's lock and touches no other key. */
  lemma AppendIsAMove(start: real, actions: seq<Action>, id: nat, access: Access, key: Key)
    requires Links(Reached(start, actions), id, access)
    ensures var s := Reached(start, actions);
            var before, after := LogOf(s, key), LogOf(Step(s, Resume(id, access)), key);
            if s.calls[id].key != key then after == before
            else
              && |after| == |before| + 1
              && var call, record := s.calls[id], after[|before|].record;
                 && Serves(id, call, record)
                 && (if call.op.Acquire?
                     then Acquires(LockOf(HeadOf(before)), record.owner, LockOf(HeadOf(after)), s.clock)
                          && TokenUnused(before, record.owner)
                     else Continues(LockOf(HeadOf(before)), record.owner, LockOf(HeadOf(after))))
  {
    hide KeyInv, Reached, Acquires, Continues, Serves, TokenUnused, LockOf, MayFollow, HeadKnown;
    ReachedInv(start, actions);
    var s := Reached(start, actions);
    assert CallInv(LogOf(s, s.calls[id].key), s.clock, id, s.calls[id]);
    if s.calls[id].key == key {
      LinkedMeansStillHead(start, actions, id, access);
    }
  }

  /**
    Refinement: seen through `LockOf`, each step leaves the lock of a key alone, lets an older
    release take a free one, or makes one atomic move by the owner the step's own call acts for.
    */
  lemma EveryStepIsAMove(start: real, actions: seq<Action>, action: Action, key: Key)
    ensures var s := Reached(start, actions);
            var before, after := LogOf(s, key), LogOf(Step(s, action), key);
            || after == before
            || (action.WriteLegacy? && before == [] && LockOf(HeadOf(after)) == Unowned(action.expiresAt))
            || (&& action.Resume? && action.id in s.calls && s.calls[action.id].key == key && |after| == |before| + 1
                && var call, record := s.calls[action.id], after[|before|].record;
                   && Serves(action.id, call, record)
                   && (if call.op.Acquire?
                       then Acquires(LockOf(HeadOf(before)), record.owner, LockOf(HeadOf(after)), s.clock)
                            && TokenUnused(before, record.owner)
                       else Continues(LockOf(HeadOf(before)), record.owner, LockOf(HeadOf(after)))))
  {
    var s := Reached(start, actions);
    hide Inv, KeyInv, Reached, Step, Acquires, Continues, Serves, TokenUnused, LockOf, LogOf;
    if action.Resume? && Links(s, action.id, action.access) {
      AppendIsAMove(start, actions, action.id, action.access, key);
    } else if action.WriteLegacy? && action.key == key && LogOf(s, key) == [] {
      LegacyIsUnowned(s, action);
    } else {
      ReachedLayout(start, actions, key);
      OnlyLinksAppend(s, action, key);
    }
  }

  /**
    A call that has found a head goes on to link exactly if the lock admits it: a claim if the lock
    is open, a renewal, completion or release if its owner holds it. Otherwise it names the lock it found.
    */
  lemma DecidesByTheLock(s: State, id: nat)
    requires id in s.calls && s.calls[id].pc.Decide?
    ensures var call, pc := s.calls[id], Step(s, Resume(id, Normal)).calls[id].pc;
            var lock := LockOf(call.pc.head);
            match call.op
            case Acquire(_) =>
              && (pc.Link? <==> Open(lock, s.clock))
              && (!pc.Link? ==> pc == Done(if lock.Finished? then AlreadyCompleted else InProgress))
            case Renew(owner) =>
              && (pc.Link? <==> lock.Held? && lock.owner == owner)
              && (!pc.Link? ==> pc == Done(Stopped))
            case Close(owner, _, kind) =>
              && (pc.Link? <==> lock.Held? && lock.owner == owner)
              && (!pc.Link? ==> pc == Done(if kind == Completed then OwnershipLost else Returned))
  {}

  /** A call fails only because an access of its own did, or because the chain is too long for it. */
  lemma FailureHasACause(start: real, actions: seq<Action>, id: nat, access: Access)
    requires var s := Reached(start, actions);
             && id in s.calls && !s.calls[id].pc.Done?
             && Step(s, Resume(id, access)).calls[id].pc == Done(Failed)
    ensures var s := Reached(start, actions);
            access != Normal || |LogOf(s, s.calls[id].key)| == MAX_CLAIM_CHAIN_DEPTH + 1
  {
    hide Inv, Reached;
    var call := Reached(start, actions).calls[id];
    if access == Normal && (call.pc.Decide? || call.pc.Link?) {
      DecisionsDoNotFail(Reached(start, actions), id);
    } else if access == Normal {
      NoInvalidSuccessor(start, actions, id);
    }
  }

  lemma DecisionsDoNotFail(s: State, id: nat)
    requires id in s.calls && (s.calls[id].pc.Decide? || s.calls[id].pc.Link?)
    ensures Step(s, Resume(id, Normal)).calls[id].pc != Done(Failed)
  {}

  // --- Ownership and time ---------------------------------------------------------

  /** An owner that another owner has written behind never appends again. */
  lemma OvertakenWorkerIsFencedOff(start: real, actions: seq<Action>, action: Action, key: Key, i: nat, m: nat)
    requires var log := LogOf(Reached(start, actions), key);
             i < m < |log| && log[i].record.Node? && Owner(log[m].record) != Owner(log[i].record)
    ensures var before, after := LogOf(Reached(start, actions), key), LogOf(Reached(start, actions + [action]), key);
            before <= after && forall j :: m <= j < |after| ==> Owner(after[j].record) != Owner(before[i].record)
  {
    ReachedInv(start, actions + [action]);
    var before, after := LogOf(Reached(start, actions), key), LogOf(Reached(start, actions + [action]), key);
    assert (actions + [action])[..|actions|] == actions;
    StepExtends(Reached(start, actions), action);
    assert KeyInv(Reached(start, actions + [action]), key);
    forall j | m <= j < |after|
      ensures Owner(after[j].record) != Owner(before[i].record)
    {
      if j > m {
        OvertakenOwnerNeverReturns(after, key, i, m, j);
      }
    }
  }

  /**
    A new owner enters only after the previous one released, its newest lease ran out or its
    completion window ended, and no two completion windows of one key overlap.
    */
  lemma OwnershipAndWindowsAreDisjointInTime(start: real, actions: seq<Action>, key: Key, i: nat, j: nat)
    requires i < j < |LogOf(Reached(start, actions), key)|
    ensures var log := LogOf(Reached(start, actions), key);
            && (Owner(log[i + 1].record) != Owner(log[i].record) ==>
                  LockOf(Some(log[i].record)).Free? || log[i].record.expiresAt <= log[i + 1].at)
            && (log[i].record.Node? && log[i].record.kind == Completed ==> log[i].record.expiresAt <= log[j].at)
            && log[j].at <= Reached(start, actions).clock
  {
    ReachedLog(start, actions, key);
    hide LogInv, Reached, Inv, KeyInv;
    var log := LogOf(Reached(start, actions), key);
    if Owner(log[i + 1].record) != Owner(log[i].record) {
      OwnerChangesOnlyWhenOpen(log, key, i + 1);
    }
    if log[i].record.Node? && log[i].record.kind == Completed {
      CompletionWindowsDisjoint(log, key, i, j);
    }
  }

  /** No two calls ever acquire under the same owner token, and each acquisition is on disk. */
  lemma AcquisitionsAreDistinct(start: real, actions: seq<Action>, c: nat, d: nat, o: Token, p: Token)
    requires var calls := Reached(start, actions).calls;
             c in calls && d in calls && calls[c].pc == Done(Acquired(o)) && calls[d].pc == Done(Acquired(p))
    ensures c != d ==> o != p
    ensures HasClaim(LogOf(Reached(start, actions), Reached(start, actions).calls[c].key), o)
  {
    ReachedInv(start, actions);
  }

  // --- Retry loops ----------------------------------------------------------------

  /**
    Every retry loop ends: no chain outgrows the reader's limit by more than one node, a lost
    link means the chain outgrew the head just read, and so no call ever loses more links than
    the longest chain has nodes.
    */
  lemma RetriesAreBounded(start: real, actions: seq<Action>, id: nat)
    requires id in Reached(start, actions).calls
    ensures var s := Reached(start, actions);
            var call := s.calls[id];
            call.losses <= |LogOf(s, call.key)| <= MAX_CLAIM_CHAIN_DEPTH + 1
  {
    ReachedInv(start, actions);
    var s := Reached(start, actions);
    var call := s.calls[id];
    assert KeyInv(s, call.key);
  }
}
