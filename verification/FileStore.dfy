/**
  The durable store's methods, loops and all, while other workers use the same directory. Each
  result says what the chain was at the moment the method came back.
 */
module FileStore {
  import opened Wrappers
  import opened Journal
  import opened ClaimDisk
  import JM = JournalMachine
  import MemoryStore

  datatype HeadResult = Head(head: Option<Record>) | HeadFailed

  datatype ClaimResult = Acquired | InProgress | AlreadyCompleted | Invalid | Failed

  datatype CloseResult = Closed | OwnershipLost | InvalidKey | CloseFailed

  datatype LocalClaimOwner = LocalClaimOwner(ownerToken: Token, ttl: real)

  predicate TokenBelow(token: Token, me: nat, drawn: nat) {
    IsOf(me, token) ==> token.serial < drawn
  }

  /** Of this process's identifiers a chain holds only those already drawn. */
  predicate Below(log: Log, me: nat, drawn: nat) {
    forall i :: 0 <= i < |log| ==>
      TokenBelow(log[i].record.token, me, drawn) && (log[i].record.Node? ==> TokenBelow(log[i].record.owner, me, drawn))
  }

  ghost predicate AllBelow(logs: map<Key, Log>, me: nat, drawn: nat) {
    forall key: Key :: Below(LogIn(logs, key), me, drawn)
  }

  lemma GrowthStaysBelow(me: nat, before: map<Key, Log>, after: map<Key, Log>, drawn: nat)
    requires AllBelow(before, me, drawn) && OthersGrew(me, before, after)
    ensures AllBelow(after, me, drawn)
  {}

  lemma NewIsUnused(log: Log, me: nat, drawn: nat, serial: nat)
    requires Below(log, me, drawn) && drawn <= serial
    ensures TokenUnused(log, Uuid(me, serial))
  {}

  /** The log's last record is a claim by `owner` that took an open lock. */
  predicate JustAcquired(log: Log, owner: Token, lease: real) {
    && log != [] && IsClaimOf(log[|log| - 1].record, Some(owner))
    && Acquires(LockOf(HeadBefore(log, |log| - 1)), owner, LockOf(HeadOf(log)), log[|log| - 1].at)
    && log[|log| - 1].record.expiresAt <= log[|log| - 1].at + lease
    && TokenUnused(log[..|log| - 1], owner)
  }

  /** The log's last record continues a claim of `owner`. */
  predicate JustContinued(log: Log, owner: Token, kind: Kind) {
    && log != [] && log[|log| - 1].record.Node? && log[|log| - 1].record.kind == kind
       && log[|log| - 1].record.owner == owner
    && JM.HoldsHead(HeadBefore(log, |log| - 1), owner)
  }

  // --- What one access tells --------------------------------------------------------------

  lemma RootRead(files: map<Path, Record>, logs: map<Key, Log>, clock: real, key: Key)
    requires KeyOk(files, logs, clock, key)
    ensures Root(key) in files <==> LogIn(logs, key) != []
    ensures Root(key) in files ==> files[Root(key)] == LogIn(logs, key)[0].record
  {}

  lemma SuccessorRead(me: nat, log: Log, files: map<Path, Record>, logs: map<Key, Log>, clock: real, key: Key,
                      depth: nat)
    requires KeyOk(files, logs, clock, key) && Extended(me, log, LogIn(logs, key))
    requires depth < |log| && depth < MAX_CLAIM_CHAIN_DEPTH
    ensures var path := Next(key, log[depth].record.token);
            if path in files then depth + 1 < |LogIn(logs, key)| && files[path] == LogIn(logs, key)[depth + 1].record
            else |LogIn(logs, key)| == depth + 1 && HeadOf(LogIn(logs, key)) == Some(log[depth].record)
  {
    assert LogIn(logs, key)[depth] == log[depth];
    JM.SuccessorFreeIffHead(files, key, LogIn(logs, key), Some(log[depth].record), depth);
  }

  lemma SuccessorIsValid(files: map<Path, Record>, logs: map<Key, Log>, clock: real, key: Key, depth: nat)
    requires KeyOk(files, logs, clock, key) && depth + 1 < |LogIn(logs, key)|
    ensures var log := LogIn(logs, key);
            log[depth + 1].record.Node? && log[depth + 1].record.predecessor == Some(log[depth].record.token)
  {
    hide JM.Layout;
    var log := LogIn(logs, key);
    assert MayFollow(HeadBefore(log, depth + 1), log[depth + 1].record, log[depth + 1].at);
  }

  lemma Settled(me: nat, before: map<Key, Log>, after: map<Key, Log>, drawn: nat, key: Key)
    requires AllBelow(before, me, drawn) && OthersGrew(me, before, after)
    ensures AllBelow(after, me, drawn) && |LogIn(before, key)| <= |LogIn(after, key)|
  {
    GrowthStaysBelow(me, before, after, drawn);
    assert Extended(me, LogIn(before, key), LogIn(after, key));
  }

  /** After an exclusive link, whatever came of it. */
  lemma Wrote(me: nat, before: map<Key, Log>, mid: map<Key, Log>, after: map<Key, Log>, record: Record, at: real,
              drawn: nat)
    requires AllBelow(before, me, drawn) && OthersGrew(me, before, mid)
    requires after == mid || after == Published(mid, record, at)
    requires record.Node? && TokenBelow(record.token, me, drawn + 2) && TokenBelow(record.owner, me, drawn + 2)
    ensures AllBelow(after, me, drawn + 2) && |LogIn(before, record.key)| <= |LogIn(after, record.key)|
  {}

  function ClaimNode(key: Key, head: Option<Record>, owner: Token, token: Token, expiresAt: real): Record {
    Node(key, Claim, token, if head.None? then None else Some(head.value.token), owner, expiresAt)
  }

  lemma ClaimShape(key: Key, head: Option<Record>, owner: Token, token: Token, expiresAt: real)
    ensures var record := ClaimNode(key, head, owner, token, expiresAt);
            record.key == key && IsClaimOf(record, Some(owner)) && record.Node? && record.token == token
              && record.owner == owner
            && record.expiresAt == expiresAt
  {}

  lemma BelowAt(logs: map<Key, Log>, me: nat, drawn: nat, key: Key)
    requires AllBelow(logs, me, drawn)
    ensures Below(LogIn(logs, key), me, drawn)
  {}

  lemma PublishedAt(logs: map<Key, Log>, record: Record, at: real)
    ensures LogIn(Published(logs, record, at), record.key) == LogIn(logs, record.key) + [Entry(record, at)]
  {}

  predicate CanClaim(head: Option<Record>, now: real) {
    head.None? || JM.Refusal(head.value, now).None?
  }

  lemma CanClaimIffOpen(head: Option<Record>, now: real)
    ensures CanClaim(head, now) <==> Open(LockOf(head), now)
  {}

  /** What a claim answers to a lock it finds, if nothing comes between. */
  function Answer(lock: Lock, now: real): ClaimResult {
    if Open(lock, now) then Acquired else if lock.Finished? then AlreadyCompleted else InProgress
  }

  lemma AnswersMean(head: Option<Record>, now: real, later: real)
    requires now <= later
    ensures CanClaim(head, now) ==> Answer(LockOf(head), later) == Acquired
    ensures !CanClaim(head, now) ==>
              Answer(LockOf(head), now) ==
                if head.value.Node? && head.value.kind == Completed then AlreadyCompleted else InProgress
  {
    if CanClaim(head, now) {
      CanClaimIffOpen(head, now);
    } else {
      RefusedMeans(head, now);
    }
  }

  lemma RefusedMeans(head: Option<Record>, now: real)
    requires !CanClaim(head, now)
    ensures head.Some?
    ensures if head.value.Node? && head.value.kind == Completed then LockOf(head).Finished? && LockOf(head).until > now
            else (LockOf(head).Held? || LockOf(head).Unowned?) && LockOf(head).until > now
  {}

  lemma ClaimIsLegal(log: Log, key: Key, me: nat, drawn: nat, now: real, expiresAt: real)
    requires |log| <= MAX_CLAIM_CHAIN_DEPTH && Below(log, me, drawn) && CanClaim(HeadOf(log), now)
    ensures Legal(log, ClaimNode(key, HeadOf(log), Uuid(me, drawn), Uuid(me, drawn + 1), expiresAt), now)
  {
    NewIsUnused(log, me, drawn, drawn);
    NewIsUnused(log, me, drawn, drawn + 1);
    CanClaimIffOpen(HeadOf(log), now);
  }

  lemma ClaimTook(log: Log, record: Record, now: real, at: real, owner: Token, lease: real)
    requires Legal(log, record, now) && now <= at && IsClaimOf(record, Some(owner)) && TokenUnused(log, owner)
    requires record.expiresAt == now + lease && Open(LockOf(HeadOf(log)), now)
    ensures JustAcquired(log + [Entry(record, at)], owner, lease) && HeadOf(log + [Entry(record, at)]) == Some(record)
  {
    var longer := log + [Entry(record, at)];
    assert longer[..|log|] == log;
    assert HeadBefore(longer, |log|) == HeadOf(log);
  }

  function NextNode(key: Key, kind: Kind, head: Option<Record>, owner: Token, token: Token, expiresAt: real): Record
    requires JM.HoldsHead(head, owner)
  {
    Node(key, kind, token, Some(head.value.token), owner, expiresAt)
  }

  lemma NextIsLegal(log: Log, key: Key, kind: Kind, owner: Token, me: nat, drawn: nat, now: real, expiresAt: real)
    requires |log| <= MAX_CLAIM_CHAIN_DEPTH && Below(log, me, drawn) && JM.HoldsHead(HeadOf(log), owner)
    ensures Legal(log, NextNode(key, kind, HeadOf(log), owner, Uuid(me, drawn), expiresAt), now)
  {
    NewIsUnused(log, me, drawn, drawn);
  }

  lemma NextTook(log: Log, key: Key, kind: Kind, owner: Token, token: Token, expiresAt: real, at: real)
    requires JM.HoldsHead(HeadOf(log), owner)
    ensures var longer := log + [Entry(NextNode(key, kind, HeadOf(log), owner, token, expiresAt), at)];
            JustContinued(longer, owner, kind) && HeadOf(longer).Some? && HeadOf(longer).value.expiresAt == expiresAt
  {
    var longer := log + [Entry(NextNode(key, kind, HeadOf(log), owner, token, expiresAt), at)];
    assert HeadBefore(longer, |log|) == HeadOf(log);
  }

  class FileSystemAtomicIdempotencyStore {
    const disk: Disk
    const processingLeaseMs: real
    var owners: map<Key, LocalClaimOwner>
    var drawn: nat

    ghost predicate Valid()
      reads this, disk
    {
      && disk.Valid() && processingLeaseMs > 0.0
      && AllBelow(disk.logs, disk.me, drawn)
      && forall key :: key in owners ==>
         IsOf(disk.me, owners[key].ownerToken) && owners[key].ownerToken.serial < drawn && owners[key].ttl > 0.0
    }

    constructor (disk: Disk, lease: real)
      requires disk.Valid() && lease > 0.0 && AllBelow(disk.logs, disk.me, 0)
      ensures Valid() && this.disk == disk && owners == map[]
    {
      this.disk, processingLeaseMs := disk, lease;
      owners, drawn := map[], 0;
    }

    /** The reader meets a chain that is too long for it. */
    ghost predicate Overlong(key: Key)
      reads disk
    {
      |disk.LogOf(key)| > MAX_CLAIM_CHAIN_DEPTH
    }

    /**
      The node this returns is the head of the chain when the last read comes back. It fails
      exactly if an access of its own went wrong or the chain is too long.
      */
    method ReadHead(key: Key) returns (r: HeadResult)
      requires disk.Valid()
      modifies disk
      ensures disk.Valid() && OthersGrew(disk.me, old(disk.logs), disk.logs) && old(disk.clock) <= disk.clock
      ensures old(disk.turn) < disk.turn
      ensures r.HeadFailed? <==> disk.Faulted(old(disk.turn), disk.turn) || Overlong(key)
      ensures disk.Untouched(key, old(disk.turn), disk.turn) ==> disk.LogOf(key) == old(disk.LogOf(key))
      ensures r.Head? ==> r.head == HeadOf(disk.LogOf(key)) && |disk.LogOf(key)| <= MAX_CLAIM_CHAIN_DEPTH
    {
      hide KeyOk, Disk.Faulted, Disk.Untouched, Disk.Spares;
      disk.NoTurn(key, disk.turn);
      disk.NextTurn(key, disk.turn, disk.turn);
      var read := disk.ReadFile(Root(key));
      RootRead(disk.files, disk.logs, disk.clock, key);
      if read.ReadFailed? { return HeadFailed; }
      if read.found.None? { return Head(None); }
      var current, depth := read.found.value, 0;
      while depth < MAX_CLAIM_CHAIN_DEPTH
        invariant 0 <= depth <= MAX_CLAIM_CHAIN_DEPTH && depth < |disk.LogOf(key)|
        invariant current == disk.LogOf(key)[depth].record
        invariant disk.Valid() && OthersGrew(disk.me, old(disk.logs), disk.logs) && old(disk.clock) <= disk.clock
        invariant old(disk.turn) < disk.turn && !disk.Faulted(old(disk.turn), disk.turn)
        invariant disk.Untouched(key, old(disk.turn), disk.turn) ==> disk.LogOf(key) == old(disk.LogOf(key))
      {
        ghost var before, log := disk.logs, disk.LogOf(key);
        disk.NextTurn(key, old(disk.turn), disk.turn);
        read := disk.ReadFile(Next(key, current.token));
        GrowthComposes(disk.me, old(disk.logs), before, disk.logs);
        assert Extended(disk.me, log, disk.LogOf(key));
        SuccessorRead(disk.me, log, disk.files, disk.logs, disk.clock, key, depth);
        if read.ReadFailed? { return HeadFailed; }
        if read.found.None? { return Head(Some(current)); }
        SuccessorIsValid(disk.files, disk.logs, disk.clock, key, depth);
        if read.found.value.Legacy? || read.found.value.predecessor != Some(current.token) { return HeadFailed; }
        current := read.found.value;
        depth := depth + 1;
      }
      return HeadFailed;
    }

    method ClaimStatus(key: Key, ttl: real) returns (r: ClaimResult)
      requires Valid()
      modifies this, disk
      ensures Valid()
      ensures r == Invalid <==> MemoryStore.IsBlank(key) || ttl <= 0.0
      ensures r == Acquired ==>
                && key !in old(owners) && key in owners
                   && owners == old(owners)[key := LocalClaimOwner(owners[key].ownerToken, ttl)]
                && JustAcquired(disk.LogOf(key), owners[key].ownerToken, processingLeaseMs)
                && HeadOf(disk.LogOf(key)).value.expiresAt >= old(disk.clock) + processingLeaseMs
                && |disk.LogOf(key)| > |old(disk.LogOf(key))|
      ensures r == AlreadyCompleted ==>
                LockOf(HeadOf(disk.LogOf(key))).Finished? && LockOf(HeadOf(disk.LogOf(key))).until > disk.clock
      ensures r == InProgress ==>
                key in old(owners)
                || ((LockOf(HeadOf(disk.LogOf(key))).Held? || LockOf(HeadOf(disk.LogOf(key))).Unowned?)
                    && LockOf(HeadOf(disk.LogOf(key))).until > disk.clock)
      ensures r != Acquired ==> owners == old(owners)
      ensures key in old(owners) && r != Invalid ==> r == InProgress && disk.logs == old(disk.logs)
      ensures r == Failed ==> disk.Faulted(old(disk.turn), disk.turn) || Overlong(key)
      ensures key !in old(owners) && r != Invalid && |old(disk.LogOf(key))| <= MAX_CLAIM_CHAIN_DEPTH
              && !disk.Faulted(old(disk.turn), disk.turn) && disk.Untouched(key, old(disk.turn), disk.turn) ==>
                r == Answer(LockOf(HeadOf(old(disk.LogOf(key)))), disk.clock)
    {
      hide MemoryStore.IsBlank, CanClaim, Legal, KeyOk, AllBelow, OthersGrew, JustAcquired, LockOf, ClaimNode, HeadOf,
           TokenUnused, Published, Answer, Disk.Valid, Disk.Faulted, Disk.Untouched, Disk.Spares;
      disk.NoTurn(key, disk.turn);
      if MemoryStore.IsBlank(key) || ttl <= 0.0 { return Invalid; }
      if key in owners { return InProgress; }
      while true
        invariant Valid() && owners == old(owners) && |disk.LogOf(key)| >= |old(disk.LogOf(key))|
        invariant disk.clock >= old(disk.clock) && old(disk.turn) <= disk.turn
        invariant disk.LogOf(key) == old(disk.LogOf(key)) || disk.Faulted(old(disk.turn), disk.turn)
                  || !disk.Untouched(key, old(disk.turn), disk.turn)
        decreases MAX_CLAIM_CHAIN_DEPTH + 1 - |disk.LogOf(key)|
      {
        ghost var before, turn := disk.logs, disk.turn;
        var read := ReadHead(key);
        Settled(disk.me, before, disk.logs, drawn, key);
        disk.TurnsCompose(key, old(disk.turn), turn, disk.turn);
        if read.HeadFailed? { return Failed; }
        var head, now := read.head, disk.clock;
        AnswersMean(head, now, now);
        if !CanClaim(head, now) {
          RefusedMeans(head, now);
          return if head.value.Node? && head.value.kind == Completed then AlreadyCompleted else InProgress;
        }
        var ownerToken := Uuid(disk.me, drawn);
        disk.NextTurn(key, old(disk.turn), disk.turn);
        var linked := LinkClaim(key, head, ownerToken, now + processingLeaseMs);
        AnswersMean(head, now, disk.clock);
        if linked == Threw { return Failed; }
        if linked == Linked {
          owners := owners[key := LocalClaimOwner(ownerToken, ttl)];
          return Acquired;
        }
      }
    }

    /** One attempt of the claiming loop: the chain moved on, failed, or took the claim. */
    method LinkClaim(key: Key, head: Option<Record>, ownerToken: Token, expiresAt: real) returns (linked: LinkResult)
      requires Valid() && head == HeadOf(disk.LogOf(key)) && |disk.LogOf(key)| <= MAX_CLAIM_CHAIN_DEPTH
      requires CanClaim(head, disk.clock) && ownerToken == Uuid(disk.me, drawn)
      requires expiresAt == disk.clock + processingLeaseMs
      modifies this`drawn, disk
      ensures Valid() && TokenBelow(ownerToken, disk.me, drawn) && old(disk.clock) <= disk.clock
      ensures |disk.LogOf(key)| >= |old(disk.LogOf(key))| && disk.turn == old(disk.turn) + 1
      ensures linked == Threw ==> disk.faults(disk.turn) != JM.Normal
      ensures disk.faults(disk.turn) == JM.Normal && disk.Spares(key, old(disk.turn)) ==> linked == Linked
      ensures linked == Linked ==>
                JustAcquired(disk.LogOf(key), ownerToken, processingLeaseMs)
                  && HeadOf(disk.LogOf(key)).value.expiresAt == expiresAt
                && |disk.LogOf(key)| > |old(disk.LogOf(key))|
      ensures linked == Exists ==> |disk.LogOf(key)| > |old(disk.LogOf(key))|
    {
      hide CanClaim, Legal, KeyOk, AllBelow, OthersGrew, JustAcquired, LockOf, ClaimNode, HeadOf, TokenUnused,
           Published;
      var now := disk.clock;
      var record := ClaimNode(key, head, ownerToken, Uuid(disk.me, drawn + 1), expiresAt);
      ghost var log, logs := disk.LogOf(key), disk.logs;
      assert Below(log, disk.me, drawn) by { BelowAt(disk.logs, disk.me, drawn, key); }
      ClaimShape(key, head, ownerToken, Uuid(disk.me, drawn + 1), expiresAt);
      ClaimIsLegal(log, key, disk.me, drawn, now, expiresAt);
      ghost var mid;
      linked, mid := disk.WriteExclusive(head, record);
      Wrote(disk.me, logs, mid, disk.logs, record, disk.clock, drawn);
      NewIsUnused(log, disk.me, drawn, drawn);
      drawn := drawn + 2;
      CanClaimIffOpen(head, now);
      PublishedAt(mid, record, disk.clock);
      ClaimTook(log, record, now, disk.clock, ownerToken, processingLeaseMs);
    }

    /** One attempt of a closing or renewing loop: the chain moved on, failed, or took the node. */
    method LinkNext(key: Key, kind: Kind, head: Option<Record>, ownerToken: Token, expiresAt: real)
      returns (linked: LinkResult)
      requires Valid() && head == HeadOf(disk.LogOf(key)) && |disk.LogOf(key)| <= MAX_CLAIM_CHAIN_DEPTH
      requires JM.HoldsHead(head, ownerToken) && TokenBelow(ownerToken, disk.me, drawn)
      modifies this`drawn, disk
      ensures Valid() && old(disk.clock) <= disk.clock && |disk.LogOf(key)| >= |old(disk.LogOf(key))|
      ensures disk.turn == old(disk.turn) + 1
      ensures linked == Threw ==> disk.faults(disk.turn) != JM.Normal
      ensures disk.faults(disk.turn) == JM.Normal && disk.Spares(key, old(disk.turn)) ==> linked == Linked
      ensures linked == Linked ==>
                JustContinued(disk.LogOf(key), ownerToken, kind) && HeadOf(disk.LogOf(key)).value.expiresAt == expiresAt
      ensures linked == Exists ==> |disk.LogOf(key)| > |old(disk.LogOf(key))|
    {
      hide Legal, KeyOk, AllBelow, OthersGrew, JustContinued, LockOf, HeadOf, TokenUnused, Published;
      var record := NextNode(key, kind, head, ownerToken, Uuid(disk.me, drawn), expiresAt);
      ghost var log, logs := disk.LogOf(key), disk.logs;
      assert Below(log, disk.me, drawn) by { BelowAt(disk.logs, disk.me, drawn, key); }
      NextIsLegal(log, key, kind, ownerToken, disk.me, drawn, disk.clock, expiresAt);
      ghost var mid;
      linked, mid := disk.WriteExclusive(head, record);
      Wrote(disk.me, logs, mid, disk.logs, record, disk.clock, drawn);
      PublishedAt(mid, record, disk.clock);
      NextTook(log, key, kind, ownerToken, record.token, expiresAt, disk.clock);
      drawn := drawn + 2;
    }

    /** Completion or release by the owner this process registered; without one it comes back at once. */
    method TransitionOwned(key: Key, kind: Kind) returns (r: CloseResult)
      requires Valid() && kind != Claim
      modifies this, disk
      ensures Valid()
      ensures r == InvalidKey <==> MemoryStore.IsBlank(key)
      ensures key !in old(owners) ==>
                owners == old(owners) && disk.logs == old(disk.logs) && (r == Closed || r == InvalidKey)
      ensures r == Closed && key in old(owners) ==>
                var owner, log := old(owners)[key], disk.LogOf(key);
                && owners == old(owners) - {key}
                && ((JustContinued(log, owner.ownerToken, kind)
                     && (if kind == Completed
                         then old(disk.clock) + owner.ttl <= HeadOf(log).value.expiresAt <= disk.clock + owner.ttl
                         else HeadOf(log).value.expiresAt == 0.0))
                    || (kind == Available && !JM.HoldsHead(HeadOf(log), owner.ownerToken)))
      ensures r == OwnershipLost ==>
                && kind == Completed && key in old(owners) && owners == old(owners) - {key}
                && !JM.HoldsHead(HeadOf(disk.LogOf(key)), old(owners)[key].ownerToken)
      ensures r == CloseFailed ==>
                && owners == (if kind == Available then old(owners) - {key} else old(owners))
                && (disk.Faulted(old(disk.turn), disk.turn) || Overlong(key))
      ensures key in old(owners) && r != InvalidKey && |old(disk.LogOf(key))| <= MAX_CLAIM_CHAIN_DEPTH
              && !disk.Faulted(old(disk.turn), disk.turn) && disk.Untouched(key, old(disk.turn), disk.turn) ==>
                r == if kind == Available || JM.HoldsHead(HeadOf(old(disk.LogOf(key))), old(owners)[key].ownerToken)
                     then Closed else OwnershipLost
    {
      hide MemoryStore.IsBlank, Legal, KeyOk, AllBelow, OthersGrew, JustContinued, LockOf, HeadOf, Published,
           JM.HoldsHead, Disk.Valid, Disk.Faulted, Disk.Untouched, Disk.Spares;
      disk.NoTurn(key, disk.turn);
      if MemoryStore.IsBlank(key) { return InvalidKey; }
      if key !in owners { return Closed; }
      var owner := owners[key];
      while true
        invariant Valid() && owners == old(owners) && disk.clock >= old(disk.clock) && old(disk.turn) <= disk.turn
        invariant disk.LogOf(key) == old(disk.LogOf(key)) || disk.Faulted(old(disk.turn), disk.turn)
                  || !disk.Untouched(key, old(disk.turn), disk.turn)
        decreases MAX_CLAIM_CHAIN_DEPTH + 1 - |disk.LogOf(key)|
      {
        ghost var before, turn := disk.logs, disk.turn;
        var read := ReadHead(key);
        Settled(disk.me, before, disk.logs, drawn, key);
        disk.TurnsCompose(key, old(disk.turn), turn, disk.turn);
        if read.HeadFailed? {
          if kind == Available { owners := owners - {key}; }
          return CloseFailed;
        }
        var head := read.head;
        if !JM.HoldsHead(head, owner.ownerToken) {
          owners := owners - {key};
          return if kind == Completed then OwnershipLost else Closed;
        }
        disk.NextTurn(key, old(disk.turn), disk.turn);
        var linked :=
          LinkNext(key, kind, head, owner.ownerToken, if kind == Completed then disk.clock + owner.ttl else 0.0);
        if linked == Threw {
          if kind == Available { owners := owners - {key}; }
          return CloseFailed;
        }
        if linked == Linked {
          owners := owners - {key};
          return Closed;
        }
      }
    }

    /** A heartbeat: it extends the lease of a registered owner that still holds the head, and stops otherwise. */
    method RenewOwnership(key: Key) returns (renewed: bool)
      requires Valid()
      modifies this`drawn, disk
      ensures Valid() && owners == old(owners)
      ensures renewed ==>
                && key in owners && JustContinued(disk.LogOf(key), owners[key].ownerToken, Claim)
                && old(disk.clock) + processingLeaseMs <= HeadOf(disk.LogOf(key)).value.expiresAt <= disk.clock
                   + processingLeaseMs
      ensures key !in owners ==> disk.logs == old(disk.logs)
      ensures !renewed ==>
                || key !in owners || disk.Faulted(old(disk.turn), disk.turn) || Overlong(key)
                || !JM.HoldsHead(HeadOf(disk.LogOf(key)), owners[key].ownerToken)
    {
      hide Legal, KeyOk, AllBelow, OthersGrew, JustContinued, LockOf, HeadOf, Published, Disk.Faulted, Disk.Untouched,
           Disk.Spares;
      disk.NoTurn(key, disk.turn);
      if key !in owners { return false; }
      var owner := owners[key];
      while true
        invariant Valid() && owners == old(owners) && disk.clock >= old(disk.clock) && old(disk.turn) <= disk.turn
        invariant disk.LogOf(key) == old(disk.LogOf(key)) || disk.Faulted(old(disk.turn), disk.turn)
                  || !disk.Untouched(key, old(disk.turn), disk.turn)
        decreases MAX_CLAIM_CHAIN_DEPTH + 1 - |disk.LogOf(key)|
      {
        ghost var before, turn := disk.logs, disk.turn;
        var read := ReadHead(key);
        Settled(disk.me, before, disk.logs, drawn, key);
        disk.TurnsCompose(key, old(disk.turn), turn, disk.turn);
        if read.HeadFailed? || !JM.HoldsHead(read.head, owner.ownerToken) { return false; }
        disk.NextTurn(key, old(disk.turn), disk.turn);
        var linked := LinkNext(key, Claim, read.head, owner.ownerToken, disk.clock + processingLeaseMs);
        if linked != Exists { return linked == Linked; }
      }
    }
  }
}
