/**
  The shared part of the append-only claim journal: what a record is, where it is
  stored, and which record may follow which.

  A journal is one chain of create-once files. The root file is named after the key,
  every later file after the key and the token of its predecessor, so all decisions
  about one predecessor race for one file name.
 */
module Journal {
  import opened Wrappers

  type Key = string

  // The longest chain a reader accepts, counted in successor reads.
  const MAX_CLAIM_CHAIN_DEPTH: nat := 100_000

  /** Random identifiers: the n-th one drawn by a call, or one drawn by an older release. */
  datatype Token = Uuid(call: nat, serial: nat) | Foreign(id: nat)

  datatype Kind = Claim | Completed | Available

  datatype Record =
    | Legacy(key: Key, token: Token, expiresAt: real)
    | Node(key: Key, kind: Kind, token: Token, predecessor: Option<Token>, owner: Token, expiresAt: real)

  datatype Path = Root(key: Key) | Next(key: Key, token: Token)

  function PathAfter(key: Key, head: Option<Record>): Path {
    match head
    case None => Root(key)
    case Some(record) => Next(key, record.token)
  }

  /** A published record and the clock reading at which its link succeeded. */
  datatype Entry = Entry(record: Record, at: real)

  type Log = seq<Entry>

  function HeadBefore(log: Log, i: nat): Option<Record>
    requires i <= |log|
  {
    if i == 0 then None else Some(log[i - 1].record)
  }

  function HeadOf(log: Log): Option<Record> {
    HeadBefore(log, |log|)
  }

  /** The abstract lock a chain stands for. `Unowned` is what version-1 state amounts to. */
  datatype Lock = Free | Unowned(until: real) | Held(owner: Token, until: real) | Finished(owner: Token, until: real)

  function LockOf(head: Option<Record>): Lock {
    match head
    case None => Free
    case Some(Legacy(_, _, until)) => Unowned(until)
    case Some(Node(_, Claim, _, _, owner, until)) => Held(owner, until)
    case Some(Node(_, Completed, _, _, owner, until)) => Finished(owner, until)
    case Some(Node(_, Available, _, _, _, _)) => Free
  }

  /** A lock anyone may take at the given time. */
  predicate Open(lock: Lock, at: real) {
    lock.Free? || lock.until <= at
  }

  /** The atomic moves of the abstract lock, each made by the holder of `actor`. */
  predicate Acquires(before: Lock, actor: Token, after: Lock, at: real) {
    Open(before, at) && after.Held? && after.owner == actor
  }

  predicate Continues(before: Lock, actor: Token, after: Lock) {
    && before.Held?
    && before.owner == actor
    && (after.Free? || ((after.Held? || after.Finished?) && after.owner == actor))
  }

  predicate Move(before: Lock, actor: Token, after: Lock, at: real) {
    Acquires(before, actor, after, at) || Continues(before, actor, after)
  }

  /** The chain-level counterpart of a move: `record` may be linked behind `head` at time `at`. */
  predicate MayFollow(head: Option<Record>, record: Record, at: real) {
    && record.Node?
    && record.predecessor == (if head.None? then None else Some(head.value.token))
    && Move(LockOf(head), record.owner, LockOf(Some(record)), at)
  }

  function Owner(record: Record): Option<Token> {
    if record.Legacy? then None else Some(record.owner)
  }

  predicate TokenUnused(log: Log, token: Token) {
    forall i :: 0 <= i < |log| ==> log[i].record.token != token && Owner(log[i].record) != Some(token)
  }

  predicate IsClaimOf(record: Record, owner: Option<Token>) {
    record.Node? && record.kind == Claim && Some(record.owner) == owner
  }

  ghost predicate OnlyClaimsOf(log: Log, from: nat, to: nat, owner: Option<Token>)
    requires to <= |log|
  {
    forall m :: from <= m < to ==> IsClaimOf(log[m].record, owner)
  }

  /** Between two nodes of one owner there is nothing but claims of that owner. */
  ghost predicate OneBlockPerOwner(log: Log) {
    forall i, j :: 0 <= i < j < |log| && log[i].record.Node? && Owner(log[i].record) == Owner(log[j].record) ==>
      OnlyClaimsOf(log, i, j, Owner(log[i].record))
  }

  ghost predicate Rooted(log: Log, key: Key) {
    forall i :: 0 <= i < |log| ==> log[i].record.key == key && (log[i].record.Legacy? ==> i == 0)
  }

  ghost predicate Chained(log: Log) {
    forall i :: 0 <= i < |log| && log[i].record.Node? ==> MayFollow(HeadBefore(log, i), log[i].record, log[i].at)
  }

  ghost predicate DistinctTokens(log: Log) {
    forall i, j :: 0 <= i < j < |log| ==> log[i].record.token != log[j].record.token
  }

  ghost predicate InTimeOrder(log: Log) {
    forall i, j :: 0 <= i < j < |log| ==> log[i].at <= log[j].at
  }

  /** What holds of the chain of one key in every reachable state. */
  ghost predicate LogInv(log: Log, key: Key) {
    && |log| <= MAX_CLAIM_CHAIN_DEPTH + 1
    && Rooted(log, key)
    && Chained(log)
    && DistinctTokens(log)
    && InTimeOrder(log)
    && OneBlockPerOwner(log)
  }

  lemma AppendKeepsChained(log: Log, record: Record, at: real)
    requires Chained(log) && (record.Node? ==> MayFollow(HeadOf(log), record, at))
    ensures Chained(log + [Entry(record, at)])
  {
    var longer := log + [Entry(record, at)];
    forall i | 0 <= i < |longer| && longer[i].record.Node?
      ensures MayFollow(HeadBefore(longer, i), longer[i].record, longer[i].at)
    {
      assert HeadBefore(longer, i) == HeadBefore(log, i);
    }
  }

  lemma AppendKeepsBlocks(log: Log, record: Record, at: real)
    requires OneBlockPerOwner(log)
    requires record.Node?
    requires (log != [] && IsClaimOf(log[|log| - 1].record, Some(record.owner))) || TokenUnused(log, record.owner)
    ensures OneBlockPerOwner(log + [Entry(record, at)])
  {
    var longer := log + [Entry(record, at)];
    forall i, j | 0 <= i < j < |longer| && longer[i].record.Node? && Owner(longer[i].record) == Owner(longer[j].record)
      ensures OnlyClaimsOf(longer, i, j, Owner(longer[i].record))
    {
      if j < |log| {
        assert OnlyClaimsOf(log, i, j, Owner(log[i].record));
      } else if i < |log| - 1 {
        // The appended record continues the block of the head, so the head is a claim of its owner.
        assert OnlyClaimsOf(log, i, |log| - 1, Owner(log[i].record));
      }
    }
  }

  lemma AppendKeepsLogInv(log: Log, key: Key, record: Record, at: real)
    requires LogInv(log, key)
    requires record.key == key && MayFollow(HeadOf(log), record, at)
    requires |log| <= MAX_CLAIM_CHAIN_DEPTH
    requires forall i :: 0 <= i < |log| ==> log[i].at <= at && log[i].record.token != record.token
    requires Continues(LockOf(HeadOf(log)), record.owner, LockOf(Some(record))) || TokenUnused(log, record.owner)
    ensures LogInv(log + [Entry(record, at)], key)
  {
    AppendKeepsChained(log, record, at);
    AppendKeepsBlocks(log, record, at);
  }

  /** A completion or a release is the last node of its owner's block, and a claim comes directly before it. */
  lemma ClosingNodeFollowsItsClaim(log: Log, key: Key, i: nat)
    requires LogInv(log, key)
    requires i < |log| && log[i].record.Node? && log[i].record.kind != Claim
    ensures i > 0
    ensures log[i - 1].record.Node? && log[i - 1].record.kind == Claim && log[i - 1].record.owner == log[i].record.owner
    ensures forall j :: i < j < |log| ==> Owner(log[j].record) != Owner(log[i].record)
  {
    assert MayFollow(HeadBefore(log, i), log[i].record, log[i].at);
    forall j | i < j < |log|
      ensures Owner(log[j].record) != Owner(log[i].record)
    {
      assert !IsClaimOf(log[i].record, Owner(log[i].record));
    }
  }

  /** Once another owner has written, the earlier owner never writes again. */
  lemma OvertakenOwnerNeverReturns(log: Log, key: Key, i: nat, m: nat, j: nat)
    requires LogInv(log, key)
    requires i < m < j < |log| && log[i].record.Node?
    requires Owner(log[m].record) != Owner(log[i].record)
    ensures Owner(log[j].record) != Owner(log[i].record)
  {
    assert !IsClaimOf(log[m].record, Owner(log[i].record));
  }

  /** Ownership changes hands only after a release, or once the newest lease or completion window ran out. */
  lemma OwnerChangesOnlyWhenOpen(log: Log, key: Key, i: nat)
    requires LogInv(log, key)
    requires 0 < i < |log| && Owner(log[i].record) != Owner(log[i - 1].record)
    ensures log[i].record.Node? && log[i].record.kind == Claim
    ensures (log[i - 1].record.Node? && log[i - 1].record.kind == Available) || log[i - 1].record.expiresAt <= log[i].at
  {
    assert MayFollow(HeadBefore(log, i), log[i].record, log[i].at);
  }

  /** The validity windows of two completions of one key never overlap. */
  lemma CompletionWindowsDisjoint(log: Log, key: Key, i: nat, j: nat)
    requires LogInv(log, key)
    requires i < j < |log|
    requires log[i].record.Node? && log[i].record.kind == Completed
    ensures log[i].record.expiresAt <= log[i + 1].at <= log[j].at
  {
    ClosingNodeFollowsItsClaim(log, key, i);
    OwnerChangesOnlyWhenOpen(log, key, i + 1);
  }
}
