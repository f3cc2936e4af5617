/**
  The shared directory as one process sees it: before each of its own accesses any number of
  other workers may have published records, chosen by an arbitrary schedule.
 */
module ClaimDisk {
  import opened Wrappers
  import opened Journal
  import JM = JournalMachine

  /** What another worker would link, and the clock it brings along. */
  datatype Attempt = Attempt(now: real, record: Record)

  datatype LinkResult = Linked | Exists | Threw

  datatype ReadResult = Read(found: Option<Record>) | ReadFailed

  function Stored(files: map<Path, Record>, logs: map<Key, Log>, record: Record): map<Path, Record> {
    files[PathAfter(record.key, HeadOf(LogIn(logs, record.key))) := record]
  }

  predicate IsOf(me: nat, token: Token) {
    token.Uuid? && token.call == me
  }

  predicate Involves(me: nat, record: Record) {
    IsOf(me, record.token) || (record.Node? && IsOf(me, record.owner))
  }

  function LogIn(logs: map<Key, Log>, key: Key): Log {
    if key in logs then logs[key] else []
  }

  function Published(logs: map<Key, Log>, record: Record, at: real): map<Key, Log> {
    logs[record.key := LogIn(logs, record.key) + [Entry(record, at)]]
  }

  /** The moves a chain allows; the theorems of the journal show that workers make no others. */
  predicate Legal(log: Log, record: Record, at: real) {
    && TokenUnused(log, record.token)
    && (record.Legacy? ==> log == [])
    && (record.Node? ==>
          && |log| <= MAX_CLAIM_CHAIN_DEPTH && MayFollow(HeadOf(log), record, at)
          && (Continues(LockOf(HeadOf(log)), record.owner, LockOf(Some(record))) || TokenUnused(log, record.owner)))
  }

  ghost predicate KeyOk(files: map<Path, Record>, logs: map<Key, Log>, clock: real, key: Key) {
    var log := LogIn(logs, key);
    LogInv(log, key) && JM.Layout(files, key, log) && forall i :: 0 <= i < |log| ==> log[i].at <= clock
  }

  lemma PublishKeepsKey(files: map<Path, Record>, logs: map<Key, Log>, clock: real, record: Record, key: Key)
    requires KeyOk(files, logs, clock, record.key) && KeyOk(files, logs, clock, key)
    requires Legal(LogIn(logs, record.key), record, clock)
    requires PathAfter(record.key, HeadOf(LogIn(logs, record.key))) !in files
    ensures KeyOk(Stored(files, logs, record), Published(logs, record, clock), clock, key)
  {
    hide Chained, OneBlockPerOwner, MayFollow, JM.Layout, Continues;
    var log := LogIn(logs, record.key);
    if key == record.key {
      JM.PublishKeepsLayout(files, key, log, record, clock);
      if record.Node? {
        AppendKeepsLogInv(log, key, record, clock);
      } else {
        JM.FirstRecordLogInv(key, record, clock);
      }
    } else {
      OtherLayout(files, key, LogIn(logs, key), PathAfter(record.key, HeadOf(log)), record);
    }
  }

  lemma PublishKeepsKeys(files: map<Path, Record>, logs: map<Key, Log>, clock: real, record: Record)
    requires (forall key: Key :: KeyOk(files, logs, clock, key)) && Legal(LogIn(logs, record.key), record, clock)
    requires PathAfter(record.key, HeadOf(LogIn(logs, record.key))) !in files
    ensures forall key: Key :: KeyOk(Stored(files, logs, record), Published(logs, record, clock), clock, key)
  {
    hide KeyOk, Legal, Stored, Published;
    forall key: Key
      ensures KeyOk(Stored(files, logs, record), Published(logs, record, clock), clock, key)
    {
      PublishKeepsKey(files, logs, clock, record, key);
    }
  }

  lemma TickKeepsKeys(files: map<Path, Record>, logs: map<Key, Log>, clock: real, later: real)
    requires (forall key: Key :: KeyOk(files, logs, clock, key)) && clock <= later
    ensures forall key: Key :: KeyOk(files, logs, later, key)
  {
    hide LogInv, JM.Layout;
    forall key: Key
      ensures KeyOk(files, logs, later, key)
    {
      assert KeyOk(files, logs, clock, key);
    }
  }

  lemma PublishGrows(me: nat, logs: map<Key, Log>, record: Record, at: real)
    requires !Involves(me, record)
    ensures OthersGrew(me, logs, Published(logs, record, at))
  {}

  lemma OtherLayout(files: map<Path, Record>, key: Key, log: Log, path: Path, record: Record)
    requires JM.Layout(files, key, log) && path.key != key
    ensures JM.Layout(files[path := record], key, log)
  {}

  function LastIndex(log: Log): nat {
    if log == [] then 0 else |log| - 1
  }

  lemma HeadIsFree(files: map<Path, Record>, logs: map<Key, Log>, clock: real, key: Key)
    requires KeyOk(files, logs, clock, key) && |LogIn(logs, key)| <= MAX_CLAIM_CHAIN_DEPTH
    ensures PathAfter(key, HeadOf(LogIn(logs, key))) !in files
  {
    var log := LogIn(logs, key);
    JM.SuccessorFreeIffHead(files, key, log, HeadOf(log), LastIndex(log));
  }

  /** From `before` to `after` others may have appended records, and none with this process's tokens. */
  ghost predicate OthersGrew(me: nat, before: map<Key, Log>, after: map<Key, Log>) {
    forall key: Key :: Extended(me, LogIn(before, key), LogIn(after, key))
  }

  predicate Extended(me: nat, before: Log, after: Log) {
    before <= after && forall i :: |before| <= i < |after| ==> !Involves(me, after[i].record)
  }

  lemma GrowthComposes(me: nat, a: map<Key, Log>, b: map<Key, Log>, c: map<Key, Log>)
    requires OthersGrew(me, a, b) && OthersGrew(me, b, c)
    ensures OthersGrew(me, a, c)
  {}

  lemma NothingGrew(me: nat, logs: map<Key, Log>)
    ensures OthersGrew(me, logs, logs)
  {}

  lemma LegalIsFree(files: map<Path, Record>, logs: map<Key, Log>, clock: real, record: Record)
    requires KeyOk(files, logs, clock, record.key) && Legal(LogIn(logs, record.key), record, clock)
    ensures PathAfter(record.key, HeadOf(LogIn(logs, record.key))) !in files
  {
    if record.Node? {
      HeadIsFree(files, logs, clock, record.key);
    }
  }

  /** After others grew a chain, the name behind its old head is free exactly when it did not grow. */
  lemma FreeIffUnchanged(me: nat, before: Log, files: map<Path, Record>, logs: map<Key, Log>, clock: real, key: Key)
    requires KeyOk(files, logs, clock, key) && Extended(me, before, LogIn(logs, key))
    requires |before| <= MAX_CLAIM_CHAIN_DEPTH
    ensures PathAfter(key, HeadOf(before)) !in files <==> LogIn(logs, key) == before
    ensures PathAfter(key, HeadOf(before)) in files ==> |LogIn(logs, key)| > |before|
  {
    var log := LogIn(logs, key);
    if before != [] {
      assert log[|before| - 1] == before[|before| - 1];
    }
    JM.SuccessorFreeIffHead(files, key, log, HeadOf(before), LastIndex(before));
    assert |log| == |before| ==> log == before;
  }

  /** Time alone never makes a legal record illegal. */
  lemma LegalLater(log: Log, record: Record, at: real, later: real)
    requires Legal(log, record, at) && at <= later
    ensures Legal(log, record, later)
  {}

  class Disk {
    var files: map<Path, Record>
    var logs: map<Key, Log>
    var clock: real
    var turn: nat
    const me: nat
    const others: nat -> seq<Attempt>
    const faults: nat -> JM.Access

    ghost predicate Valid()
      reads this
    {
      forall key: Key :: KeyOk(files, logs, clock, key)
    }

    /** One of this process's accesses in the turns from `from` on and before `to` goes wrong. */
    ghost predicate Faulted(from: nat, to: nat) {
      exists t :: from < t <= to && faults(t) != JM.Normal
    }

    predicate Spares(key: Key, t: nat) {
      forall i :: 0 <= i < |others(t)| ==> others(t)[i].record.key != key
    }

    /** In those turns no other worker attempts anything with the key. */
    ghost predicate Untouched(key: Key, from: nat, to: nat) {
      forall t :: from <= t < to ==> Spares(key, t)
    }

    /** One more turn. */
    lemma NextTurn(key: Key, from: nat, to: nat)
      requires from <= to
      ensures Faulted(from, to + 1) <==> Faulted(from, to) || faults(to + 1) != JM.Normal
      ensures Untouched(key, from, to + 1) <==> Untouched(key, from, to) && Spares(key, to)
    {
      hide Spares;
      if faults(to + 1) != JM.Normal {
        assert Faulted(from, to + 1);
      }
    }

    lemma NoTurn(key: Key, from: nat)
      ensures !Faulted(from, from) && Untouched(key, from, from)
    {}

    lemma TurnsCompose(key: Key, from: nat, mid: nat, to: nat)
      requires from <= mid <= to
      ensures Faulted(from, to) <==> Faulted(from, mid) || Faulted(mid, to)
      ensures Untouched(key, from, to) <==> Untouched(key, from, mid) && Untouched(key, mid, to)
    {
      hide Spares;
    }

    constructor (me: nat, now: real, others: nat -> seq<Attempt>, faults: nat -> JM.Access)
      ensures Valid() && this.me == me && logs == map[]
    {
      this.me, this.others, this.faults := me, others, faults;
      files, logs, clock, turn := map[], map[], now, 0;
    }

    function LogOf(key: Key): Log
      reads this
    {
      LogIn(logs, key)
    }

    method Publish(record: Record)
      requires Valid() && Legal(LogOf(record.key), record, clock)
      requires PathAfter(record.key, HeadOf(LogOf(record.key))) !in files
      modifies this`files, this`logs
      ensures Valid() && logs == Published(old(logs), record, clock)
    {
      PublishKeepsKeys(files, logs, clock, record);
      files := Stored(files, logs, record);
      logs := Published(logs, record, clock);
    }

    /** One attempt of another worker; it succeeds if the chain allows it. */
    method Admit(attempt: Attempt)
      requires Valid()
      modifies this`files, this`logs, this`clock
      ensures Valid() && OthersGrew(me, old(logs), logs) && old(clock) <= clock
      ensures forall key :: key != attempt.record.key ==> LogOf(key) == old(LogOf(key))
      ensures logs == if Legal(old(LogOf(attempt.record.key)), attempt.record, clock) && !Involves(me, attempt.record)
                      then Published(old(logs), attempt.record, clock) else old(logs)
    {
      hide KeyOk, Legal, Extended, Involves;
      if attempt.now > clock {
        TickKeepsKeys(files, logs, clock, attempt.now);
        clock := attempt.now;
      }
      var record := attempt.record;
      NothingGrew(me, logs);
      if Legal(LogOf(record.key), record, clock) && !Involves(me, record) {
        PublishGrows(me, logs, record, clock);
        LegalIsFree(files, logs, clock, record);
        Publish(record);
      }
    }

    /** The turn of the others. */
    method Yield()
      requires Valid()
      modifies this`files, this`logs, this`clock, this`turn
      ensures Valid() && OthersGrew(me, old(logs), logs) && old(clock) <= clock
      ensures turn == old(turn) + 1
      ensures forall key :: Spares(key, old(turn)) ==> LogOf(key) == old(LogOf(key))
    {
      hide KeyOk, Extended;
      var attempts := others(turn);
      turn := turn + 1;
      NothingGrew(me, logs);
      for i := 0 to |attempts|
        invariant Valid() && OthersGrew(me, old(logs), logs) && old(clock) <= clock
        invariant turn == old(turn) + 1
        invariant forall key :: Spares(key, old(turn)) ==> LogOf(key) == old(LogOf(key))
      {
        ghost var before := logs;
        Admit(attempts[i]);
        GrowthComposes(me, old(logs), before, logs);
      }
    }

    /** Opening and parsing one file. */
    method ReadFile(path: Path) returns (r: ReadResult)
      requires Valid()
      modifies this`files, this`logs, this`clock, this`turn
      ensures Valid() && OthersGrew(me, old(logs), logs) && old(clock) <= clock
      ensures turn == old(turn) + 1 && (r.ReadFailed? <==> faults(turn) != JM.Normal)
      ensures forall key :: Spares(key, old(turn)) ==> LogOf(key) == old(LogOf(key))
      ensures r.Read? ==> r.found == if path in files then Some(files[path]) else None
    {
      Yield();
      if faults(turn) != JM.Normal { return ReadFailed; }
      return Read(if path in files then Some(files[path]) else None);
    }

    /**
      The exclusive link behind `head`: it wins exactly while `head` is still the head, and throws
      only if its own access goes wrong. `mid` is what the others had published by then.
      */
    method WriteExclusive(head: Option<Record>, record: Record) returns (r: LinkResult, ghost mid: map<Key, Log>)
      requires Valid() && head == HeadOf(LogOf(record.key)) && |LogOf(record.key)| <= MAX_CLAIM_CHAIN_DEPTH
      requires Legal(LogOf(record.key), record, clock)
      modifies this`files, this`logs, this`clock, this`turn
      ensures Valid() && old(clock) <= clock && OthersGrew(me, old(logs), mid)
      ensures turn == old(turn) + 1
      ensures forall key :: Spares(key, old(turn)) ==> LogIn(mid, key) == old(LogOf(key))
      ensures r == Exists <==> faults(turn) != JM.Throws && LogIn(mid, record.key) != old(LogOf(record.key))
      ensures r == Linked <==> faults(turn) == JM.Normal && LogIn(mid, record.key) == old(LogOf(record.key))
      ensures r == Linked ==> logs == Published(mid, record, clock) && LogIn(mid, record.key) == old(LogOf(record.key))
      ensures r == Exists ==> logs == mid && |LogOf(record.key)| > |old(LogOf(record.key))|
      ensures r == Threw ==>
                logs == mid || (logs == Published(mid, record, clock)
                                && LogIn(mid, record.key) == old(LogOf(record.key)))
    {
      hide KeyOk, Legal, Extended;
      ghost var before, start := LogOf(record.key), clock;
      Yield();
      mid := logs;
      assert KeyOk(files, logs, clock, record.key) && Extended(me, before, LogOf(record.key));
      FreeIffUnchanged(me, before, files, logs, clock, record.key);
      LegalLater(before, record, start, clock);
      if faults(turn) == JM.Throws { return Threw, mid; }
      if PathAfter(record.key, head) in files { return Exists, mid; }
      Publish(record);
      return if faults(turn) == JM.ThrowsAfterEffect then Threw else Linked, mid;
    }
  }
}
