/**
  The process-local store, and what its history shows: it drives the same abstract lock as the
  journal, with two differences. A lease that runs out is never taken over while its owner is
  still registered, and a completion keeps the window that began with the claim.
 */
module MemoryStore {
  import opened Wrappers
  import opened Journal
  import Text

  datatype Status = Processing | Completed

  datatype InMemoryClaim = InMemoryClaim(expiresAt: real, token: Token, status: Status)

  datatype AtomicClaimStatus = Acquired | InProgress | AlreadyCompleted

  predicate IsBlank(key: Key) {
    forall i :: 0 <= i < |key| ==> Text.IsTrimmed(key[i] as int)
  }

  // --- Histories --------------------------------------------------------------------------

  datatype Deed = Claims(ttl: real) | Releases | Completes

  datatype Event = Event(key: Key, token: Token, deed: Deed, at: real)

  function LockWith(before: Lock, e: Event): Lock {
    match e.deed
    case Claims(ttl) => Held(e.token, e.at + ttl)
    case Releases => Free
    case Completes => if before.Held? then Finished(e.token, before.until) else before
  }

  /** The lock of a key after a history. */
  function LockAfter(history: seq<Event>, key: Key): Lock {
    if history == [] then Free
    else
      var e, before := history[|history| - 1], LockAfter(history[..|history| - 1], key);
      if e.key == key then LockWith(before, e) else before
  }

  /** Each event moves the lock it finds. */
  predicate Moves(history: seq<Event>, i: nat)
    requires i < |history|
  {
    var e := history[i];
    var before := LockAfter(history[..i], e.key);
    if e.deed.Claims? then Open(before, e.at) && !before.Held? && e.deed.ttl > 0.0
    else before.Held? && before.owner == e.token
  }

  predicate Legal(history: seq<Event>) {
    forall i :: 0 <= i < |history| ==> Moves(history, i)
  }

  predicate Ends(e: Event, key: Key, token: Token) {
    e.key == key && e.token == token && !e.deed.Claims?
  }

  /** While nothing ended a claim, it is still held; ended by completion only, it blocks until its window is over. */
  lemma {:induction false} ClaimLasts(history: seq<Event>, i: nat, j: nat)
    requires Legal(history) && i < j <= |history| && history[i].deed.Claims?
    ensures var e, lock := history[i], LockAfter(history[..j], history[i].key);
            || lock == Held(e.token, e.at + e.deed.ttl)
            || (exists m :: i < m < j && Ends(history[m], e.key, e.token) && history[m].deed.Releases?)
            || (&& (exists m :: i < m < j && Ends(history[m], e.key, e.token) && history[m].deed.Completes?)
                && (lock == Finished(e.token, e.at + e.deed.ttl)
                    || exists k ::
                         && i < k < j && history[k].key == e.key && history[k].deed.Claims?
                         && e.at + e.deed.ttl <= history[k].at))
  {
    var e := history[i];
    var last := history[j - 1];
    assert history[..j][..j - 1] == history[..j - 1];
    if j == i + 1 {
    } else {
      ClaimLasts(history, i, j - 1);
      assert Moves(history, j - 1);
    }
  }

  predicate InTimeOrder(history: seq<Event>) {
    forall i, j :: 0 <= i < j < |history| ==> history[i].at <= history[j].at
  }

  /**
    Between two claims of one key the first owner ended its own claim, and unless it released it,
    the second claim came no sooner than the window of the first was over.
    */
  lemma ClaimedOncePerWindow(history: seq<Event>, i: nat, j: nat)
    requires Legal(history) && InTimeOrder(history) && i < j < |history|
    requires history[i].deed.Claims? && history[j].deed.Claims? && history[i].key == history[j].key
    ensures exists m :: i < m < j && Ends(history[m], history[i].key, history[i].token)
    ensures (exists m :: i < m < j && Ends(history[m], history[i].key, history[i].token) && history[m].deed.Releases?)
            || history[i].at + history[i].deed.ttl <= history[j].at
  {
    ClaimLasts(history, i, j);
    assert Moves(history, j);
  }

  lemma Appended(history: seq<Event>, e: Event)
    requires Legal(history)
    requires if e.deed.Claims?
             then Open(LockAfter(history, e.key), e.at) && !LockAfter(history, e.key).Held? && e.deed.ttl > 0.0
             else LockAfter(history, e.key).Held? && LockAfter(history, e.key).owner == e.token
    ensures Legal(history + [e])
    ensures forall key: Key ::
              LockAfter(history + [e], key) == if key == e.key then LockWith(LockAfter(history, key), e)
                else LockAfter(history, key)
  {
    var longer := history + [e];
    assert longer[..|history|] == history;
    forall i | 0 <= i < |longer|
      ensures Moves(longer, i)
    {
      if i < |history| {
        assert longer[..i] == history[..i];
        assert Moves(history, i);
      }
    }
  }

  /** A valid claim of a lock that is free, or whose completion window is over. */
  lemma ClaimTakesOpenLock(history: seq<Event>, e: Event)
    requires Legal(history) && e.deed.Claims? && e.deed.ttl > 0.0
    requires var lock := LockAfter(history, e.key); lock.Free? || (lock.Finished? && lock.until <= e.at)
    ensures Legal(history + [e]) && Open(LockAfter(history, e.key), e.at)
    ensures forall key: Key ::
              LockAfter(history + [e], key) == if key == e.key then Held(e.token, e.at + e.deed.ttl)
                else LockAfter(history, key)
  {
    Appended(history, e);
  }

  // --- The store --------------------------------------------------------------------------

  class InMemoryAtomicIdempotencyStore {
    var entries: map<Key, InMemoryClaim>
    var owners: map<Key, Token>
    ghost var history: seq<Event>

    /** Exactly the claims still in work have a registered owner, and it is their own. */
    ghost predicate Valid()
      reads this
    {
      && (forall key :: key in owners <==> key in entries && entries[key].status == Processing)
      && (forall key :: key in owners ==> owners[key] == entries[key].token)
      && Legal(history)
      && (forall key: Key :: LockAfter(history, key) == LockOf(key))
    }

    function LockOf(key: Key): Lock
      reads this
    {
      if key !in entries then Free
      else if entries[key].status == Processing then Held(entries[key].token, entries[key].expiresAt)
      else Finished(entries[key].token, entries[key].expiresAt)
    }

    constructor ()
      ensures Valid() && history == []
    {
      entries, owners, history := map[], map[], [];
    }

    /** `None` is the error for a blank key or a time to live that is not positive. */
    method ClaimStatus(key: Key, ttl: real, now: real, token: Token) returns (r: Option<AtomicClaimStatus>)
      requires Valid()
      modifies this
      ensures Valid()
      ensures r.None? <==> IsBlank(key) || ttl <= 0.0
      ensures r == Some(InProgress) <==> r.Some? && old(LockOf(key)).Held?
      ensures r == Some(AlreadyCompleted) <==>
                r.Some? && old(LockOf(key)).Finished? && old(LockOf(key)).until > now
      ensures r == Some(Acquired) ==>
                && Acquires(old(LockOf(key)), token, LockOf(key), now) && LockOf(key) == Held(token, now + ttl)
                && history == old(history) + [Event(key, token, Claims(ttl), now)]
      ensures r != Some(Acquired) ==> history == old(history) && LockOf(key) == old(LockOf(key))
      ensures forall other :: other != key ==> LockOf(other) == old(LockOf(other))
    {
      hide IsBlank, Legal, LockAfter, LockWith, Open;
      if IsBlank(key) || ttl <= 0.0 { return None; }
      if key in owners { return Some(InProgress); }
      if key in entries && entries[key].expiresAt > now {
        return Some(if entries[key].status == Status.Completed then AlreadyCompleted else InProgress);
      }
      ghost var e := Event(key, token, Claims(ttl), now);
      assert LockAfter(history, key) == LockOf(key) && !LockOf(key).Held?;
      ClaimTakesOpenLock(history, e);
      entries := entries[key := InMemoryClaim(now + ttl, token, Processing)];
      owners := owners[key := token];
      history := history + [e];
      return Some(Acquired);
    }

    method Release(key: Key, now: real) returns (ok: bool)
      requires Valid()
      modifies this
      ensures Valid() && ok == !IsBlank(key)
      ensures ok && old(LockOf(key)).Held? ==>
                LockOf(key) == Free && history == old(history) + [Event(key, old(LockOf(key)).owner, Releases, now)]
      ensures !ok || !old(LockOf(key)).Held? ==> LockOf(key) == old(LockOf(key)) && history == old(history)
      ensures forall other :: other != key ==> LockOf(other) == old(LockOf(other))
    {
      hide IsBlank, Legal, LockAfter;
      if IsBlank(key) { return false; }
      if key !in owners { return true; }
      var token := owners[key];
      Appended(history, Event(key, token, Releases, now));
      if key in entries && entries[key].token == token && entries[key].status == Processing {
        entries := entries - {key};
      }
      if key in owners && owners[key] == token {
        owners := owners - {key};
      }
      history := history + [Event(key, token, Releases, now)];
      return true;
    }

    method Complete(key: Key, now: real) returns (ok: bool)
      requires Valid()
      modifies this
      ensures Valid() && ok == !IsBlank(key)
      ensures ok && old(LockOf(key)).Held? ==>
                && LockOf(key) == Finished(old(LockOf(key)).owner, old(LockOf(key)).until)
                && history == old(history) + [Event(key, old(LockOf(key)).owner, Completes, now)]
      ensures !ok || !old(LockOf(key)).Held? ==> LockOf(key) == old(LockOf(key)) && history == old(history)
      ensures forall other :: other != key ==> LockOf(other) == old(LockOf(other))
    {
      hide IsBlank, Legal, LockAfter;
      if IsBlank(key) { return false; }
      if key !in owners { return true; }
      var token := owners[key];
      Appended(history, Event(key, token, Completes, now));
      if key in entries && entries[key].token == token {
        entries := entries[key := entries[key].(status := Status.Completed)];
      }
      if key in owners && owners[key] == token {
        owners := owners - {key};
      }
      history := history + [Event(key, token, Completes, now)];
      return true;
    }
  }
}
