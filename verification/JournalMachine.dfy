/**
  Every interleaving of any number of store instances over one directory.

  A call is one run of `claimStatus`, `renewOwnership` or `transitionOwned`. It advances one
  file-system access at a time, and between two accesses any other call, the clock and an
  older release may act. The log of each key is history only: it records what was linked and
  when, and no step reads it.
 */
module JournalMachine {
  import opened Wrappers
  import opened Journal

  datatype Op =
    | Acquire(ttl: real)
    | Renew(owner: Token)
    | Close(owner: Token, ttl: real, kind: Kind)

  datatype Outcome =
    | Acquired(owner: Token) | InProgress | AlreadyCompleted | Returned | OwnershipLost | Stopped | Failed

  datatype Pc =
    | ReadRoot
    | ReadNext(current: Record, depth: nat)
    | Decide(head: Option<Record>, depth: nat)
    | Link(head: Option<Record>, depth: nat, record: Record)
    | Done(outcome: Outcome)

  /** `drawn` counts the identifiers drawn, `losses` the links lost; `began` is the clock at the call. */
  datatype Call = Call(key: Key, op: Op, lease: real, began: real, drawn: nat, losses: nat, pc: Pc)

  datatype State = State(files: map<Path, Record>, clock: real, calls: map<nat, Call>, logs: map<Key, Log>)

  /** How an access ends: normally, with an error before it had any effect, or with one after. */
  datatype Access = Normal | Throws | ThrowsAfterEffect

  datatype Action =
    | Tick(now: real)
    | Begin(id: nat, key: Key, op: Op, lease: real)
    | WriteLegacy(key: Key, foreign: nat, expiresAt: real)
    | StopRenewing(id: nat)
    | Resume(id: nat, access: Access)

  function LogOf(s: State, key: Key): Log {
    if key in s.logs then s.logs[key] else []
  }

  function Initial(now: real): State {
    State(map[], now, map[], map[])
  }

  // --- One call -------------------------------------------------------------------

  function Publish(s: State, path: Path, record: Record): State {
    s.(files := s.files[path := record],
       logs := s.logs[record.key := LogOf(s, record.key) + [Entry(record, s.clock)]])
  }

  function SetCall(s: State, id: nat, call: Call): State {
    s.(calls := s.calls[id := call])
  }

  function ClaimNode(id: nat, call: Call, head: Option<Record>, owner: Token, now: real): Record {
    Node(call.key, Claim, Uuid(id, call.drawn + 1),
         if head.None? then None else Some(head.value.token), owner, now + call.lease)
  }

  /** One step of readHead: the root file, then one successor file at a time. */
  function AfterRead(s: State, call: Call): Pc
    requires call.pc.ReadRoot? || call.pc.ReadNext?
  {
    match call.pc
    case ReadRoot =>
      if Root(call.key) !in s.files then Decide(None, 0)
      else
        var root := s.files[Root(call.key)];
        if root.key != call.key then Done(Failed) else ReadNext(root, 0)
    case ReadNext(current, depth) =>
      if Next(call.key, current.token) !in s.files then Decide(Some(current), depth)
      else
        var next := s.files[Next(call.key, current.token)];
        if next.key != call.key || next.Legacy? || next.predecessor != Some(current.token) then Done(Failed)
        else if depth + 1 == MAX_CLAIM_CHAIN_DEPTH then Done(Failed)
        else ReadNext(next, depth + 1)
  }

  /** The head is still in use at `now`, so a claim reports what it found instead of linking. */
  function Refusal(head: Record, now: real): Option<Outcome> {
    if head.Legacy? then if head.expiresAt > now then Some(InProgress) else None
    else if head.kind == Completed && head.expiresAt > now then Some(AlreadyCompleted)
    else if head.kind == Claim && head.expiresAt > now then Some(InProgress)
    else None
  }

  predicate HoldsHead(head: Option<Record>, owner: Token) {
    head.Some? && head.value.Node? && head.value.kind == Claim && head.value.owner == owner
  }

  /** What the call does once it knows the head. */
  function AfterHead(id: nat, call: Call, head: Option<Record>, depth: nat, now: real): Pc {
    match call.op
    case Acquire(_) =>
      if head.Some? && Refusal(head.value, now).Some? then Done(Refusal(head.value, now).value)
      else Link(head, depth, ClaimNode(id, call, head, Uuid(id, call.drawn), now))
    case Renew(owner) =>
      if !HoldsHead(head, owner) then Done(Stopped)
      else Link(head, depth, ClaimNode(id, call, head, owner, now))
    case Close(owner, ttl, kind) =>
      if !HoldsHead(head, owner) then Done(if kind == Completed then OwnershipLost else Returned)
      else
        Link(head, depth, Node(call.key, kind, Uuid(id, call.drawn + 1), Some(head.value.token), owner,
                               if kind == Completed then now + ttl else 0.0))
  }

  function Decided(id: nat, call: Call, clock: real): Call
    requires call.pc.Decide?
  {
    call.(pc := AfterHead(id, call, call.pc.head, call.pc.depth, clock), drawn := call.drawn + 2)
  }

  function OnLinked(call: Call): Outcome
    requires call.pc.Link?
  {
    match call.op
    case Acquire(_) => Acquired(if call.pc.record.Node? then call.pc.record.owner else call.pc.record.token)
    case Renew(_) => Stopped
    case Close(_, _, _) => Returned
  }

  /** The exclusive link: it publishes the record, or it loses because the file exists. */
  function LinkStep(s: State, id: nat, call: Call, access: Access): State
    requires call.pc.Link?
  {
    var path := PathAfter(call.key, call.pc.head);
    if path in s.files then
      SetCall(s, id, call.(pc := ReadRoot, losses := call.losses + 1))
    else
      SetCall(Publish(s, path, call.pc.record), id,
              call.(pc := Done(if access == ThrowsAfterEffect then Failed else OnLinked(call))))
  }

  function ResumeStep(s: State, id: nat, call: Call, access: Access): State {
    if call.pc.Done? then s
    else if access == Throws then SetCall(s, id, call.(pc := Done(Failed)))
    else
      match call.pc
      case ReadRoot => SetCall(s, id, call.(pc := AfterRead(s, call)))
      case ReadNext(_, _) => SetCall(s, id, call.(pc := AfterRead(s, call)))
      case Decide(head, depth) =>
        SetCall(s, id, Decided(id, call, s.clock))
      case Link(_, _, _) => LinkStep(s, id, call, access)
  }

  // --- The whole system -----------------------------------------------------------

  predicate ValidRequest(op: Op, lease: real) {
    && lease > 0.0
    && (op.Acquire? ==> op.ttl > 0.0)
    && (op.Close? ==> op.ttl > 0.0 && op.kind != Claim)
  }

  function Step(s: State, action: Action): State {
    match action
    case Tick(now) => if s.clock <= now then s.(clock := now) else s
    case Begin(id, key, op, lease) =>
      if id in s.calls || !ValidRequest(op, lease) then s
      else SetCall(s, id, Call(key, op, lease, s.clock, 0, 0, ReadRoot))
    case WriteLegacy(key, foreign, expiresAt) =>
      // An older release creates its version-1 record with the same exclusive link.
      if Root(key) in s.files then s else Publish(s, Root(key), Legacy(key, Foreign(foreign), expiresAt))
    case StopRenewing(id) =>
      if id in s.calls && s.calls[id].op.Renew? && s.calls[id].pc.ReadRoot?
      then SetCall(s, id, s.calls[id].(pc := Done(Stopped))) else s
    case Resume(id, access) =>
      if id in s.calls then ResumeStep(s, id, s.calls[id], access) else s
  }

  function Run(s: State, actions: seq<Action>): State
    decreases |actions|
  {
    if actions == [] then s else Step(Run(s, actions[..|actions| - 1]), actions[|actions| - 1])
  }

  // --- The invariant --------------------------------------------------------------

  /** The files of one key are exactly its log, each entry stored behind its predecessor. */
  ghost predicate Layout(files: map<Path, Record>, key: Key, log: Log) {
    && (Root(key) in files <==> log != [])
    && (log != [] ==> files[Root(key)] == log[0].record)
    && (forall i :: 0 <= i < |log| - 1 ==>
          Next(key, log[i].record.token) in files && files[Next(key, log[i].record.token)] == log[i + 1].record)
    && (forall token :: Next(key, token) in files ==> exists i :: 0 <= i < |log| - 1 && log[i].record.token == token)
  }

  predicate Drawn(calls: map<nat, Call>, token: Token) {
    token.Uuid? ==> token.call in calls && token.serial < calls[token.call].drawn
  }

  ghost predicate TokensDrawn(calls: map<nat, Call>, log: Log) {
    forall i :: 0 <= i < |log| ==>
      Drawn(calls, log[i].record.token) && (log[i].record.Node? ==> Drawn(calls, log[i].record.owner))
  }

  ghost predicate KeyInv(s: State, key: Key) {
    var log := LogOf(s, key);
    && LogInv(log, key)
    && Layout(s.files, key, log)
    && TokensDrawn(s.calls, log)
    && (forall i :: 0 <= i < |log| ==> log[i].at <= s.clock)
  }

  ghost predicate HeadKnown(log: Log, head: Option<Record>, depth: nat, losses: nat) {
    match head
    case None => losses == 0
    case Some(record) =>
      depth < MAX_CLAIM_CHAIN_DEPTH && depth < |log| && log[depth].record == record && losses <= depth + 1
  }

  predicate DrawnBy(id: nat, call: Call, token: Token) {
    token.Uuid? && token.call == id && token.serial < call.drawn
  }

  ghost predicate LinkReady(log: Log, id: nat, call: Call, head: Option<Record>, record: Record, clock: real) {
    && record.key == call.key
    && MayFollow(head, record, clock)
    && DrawnBy(id, call, record.token)
    && TokenUnused(log, record.token)
    && (if call.op.Acquire?
        then Acquires(LockOf(head), record.owner, LockOf(Some(record)), clock)
             && DrawnBy(id, call, record.owner) && TokenUnused(log, record.owner)
        else Continues(LockOf(head), record.owner, LockOf(Some(record))))
  }

  ghost predicate HasClaim(log: Log, owner: Token) {
    exists i :: 0 <= i < |log| && IsClaimOf(log[i].record, Some(owner))
  }

  predicate IsCompletionOf(record: Record, owner: Token, from: real) {
    record.Node? && record.kind == Completed && record.owner == owner && from <= record.expiresAt
  }

  ghost predicate HasCompletion(log: Log, owner: Token, from: real) {
    exists i :: 0 <= i < |log| && IsCompletionOf(log[i].record, owner, from)
  }

  /** A successful outcome is backed by a record in the log. */
  ghost predicate OutcomeBacked(log: Log, id: nat, call: Call, outcome: Outcome) {
    && (outcome.Acquired? ==>
          call.op.Acquire? && DrawnBy(id, call, outcome.owner) && HasClaim(log, outcome.owner))
    && (outcome.Returned? && call.op.Close? && call.op.kind == Completed ==>
          HasCompletion(log, call.op.owner, call.began + call.op.ttl))
  }

  /** The record a call is about to link is one its operation asks for. */
  predicate Serves(id: nat, call: Call, record: Record) {
    && record.Node?
    && match call.op
       case Acquire(_) => record.kind == Claim && DrawnBy(id, call, record.owner)
         && call.began + call.lease <= record.expiresAt
       case Renew(owner) => record.kind == Claim && record.owner == owner && call.began + call.lease <= record.expiresAt
       case Close(owner, ttl, kind) =>
         record.kind == kind && record.owner == owner && (kind == Completed ==> call.began + ttl <= record.expiresAt)
  }

  ghost predicate CallInv(log: Log, clock: real, id: nat, call: Call) {
    && call.began <= clock
    && match call.pc
       case ReadRoot => call.losses <= |log|
       case ReadNext(current, depth) => HeadKnown(log, Some(current), depth, 0) && call.losses <= |log|
       case Decide(head, depth) => HeadKnown(log, head, depth, call.losses)
       case Link(head, depth, record) =>
         && HeadKnown(log, head, depth, call.losses)
         && LinkReady(log, id, call, head, record, clock)
         && Serves(id, call, record)
       case Done(outcome) => call.losses <= |log| && OutcomeBacked(log, id, call, outcome)
  }

  ghost predicate Inv(s: State) {
    && (forall key: Key :: KeyInv(s, key))
    && (forall id :: id in s.calls ==> CallInv(LogOf(s, s.calls[id].key), s.clock, id, s.calls[id]))
  }

  lemma InitialInv(now: real)
    ensures Inv(Initial(now))
  {
    forall key: Key
      ensures KeyInv(Initial(now), key)
    {}
  }

  // --- Publishing -----------------------------------------------------------------

  lemma PublishKeepsLayout(files: map<Path, Record>, key: Key, log: Log, record: Record, at: real)
    requires Layout(files, key, log) && DistinctTokens(log)
    requires PathAfter(key, HeadOf(log)) !in files
    requires forall i :: 0 <= i < |log| ==> log[i].record.token != record.token
    ensures Layout(files[PathAfter(key, HeadOf(log)) := record], key, log + [Entry(record, at)])
  {
    var path := PathAfter(key, HeadOf(log));
    var longer := log + [Entry(record, at)];
    forall token | Next(key, token) in files[path := record]
      ensures exists i :: 0 <= i < |longer| - 1 && longer[i].record.token == token
    {
      if Next(key, token) == path {
        assert longer[|log| - 1].record.token == token;
      } else {
        var i :| 0 <= i < |log| - 1 && log[i].record.token == token;
        assert longer[i].record.token == token;
      }
    }
  }

  /** A free successor name means the head is still the head; a taken one means the chain moved on. */
  lemma SuccessorFreeIffHead(files: map<Path, Record>, key: Key, log: Log, head: Option<Record>, depth: nat)
    requires Layout(files, key, log) && DistinctTokens(log)
    requires HeadKnown(log, head, depth, 0)
    ensures PathAfter(key, head) !in files <==> (if head.None? then log == [] else |log| == depth + 1)
    ensures PathAfter(key, head) !in files ==> head == HeadOf(log)
  {
    if head.Some? && PathAfter(key, head) in files {
      var i :| 0 <= i < |log| - 1 && log[i].record.token == head.value.token;
      assert i == depth;
    }
  }

  lemma PublishKeepsKeyInv(s: State, key: Key, record: Record)
    requires KeyInv(s, key) && record.key == key
    requires var log := LogOf(s, key);
             && PathAfter(key, HeadOf(log)) !in s.files
             && (record.Legacy? ==> log == [])
             && (record.Node? ==> MayFollow(HeadOf(log), record, s.clock) && |log| <= MAX_CLAIM_CHAIN_DEPTH)
             && (record.Node? ==>
                 Continues(LockOf(HeadOf(log)), record.owner, LockOf(Some(record))) || TokenUnused(log, record.owner))
             && TokenUnused(log, record.token)
    requires Drawn(s.calls, record.token) && (record.Node? ==> Drawn(s.calls, record.owner))
    ensures KeyInv(Publish(s, PathAfter(key, HeadOf(LogOf(s, key))), record), key)
  {
    hide Chained, OneBlockPerOwner, MayFollow, Layout, Continues;
    var log := LogOf(s, key);
    PublishKeepsLayout(s.files, key, log, record, s.clock);
    if record.Node? {
      AppendKeepsLogInv(log, key, record, s.clock);
    } else {
      FirstRecordLogInv(key, record, s.clock);
    }
  }

  lemma FirstRecordLogInv(key: Key, record: Record, at: real)
    requires record.Legacy? && record.key == key
    ensures LogInv([] + [Entry(record, at)], key)
  {}

  lemma PublishKeepsOtherKeys(s: State, path: Path, record: Record, key: Key)
    requires KeyInv(s, key) && path.key == record.key != key
    ensures KeyInv(Publish(s, path, record), key)
  {
    assert LogOf(Publish(s, path, record), key) == LogOf(s, key);
  }

  lemma AppendKeepsOutcome(log: Log, id: nat, call: Call, outcome: Outcome, entry: Entry)
    requires OutcomeBacked(log, id, call, outcome)
    ensures OutcomeBacked(log + [entry], id, call, outcome)
  {
    var longer := log + [entry];
    if outcome.Acquired? {
      var i :| 0 <= i < |log| && IsClaimOf(log[i].record, Some(outcome.owner));
      assert IsClaimOf(longer[i].record, Some(outcome.owner));
    }
    if outcome.Returned? && call.op.Close? && call.op.kind == Completed {
      var i :| 0 <= i < |log| && IsCompletionOf(log[i].record, call.op.owner, call.began + call.op.ttl);
      assert IsCompletionOf(longer[i].record, call.op.owner, call.began + call.op.ttl);
    }
  }

  /** A call waiting to link keeps its claim to the head when another call appends. */
  lemma AppendKeepsCallInv(log: Log, clock: real, id: nat, call: Call, entry: Entry)
    requires CallInv(log, clock, id, call)
    requires !DrawnBy(id, call, entry.record.token)
    requires entry.record.Node? ==>
               !DrawnBy(id, call, entry.record.owner) || !TokenUnused(log, entry.record.owner)
    ensures CallInv(log + [entry], clock, id, call)
  {
    var longer := log + [entry];
    if call.pc.Done? {
      AppendKeepsOutcome(log, id, call, call.pc.outcome, entry);
    }
    if call.pc.Link? {
      var record := call.pc.record;
      assert TokenUnused(longer, record.token);
      if call.op.Acquire? {
        assert TokenUnused(longer, record.owner);
      }
    }
  }

  // --- Every step keeps the invariant ---------------------------------------------

  predicate CallsGrow(calls: map<nat, Call>, calls': map<nat, Call>) {
    forall id :: id in calls ==> id in calls' && calls[id].drawn <= calls'[id].drawn
  }

  lemma KeyInvFrame(s: State, s': State, key: Key)
    requires KeyInv(s, key)
    requires s'.files == s.files && s'.logs == s.logs && s.clock <= s'.clock && CallsGrow(s.calls, s'.calls)
    ensures KeyInv(s', key)
  {
    assert LogOf(s', key) == LogOf(s, key);
  }

  /** Replacing one call without touching a file. */
  lemma SetCallKeepsInv(s: State, id: nat, call: Call)
    requires Inv(s)
    requires id in s.calls ==> s.calls[id].drawn <= call.drawn
    requires CallInv(LogOf(s, call.key), s.clock, id, call)
    ensures Inv(SetCall(s, id, call))
  {
    var s' := SetCall(s, id, call);
    forall key: Key
      ensures KeyInv(s', key)
    {
      KeyInvFrame(s, s', key);
    }
  }

  lemma ReadKeepsCallInv(s: State, id: nat)
    requires Inv(s) && id in s.calls
    requires s.calls[id].pc.ReadRoot? || s.calls[id].pc.ReadNext?
    ensures CallInv(LogOf(s, s.calls[id].key), s.clock, id, s.calls[id].(pc := AfterRead(s, s.calls[id])))
  {
    hide Chained, OneBlockPerOwner, InTimeOrder, MayFollow, TokensDrawn;
    var call := s.calls[id];
    var log := LogOf(s, call.key);
    assert KeyInv(s, call.key);
    if call.pc.ReadNext? {
      SuccessorFreeIffHead(s.files, call.key, log, Some(call.pc.current), call.pc.depth);
    }
  }

  lemma UndrawnIsUnused(calls: map<nat, Call>, log: Log, token: Token)
    requires TokensDrawn(calls, log) && !Drawn(calls, token)
    ensures TokenUnused(log, token)
  {}

  lemma DecisionMayFollow(id: nat, call: Call, head: Option<Record>, depth: nat, now: real)
    requires AfterHead(id, call, head, depth, now).Link?
    ensures MayFollow(head, AfterHead(id, call, head, depth, now).record, now)
    ensures var record := AfterHead(id, call, head, depth, now).record;
            if call.op.Acquire? then Acquires(LockOf(head), record.owner, LockOf(Some(record)), now)
            else Continues(LockOf(head), record.owner, LockOf(Some(record)))
  {}

  lemma DecideKeepsCallInv(calls: map<nat, Call>, log: Log, clock: real, id: nat)
    requires id in calls && calls[id].pc.Decide?
    requires TokensDrawn(calls, log) && CallInv(log, clock, id, calls[id])
    ensures CallInv(log, clock, id, Decided(id, calls[id], clock))
  {
    var call := calls[id];
    UndrawnIsUnused(calls, log, Uuid(id, call.drawn));
    UndrawnIsUnused(calls, log, Uuid(id, call.drawn + 1));
    if Decided(id, call, clock).pc.Link? {
      DecisionMayFollow(id, call, call.pc.head, call.pc.depth, clock);
    }
  }

  lemma PublishKeepsOtherCalls(s: State, path: Path, record: Record, other: nat)
    requires Inv(s) && other in s.calls && path.key == record.key
    requires !DrawnBy(other, s.calls[other], record.token)
    requires record.Node? ==>
               !DrawnBy(other, s.calls[other], record.owner) || !TokenUnused(LogOf(s, record.key), record.owner)
    ensures var s' := Publish(s, path, record);
            CallInv(LogOf(s', s.calls[other].key), s'.clock, other, s.calls[other])
  {
    var call := s.calls[other];
    if call.key == record.key {
      AppendKeepsCallInv(LogOf(s, call.key), s.clock, other, call, Entry(record, s.clock));
    }
  }

  /** The state in which a link that succeeds is made. */
  ghost predicate Publishable(s: State, path: Path, record: Record) {
    var log := LogOf(s, record.key);
    && path == PathAfter(record.key, HeadOf(log))
    && path !in s.files
    && (record.Legacy? ==> log == [])
    && (record.Node? ==> MayFollow(HeadOf(log), record, s.clock) && |log| <= MAX_CLAIM_CHAIN_DEPTH)
    && (record.Node? ==>
        Continues(LockOf(HeadOf(log)), record.owner, LockOf(Some(record))) || TokenUnused(log, record.owner))
    && TokenUnused(log, record.token)
    && Drawn(s.calls, record.token) && (record.Node? ==> Drawn(s.calls, record.owner))
  }

  lemma PublishKeepsKeys(s: State, path: Path, record: Record, key: Key)
    requires Inv(s) && Publishable(s, path, record)
    ensures KeyInv(Publish(s, path, record), key)
  {
    assert KeyInv(s, key);
    if key == record.key {
      PublishKeepsKeyInv(s, key, record);
    } else {
      PublishKeepsOtherKeys(s, path, record, key);
    }
  }

  lemma LinkIsPublishable(s: State, id: nat)
    requires Inv(s) && id in s.calls && s.calls[id].pc.Link?
    requires PathAfter(s.calls[id].key, s.calls[id].pc.head) !in s.files
    ensures Publishable(s, PathAfter(s.calls[id].key, s.calls[id].pc.head), s.calls[id].pc.record)
    ensures var record := s.calls[id].pc.record;
            DrawnBy(id, s.calls[id], record.token)
            && (DrawnBy(id, s.calls[id], record.owner) || !TokenUnused(LogOf(s, record.key), record.owner))
  {
    var call := s.calls[id];
    var log, head, record := LogOf(s, call.key), call.pc.head, call.pc.record;
    assert KeyInv(s, call.key);
    SuccessorFreeIffHead(s.files, call.key, log, head, call.pc.depth);
    if Continues(LockOf(head), record.owner, LockOf(Some(record))) {
      assert Owner(log[call.pc.depth].record) == Some(record.owner);
    }
  }

  lemma LostLinkMeansChainGrew(s: State, id: nat)
    requires Inv(s) && id in s.calls && s.calls[id].pc.Link?
    requires PathAfter(s.calls[id].key, s.calls[id].pc.head) in s.files
    ensures var call := s.calls[id];
            |LogOf(s, call.key)| > (if call.pc.head.None? then 0 else call.pc.depth + 1)
    ensures s.calls[id].losses < |LogOf(s, s.calls[id].key)|
  {
    var call := s.calls[id];
    assert KeyInv(s, call.key);
    SuccessorFreeIffHead(s.files, call.key, LogOf(s, call.key), call.pc.head, call.pc.depth);
  }

  lemma LostLinkKeepsCallInv(s: State, id: nat)
    requires Inv(s) && id in s.calls && s.calls[id].pc.Link?
    requires PathAfter(s.calls[id].key, s.calls[id].pc.head) in s.files
    ensures var call := s.calls[id];
            CallInv(LogOf(s, call.key), s.clock, id, call.(pc := ReadRoot, losses := call.losses + 1))
  {
    LostLinkMeansChainGrew(s, id);
    hide KeyInv, LinkReady, Serves;
  }

  lemma LinkedCallKeepsInv(s: State, id: nat, access: Access)
    requires Inv(s) && id in s.calls && s.calls[id].pc.Link?
    requires PathAfter(s.calls[id].key, s.calls[id].pc.head) !in s.files
    ensures var s' := LinkStep(s, id, s.calls[id], access);
            s.calls[id].pc.record.key == s.calls[id].key
              && CallInv(LogOf(s', s.calls[id].key), s'.clock, id, s'.calls[id])
  {
    hide KeyInv, Acquires, Continues, MayFollow, TokenUnused;
    var call := s.calls[id];
    assert CallInv(LogOf(s, call.key), s.clock, id, call);
    var log := LogOf(LinkStep(s, id, call, access), call.key);
    assert log[|log| - 1] == Entry(call.pc.record, s.clock);
  }

  lemma LinkKeepsInv(s: State, id: nat, access: Access)
    requires Inv(s) && id in s.calls && s.calls[id].pc.Link?
    ensures Inv(LinkStep(s, id, s.calls[id], access))
  {
    hide KeyInv, CallInv, Publishable;
    var call := s.calls[id];
    var record, path := call.pc.record, PathAfter(call.key, call.pc.head);
    var s' := LinkStep(s, id, call, access);
    if path in s.files {
      LostLinkKeepsCallInv(s, id);
      SetCallKeepsInv(s, id, s'.calls[id]);
    } else {
      LinkIsPublishable(s, id);
      var published := Publish(s, path, record);
      forall key: Key
        ensures KeyInv(s', key)
      {
        PublishKeepsKeys(s, path, record, key);
        KeyInvFrame(published, s', key);
      }
      LinkedCallKeepsInv(s, id, access);
      forall other | other in s.calls && other != id
        ensures CallInv(LogOf(s', s'.calls[other].key), s'.clock, other, s'.calls[other])
      {
        PublishKeepsOtherCalls(s, path, record, other);
      }
    }
  }

  lemma LegacyKeepsInv(s: State, key: Key, foreign: nat, expiresAt: real)
    requires Inv(s) && Root(key) !in s.files
    ensures Inv(Publish(s, Root(key), Legacy(key, Foreign(foreign), expiresAt)))
  {
    var record := Legacy(key, Foreign(foreign), expiresAt);
    var s' := Publish(s, Root(key), record);
    assert Publishable(s, Root(key), record) by {
      assert KeyInv(s, key);
    }
    forall other: Key
      ensures KeyInv(s', other)
    {
      PublishKeepsKeys(s, Root(key), record, other);
    }
    forall other | other in s'.calls
      ensures CallInv(LogOf(s', s'.calls[other].key), s'.clock, other, s'.calls[other])
    {
      PublishKeepsOtherCalls(s, Root(key), record, other);
    }
  }

  lemma TickKeepsInv(s: State, now: real)
    requires Inv(s) && s.clock <= now
    ensures Inv(s.(clock := now))
  {
    var s' := s.(clock := now);
    forall key: Key
      ensures KeyInv(s', key)
    {
      KeyInvFrame(s, s', key);
    }
    forall id | id in s'.calls
      ensures CallInv(LogOf(s', s'.calls[id].key), s'.clock, id, s'.calls[id])
    {
      assert LogOf(s', s'.calls[id].key) == LogOf(s, s'.calls[id].key);
    }
  }

  lemma StepKeepsInv(s: State, action: Action)
    requires Inv(s)
    ensures Inv(Step(s, action))
  {
    match action
    case Tick(now) =>
      if s.clock <= now { TickKeepsInv(s, now); }
    case Begin(id, key, op, lease) =>
      if id !in s.calls && ValidRequest(op, lease) {
        SetCallKeepsInv(s, id, Call(key, op, lease, s.clock, 0, 0, ReadRoot));
      }
    case WriteLegacy(key, foreign, expiresAt) =>
      if Root(key) !in s.files { LegacyKeepsInv(s, key, foreign, expiresAt); }
    case StopRenewing(id) =>
      if id in s.calls && s.calls[id].op.Renew? && s.calls[id].pc.ReadRoot? {
        SetCallKeepsInv(s, id, s.calls[id].(pc := Done(Stopped)));
      }
    case Resume(id, access) =>
      if id in s.calls {
        var call := s.calls[id];
        match call.pc {
          case Done(_) =>
          case ReadRoot => ReadKeepsCallInv(s, id);
          case ReadNext(_, _) => ReadKeepsCallInv(s, id);
          case Decide(_, _) =>
            assert KeyInv(s, call.key);
            DecideKeepsCallInv(s.calls, LogOf(s, call.key), s.clock, id);
          case Link(_, _, _) => LinkKeepsInv(s, id, access);
        }
        if access == Throws && !call.pc.Done? {
          SetCallKeepsInv(s, id, call.(pc := Done(Failed)));
        } else if call.pc.ReadRoot? || call.pc.ReadNext? {
          SetCallKeepsInv(s, id, call.(pc := AfterRead(s, call)));
        } else if call.pc.Decide? {
          SetCallKeepsInv(s, id, Decided(id, call, s.clock));
        }
      }
  }

  lemma {:induction false} RunKeepsInv(s: State, actions: seq<Action>)
    requires Inv(s)
    ensures Inv(Run(s, actions))
    decreases |actions|
  {
    if actions == [] {
    } else {
      RunKeepsInv(s, actions[..|actions| - 1]);
      StepKeepsInv(Run(s, actions[..|actions| - 1]), actions[|actions| - 1]);
    }
  }
}
