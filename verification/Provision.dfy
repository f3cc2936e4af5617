/**
  Number provisioning: any number of concurrent ticks of one order, one versioned row, one
  provider. Every `await` of the tick is a step of its own, so any other tick, the clock, a
  cancellation and the provider may act in between.
 */
module Provision {
  import opened Wrappers

  // --- The order row --------------------------------------------------------------

  datatype Phase = Identity | Number | Credential | Connection | Complete {
    function Rank(): nat {
      match this
      case Identity => 0
      case Number => 1
      case Credential => 2
      case Connection => 3
      case Complete => 4
    }
  }

  datatype Transport = Sms | IMessage
  datatype Status = Pending | ProviderPending | NeedsReview | ReadyForSetup | Cancelled
  datatype PhoneNumber = PhoneNumber(id: string, digits: string, smsReady: bool, active: bool)

  datatype Order = Order(
    version: nat, transport: Transport, phase: Phase, status: Status,
    attempted: bool, attemptedAt: Option<int>,
    identityId: Option<string>, number: Option<PhoneNumber>, connectionId: Option<string>,
    nextAttemptAt: Option<int>)

  const IN_FLIGHT_MS := 5 * 60_000
  const REVIEW_BACKOFF_MS := 6 * 60 * 60_000

  /** The fields a save may set; an absent field keeps the value of the row. */
  datatype Patch = Patch(
    status: Option<Status>, phase: Option<Phase>, attempted: Option<bool>, attemptedAt: Option<Option<int>>,
    identityId: Option<string>, number: Option<PhoneNumber>, connectionId: Option<string>,
    nextAttemptAt: Option<Option<int>>)

  const EMPTY_PATCH := Patch(None, None, None, None, None, None, None, None)

  function Or<T>(change: Option<T>, otherwise: T): T {
    if change.Some? then change.value else otherwise
  }

  function OrSome<T>(change: Option<T>, otherwise: Option<T>): Option<T> {
    if change.Some? then change else otherwise
  }

  function Apply(order: Order, patch: Patch): Order {
    Order(order.version + 1, order.transport, Or(patch.phase, order.phase), Or(patch.status, order.status),
          Or(patch.attempted, order.attempted), Or(patch.attemptedAt, order.attemptedAt),
          OrSome(patch.identityId, order.identityId), OrSome(patch.number, order.number),
          OrSome(patch.connectionId, order.connectionId), Or(patch.nextAttemptAt, order.nextAttemptAt))
  }

  /** The provider receipts a patch carries; they survive a lost version race. */
  datatype Receipt = Receipt(identityId: Option<string>, number: Option<PhoneNumber>)

  function ReceiptOf(patch: Patch): Receipt {
    Receipt(patch.identityId, patch.number)
  }

  predicate Missing(receipt: Receipt, order: Order) {
    (receipt.identityId.Some? && order.identityId.None?) || (receipt.number.Some? && order.number.None?)
  }

  function Merge(receipt: Receipt, order: Order): Order {
    order.(version := order.version + 1,
           identityId := OrSome(order.identityId, receipt.identityId),
           number := OrSome(order.number, receipt.number))
  }

  // --- The provider and the vault -------------------------------------------------

  /** What an identity read shows: `matches` is the handle, organization and status check. */
  datatype View = View(id: string, matches: bool, iMessageEnabled: bool, number: Option<PhoneNumber>)

  /** One mutation that left the client. A refused one never takes effect. */
  datatype Request = Request(phase: Phase, state: RequestState)
  datatype RequestState = Outstanding | Effective | Refused

  datatype Key = Key(identityId: string, material: string)

  datatype Code = InvalidInput | Unavailable | ProviderRejected | OutcomeUnknown | InvalidReceipt
  datatype Fault = Fault(code: Code, retryAfterSeconds: Option<int>)

  // --- One tick -------------------------------------------------------------------

  /** Whether authorization guards a claimed mutation or the final binding. */
  datatype Purpose = ForMutation | ForBinding

  datatype End = Finished(receipt: Receipt) | ConflictsExhausted | Failed

  datatype Pc =
    | Fetch
    | Look
    | Claiming(patch: Patch)
    | Check(purpose: Purpose)
    | CanProvision(purpose: Purpose)
    | Fund(purpose: Purpose)
    | Recheck(purpose: Purpose)
    | BackOff(purpose: Purpose, patch: Patch)
    | Release(thrown: Option<Fault>)
    | ReleaseWrite(current: Order, thrown: Option<Fault>)
    | Leave
    | Send
    | Await(request: nat)
    | Confirm(purchased: PhoneNumber)
    | ReadVault
    | PutVault(key: Key)
    | Verify
    | Bind
    | Save(patch: Patch)
    | Reread(receipt: Receipt, attempt: nat)
    | MergeWrite(receipt: Receipt, attempt: nat, current: Order)
    | Ended(end: End)

  /** `order` is the tick's own snapshot; the flags are those the error path reads. */
  datatype Tick = Tick(order: Order, now: int, refused: bool, unsent: bool, settled: bool, pc: Pc)

  datatype State = State(
    row: Order, clock: int, requests: seq<Request>, vault: Option<Key>, ticks: map<nat, Tick>)

  /** How an awaited call comes back. */
  datatype Reply =
    | Ok
    | Sees(seen: Option<View>)
    | Answer(yes: bool)
    | Receives(view: View)
    | Purchased(number: PhoneNumber)
    | Minted(material: string)
    | Bound(connectionId: string)
    | Throws(fault: Fault)
    | ThrowsAfterEffect(fault: Fault)

  datatype Action =
    | Wait(until: int)
    | Cancel
    | Take(request: nat)
    | Begin(id: nat)
    | Crash(id: nat)
    | Resume(id: nat, reply: Reply)

  /** Whether an identity or number can exist that no call of this order created. */
  datatype World = World(foreign: bool)

  predicate Took(requests: seq<Request>, phase: Phase) {
    exists i :: 0 <= i < |requests| && requests[i] == Request(phase, Effective)
  }

  /** A read may lag or miss, but it shows nothing that no request of this order brought about. */
  predicate Visible(world: World, s: State, view: Option<View>) {
    view.Some? && !world.foreign ==>
      Took(s.requests, Identity) && (view.value.number.Some? ==> Took(s.requests, Number))
  }

  predicate Matches(order: Order, view: View) {
    view.matches && (order.identityId.Some? ==> view.id == order.identityId.value)
  }

  function Selected(order: Order, view: View): Option<PhoneNumber> {
    if order.transport == Sms || view.iMessageEnabled then view.number else None
  }

  predicate SameLine(a: PhoneNumber, b: PhoneNumber) {
    a.id == b.id && a.digits == b.digits
  }

  predicate Usable(order: Order, number: PhoneNumber) {
    order.transport == Sms ==> number.smsReady && number.active
  }

  predicate InFlight(order: Order, now: int) {
    order.attempted && order.attemptedAt.Some? && now - order.attemptedAt.value < IN_FLIGHT_MS
  }

  // --- The patches the tick saves ---------------------------------------------------

  function Review(clock: int): Patch {
    EMPTY_PATCH.(status := Some(NeedsReview), nextAttemptAt := Some(Some(clock + REVIEW_BACKOFF_MS)))
  }

  function Retry(clock: int, after: int): Patch {
    EMPTY_PATCH.(status := Some(ProviderPending), nextAttemptAt := Some(Some(clock + after)))
  }

  function Journal(clock: int): Patch {
    EMPTY_PATCH.(status := Some(Pending), attempted := Some(true), attemptedAt := Some(Some(clock)),
                nextAttemptAt := Some(None))
  }

  function Adopt(identityId: string): Patch {
    EMPTY_PATCH.(status := Some(Pending), phase := Some(Number), attempted := Some(false),
                identityId := Some(identityId))
  }

  function Record(number: PhoneNumber, clock: int): Patch {
    Retry(clock, 30_000).(attempted := Some(false), number := Some(number))
  }

  function Attach(number: PhoneNumber): Patch {
    EMPTY_PATCH.(status := Some(Pending), phase := Some(Credential), attempted := Some(false), number := Some(number),
                nextAttemptAt := Some(None))
  }

  const ISSUED := EMPTY_PATCH.(status := Some(Pending), phase := Some(Connection), attempted := Some(false))

  function Finish(connectionId: string): Patch {
    EMPTY_PATCH.(status := Some(ReadyForSetup), phase := Some(Complete), attempted := Some(false),
                connectionId := Some(connectionId))
  }

  function BackoffSeconds(fault: Fault): int {
    var asked := if fault.retryAfterSeconds.Some? then fault.retryAfterSeconds.value else 30;
    var capped := if asked < 86_400 then asked else 86_400;
    if capped < 30 then 30 else capped
  }

  /** Only a definitive refusal reopens the journal, and a mint only when the request never left. */
  predicate Reopens(tick: Tick) {
    tick.refused && (tick.order.phase != Credential || tick.unsent)
  }

  function Caught(tick: Tick, fault: Fault, clock: int): Patch {
    var base := if fault.code == InvalidReceipt then Review(clock) else Retry(clock, BackoffSeconds(fault) * 1000);
    base.(attempted := if Reopens(tick) then Some(false) else None,
          attemptedAt := if tick.settled then Some(None) else None)
  }

  // --- The steps of a tick ----------------------------------------------------------

  const NO_RECEIPT := Receipt(None, None)
  const BAD_RECEIPT := Fault(InvalidReceipt, None)

  function Put(s: State, id: nat, tick: Tick, pc: Pc): State {
    s.(ticks := s.ticks[id := tick.(pc := pc)])
  }

  function Fail(s: State, id: nat, tick: Tick, fault: Fault): State {
    Put(s, id, tick, Save(Caught(tick, fault, s.clock)))
  }

  function FetchStep(s: State, id: nat, tick: Tick, reply: Reply): State {
    if reply != Ok then Put(s, id, tick, Ended(Failed))
    else
      var fetched := tick.(order := s.row, now := s.clock);
      if s.row.phase == Complete || s.row.status == Cancelled
         || (s.row.nextAttemptAt.Some? && s.row.nextAttemptAt.value != 0 && s.row.nextAttemptAt.value > s.clock)
      then Put(s, id, fetched, Ended(Finished(NO_RECEIPT)))
      else if s.row.phase != Identity && s.row.identityId.None? then Fail(s, id, fetched, BAD_RECEIPT)
      else Put(s, id, fetched, Look)
  }

  /** The money gate: wait for a live call, give a burned attempt to review, or claim the journal. */
  function Lease(s: State, id: nat, tick: Tick): State {
    if InFlight(tick.order, tick.now) then Put(s, id, tick, Ended(Finished(NO_RECEIPT)))
    else if tick.order.attempted then Put(s, id, tick, Save(Review(s.clock)))
    else Put(s, id, tick, Claiming(Journal(s.clock)))
  }

  function NumberKnown(s: State, id: nat, tick: Tick, number: Option<PhoneNumber>): State {
    if number.None? then Put(s, id, tick, Save(Retry(s.clock, 30_000)))
    else if tick.order.number.Some? && !SameLine(tick.order.number.value, number.value)
      then Fail(s, id, tick, BAD_RECEIPT)
    else if !Usable(tick.order, number.value) then Put(s, id, tick, Save(Record(number.value, s.clock)))
    else Put(s, id, tick, Save(Attach(number.value)))
  }

  function LookAtNumber(s: State, id: nat, tick: Tick, view: View): State {
    var number := Selected(tick.order, view);
    if number.None? && tick.order.number.Some? then Put(s, id, tick, Save(Review(s.clock)))
    else if number.None? && tick.order.attempted && tick.order.transport == IMessage && view.iMessageEnabled
    then Put(s, id, tick, Save(Retry(s.clock, 30_000)))
    else if number.None? then Lease(s, id, tick)
    else NumberKnown(s, id, tick, number)
  }

  function LookStep(world: World, s: State, id: nat, tick: Tick, reply: Reply): State {
    match reply
    case Throws(fault) => Fail(s, id, tick, fault)
    case Sees(view) =>
      if !Visible(world, s, view) then s
      else if tick.order.phase == Identity then
        if view.None? then Lease(s, id, tick)
        else if !tick.order.attempted && tick.order.identityId.None? then Put(s, id, tick, Save(Review(s.clock)))
        else if !Matches(tick.order, view.value) then Fail(s, id, tick, BAD_RECEIPT)
        else Put(s, id, tick, Save(Adopt(view.value.id)))
      else if view.None? then Put(s, id, tick, Save(Review(s.clock)))
      else if !Matches(tick.order, view.value) then Fail(s, id, tick, BAD_RECEIPT)
      else if tick.order.phase == Number then LookAtNumber(s, id, tick, view.value)
      else
        var number := Selected(tick.order, view.value);
        if number.None? || tick.order.number.None? || !SameLine(number.value, tick.order.number.value)
           || !Usable(tick.order, number.value)
        then Fail(s, id, tick, BAD_RECEIPT)
        else Put(s, id, tick, ReadVault)
    case _ => s
  }

  function ClaimStep(s: State, id: nat, tick: Tick, patch: Patch, reply: Reply): State {
    if reply.Throws? then Fail(s, id, tick, reply.fault)
    else if s.row.version != tick.order.version then Put(s, id, tick, Leave)
    else
      var written := s.(row := Apply(tick.order, patch));
      if reply.ThrowsAfterEffect? then Fail(written, id, tick, reply.fault)
      else Put(written, id, tick.(order := written.row), Check(ForMutation))
  }

  function Deny(s: State, id: nat, tick: Tick, purpose: Purpose, thrown: Option<Fault>): State {
    if purpose.ForMutation? then Put(s, id, tick, Release(thrown))
    else if thrown.None? then Put(s, id, tick, Leave)
    else Fail(s, id, tick, thrown.value)
  }

  predicate StillCurrent(s: State, tick: Tick) {
    s.row.version == tick.order.version && s.row.status != Cancelled
  }

  function AuthorizeStep(s: State, id: nat, tick: Tick, purpose: Purpose, reply: Reply): State {
    match reply
    case Throws(fault) => Deny(s, id, tick, purpose, Some(fault))
    case Ok =>
      if tick.pc.Check? then
        if StillCurrent(s, tick) then Put(s, id, tick, CanProvision(purpose)) else Deny(s, id, tick, purpose, None)
      else if tick.pc.Recheck? then
        if !StillCurrent(s, tick) then Deny(s, id, tick, purpose, None)
        else Put(s, id, tick, if purpose.ForMutation? then Send else Bind)
      else s
    case Answer(yes) =>
      if !yes && (tick.pc.CanProvision? || tick.pc.Fund?)
        then Put(s, id, tick, BackOff(purpose, Retry(s.clock, 60_000)))
      else if tick.pc.CanProvision? then Put(s, id, tick, Fund(purpose))
      else if tick.pc.Fund? then Put(s, id, tick, Recheck(purpose))
      else s
    case _ => s
  }

  function BackOffStep(s: State, id: nat, tick: Tick, purpose: Purpose, patch: Patch, reply: Reply): State {
    if reply.Throws? then Deny(s, id, tick, purpose, Some(reply.fault))
    else if s.row.version != tick.order.version then Deny(s, id, tick, purpose, None)
    else
      var written := s.(row := Apply(tick.order, patch));
      if reply.ThrowsAfterEffect? then Deny(written, id, tick, purpose, Some(reply.fault))
      else Deny(written, id, tick.(order := written.row), purpose, None)
  }

  function Released(s: State, id: nat, tick: Tick, thrown: Option<Fault>): State {
    if thrown.None? then Put(s, id, tick, Leave) else Fail(s, id, tick, thrown.value)
  }

  function ReleaseStep(s: State, id: nat, tick: Tick, thrown: Option<Fault>, reply: Reply): State {
    if reply.Throws? then Fail(s, id, tick, reply.fault)
    else if !s.row.attempted || s.row.status == Cancelled then Released(s, id, tick, thrown)
    else Put(s, id, tick, ReleaseWrite(s.row, thrown))
  }

  /** Clears whatever row was current; it does not ask whose claim that row holds. */
  function ReleaseWriteStep(s: State, id: nat, tick: Tick, current: Order, thrown: Option<Fault>, reply: Reply): State {
    if reply.Throws? then Fail(s, id, tick, reply.fault)
    else if s.row.version != current.version then Released(s, id, tick, thrown)
    else
      var written := s.(row := current.(attempted := false, version := current.version + 1));
      if reply.ThrowsAfterEffect? then Fail(written, id, tick, reply.fault)
      else Released(written, id, tick.(order := written.row), thrown)
  }

  function SendStep(s: State, id: nat, tick: Tick, reply: Reply): State {
    if reply.Throws? && reply.fault.code == InvalidInput then
      // The client refused the arguments, so nothing left it.
      Fail(s, id, tick.(refused := true, unsent := true, settled := true), reply.fault)
    else if reply == Ok then
      Put(s.(requests := s.requests + [Request(tick.order.phase, Outstanding)]), id, tick, Await(|s.requests|))
    else s
  }

  function AwaitStep(s: State, id: nat, tick: Tick, request: nat, reply: Reply): State
    requires request < |s.requests|
  {
    var settled := tick.(settled := true);
    match reply
    case Throws(fault) =>
      if fault.code == InvalidInput then s
      else if fault.code == ProviderRejected then
        if s.requests[request].state != Outstanding then s
        else Fail(s.(requests := s.requests[request := s.requests[request].(state := Refused)]),
                  id, settled.(refused := true), fault)
      else Fail(s, id, settled, fault)
    case Receives(view) =>
      if s.requests[request].state != Effective then s
      else if tick.order.phase == Identity then
        if !Matches(tick.order, view) then Fail(s, id, settled, BAD_RECEIPT)
        else Put(s, id, settled, Save(Adopt(view.id)))
      else if tick.order.phase == Number && tick.order.transport == IMessage then
        if !Matches(tick.order, view) then Fail(s, id, settled, BAD_RECEIPT)
        else NumberKnown(s, id, settled, Selected(tick.order, view))
      else s
    case Purchased(number) =>
      if s.requests[request].state != Effective || tick.order.phase != Number || tick.order.transport != Sms then s
      else Put(s, id, settled, Confirm(number))
    case Minted(material) =>
      if s.requests[request].state != Effective || tick.order.phase != Credential || tick.order.identityId.None? then s
      else Put(s, id, settled, PutVault(Key(tick.order.identityId.value, material)))
    case _ => s
  }

  function ConfirmStep(world: World, s: State, id: nat, tick: Tick, purchased: PhoneNumber, reply: Reply): State {
    match reply
    case Throws(fault) => Fail(s, id, tick, fault)
    case Sees(view) =>
      if !Visible(world, s, view) then s
      else if view.None? || !Matches(tick.order, view.value) then Fail(s, id, tick, BAD_RECEIPT)
      else
        var number := Selected(tick.order, view.value);
        if number.None? || !SameLine(purchased, number.value) then Fail(s, id, tick, BAD_RECEIPT)
        else NumberKnown(s, id, tick, number)
    case _ => s
  }

  function KeyKnown(s: State, id: nat, tick: Tick, key: Key): State {
    if Some(key.identityId) != tick.order.identityId then Fail(s, id, tick, BAD_RECEIPT) else Put(s, id, tick, Verify)
  }

  function ReadVaultStep(s: State, id: nat, tick: Tick, reply: Reply): State {
    if reply.Throws? then Fail(s, id, tick, reply.fault)
    else if tick.order.phase == Credential then
      if s.vault.None? then Lease(s, id, tick) else KeyKnown(s, id, tick, s.vault.value)
    else if s.vault.None? || Some(s.vault.value.identityId) != tick.order.identityId then Fail(s, id, tick, BAD_RECEIPT)
    else Put(s, id, tick, Check(ForBinding))
  }

  function PutVaultStep(s: State, id: nat, tick: Tick, key: Key, reply: Reply): State {
    if reply.Throws? then Fail(s, id, tick, reply.fault)
    else if s.vault.Some? && s.vault.value != key then Fail(s, id, tick, Fault(OutcomeUnknown, None))
    else if reply.ThrowsAfterEffect? then Fail(s.(vault := Some(key)), id, tick, reply.fault)
    else KeyKnown(s.(vault := Some(key)), id, tick, key)
  }

  function BindStep(s: State, id: nat, tick: Tick, reply: Reply): State {
    match reply
    case Throws(fault) => Fail(s, id, tick, fault)
    case Bound(connectionId) =>
      if |connectionId| == 0 || |connectionId| > 256 then Fail(s, id, tick, BAD_RECEIPT)
      else Put(s, id, tick, Save(Finish(connectionId)))
    case _ => s
  }

  /** A final save is returned, not awaited: a store error ends the tick and reaches no handler. */
  function SaveStep(s: State, id: nat, tick: Tick, patch: Patch, reply: Reply): State {
    if reply.Throws? then Put(s, id, tick, Ended(Failed))
    else if s.row.version != tick.order.version then Put(s, id, tick, Reread(ReceiptOf(patch), 0))
    else
      var written := s.(row := Apply(tick.order, patch));
      Put(written, id, tick.(order := written.row),
          Ended(if reply.ThrowsAfterEffect? then Failed else Finished(ReceiptOf(patch))))
  }

  function RereadStep(s: State, id: nat, tick: Tick, receipt: Receipt, attempt: nat, reply: Reply): State {
    if attempt >= 3 then Put(s, id, tick, Ended(ConflictsExhausted))
    else if reply.Throws? then Put(s, id, tick, Ended(Failed))
    else if !Missing(receipt, s.row) then Put(s, id, tick, Ended(Finished(receipt)))
    else Put(s, id, tick, MergeWrite(receipt, attempt, s.row))
  }

  function MergeWriteStep(s: State, id: nat, tick: Tick, receipt: Receipt, attempt: nat, current: Order,
                          reply: Reply): State {
    if reply.Throws? then Put(s, id, tick, Ended(Failed))
    else if s.row.version != current.version then Put(s, id, tick, Reread(receipt, attempt + 1))
    else Put(s.(row := Merge(receipt, current)), id, tick,
             Ended(if reply.ThrowsAfterEffect? then Failed else Finished(receipt)))
  }

  function ResumeStep(world: World, s: State, id: nat, tick: Tick, reply: Reply): State {
    match tick.pc
    case Fetch => FetchStep(s, id, tick, reply)
    case Look => LookStep(world, s, id, tick, reply)
    case Claiming(patch) => ClaimStep(s, id, tick, patch, reply)
    case Check(purpose) => AuthorizeStep(s, id, tick, purpose, reply)
    case CanProvision(purpose) => AuthorizeStep(s, id, tick, purpose, reply)
    case Fund(purpose) => AuthorizeStep(s, id, tick, purpose, reply)
    case Recheck(purpose) => AuthorizeStep(s, id, tick, purpose, reply)
    case BackOff(purpose, patch) => BackOffStep(s, id, tick, purpose, patch, reply)
    case Release(thrown) => ReleaseStep(s, id, tick, thrown, reply)
    case ReleaseWrite(current, thrown) => ReleaseWriteStep(s, id, tick, current, thrown, reply)
    case Leave =>
      if reply.Throws? then Fail(s, id, tick, reply.fault) else Put(s, id, tick, Ended(Finished(NO_RECEIPT)))
    case Send => SendStep(s, id, tick, reply)
    case Await(request) => if request < |s.requests| then AwaitStep(s, id, tick, request, reply) else s
    case Confirm(purchased) => ConfirmStep(world, s, id, tick, purchased, reply)
    case ReadVault => ReadVaultStep(s, id, tick, reply)
    case PutVault(key) => PutVaultStep(s, id, tick, key, reply)
    case Verify => if reply.Throws? then Fail(s, id, tick, reply.fault) else Put(s, id, tick, Save(ISSUED))
    case Bind => BindStep(s, id, tick, reply)
    case Save(patch) => SaveStep(s, id, tick, patch, reply)
    case Reread(receipt, attempt) => RereadStep(s, id, tick, receipt, attempt, reply)
    case MergeWrite(receipt, attempt, current) => MergeWriteStep(s, id, tick, receipt, attempt, current, reply)
    case Ended(_) => s
  }

  function Step(world: World, s: State, action: Action): State {
    match action
    case Wait(until) => if s.clock <= until then s.(clock := until) else s
    case Cancel =>
      if s.row.status == Cancelled then s
      else s.(row := s.row.(status := Cancelled, version := s.row.version + 1))
    case Take(request) =>
      // A request that left takes effect at any time, also after its caller gave up on it.
      if request < |s.requests| && s.requests[request].state == Outstanding
      then s.(requests := s.requests[request := s.requests[request].(state := Effective)]) else s
    case Begin(id) =>
      if id in s.ticks then s else s.(ticks := s.ticks[id := Tick(s.row, 0, false, false, false, Fetch)])
    case Crash(id) => if id in s.ticks then Put(s, id, s.ticks[id], Ended(Failed)) else s
    case Resume(id, reply) => if id in s.ticks then ResumeStep(world, s, id, s.ticks[id], reply) else s
  }

  function Run(world: World, s: State, actions: seq<Action>): State
    decreases |actions|
  {
    if actions == [] then s else Step(world, Run(world, s, actions[..|actions| - 1]), actions[|actions| - 1])
  }

  /** A new order: nothing bought, nothing attempted. */
  function Initial(transport: Transport, version: nat, clock: int): State {
    State(Order(version, transport, Identity, Pending, false, None, None, None, None, None), clock, [], None, map[])
  }
}
