/**
  A journaled call is reconciled by reading what the provider has: one undisturbed tick, in every
  world, from every state whose row and vault are in order. Rows are spelled out field by field.
 */
module ProvisionRecovery {
  import opened Wrappers
  import opened Provision
  import opened ProvisionProgress
  import PT = ProvisionTheorems

  // --- One undisturbed tick -----------------------------------------------------------------

  function Answered(world: World, s: State, id: nat, replies: seq<Reply>): State
    decreases |replies|
  {
    if replies == [] then s else Answered(world, Step(world, s, Resume(id, replies[0])), id, replies[1..])
  }

  /** A new tick runs from its first read on, and its awaited calls come back with these replies, one by one. */
  function TickOf(world: World, s: State, id: nat, replies: seq<Reply>): State {
    Answered(world, Step(world, s, Begin(id)), id, replies)
  }

  lemma {:induction false} AnsweredIsReachable(world: World, start: State, s: State, id: nat, replies: seq<Reply>)
    requires PT.Reachable(world, start, s)
    ensures PT.Reachable(world, start, Answered(world, s, id, replies))
    decreases |replies|
  {
    hide PT.Reachable, Step;
    if replies == [] {
    } else {
      var s' := PT.Go(world, start, s, Resume(id, replies[0]));
      AnsweredIsReachable(world, start, s', id, replies[1..]);
    }
  }

  lemma TickIsReachable(world: World, start: State, s: State, id: nat, replies: seq<Reply>)
    requires PT.Reachable(world, start, s)
    ensures PT.Reachable(world, start, TickOf(world, s, id, replies))
  {
    hide PT.Reachable, Step, Answered;
    var s' := PT.Go(world, start, s, Begin(id));
    AnsweredIsReachable(world, start, s', id, replies);
  }

  lemma NextAnswer(world: World, s: State, id: nat, reply: Reply, more: seq<Reply>)
    ensures Answered(world, s, id, [reply] + more) == Answered(world, Step(world, s, Resume(id, reply)), id, more)
  {
    assert ([reply] + more)[1..] == more;
  }

  lemma NoMoreAnswers(world: World, s: State, id: nat)
    ensures Answered(world, s, id, []) == s
  {}

  /** The tick fetches a due row and reads the identity next. */
  lemma Looks(world: World, s: State, id: nat, more: seq<Reply>)
    requires id !in s.ticks && PT.IsOpen(s) && (s.row.phase == Identity || s.row.identityId.Some?)
    ensures TickOf(world, s, id, [Ok] + more) == Answered(world, PT.Ticked(s, id, s.row, Look), id, more)
  {
    hide Answered;
    var begun := Step(world, s, Begin(id));
    NextAnswer(world, begun, id, Ok, more);
    assert Step(world, begun, Resume(id, Ok)).ticks == PT.Ticked(s, id, s.row, Look).ticks;
  }

  /** The reply takes a tick that knows the row from one step to the next. */
  predicate Leads(world: World, s: State, id: nat, pc: Pc, reply: Reply, next: Pc) {
    ResumeStep(world, PT.Ticked(s, id, s.row, pc), id, Tick(s.row, s.clock, false, false, false, pc), reply)
    == PT.Ticked(PT.Ticked(s, id, s.row, pc), id, s.row, next)
  }

  /** One answer of an undisturbed tick leads to its next step. */
  lemma Goes(world: World, s: State, id: nat, pc: Pc, reply: Reply, next: Pc, more: seq<Reply>)
    requires Leads(world, s, id, pc, reply, next)
    ensures Answered(world, PT.Ticked(s, id, s.row, pc), id, [reply] + more) ==
              Answered(world, PT.Ticked(s, id, s.row, next), id, more)
  {
    hide Answered, ResumeStep;
    PT.TickedTwice(s, id, pc, next);
    NextAnswer(world, PT.Ticked(s, id, s.row, pc), id, reply, more);
  }

  /** Its save goes through, and the tick is over. */
  lemma Saves(world: World, s: State, id: nat, patch: Patch)
    ensures var s' := Answered(world, PT.Ticked(s, id, s.row, Save(patch)), id, [Ok]);
            s' == s.(row := Apply(s.row, patch), ticks := s'.ticks)
            && s'.ticks == s.ticks[id := Tick(s'.row, s.clock, false, false, false, Ended(Finished(ReceiptOf(patch))))]
  {
    var ticked := PT.Ticked(s, id, s.row, Save(patch));
    hide Answered, Apply;
    assert [Ok] + [] == [Ok];
    NextAnswer(world, ticked, id, Ok, []);
    NoMoreAnswers(world, Step(world, ticked, Resume(id, Ok)), id);
    assert Step(world, ticked, Resume(id, Ok)).ticks ==
           s.ticks[id := Tick(Apply(s.row, patch), s.clock, false, false, false, Ended(Finished(ReceiptOf(patch))))];
  }

  /** Row, requests, vault and clock after a tick; nobody else's tick is touched. */
  predicate Leaves(s: State, s': State, id: nat, row: Order) {
    && s' == s.(row := row, ticks := s'.ticks) && id in s'.ticks && s'.ticks == s.ticks[id := s'.ticks[id]]
    && s'.ticks[id].pc.Ended? && s'.ticks[id].pc.end.Finished?
  }

  // --- Reconciliation -------------------------------------------------------------------------

  /** A read that shows the order's own identity. */
  predicate ShowsOwn(world: World, s: State, view: View) {
    Visible(world, s, Some(view)) && view.matches && (s.row.identityId.Some? ==> view.id == s.row.identityId.value)
  }

  /** It shows a line, for iMessage only once the identity is enabled for it. */
  predicate ShowsLine(s: State, view: View, line: PhoneNumber) {
    && view.number == Some(line) && (s.row.transport == IMessage ==> view.iMessageEnabled)
    && (s.row.number.Some? ==> s.row.number.value.id == line.id && s.row.number.value.digits == line.digits)
  }

  predicate IsReady(transport: Transport, line: PhoneNumber) {
    transport == Sms ==> line.smsReady && line.active
  }

  /** The attempt is on the journal: the next read that shows the identity takes it over, and nothing is sent. */
  lemma IdentityIsRecovered(world: World, s: State, id: nat, view: View)
    requires id !in s.ticks && PT.IsOpen(s) && s.row.phase == Identity && s.row.attempted
    requires ShowsOwn(world, s, view)
    ensures Leaves(s, TickOf(world, s, id, [Ok, Sees(Some(view)), Ok]), id,
                   s.row.(version := s.row.version + 1, phase := Number, status := Pending, attempted := false,
                          identityId := Some(view.id)))
  {
    assert [Ok, Sees(Some(view)), Ok] == [Ok] + ([Sees(Some(view))] + [Ok]);
    Looks(world, s, id, [Sees(Some(view))] + [Ok]);
    Goes(world, s, id, Look, Sees(Some(view)), Save(Adopt(view.id)), [Ok]);
    Saves(world, s, id, Adopt(view.id));
  }

  /** Nothing to show for a burned attempt: no second one is made. */
  lemma MissingIdentityIsReviewed(world: World, s: State, id: nat)
    requires id !in s.ticks && PT.IsOpen(s) && s.row.phase == Identity && s.row.attempted
    requires s.row.attemptedAt.Some? ==> s.clock - s.row.attemptedAt.value >= 5 * 60_000
    ensures Leaves(s, TickOf(world, s, id, [Ok, Sees(None), Ok]), id,
                   s.row.(version := s.row.version + 1, status := NeedsReview,
                          nextAttemptAt := Some(s.clock + 6 * 60 * 60_000)))
  {
    assert [Ok, Sees(None), Ok] == [Ok] + ([Sees(None)] + [Ok]);
    Looks(world, s, id, [Sees(None)] + [Ok]);
    Goes(world, s, id, Look, Sees(None), Save(Review(s.clock)), [Ok]);
    Saves(world, s, id, Review(s.clock));
  }

  /** A purchase that a read shows is recorded, whether its answer came back or not, and nothing is sent. */
  lemma LineIsRecovered(world: World, s: State, id: nat, view: View, line: PhoneNumber)
    requires id !in s.ticks && PT.IsOpen(s) && s.row.phase == Number && s.row.identityId.Some?
    requires ShowsOwn(world, s, view) && ShowsLine(s, view, line) && IsReady(s.row.transport, line)
    ensures Leaves(s, TickOf(world, s, id, [Ok, Sees(Some(view)), Ok]), id,
                   s.row.(version := s.row.version + 1, phase := Credential, status := Pending, attempted := false,
                          number := Some(line), nextAttemptAt := None))
  {
    assert [Ok, Sees(Some(view)), Ok] == [Ok] + ([Sees(Some(view))] + [Ok]);
    Looks(world, s, id, [Sees(Some(view))] + [Ok]);
    Goes(world, s, id, Look, Sees(Some(view)), Save(Attach(line)), [Ok]);
    Saves(world, s, id, Attach(line));
  }

  /** An SMS line that is not ready yet is recorded all the same; only the phase waits. */
  lemma UnreadyLineIsRecorded(world: World, s: State, id: nat, view: View, line: PhoneNumber)
    requires id !in s.ticks && PT.IsOpen(s) && s.row.phase == Number && s.row.identityId.Some?
    requires ShowsOwn(world, s, view) && ShowsLine(s, view, line) && !IsReady(s.row.transport, line)
    ensures Leaves(s, TickOf(world, s, id, [Ok, Sees(Some(view)), Ok]), id,
                   s.row.(version := s.row.version + 1, status := ProviderPending, attempted := false,
                          number := Some(line), nextAttemptAt := Some(s.clock + 30_000)))
  {
    assert [Ok, Sees(Some(view)), Ok] == [Ok] + ([Sees(Some(view))] + [Ok]);
    Looks(world, s, id, [Sees(Some(view))] + [Ok]);
    Goes(world, s, id, Look, Sees(Some(view)), Save(Record(line, s.clock)), [Ok]);
    Saves(world, s, id, Record(line, s.clock));
  }

  /** The identity is there and the line is not: an SMS order buys no second one. */
  lemma MissingLineIsReviewed(world: World, s: State, id: nat, view: View)
    requires id !in s.ticks && PT.IsOpen(s) && s.row.phase == Number && s.row.identityId.Some? && s.row.attempted
    requires s.row.attemptedAt.Some? ==> s.clock - s.row.attemptedAt.value >= 5 * 60_000
    requires s.row.transport == Sms && s.row.number.None? && ShowsOwn(world, s, view) && view.number.None?
    ensures Leaves(s, TickOf(world, s, id, [Ok, Sees(Some(view)), Ok]), id,
                   s.row.(version := s.row.version + 1, status := NeedsReview,
                          nextAttemptAt := Some(s.clock + 6 * 60 * 60_000)))
  {
    assert [Ok, Sees(Some(view)), Ok] == [Ok] + ([Sees(Some(view))] + [Ok]);
    Looks(world, s, id, [Sees(Some(view))] + [Ok]);
    Goes(world, s, id, Look, Sees(Some(view)), Save(Review(s.clock)), [Ok]);
    Saves(world, s, id, Review(s.clock));
  }

  /** An accepted iMessage claim may wait for its line. */
  lemma AcceptedLineIsAwaited(world: World, s: State, id: nat, view: View)
    requires id !in s.ticks && PT.IsOpen(s) && s.row.phase == Number && s.row.identityId.Some? && s.row.attempted
    requires s.row.transport == IMessage && s.row.number.None? && ShowsOwn(world, s, view)
    requires view.iMessageEnabled && view.number.None?
    ensures Leaves(s, TickOf(world, s, id, [Ok, Sees(Some(view)), Ok]), id,
                   s.row.(version := s.row.version + 1, status := ProviderPending,
                          nextAttemptAt := Some(s.clock + 30_000)))
  {
    assert [Ok, Sees(Some(view)), Ok] == [Ok] + ([Sees(Some(view))] + [Ok]);
    Looks(world, s, id, [Sees(Some(view))] + [Ok]);
    Goes(world, s, id, Look, Sees(Some(view)), Save(Retry(s.clock, 30_000)), [Ok]);
    Saves(world, s, id, Retry(s.clock, 30_000));
  }

  /** The read shows the line that the row records, ready. */
  predicate ShowsRecorded(world: World, s: State, view: View) {
    && s.row.identityId.Some? && ShowsOwn(world, s, view) && s.row.number.Some? && view.number.Some?
    && ShowsLine(s, view, view.number.value) && IsReady(s.row.transport, view.number.value)
  }

  lemma LineChecks(world: World, s: State, id: nat, view: View)
    requires s.row.phase == Credential && ShowsRecorded(world, s, view)
    ensures Leads(world, s, id, Look, Sees(Some(view)), ReadVault)
  {}

  lemma KeyVerifies(world: World, s: State, id: nat)
    ensures Leads(world, s, id, Verify, Ok, Save(ISSUED))
  {}

  lemma KeyIsFound(world: World, s: State, id: nat)
    requires s.row.phase == Credential && s.vault.Some? && s.row.identityId == Some(s.vault.value.identityId)
    ensures Leads(world, s, id, ReadVault, Ok, Verify)
  {}

  lemma KeyIsMissed(world: World, s: State, id: nat)
    requires s.row.phase == Credential && s.vault.None? && s.row.attempted
    requires s.row.attemptedAt.Some? ==> s.clock - s.row.attemptedAt.value >= 5 * 60_000
    ensures Leads(world, s, id, ReadVault, Ok, Save(Review(s.clock)))
  {}

  /** A key that reached the vault is found there; no second one is minted. */
  lemma KeyIsRecovered(world: World, s: State, id: nat, view: View)
    requires id !in s.ticks && PT.IsOpen(s) && s.row.phase == Credential && ShowsRecorded(world, s, view)
    requires s.vault.Some? && s.row.identityId == Some(s.vault.value.identityId)
    ensures Leaves(s, TickOf(world, s, id, [Ok, Sees(Some(view)), Ok, Ok, Ok]), id,
                   s.row.(version := s.row.version + 1, phase := Connection, status := Pending, attempted := false))
  {
    LineChecks(world, s, id, view);
    KeyIsFound(world, s, id);
    KeyVerifies(world, s, id);
    hide Leads, TickOf, ShowsOwn, ShowsLine;
    assert [Ok, Sees(Some(view)), Ok, Ok, Ok] == [Ok] + ([Sees(Some(view))] + ([Ok] + ([Ok] + [Ok])));
    Looks(world, s, id, [Sees(Some(view))] + ([Ok] + ([Ok] + [Ok])));
    Goes(world, s, id, Look, Sees(Some(view)), ReadVault, [Ok] + ([Ok] + [Ok]));
    Goes(world, s, id, ReadVault, Ok, Verify, [Ok] + [Ok]);
    Goes(world, s, id, Verify, Ok, Save(ISSUED), [Ok]);
    Saves(world, s, id, ISSUED);
  }

  /** A key that was minted and never reached the vault is lost: no second one is minted. */
  lemma LostKeyIsReviewed(world: World, s: State, id: nat, view: View)
    requires id !in s.ticks && PT.IsOpen(s) && s.row.phase == Credential && ShowsRecorded(world, s, view)
    requires s.vault.None? && s.row.attempted
    requires s.row.attemptedAt.Some? ==> s.clock - s.row.attemptedAt.value >= 5 * 60_000
    ensures Leaves(s, TickOf(world, s, id, [Ok, Sees(Some(view)), Ok, Ok]), id,
                   s.row.(version := s.row.version + 1, status := NeedsReview,
                          nextAttemptAt := Some(s.clock + 6 * 60 * 60_000)))
  {
    LineChecks(world, s, id, view);
    KeyIsMissed(world, s, id);
    hide Leads, TickOf, ShowsOwn, ShowsLine;
    assert [Ok, Sees(Some(view)), Ok, Ok] == [Ok] + ([Sees(Some(view))] + ([Ok] + [Ok]));
    Looks(world, s, id, [Sees(Some(view))] + ([Ok] + [Ok]));
    Goes(world, s, id, Look, Sees(Some(view)), ReadVault, [Ok] + [Ok]);
    Goes(world, s, id, ReadVault, Ok, Save(Review(s.clock)), [Ok]);
    Saves(world, s, id, Review(s.clock));
  }

  // --- What a tick leaves alone -----------------------------------------------------------------

  /** While another call may be in flight, a tick that has nothing to show for it waits. */
  lemma InFlightWaits(world: World, s: State, id: nat)
    requires id !in s.ticks && PT.IsOpen(s) && s.row.phase == Identity && s.row.attempted
    requires s.row.attemptedAt.Some? && s.clock - s.row.attemptedAt.value < 5 * 60_000
    ensures Leaves(s, TickOf(world, s, id, [Ok, Sees(None)]), id, s.row)
  {
    assert [Ok, Sees(None)] == [Ok] + ([Sees(None)] + []);
    Looks(world, s, id, [Sees(None)] + []);
    Goes(world, s, id, Look, Sees(None), Ended(Finished(NO_RECEIPT)), []);
    NoMoreAnswers(world, PT.Ticked(s, id, s.row, Ended(Finished(NO_RECEIPT))), id);
  }

  /** An identity that exists before any attempt is nobody's evidence: it is not adopted. */
  lemma ForeignIdentityIsReviewed(world: World, s: State, id: nat, view: View)
    requires id !in s.ticks && PT.IsOpen(s) && s.row.phase == Identity && !s.row.attempted && s.row.identityId.None?
    requires Visible(world, s, Some(view))
    ensures Leaves(s, TickOf(world, s, id, [Ok, Sees(Some(view)), Ok]), id,
                   s.row.(version := s.row.version + 1, status := NeedsReview,
                          nextAttemptAt := Some(s.clock + 6 * 60 * 60_000)))
  {
    assert [Ok, Sees(Some(view)), Ok] == [Ok] + ([Sees(Some(view))] + [Ok]);
    Looks(world, s, id, [Sees(Some(view))] + [Ok]);
    Goes(world, s, id, Look, Sees(Some(view)), Save(Review(s.clock)), [Ok]);
    Saves(world, s, id, Review(s.clock));
  }

  /** A complete, cancelled or later order is left alone. */
  lemma ClosedOrderIsLeftAlone(world: World, s: State, id: nat)
    requires id !in s.ticks && !PT.IsOpen(s)
    ensures Leaves(s, TickOf(world, s, id, [Ok]), id, s.row)
  {
    var begun := Step(world, s, Begin(id));
    assert [Ok] == [Ok] + [];
    NextAnswer(world, begun, id, Ok, []);
    NoMoreAnswers(world, Step(world, begun, Resume(id, Ok)), id);
    hide Answered;
    assert Step(world, begun, Resume(id, Ok)).ticks == PT.Ticked(s, id, s.row, Ended(Finished(NO_RECEIPT))).ticks;
  }
}
