/**
  What stops an order: reads that contradict its row go to review, and a call that was refused,
  never left, or was not allowed gives the attempt back. One undisturbed tick each, in every world.
 */
module ProvisionReviews {
  import opened Wrappers
  import opened Provision
  import opened ProvisionRecovery
  import PT = ProvisionTheorems

  // --- Reads that contradict the row --------------------------------------------------------------

  /** The row under review: nothing it records is lost, and nothing is sent. */
  function Reviewed(row: Order, clock: int): Order {
    row.(version := row.version + 1, status := NeedsReview, nextAttemptAt := Some(clock + 6 * 60 * 60_000))
  }

  predicate ShowsOther(s: State, view: View) {
    !view.matches || (s.row.identityId.Some? && view.id != s.row.identityId.value)
  }

  /** One read is enough for the verdict. */
  lemma ReadIsReviewed(world: World, s: State, id: nat, seen: Option<View>)
    requires id !in s.ticks && PT.IsOpen(s) && (s.row.phase == Identity || s.row.identityId.Some?)
    requires Leads(world, s, id, Look, Sees(seen), Save(Review(s.clock)))
    ensures Leaves(s, TickOf(world, s, id, [Ok, Sees(seen), Ok]), id, Reviewed(s.row, s.clock))
  {
    hide TickOf, Leads;
    assert [Ok, Sees(seen), Ok] == [Ok] + ([Sees(seen)] + [Ok]);
    Looks(world, s, id, [Sees(seen)] + [Ok]);
    Goes(world, s, id, Look, Sees(seen), Save(Review(s.clock)), [Ok]);
    Saves(world, s, id, Review(s.clock));
  }

  /** An identity with another id, handle or organization is never taken for the order's own. */
  lemma OtherIdentityIsReviewed(world: World, s: State, id: nat, view: View)
    requires id !in s.ticks && PT.IsOpen(s) && (s.row.phase != Identity ==> s.row.identityId.Some?)
    requires Visible(world, s, Some(view)) && ShowsOther(s, view)
    ensures Leaves(s, TickOf(world, s, id, [Ok, Sees(Some(view)), Ok]), id, Reviewed(s.row, s.clock))
  {
    assert Leads(world, s, id, Look, Sees(Some(view)), Save(Review(s.clock)));
    hide Leads;
    ReadIsReviewed(world, s, id, Some(view));
  }

  /** A recorded identity that is gone is not made again. */
  lemma VanishedIdentityIsReviewed(world: World, s: State, id: nat)
    requires id !in s.ticks && PT.IsOpen(s) && s.row.phase != Identity && s.row.identityId.Some?
    ensures Leaves(s, TickOf(world, s, id, [Ok, Sees(None), Ok]), id, Reviewed(s.row, s.clock))
  {
    assert Leads(world, s, id, Look, Sees(None), Save(Review(s.clock)));
    hide Leads;
    ReadIsReviewed(world, s, id, None);
  }

  /** The line a read shows is not the one the row records: it is gone, another, or not ready any more. */
  predicate LineFails(s: State, view: View) {
    if s.row.number.None? then s.row.phase != Number
    else
      || view.number.None? || (s.row.transport == IMessage && !view.iMessageEnabled)
      || view.number.value.id != s.row.number.value.id || view.number.value.digits != s.row.number.value.digits
      || (s.row.phase != Number && !IsReady(s.row.transport, view.number.value))
  }

  /** A recorded line that fails is not bought again. */
  lemma FailedLineIsReviewed(world: World, s: State, id: nat, view: View)
    requires id !in s.ticks && PT.IsOpen(s) && s.row.phase != Identity && s.row.identityId.Some?
    requires ShowsOwn(world, s, view) && LineFails(s, view)
    ensures Leaves(s, TickOf(world, s, id, [Ok, Sees(Some(view)), Ok]), id, Reviewed(s.row, s.clock))
  {
    assert Leads(world, s, id, Look, Sees(Some(view)), Save(Review(s.clock)));
    hide Leads;
    ReadIsReviewed(world, s, id, Some(view));
  }

  lemma LineIsFine(world: World, s: State, id: nat, view: View)
    requires (s.row.phase == Credential || s.row.phase == Connection) && ShowsRecorded(world, s, view)
    ensures Leads(world, s, id, Look, Sees(Some(view)), ReadVault)
  {}

  lemma KeyIsForeign(world: World, s: State, id: nat)
    requires s.row.phase == Credential || s.row.phase == Connection
    requires s.vault.None? ==> s.row.phase == Connection
    requires s.vault.Some? ==> s.row.identityId != Some(s.vault.value.identityId)
    ensures Leads(world, s, id, ReadVault, Ok, Save(Review(s.clock)))
  {}

  /** A key of another identity, or none where one was stored before, is not used. */
  lemma ForeignKeyIsReviewed(world: World, s: State, id: nat, view: View)
    requires id !in s.ticks && PT.IsOpen(s) && (s.row.phase == Credential || s.row.phase == Connection)
    requires ShowsRecorded(world, s, view) && (s.vault.None? ==> s.row.phase == Connection)
    requires s.vault.Some? ==> s.row.identityId != Some(s.vault.value.identityId)
    ensures Leaves(s, TickOf(world, s, id, [Ok, Sees(Some(view)), Ok, Ok]), id, Reviewed(s.row, s.clock))
  {
    LineIsFine(world, s, id, view);
    KeyIsForeign(world, s, id);
    hide Leads, TickOf, ShowsOwn, ShowsLine;
    assert [Ok, Sees(Some(view)), Ok, Ok] == [Ok] + ([Sees(Some(view))] + ([Ok] + [Ok]));
    Looks(world, s, id, [Sees(Some(view))] + ([Ok] + [Ok]));
    Goes(world, s, id, Look, Sees(Some(view)), ReadVault, [Ok] + [Ok]);
    Goes(world, s, id, ReadVault, Ok, Save(Review(s.clock)), [Ok]);
    Saves(world, s, id, Review(s.clock));
  }

  // --- Attempts that are given back, and attempts that are not --------------------------------------

  /** A tick that knows the row and has its attempt on the journal. */
  predicate Attempts(s: State, id: nat, pc: Pc) {
    id in s.ticks && s.ticks[id] == Tick(s.row, s.ticks[id].now, false, false, false, pc) && s.row.attempted
  }

  /** Half a minute, or what the provider asked for, but no more than a day. */
  function Wait(fault: Fault): int {
    match fault.retryAfterSeconds
    case None => 30_000
    case Some(asked) => if asked < 30 then 30_000 else if asked > 24 * 60 * 60 then 24 * 60 * 60_000 else asked * 1000
  }

  /** The tick is over and leaves this row and these requests. */
  predicate Closes(s: State, s': State, id: nat, row: Order, requests: seq<Request>) {
    && s' == s.(row := row, requests := requests, ticks := s'.ticks) && id in s'.ticks
    && s'.ticks == s.ticks[id := s'.ticks[id]] && s'.ticks[id].pc.Ended? && s'.ticks[id].pc.end.Finished?
  }

  /** A fault is caught, and the catch is saved. */
  lemma CatchIsSaved(world: World, s: State, id: nat, tick: Tick, fault: Fault)
    requires id in s.ticks && s.ticks[id] == tick.(pc := Save(Caught(tick, fault, s.clock))) && tick.order == s.row
    ensures var s' := Answered(world, s, id, [Ok]);
            Closes(s, s', id, Apply(s.row, Caught(tick, fault, s.clock)), s.requests)
  {
    hide Caught, Apply;
    assert [Ok] + [] == [Ok];
    NextAnswer(world, s, id, Ok, []);
    NoMoreAnswers(world, Step(world, s, Resume(id, Ok)), id);
  }

  lemma AnswersFault(world: World, s: State, s': State, id: nat, tick: Tick, fault: Fault)
    requires Step(world, s, Resume(id, Throws(fault))) == s' && tick.order == s'.row && s'.clock == s.clock
    requires id in s'.ticks && s'.ticks[id] == tick.(pc := Save(Caught(tick, fault, s'.clock)))
    ensures var s'' := Answered(world, s, id, [Throws(fault), Ok]);
            Closes(s', s'', id, Apply(s'.row, Caught(tick, fault, s.clock)), s'.requests)
  {
    hide Caught, Apply, Step, Answered;
    assert [Throws(fault), Ok] == [Throws(fault)] + [Ok];
    NextAnswer(world, s, id, Throws(fault), [Ok]);
    CatchIsSaved(world, s', id, tick, fault);
  }

  /** A call the provider definitely refused may be made again, but for a key that may have been issued. */
  lemma RefusedCallReopens(world: World, s: State, id: nat, request: nat, fault: Fault)
    requires Attempts(s, id, Await(request)) && fault.code == ProviderRejected
    requires request < |s.requests| && s.requests[request].state == Outstanding
    ensures Closes(s, Answered(world, s, id, [Throws(fault), Ok]), id,
                   s.row.(version := s.row.version + 1, status := ProviderPending,
                          attempted := s.row.phase == Credential, attemptedAt := None,
                          nextAttemptAt := Some(s.clock + Wait(fault))),
                   s.requests[request := Request(s.requests[request].phase, RequestState.Refused)])
  {
    var tick := s.ticks[id].(settled := true, refused := true);
    hide Answered;
    AnswersFault(world, s, Step(world, s, Resume(id, Throws(fault))), id, tick, fault);
  }

  /** A call of unknown outcome is never made again by itself. */
  lemma LostCallStays(world: World, s: State, id: nat, request: nat, fault: Fault)
    requires Attempts(s, id, Await(request)) && (fault.code == OutcomeUnknown || fault.code == Unavailable)
    requires request < |s.requests|
    ensures Closes(s, Answered(world, s, id, [Throws(fault), Ok]), id,
                   s.row.(version := s.row.version + 1, status := ProviderPending, attemptedAt := None,
                          nextAttemptAt := Some(s.clock + Wait(fault))),
                   s.requests)
  {
    var tick := s.ticks[id].(settled := true);
    hide Answered, NumberKnown, Matches, Selected;
    AnswersFault(world, s, Step(world, s, Resume(id, Throws(fault))), id, tick, fault);
  }

  /** A call that never left the client may be made again in every phase. */
  lemma UnsentCallReopens(world: World, s: State, id: nat, fault: Fault)
    requires Attempts(s, id, Send) && fault.code == InvalidInput
    ensures Closes(s, Answered(world, s, id, [Throws(fault), Ok]), id,
                   s.row.(version := s.row.version + 1, status := ProviderPending, attempted := false,
                          attemptedAt := None, nextAttemptAt := Some(s.clock + Wait(fault))),
                   s.requests)
  {
    var tick := s.ticks[id].(settled := true, refused := true, unsent := true);
    hide Answered;
    AnswersFault(world, s, Step(world, s, Resume(id, Throws(fault))), id, tick, fault);
  }

  /** The tick as it goes on with a row it knows. */
  function On(s: State, id: nat, row: Order, pc: Pc): State
    requires id in s.ticks
  {
    s.(row := row, ticks := s.ticks[id := s.ticks[id].(order := row, pc := pc)])
  }

  function Denied(row: Order, clock: int): Order {
    row.(version := row.version + 1, status := ProviderPending, nextAttemptAt := Some(clock + 60_000))
  }

  function GivenBack(row: Order): Order {
    row.(version := row.version + 1, attempted := false)
  }

  lemma DenialIsSaved(world: World, s: State, id: nat, pc: Pc)
    requires Attempts(s, id, pc) && (pc == CanProvision(ForMutation) || pc == Fund(ForMutation))
    ensures Answered(world, s, id, [Answer(false), Ok]) == On(s, id, Denied(s.row, s.clock), Release(None))
  {
    var saving := On(s, id, s.row, BackOff(ForMutation, Retry(s.clock, 60_000)));
    assert Step(world, s, Resume(id, Answer(false))) == saving;
    assert Step(world, saving, Resume(id, Ok)) == On(s, id, Denied(s.row, s.clock), Release(None));
    hide Step;
    assert [Answer(false), Ok] == [Answer(false)] + [Ok] && [Ok] == [Ok] + [];
    NextAnswer(world, s, id, Answer(false), [Ok]);
    NextAnswer(world, saving, id, Ok, []);
  }

  lemma ClaimIsReleased(world: World, s: State, id: nat)
    requires Attempts(s, id, Release(None)) && s.row.status != Cancelled
    ensures Answered(world, s, id, [Ok, Ok, Ok]) == On(s, id, GivenBack(s.row), Ended(Finished(NO_RECEIPT)))
  {
    var writing, leaving := On(s, id, s.row, ReleaseWrite(s.row, None)), On(s, id, GivenBack(s.row), Leave);
    assert Step(world, s, Resume(id, Ok)) == writing;
    assert Step(world, writing, Resume(id, Ok)) == leaving;
    assert Step(world, leaving, Resume(id, Ok)) == On(s, id, GivenBack(s.row), Ended(Finished(NO_RECEIPT)));
    hide Step;
    assert [Ok, Ok, Ok] == [Ok] + ([Ok] + ([Ok] + []));
    NextAnswer(world, s, id, Ok, [Ok] + ([Ok] + []));
    NextAnswer(world, writing, id, Ok, [Ok] + []);
    NextAnswer(world, leaving, id, Ok, []);
  }

  lemma {:induction false} AnsweredInTurn(world: World, s: State, id: nat, first: seq<Reply>, more: seq<Reply>)
    ensures Answered(world, s, id, first + more) == Answered(world, Answered(world, s, id, first), id, more)
    decreases |first|
  {
    hide Step;
    if first == [] {
      assert first + more == more;
    } else {
      assert (first + more)[1..] == first[1..] + more;
      AnsweredInTurn(world, Step(world, s, Resume(id, first[0])), id, first[1..], more);
    }
  }

  /** Without permission or funding the attempt is given back, nothing is sent, and the order is due in a minute. */
  lemma DeniedAttemptIsGivenBack(world: World, s: State, id: nat, pc: Pc)
    requires Attempts(s, id, pc) && (pc == CanProvision(ForMutation) || pc == Fund(ForMutation))
    ensures Closes(s, Answered(world, s, id, [Answer(false), Ok, Ok, Ok, Ok]), id,
                   s.row.(version := s.row.version + 2, status := ProviderPending, attempted := false,
                          nextAttemptAt := Some(s.clock + 60_000)),
                   s.requests)
  {
    hide Answered;
    var denied := On(s, id, Denied(s.row, s.clock), Release(None));
    DenialIsSaved(world, s, id, pc);
    ClaimIsReleased(world, denied, id);
    assert [Answer(false), Ok, Ok, Ok, Ok] == [Answer(false), Ok] + [Ok, Ok, Ok];
    AnsweredInTurn(world, s, id, [Answer(false), Ok], [Ok, Ok, Ok]);
  }
}
