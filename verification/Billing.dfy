/**
  One-time billing evidence over the shared claim journal: a signed token is verified, claimed
  under its replay key, completed, and only then trusted.
 */
module Billing {
  import opened Wrappers
  import opened Journal
  import JM = JournalMachine

  // --- Time arithmetic --------------------------------------------------------------

  const RETENTION_MS := 100.0 * 365.0 * 24.0 * 60.0 * 60.0 * 1000.0

  function Seconds(ms: real): real {
    (ms / 1000.0).Floor as real
  }

  function Ceiling(x: real): real {
    -((-x).Floor as real)
  }

  /** How long a presentation stays claimed; `exp` and the tolerance are in seconds. */
  function TokenTtl(exp: real, now: real, tolerance: real): real {
    var ttl := Ceiling((exp - Seconds(now) + tolerance) * 1000.0);
    if ttl < 1.0 then 1.0 else ttl
  }

  /** Rounding never shortens the claim: counted from the sampled clock it reaches past the expiry. */
  lemma TtlReachesPastExpiry(exp: real, now: real, tolerance: real)
    ensures (exp + tolerance) * 1000.0 <= now + TokenTtl(exp, now, tolerance)
  {
    assert Seconds(now) * 1000.0 <= now;
  }

  // --- Tokens and replay keys ---------------------------------------------------------

  /** A verified token: its id, its expiry, and the purchase it pays with, if any. */
  datatype SignedToken = SignedToken(jti: string, purchase: Option<string>, exp: real)

  const PREFIX: string := "platform-access:id.tangle.tools:1:"

  function ReplayKey(token: SignedToken): Key {
    match token.purchase
    case Some(evidenceId) => PREFIX + ("funding:" + evidenceId)
    case None => PREFIX + ("presentation:" + token.jti)
  }

  function ReplayTtl(token: SignedToken, now: real, tolerance: real): real {
    var ttl := TokenTtl(token.exp, now, tolerance);
    if token.purchase.Some? && ttl < RETENTION_MS then RETENTION_MS else ttl
  }

  /** Purchases and presentations never share a key, and neither do two ids of one kind. */
  lemma ReplayKeysAreInjective(a: SignedToken, b: SignedToken)
    requires ReplayKey(a) == ReplayKey(b)
    ensures a.purchase == b.purchase
    ensures a.purchase.None? ==> a.jti == b.jti
  {
    var n := |PREFIX|;
    assert ReplayKey(a)[n..] == ReplayKey(b)[n..];
    assert ReplayKey(a)[n..][0] == if a.purchase.Some? then 'f' else 'p';
    assert ReplayKey(b)[n..][0] == if b.purchase.Some? then 'f' else 'p';
    if a.purchase.Some? {
      assert a.purchase.value == ReplayKey(a)[n..][|"funding:"|..] == b.purchase.value;
    } else {
      assert a.jti == ReplayKey(a)[n..][|"presentation:"|..] == b.jti;
    }
  }

  // --- Verifications ------------------------------------------------------------------

  /** A key as one store instance knows it. */
  datatype Slot = Slot(site: nat, key: Key)

  /** What an instance registers for a key it has claimed. */
  datatype LocalOwner = LocalOwner(token: Token, ttl: real)

  /**
    `owner` is the token a verification claimed under, `closing` the one its instance has
    registered when it closes. A verification is trusted without a call to close if its instance
    has nothing registered then.
    */
  datatype Stage =
    | Checked
    | Claiming(claim: nat)
    | Owning(claim: nat, owner: Token)
    | Completing(claim: nat, owner: Token, closing: Token, close: nat)
    | Releasing(claim: nat, owner: Token, closing: Token, close: nat)
    | Trusted(claim: nat, owner: Token, closed: Option<nat>)
    | Refused

  /** `site` is the store instance it uses, `sampled` the clock reading the token was checked against. */
  datatype Verification = Verification(site: nat, token: SignedToken, sampled: real, tolerance: real, stage: Stage)

  /**
    Which runs are considered: whether a verification goes on with a claim it has won when its
    token has expired, and whether two claims of one key overlap in one instance. The code
    excludes neither.
    */
  datatype Setting = Setting(lateClaims: bool, overlaps: bool)

  const AS_WRITTEN := Setting(true, true)

  datatype State = State(journal: JM.State, owners: map<Slot, LocalOwner>, verifications: map<nat, Verification>)

  datatype Action =
    | Store(action: JM.Action)
    | Present(id: nat, site: nat, token: SignedToken, tolerance: real)
    | Claim(id: nat, call: nat, lease: real)
    | Learn(id: nat)
    | Complete(id: nat, call: nat, lease: real)
    | Settle(id: nat, call: nat, lease: real)

  predicate Expired(token: SignedToken, now: real) {
    token.exp * 1000.0 <= now
  }

  function Ttl(v: Verification): real {
    ReplayTtl(v.token, v.sampled, v.tolerance)
  }

  function SlotOf(v: Verification): Slot {
    Slot(v.site, ReplayKey(v.token))
  }

  function SetStage(s: State, id: nat, stage: Stage): State
    requires id in s.verifications
  {
    s.(verifications := s.verifications[id := s.verifications[id].(stage := stage)])
  }

  /** Another verification of the same instance is claiming the same key. */
  predicate Overlaps(s: State, id: nat)
    requires id in s.verifications
  {
    exists other :: other in s.verifications && other != id && s.verifications[other].stage.Claiming?
                    && SlotOf(s.verifications[other]) == SlotOf(s.verifications[id])
  }

  predicate Unused(s: State, call: nat, lease: real) {
    call !in s.journal.calls && lease > 0.0
  }

  /** The registered owner of an instance refuses at once; otherwise the claim goes to the journal. */
  function ClaimStep(setting: Setting, s: State, id: nat, call: nat, lease: real): State
    requires id in s.verifications
  {
    var v := s.verifications[id];
    if !v.stage.Checked? || !Unused(s, call, lease) then s
    else if SlotOf(v) in s.owners then SetStage(s, id, Refused)
    else if Overlaps(s, id) && !setting.overlaps then s
    else
      SetStage(s, id, Claiming(call)).(
        journal := JM.Step(s.journal, JM.Begin(call, ReplayKey(v.token), JM.Acquire(Ttl(v)), lease)))
  }

  /** The claim comes back: its owner is registered over whatever the instance has registered. */
  function LearnStep(setting: Setting, s: State, id: nat): State
    requires id in s.verifications
  {
    var v := s.verifications[id];
    if !v.stage.Claiming? || v.stage.claim !in s.journal.calls || !s.journal.calls[v.stage.claim].pc.Done? then s
    else
      var outcome := s.journal.calls[v.stage.claim].pc.outcome;
      if !outcome.Acquired? then SetStage(s, id, Refused)
      else if Expired(v.token, s.journal.clock) && !setting.lateClaims then s
      else
        SetStage(s.(owners := s.owners[SlotOf(v) := LocalOwner(outcome.owner, Ttl(v))]), id,
                 Owning(v.stage.claim, outcome.owner))
  }

  /** Closing uses the registered owner of the key; without one it returns silently. */
  function CompleteStep(s: State, id: nat, call: nat, lease: real): State
    requires id in s.verifications
  {
    var v := s.verifications[id];
    if !v.stage.Owning? || !Unused(s, call, lease) then s
    else if SlotOf(v) !in s.owners then SetStage(s, id, Trusted(v.stage.claim, v.stage.owner, None))
    else
      var entry := s.owners[SlotOf(v)];
      SetStage(s, id, Completing(v.stage.claim, v.stage.owner, entry.token, call)).(
        journal := JM.Step(s.journal,
                           JM.Begin(call, ReplayKey(v.token), JM.Close(entry.token, entry.ttl, Completed), lease)))
  }

  /** After a failed completion the claim is released, again under the registered owner. */
  function ReleaseStep(s: State, id: nat, call: nat, lease: real): State
    requires id in s.verifications && s.verifications[id].stage.Completing?
  {
    var v := s.verifications[id];
    if SlotOf(v) !in s.owners then SetStage(s, id, Refused)
    else
      var entry := s.owners[SlotOf(v)];
      SetStage(s, id, Releasing(v.stage.claim, v.stage.owner, entry.token, call)).(
        journal := JM.Step(s.journal,
                           JM.Begin(call, ReplayKey(v.token), JM.Close(entry.token, entry.ttl, Available), lease)))
  }

  function Unregistered(s: State, id: nat): State
    requires id in s.verifications
  {
    s.(owners := s.owners - {SlotOf(s.verifications[id])})
  }

  /** A finished call to close, of either kind, takes the key's entry out; a failed release only its own. */
  function SettleStep(s: State, id: nat, call: nat, lease: real): State
    requires id in s.verifications
  {
    var v := s.verifications[id];
    if !(v.stage.Completing? || v.stage.Releasing?) || v.stage.close !in s.journal.calls
       || !s.journal.calls[v.stage.close].pc.Done? || !Unused(s, call, lease)
    then s
    else
      var outcome := s.journal.calls[v.stage.close].pc.outcome;
      if v.stage.Completing? then
        if outcome == JM.Returned
        then SetStage(Unregistered(s, id), id, Trusted(v.stage.claim, v.stage.owner, Some(v.stage.close)))
        else if outcome == JM.OwnershipLost then SetStage(Unregistered(s, id), id, Refused)
        else ReleaseStep(s, id, call, lease)
      else if outcome == JM.Returned || (SlotOf(v) in s.owners && s.owners[SlotOf(v)].token == v.stage.closing)
      then SetStage(Unregistered(s, id), id, Refused)
      else SetStage(s, id, Refused)
  }

  function Step(setting: Setting, s: State, action: Action): State {
    match action
    case Store(inner) => s.(journal := JM.Step(s.journal, inner))
    case Present(id, site, token, tolerance) =>
      if id in s.verifications || tolerance < 0.0 || token.exp <= Seconds(s.journal.clock) then s
      else s.(verifications := s.verifications[id := Verification(site, token, s.journal.clock, tolerance, Checked)])
    case Claim(id, call, lease) => if id in s.verifications then ClaimStep(setting, s, id, call, lease) else s
    case Learn(id) => if id in s.verifications then LearnStep(setting, s, id) else s
    case Complete(id, call, lease) => if id in s.verifications then CompleteStep(s, id, call, lease) else s
    case Settle(id, call, lease) => if id in s.verifications then SettleStep(s, id, call, lease) else s
  }

  function Run(setting: Setting, s: State, actions: seq<Action>): State
    decreases |actions|
  {
    if actions == [] then s else Step(setting, Run(setting, s, actions[..|actions| - 1]), actions[|actions| - 1])
  }

  function Initial(now: real): State {
    State(JM.Initial(now), map[], map[])
  }
}
