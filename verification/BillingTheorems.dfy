/** How often one purchase or one signed token can be trusted. */
module BillingTheorems {
  import opened Wrappers
  import opened Journal
  import opened Billing
  import opened BillingInvariant
  import JM = JournalMachine

  // --- At most once per window ------------------------------------------------------------

  /** The completion of a trusted verification, as it stands in the journal. */
  ghost predicate CompletedAt(s: State, v: Verification, i: nat) {
    var log := JM.LogOf(s.journal, ReplayKey(v.token));
    && v.stage.Trusted? && i < |log|
    && JM.IsCompletionOf(log[i].record, v.stage.owner, v.sampled + Ttl(v))
  }

  lemma TrustedIsCompleted(setting: Setting, s: State, id: nat) returns (i: nat)
    requires !setting.overlaps && Inv(setting, s) && id in s.verifications && s.verifications[id].stage.Trusted?
    ensures CompletedAt(s, s.verifications[id], i)
  {
    var v := s.verifications[id];
    assert StageOk(setting, s.journal, v);
    hide StageOk, Ttl, ReplayKey;
    var log, call := JM.LogOf(s.journal, ReplayKey(v.token)), s.journal.calls[v.stage.closed.value];
    assert JM.HasCompletion(log, v.stage.owner, call.began + call.op.ttl);
    i :| 0 <= i < |log| && JM.IsCompletionOf(log[i].record, v.stage.owner, call.began + call.op.ttl);
  }

  lemma TrustedOwnersDiffer(setting: Setting, s: State, a: nat, b: nat)
    requires Inv(setting, s) && a in s.verifications && b in s.verifications && a != b
    requires s.verifications[a].stage.Trusted? && s.verifications[b].stage.Trusted?
    ensures s.verifications[a].stage.owner != s.verifications[b].stage.owner
  {
    var c, d := s.verifications[a].stage.claim, s.verifications[b].stage.claim;
    assert StageOk(setting, s.journal, s.verifications[a]) && StageOk(setting, s.journal, s.verifications[b]);
    hide StageOk;
    assert JM.CallInv(JM.LogOf(s.journal, s.journal.calls[c].key), s.journal.clock, c, s.journal.calls[c]);
    assert JM.CallInv(JM.LogOf(s.journal, s.journal.calls[d].key), s.journal.clock, d, s.journal.calls[d]);
  }

  /** Each completion of the two stands a whole window behind the one before it. */
  ghost predicate WindowsApart(s: State, v: Verification, w: Verification, i: nat, j: nat) {
    var log := JM.LogOf(s.journal, ReplayKey(v.token));
    && CompletedAt(s, v, i) && CompletedAt(s, w, j) && i != j && ReplayKey(w.token) == ReplayKey(v.token)
    && (i < j ==> v.sampled + Ttl(v) <= log[j].at)
    && (j < i ==> w.sampled + Ttl(w) <= log[i].at)
  }

  /**
    If no two claims of a key overlap in one instance, two verifications trusted under one replay
    key were completed in some order, and the later completion came no sooner than the whole
    window of the earlier one after its clock sample. For a purchase that window is the retention
    period, however the workers interleave.
    */
  lemma TrustedOncePerWindow(setting: Setting, now: real, s: State, a: nat, b: nat) returns (i: nat, j: nat)
    requires !setting.overlaps && Reachable(setting, Initial(now), s)
    requires a in s.verifications && b in s.verifications && a != b
    requires s.verifications[a].stage.Trusted? && s.verifications[b].stage.Trusted?
    requires ReplayKey(s.verifications[a].token) == ReplayKey(s.verifications[b].token)
    ensures WindowsApart(s, s.verifications[a], s.verifications[b], i, j)
    ensures s.verifications[a].token.purchase.Some? ==>
              Ttl(s.verifications[a]) >= RETENTION_MS && Ttl(s.verifications[b]) >= RETENTION_MS
  {
    ReachableInv(setting, now, s);
    hide Reachable;
    i := TrustedIsCompleted(setting, s, a);
    j := TrustedIsCompleted(setting, s, b);
    TrustedOwnersDiffer(setting, s, a, b);
    ReplayKeysAreInjective(s.verifications[a].token, s.verifications[b].token);
    var key := ReplayKey(s.verifications[a].token);
    var log := JM.LogOf(s.journal, key);
    assert LogInv(log, key) by {
      assert JM.KeyInv(s.journal, key);
    }
    hide Inv, LogInv, ReplayKey;
    if i < j {
      CompletionWindowsDisjoint(log, key, i, j);
    } else {
      CompletionWindowsDisjoint(log, key, j, i);
    }
  }

  predicate TrustedTogether(s: State, a: nat, b: nat) {
    && a in s.verifications && b in s.verifications
    && s.verifications[a].token == s.verifications[b].token
    && s.verifications[a].stage.Trusted? && s.verifications[b].stage.Trusted?
  }

  /** Before a token expires at most one verification of it is trusted. */
  lemma TrustedOnceBeforeExpiry(setting: Setting, now: real, s: State, a: nat, b: nat)
    requires !setting.overlaps && Reachable(setting, Initial(now), s)
    requires TrustedTogether(s, a, b) && a != b
    ensures Expired(s.verifications[a].token, s.journal.clock)
  {
    ReachableInv(setting, now, s);
    var i, j := TrustedOncePerWindow(setting, now, s, a, b);
    var v, w := s.verifications[a], s.verifications[b];
    assert StageOk(setting, s.journal, v) && StageOk(setting, s.journal, w);
    TtlReachesPastExpiry(v.token.exp, v.sampled, v.tolerance);
    TtlReachesPastExpiry(w.token.exp, w.sampled, w.tolerance);
    assert JM.KeyInv(s.journal, ReplayKey(v.token));
  }

  // --- The later claim --------------------------------------------------------------------

  /** An owner whose completion came later also claimed later. */
  lemma LaterOwnerClaimsLater(log: Log, key: Key, i: nat, j: nat, k: nat, owner: Token)
    requires LogInv(log, key) && i < j < |log| && k < |log|
    requires log[i].record.Node? && log[i].record.kind == Completed && log[i].record.owner != owner
    requires Owner(log[j].record) == Some(owner) && IsClaimOf(log[k].record, Some(owner))
    ensures log[i].record.expiresAt <= log[k].at
  {
    if k < j {
      assert OnlyClaimsOf(log, k, j, Some(owner));
    }
    assert !IsClaimOf(log[i].record, Some(owner));
    CompletionWindowsDisjoint(log, key, i, k);
  }

  /** Every claim of the verification stands in the journal at or after the expiry of its token. */
  ghost predicate ClaimedLate(s: State, v: Verification) {
    var log := JM.LogOf(s.journal, ReplayKey(v.token));
    v.stage.Trusted? && forall k :: 0 <= k < |log| && IsClaimOf(log[k].record, Some(v.stage.owner)) ==>
      Expired(v.token, log[k].at)
  }

  lemma ClaimAfterCompletionIsLate(s: State, v: Verification, w: Verification, i: nat, j: nat)
    requires JM.Inv(s.journal) && v.token == w.token
    requires CompletedAt(s, v, i) && CompletedAt(s, w, j) && i < j
    requires v.stage.owner != w.stage.owner && v.tolerance >= 0.0
    ensures ClaimedLate(s, w)
  {
    var key := ReplayKey(v.token);
    var log := JM.LogOf(s.journal, key);
    assert LogInv(log, key) by {
      assert JM.KeyInv(s.journal, key);
    }
    hide JM.Inv, LogInv;
    TtlReachesPastExpiry(v.token.exp, v.sampled, v.tolerance);
    forall k | 0 <= k < |log| && IsClaimOf(log[k].record, Some(w.stage.owner))
      ensures Expired(v.token, log[k].at)
    {
      LaterOwnerClaimsLater(log, key, i, j, k, w.stage.owner);
    }
  }

  /** Of two trusted verifications of one token, one claimed only after the token had expired. */
  lemma LaterClaimIsLate(setting: Setting, now: real, s: State, a: nat, b: nat)
    requires !setting.overlaps && Reachable(setting, Initial(now), s) && TrustedTogether(s, a, b) && a != b
    ensures ClaimedLate(s, s.verifications[a]) || ClaimedLate(s, s.verifications[b])
  {
    ReachableInv(setting, now, s);
    var i, j := TrustedOncePerWindow(setting, now, s, a, b);
    TrustedOwnersDiffer(setting, s, a, b);
    assert StageOk(setting, s.journal, s.verifications[a]) && StageOk(setting, s.journal, s.verifications[b]);
    hide Reachable, StageOk, JM.Inv;
    if i < j {
      ClaimAfterCompletionIsLate(s, s.verifications[a], s.verifications[b], i, j);
    } else {
      ClaimAfterCompletionIsLate(s, s.verifications[b], s.verifications[a], j, i);
    }
  }

  lemma TrustedInTime(setting: Setting, s: State, id: nat)
    requires !setting.lateClaims && Inv(setting, s) && id in s.verifications && s.verifications[id].stage.Trusted?
    ensures !ClaimedLate(s, s.verifications[id])
  {
    assert StageOk(setting, s.journal, s.verifications[id]);
  }

  lemma PromptVerifiersTrustOnce(setting: Setting, now: real, s: State, a: nat, b: nat)
    requires !setting.overlaps && !setting.lateClaims && Reachable(setting, Initial(now), s) && TrustedTogether(s, a, b)
    ensures a == b
  {
    if a != b {
      ReachableInv(setting, now, s);
      LaterClaimIsLate(setting, now, s, a, b);
      TrustedInTime(setting, s, a);
      TrustedInTime(setting, s, b);
    }
  }
}
