/** Runs in which a rotation that begins after a revocation outlives it. */
module CredentialRuns {
  import opened Wrappers
  import opened Credentials
  import opened CredentialTheorems

  const TOKEN := Credential(false)

  function Rotated(s: State, id: nat, pc: RotatorPc): State
    requires id in s.rotators
  {
    s.(rotators := s.rotators[id := s.rotators[id].(pc := pc)])
  }

  lemma Advance(cfg: Config, start: State, s: State, id: nat) returns (s': State)
    requires Reachable(cfg, start, s) && id in s.rotators
    ensures s' == RotatorStep(cfg, s, id, s.rotators[id], TOKEN) && Reachable(cfg, start, s')
  {
    s' := Go(cfg, start, s, StepRotator(id, TOKEN));
  }

  /** A step of a rotation that changes no store and no flag. */
  lemma Moves(cfg: Config, start: State, s: State, id: nat, next: RotatorPc) returns (s': State)
    requires Reachable(cfg, start, s) && id in s.rotators
    requires var rotator := s.rotators[id];
             && RotatorNext(cfg, s, rotator) == next && !rotator.pc.StoreSecret? && !rotator.pc.StoreActive?
             && (rotator.pc.Guard? ==> !rotator.pc.check.DeleteSecret? && !rotator.pc.check.MarkRevoked?
                                       && (Cancels(rotator.pc.check) ==> rotator.cancelled))
    ensures s' == Rotated(s, id, next) && Reachable(cfg, start, s')
  {
    s' := Advance(cfg, start, s, id);
  }

  /** A check passes when nothing it looks at tells of a revocation. */
  lemma GuardPasses(cfg: Config, start: State, s: State, id: nat, nr: nat) returns (s': State)
    requires Reachable(cfg, start, s) && id in s.rotators && s.rotators[id].pc == Guard(nr, Enter)
    requires !s.rotators[id].cancelled && s.revocations == 0 && s.secret.Some? && s.stored != Some(Revoked)
    ensures s' == Rotated(s, id, AfterGuard(cfg, nr)) && Reachable(cfg, start, s')
  {
    hide Reachable, AfterGuard;
    var stored := if cfg.connections then s.stored else None;
    if cfg.connections {
      s' := Moves(cfg, start, s, id, Guard(nr, ReadStored(false)));
      s' := Moves(cfg, start, s', id, Guard(nr, ReadSecret(stored)));
    } else {
      s' := Moves(cfg, start, s, id, Guard(nr, ReadSecret(stored)));
    }
    s' := Moves(cfg, start, s', id, Guard(nr, Verdict(false, stored)));
    s' := Moves(cfg, start, s', id, AfterGuard(cfg, nr));
  }

  /** A cancelled rotation reaches its delete whatever it reads. */
  lemma ReachesDelete(cfg: Config, start: State, s: State, id: nat, nr: nat) returns (s': State)
    requires Reachable(cfg, start, s) && id in s.rotators && s.rotators[id].pc == Guard(nr, Enter)
    requires s.rotators[id].cancelled
    ensures s' == Rotated(s, id, Guard(nr, DeleteSecret(if cfg.connections then s.stored else None)))
    ensures Reachable(cfg, start, s')
  {
    hide Reachable;
    var stored := if cfg.connections then s.stored else None;
    if cfg.connections {
      s' := Moves(cfg, start, s, id, Guard(nr, ReadStored(true)));
      s' := Moves(cfg, start, s', id, Guard(nr, Verdict(true, stored)));
    } else {
      s' := Moves(cfg, start, s, id, Guard(nr, Verdict(true, stored)));
    }
    s' := Moves(cfg, start, s', id, Guard(nr, DeleteSecret(stored)));
  }

  /** A cancelled rotation deletes the secret; with a connection store it still has to mark the connection. */
  lemma BacksOut(cfg: Config, start: State, s: State, id: nat, nr: nat) returns (s': State)
    requires Reachable(cfg, start, s) && id in s.rotators && s.rotators[id].pc == Guard(nr, Enter)
    requires s.rotators[id].cancelled && (cfg.connections ==> s.stored == Some(Active))
    ensures s' == Rotated(s, id, if cfg.connections then Guard(nr, MarkRevoked) else Close).(secret := None)
    ensures Reachable(cfg, start, s')
  {
    hide Reachable;
    s' := ReachesDelete(cfg, start, s, id, nr);
    s' := Advance(cfg, start, s', id);
  }

  /** A rotation stores its rotated credential. */
  lemma StoresSecret(cfg: Config, start: State, s: State, id: nat) returns (s': State)
    requires Reachable(cfg, start, s) && id in s.rotators && s.rotators[id].pc == StoreSecret
    ensures s' == Rotated(s, id, Guard(2, Enter)).(secret := Some(TOKEN)) && Reachable(cfg, start, s')
  {
    s' := Advance(cfg, start, s, id);
  }

  /** A rotation marks the connection active. */
  lemma StoresActive(cfg: Config, start: State, s: State, id: nat) returns (s': State)
    requires Reachable(cfg, start, s) && id in s.rotators && s.rotators[id].pc == StoreActive
    ensures s' == Rotated(s, id, Guard(3, Enter)).(stored := Some(Active)) && Reachable(cfg, start, s')
  {
    s' := Advance(cfg, start, s, id);
  }

  lemma OpensLease(cfg: Config, start: State, s: State, id: nat) returns (s': State)
    requires (cfg.lateLeases || !LateOpening(s)) && Reachable(cfg, start, s) && id !in s.rotators && s.revocations == 0
    ensures s' == s.(rotators := s.rotators[id := Rotator(false, false, Guard(1, Enter))]) && Reachable(cfg, start, s')
  {
    s' := Go(cfg, start, s, StartRotation(id));
  }

  /** A revocation begins: it cancels every open lease. */
  lemma RevocationBegins(cfg: Config, start: State, s: State) returns (s': State)
    requires Reachable(cfg, start, s) && s.revokers == map[] && s.entry.None? && s.revocations == 0
    ensures s' ==
              s.(revocations := 1, rotators := CancelLeases(s.rotators), revokers := map[0 := Delete], begun := true)
    ensures Reachable(cfg, start, s')
  {
    hide Reachable, CancelLeases;
    s' := Go(cfg, start, s, StartRevocation(0));
    assert s'.revokers == map[0 := Delete];
  }

  lemma RevokerMoves(cfg: Config, start: State, s: State, next: RevokerPc) returns (s': State)
    requires Reachable(cfg, start, s) && 0 in s.revokers && s.revokers.Keys == {0}
    requires RevokerStep(cfg, s, 0, s.revokers[0]).revokers == s.revokers[0 := next]
    ensures s' == RevokerStep(cfg, s, 0, s.revokers[0]) && s'.revokers == map[0 := next] && Reachable(cfg, start, s')
  {
    hide Reachable, RevokerStep;
    s' := Go(cfg, start, s, StepRevoker(0));
  }

  /** A whole revocation, uninterrupted. */
  lemma Revokes(cfg: Config, start: State, s: State) returns (s': State)
    requires Reachable(cfg, start, s) && s.revokers == map[] && s.entry.None? && s.revocations == 0
    ensures s' == s.(secret := None, stored := if cfg.connections then Some(Revoked) else s.stored,
                     rotators := CancelLeases(s.rotators), revokers := map[0 := Returned], begun := true)
    ensures Reachable(cfg, start, s')
  {
    hide Reachable, CancelLeases;
    s' := RevocationBegins(cfg, start, s);
    if cfg.connections {
      s' := RevokerMoves(cfg, start, s', Mark);
    }
    s' := RevokerMoves(cfg, start, s', Finish);
    s' := RevokerMoves(cfg, start, s', Returned);
  }

  /** The last check of a rotation, after its hook, and its end. */
  lemma RunsOut(cfg: Config, start: State, s: State, id: nat) returns (s': State)
    requires Reachable(cfg, start, s) && id in s.rotators && s.rotators[id].pc == Hook
    requires !s.rotators[id].cancelled && s.revocations == 0 && s.secret.Some? && s.stored != Some(Revoked)
    ensures s' == Rotated(s, id, Closed) && Reachable(cfg, start, s')
  {
    hide Reachable;
    s' := Moves(cfg, start, s, id, Guard(4, Enter));
    s' := GuardPasses(cfg, start, s', id, 4);
    s' := Moves(cfg, start, s', id, Closed);
  }

  /** A rotation passed its check before the revocation and stores its secret after it. */
  lemma SecretComesBack(cfg: Config, start: State) returns (s: State)
    requires !cfg.connections && start == Initial(Some(TOKEN), None)
    ensures Reachable(cfg, start, s)
    ensures s ==
              start.(begun := true, revokers := map[0 := Returned],
                     rotators := map[0 := Rotator(true, true, Guard(2, Enter))])
  {
    assert Reaches(cfg, start, [], start);
    hide Reachable;
    s := OpensLease(cfg, start, start, 0);
    s := GuardPasses(cfg, start, s, 0, 1);
    s := Revokes(cfg, start, s);
    assert s.rotators == map[0 := Rotator(true, true, StoreSecret)];
    s := StoresSecret(cfg, start, s, 0);
    assert s.rotators == map[0 := Rotator(true, true, Guard(2, Enter))];
  }

  /** Without a connection store: a late rotation passes its check over the secret of one in flight. */
  lemma LateRotationPasses(cfg: Config, start: State) returns (s: State)
    requires cfg == Config(false, cfg.lateFlights, true) && start == Initial(Some(TOKEN), None)
    ensures Reachable(cfg, start, s)
    ensures s == start.(begun := true, revokers := map[0 := Returned],
                        rotators := map[0 := Rotator(true, true, Guard(2, Enter)),
                                        1 := Rotator(false, false, StoreSecret)])
  {
    hide Reachable;
    s := SecretComesBack(cfg, start);
    s := OpensLease(cfg, start, s, 1);
    s := GuardPasses(cfg, start, s, 1, 1);
    assert s.rotators == map[0 := Rotator(true, true, Guard(2, Enter)), 1 := Rotator(false, false, StoreSecret)];
  }

  /** The cancelled rotation then deletes the secret, and the late one stores its own after it. */
  lemma LateRotationKeepsSecret(cfg: Config, start: State) returns (s: State)
    requires cfg == Config(false, cfg.lateFlights, true) && start == Initial(Some(TOKEN), None)
    ensures Reachable(cfg, start, s) && Drained(s) && s.secret.Some?
  {
    hide Reachable;
    s := LateRotationPasses(cfg, start);
    s := BacksOut(cfg, start, s, 0, 2);
    s := Moves(cfg, start, s, 0, Closed);
    s := StoresSecret(cfg, start, s, 1);
    s := GuardPasses(cfg, start, s, 1, 2);
    s := RunsOut(cfg, start, s, 1);
    assert s.rotators.Keys == {0, 1} && s.rotators[0].pc == Closed && s.rotators[1].pc == Closed;
  }

  /** Two rotations are under way, one about to write the connection and one about to write the secret. */
  lemma TwoRotationsUnderWay(cfg: Config, start: State) returns (s: State)
    requires cfg.connections && start == Initial(Some(TOKEN), Some(Active))
    ensures Reachable(cfg, start, s)
    ensures s ==
              start.(rotators := map[0 := Rotator(false, false, StoreActive), 1 := Rotator(false, false, StoreSecret)])
  {
    assert Reaches(cfg, start, [], start);
    hide Reachable;
    s := OpensLease(cfg, start, start, 0);
    s := GuardPasses(cfg, start, s, 0, 1);
    s := StoresSecret(cfg, start, s, 0);
    s := GuardPasses(cfg, start, s, 0, 2);
    s := OpensLease(cfg, start, s, 1);
    s := GuardPasses(cfg, start, s, 1, 1);
    assert s.rotators == map[0 := Rotator(false, false, StoreActive), 1 := Rotator(false, false, StoreSecret)];
  }

  /** After the revocation has returned, a late rotation passes its checks in the window the two leave open. */
  lemma LateRotationSlipsIn(cfg: Config, start: State) returns (s: State)
    requires cfg == Config(true, cfg.lateFlights, true) && start == Initial(Some(TOKEN), Some(Active))
    ensures Reachable(cfg, start, s)
    ensures s == start.(begun := true, revokers := map[0 := Returned],
                        rotators := map[0 := Rotator(true, true, Guard(3, Enter)),
                                        1 := Rotator(true, true, Guard(2, Enter)),
                                        2 := Rotator(false, false, StoreSecret)])
  {
    hide Reachable;
    s := TwoRotationsUnderWay(cfg, start);
    s := Revokes(cfg, start, s);
    assert s.rotators == map[0 := Rotator(true, true, StoreActive), 1 := Rotator(true, true, StoreSecret)];
    s := StoresActive(cfg, start, s, 0);
    s := StoresSecret(cfg, start, s, 1);
    s := OpensLease(cfg, start, s, 2);
    s := GuardPasses(cfg, start, s, 2, 1);
    assert s.rotators == map[0 := Rotator(true, true, Guard(3, Enter)), 1 := Rotator(true, true, Guard(2, Enter)),
                             2 := Rotator(false, false, StoreSecret)];
  }

  lemma MarksAndCloses(cfg: Config, start: State, s: State, id: nat, nr: nat) returns (s': State)
    requires Reachable(cfg, start, s) && id in s.rotators && s.rotators[id].pc == Guard(nr, MarkRevoked)
    ensures s' == Rotated(s, id, Closed).(stored := Some(Revoked)) && Reachable(cfg, start, s')
  {
    hide Reachable;
    s' := Advance(cfg, start, s, id);
    assert s' == Rotated(s, id, Close).(stored := Some(Revoked));
    s' := Moves(cfg, start, s', id, Closed);
  }

  /** The cancelled rotations delete the secret before the late one stores its own. */
  lemma LateRotationOutlasts(cfg: Config, start: State) returns (s: State)
    requires cfg == Config(true, cfg.lateFlights, true) && start == Initial(Some(TOKEN), Some(Active))
    ensures Reachable(cfg, start, s)
    ensures s == start.(begun := true, revokers := map[0 := Returned], stored := Some(Revoked),
                        rotators := map[0 := Rotator(true, true, Closed), 1 := Rotator(true, true, Closed),
                                        2 := Rotator(false, false, StoreActive)])
  {
    hide Reachable;
    s := LateRotationSlipsIn(cfg, start);
    s := BacksOut(cfg, start, s, 0, 3);
    s := BacksOut(cfg, start, s, 1, 2);
    s := StoresSecret(cfg, start, s, 2);
    s := GuardPasses(cfg, start, s, 2, 2);
    s := MarksAndCloses(cfg, start, s, 0, 3);
    s := MarksAndCloses(cfg, start, s, 1, 2);
    assert s.rotators == map[0 := Rotator(true, true, Closed), 1 := Rotator(true, true, Closed),
                             2 := Rotator(false, false, StoreActive)];
  }

  /** With a connection store: the revoked connection ends active again, with a live secret. */
  lemma LateRotationRevives(cfg: Config, start: State) returns (s: State)
    requires cfg == Config(true, cfg.lateFlights, true) && start == Initial(Some(TOKEN), Some(Active))
    ensures Reachable(cfg, start, s) && Drained(s) && s.secret.Some? && s.stored == Some(Active)
  {
    hide Reachable;
    s := LateRotationOutlasts(cfg, start);
    s := StoresActive(cfg, start, s, 2);
    s := GuardPasses(cfg, start, s, 2, 3);
    s := RunsOut(cfg, start, s, 2);
    assert s.rotators.Keys == {0, 1, 2} && s.rotators[0].pc == s.rotators[1].pc == s.rotators[2].pc == Closed;
  }
}
