/** What still holds at the instant a call reaches the provider, and exactly which deployments ensure it. */
module CapabilityTiming {
  import opened Wrappers
  import opened Capability
  import opened CapabilityTheorems

  /** The call came before its token expired. */
  predicate InTime(v: Invocation) {
    v.pc.Called? ==> v.pc.at < v.capability.expiresAt
  }

  /** The connection stored at the call was usable and held the action's scopes. */
  predicate StillHolds(v: Invocation) {
    v.pc.Called? ==>
      v.pc.stored.Some? && IsUsable(v.pc.stored.value, v.pc.at) && v.pc.action.scopes <= v.pc.stored.value.scopes
  }

  ghost predicate CallsComeInTime(pace: Pace) {
    forall now, actions, id ::
      id in Reached(pace, now, actions).invocations ==> InTime(Reached(pace, now, actions).invocations[id])
  }

  ghost predicate ConnectionsHoldAtTheCall(pace: Pace) {
    forall now, actions, id ::
      id in Reached(pace, now, actions).invocations ==> StillHolds(Reached(pace, now, actions).invocations[id])
  }

  /** No invocation may last longer than what tokens and connections have left when they are accepted. */
  predicate IsBrisk(pace: Pace) {
    pace.longest.Some? && pace.longest.value <= pace.margin
  }

  lemma BriskCallsComeInTime(pace: Pace, now: real, actions: seq<Action>, id: nat)
    requires IsPace(pace) && IsBrisk(pace) && id in Reached(pace, now, actions).invocations
    ensures InTime(Reached(pace, now, actions).invocations[id])
    ensures pace.frozen ==> StillHolds(Reached(pace, now, actions).invocations[id])
  {
    RunKeepsInv(pace, now, actions);
    var s, seen := Reached(pace, now, actions), Seen(pace, now, actions);
    hide Reached, Seen;
    assert InvocationOk(pace, seen, s, id, s.invocations[id]);
  }

  // --- Runs that come too late ------------------------------------------------------------------

  lemma Then(pace: Pace, now: real, actions: seq<Action>, action: Action)
    ensures Reached(pace, now, actions + [action]) == Step(pace, Reached(pace, now, actions), action)
  {
    assert (actions + [action])[..|actions|] == actions;
  }

  lemma NothingYet(pace: Pace, now: real)
    ensures Reached(pace, now, []) == Initial(now)
  {}

  const SOMEONE := Actor("user", "u")
  const LOOK := ActionSpec("look", Read, {})

  function Shop(expiresAt: Option<real>): Connection {
    Connection(SOMEONE, "p", "c", true, expiresAt, {})
  }

  function Pass(expiresAt: real): Capability {
    Capability(0, SOMEONE, "shop", {}, {"look"}, expiresAt)
  }

  /** A token and a connection of any lifetimes, just before the token is presented. */
  function Prepared(c: Connection, pass: Capability): State {
    Initial(0.0).(connections := map["shop" := c], catalog := map["p" := map["c" := [LOOK]]], issued := {pass})
  }

  lemma PassIsIssued(pace: Pace, c: Connection, pass: Capability) returns (actions: seq<Action>)
    requires exists life :: c == Shop(life) && IsUsable(c, 0.0)
    requires exists end :: pass == Pass(end)
    ensures Reached(pace, 0.0, actions) == Prepared(c, pass)
  {
    var connect, publish, issue :=
      SetConnection("shop", c), SetCatalog(map["p" := map["c" := [LOOK]]], {}), Issue(pass);
    NothingYet(pace, 0.0);
    hide Reached;
    var s := Initial(0.0);
    Then(pace, 0.0, [], connect);
    s := Step(pace, s, connect);
    Then(pace, 0.0, [] + [connect], publish);
    s := Step(pace, s, publish);
    Then(pace, 0.0, [] + [connect] + [publish], issue);
    actions := [] + [connect] + [publish] + [issue];
    assert Step(pace, s, issue) == Prepared(c, pass);
  }

  function Ready(c: Connection, pass: Capability): State {
    Prepared(c, pass).(invocations := map[0 := Invocation(pass, "look", 0.0, 0.0, MayCall(c, LOOK))])
  }

  /** The token is presented at once and its connection is read. */
  lemma PassReadsConnection(pace: Pace, c: Connection, pass: Capability) returns (actions: seq<Action>)
    requires IsPace(pace)
    requires exists life :: c == Shop(life) && IsUsable(c, pace.margin)
    requires exists end :: pass == Pass(end) && pace.margin < end
    ensures Reached(pace, 0.0, actions) ==
              Prepared(c, pass).(invocations := map[0 := Invocation(pass, "look", 0.0, 0.0, NeedsAction(c))])
  {
    var before := PassIsIssued(pace, c, pass);
    var start, step := StartInvoke(0, Signed(pass, HUB_SECRET), "look"), StepInvoke(0, true);
    hide Reached;
    var s := Prepared(c, pass);
    Then(pace, 0.0, before, start);
    s := Step(pace, s, start);
    assert s.invocations == map[0 := Invocation(pass, "look", 0.0, 0.0, NeedsConnection)];
    Then(pace, 0.0, before + [start], step);
    s := Step(pace, s, step);
    assert s.invocations == map[0 := Invocation(pass, "look", 0.0, 0.0, NeedsAction(c))];
    actions := before + [start] + [step];
  }

  /** It passes every check, and its invocation may call. */
  lemma PassIsReady(pace: Pace, c: Connection, pass: Capability) returns (actions: seq<Action>)
    requires IsPace(pace)
    requires exists life :: c == Shop(life) && IsUsable(c, pace.margin)
    requires exists end :: pass == Pass(end) && pace.margin < end
    ensures Reached(pace, 0.0, actions) == Ready(c, pass)
  {
    var before := PassReadsConnection(pace, c, pass);
    var step := StepInvoke(0, true);
    hide Reached;
    Then(pace, 0.0, before, step);
    assert FindAction([LOOK], "look") == Some(LOOK);
    assert Step(pace, Reached(pace, 0.0, before), step) == Ready(c, pass);
    actions := before + [step];
  }

  /** The longest wait the deployment allows, and at least the margin and a little more if it sets none. */
  function Wait(pace: Pace): real {
    if pace.longest.Some? then pace.longest.value else pace.margin + 1.0
  }

  /** After the longest wait the call still goes out. */
  lemma CallsAfterWait(pace: Pace, c: Connection, pass: Capability) returns (actions: seq<Action>)
    requires IsPace(pace) && !IsBrisk(pace)
    requires exists life :: c == Shop(life) && IsUsable(c, pace.margin)
    requires exists end :: pass == Pass(end) && pace.margin < end
    ensures Reached(pace, 0.0, actions).invocations ==
              map[0 := Invocation(pass, "look", 0.0, 0.0, Called(c, LOOK, Wait(pace), Some(c)))]
  {
    var before := PassIsReady(pace, c, pass);
    hide Reached;
    var wait, call := Tick(Wait(pace)), StepInvoke(0, true);
    Then(pace, 0.0, before, wait);
    var s := Step(pace, Ready(c, pass), wait);
    assert s == Ready(c, pass).(clock := Wait(pace));
    Then(pace, 0.0, before + [wait], call);
    actions := before + [wait] + [call];
  }

  /** A token that dies during the wait reaches the provider after its expiry. */
  lemma CallsMayComeAfterExpiry(pace: Pace) returns (actions: seq<Action>)
    requires IsPace(pace) && !IsBrisk(pace)
    ensures 0 in Reached(pace, 0.0, actions).invocations && !InTime(Reached(pace, 0.0, actions).invocations[0])
  {
    assert Shop(None) == Shop(None) && IsUsable(Shop(None), pace.margin);
    actions := CallsAfterWait(pace, Shop(None), Pass(Wait(pace)));
    hide Reached;
  }

  /** Every call of every run comes before its token expires exactly in a brisk deployment; the code alone is none. */
  lemma CallsComeInTimeIff(pace: Pace)
    requires IsPace(pace)
    ensures CallsComeInTime(pace) <==> IsBrisk(pace)
  {
    hide Reached;
    if IsBrisk(pace) {
      forall now, actions, id | id in Reached(pace, now, actions).invocations
        ensures InTime(Reached(pace, now, actions).invocations[id])
      {
        BriskCallsComeInTime(pace, now, actions, id);
      }
    } else {
      var actions := CallsMayComeAfterExpiry(pace);
    }
  }

  /** A connection that dies during the wait is used all the same. */
  lemma ConnectionMayDie(pace: Pace) returns (actions: seq<Action>)
    requires IsPace(pace) && !IsBrisk(pace)
    ensures 0 in Reached(pace, 0.0, actions).invocations && !StillHolds(Reached(pace, 0.0, actions).invocations[0])
  {
    var c := Shop(Some(Wait(pace)));
    assert c == Shop(Some(Wait(pace))) && IsUsable(c, pace.margin);
    actions := CallsAfterWait(pace, c, Pass(pace.margin + 1.0));
    hide Reached;
  }

  /** So is one that is revoked or deleted between the read and the call. */
  lemma ConnectionMayGo(pace: Pace) returns (actions: seq<Action>)
    requires IsPace(pace) && !pace.frozen
    ensures 0 in Reached(pace, 0.0, actions).invocations && !StillHolds(Reached(pace, 0.0, actions).invocations[0])
  {
    var c, pass := Shop(None), Pass(pace.margin + 1.0);
    assert c == Shop(None) && IsUsable(c, pace.margin);
    var before := PassIsReady(pace, c, pass);
    hide Reached;
    var drop, call := DropConnection("shop"), StepInvoke(0, true);
    Then(pace, 0.0, before, drop);
    var s := Step(pace, Ready(c, pass), drop);
    assert s == Ready(c, pass).(connections := map[]);
    Then(pace, 0.0, before + [drop], call);
    actions := before + [drop] + [call];
  }

  /**
    Every call of every run finds its connection stored, usable and with the action's scopes exactly
    if the deployment is brisk and leaves a connection as it is while an invocation uses it.
    */
  lemma ConnectionsHoldIff(pace: Pace)
    requires IsPace(pace)
    ensures ConnectionsHoldAtTheCall(pace) <==> pace.frozen && IsBrisk(pace)
  {
    hide Reached;
    if !IsBrisk(pace) {
      var actions := ConnectionMayDie(pace);
    } else if !pace.frozen {
      var actions := ConnectionMayGo(pace);
    } else {
      forall now, actions, id | id in Reached(pace, now, actions).invocations
        ensures StillHolds(Reached(pace, now, actions).invocations[id])
      {
        BriskCallsComeInTime(pace, now, actions, id);
      }
    }
  }

  /** The code as it is promises neither. */
  lemma CodeAlonePromisesNeither()
    ensures !CallsComeInTime(AS_WRITTEN) && !ConnectionsHoldAtTheCall(AS_WRITTEN)
  {
    CallsComeInTimeIff(AS_WRITTEN);
    ConnectionsHoldIff(AS_WRITTEN);
  }
}
