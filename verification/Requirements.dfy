/** What a manifest's requirements turn into: which connection satisfies one, and which grant it gives. */
module Requirements {
  import opened Wrappers
  import opened Capability
  import CapabilityTheorems

  datatype Mode = ForReading | ForWriting | ForTriggers

  /** Empty lists mean the same as absent ones. */
  datatype Requirement = Requirement(id: string, connectorId: string, mode: Mode, actions: set<string>,
                                     triggers: set<string>, scopes: set<string>, optional: bool)

  datatype TriggerSpec = TriggerSpec(id: string, scopes: set<string>)

  datatype Connector = Connector(id: string, aliases: set<string>, actions: seq<ActionSpec>, triggers: seq<TriggerSpec>)

  datatype Listed = Listed(id: string, connection: Connection)

  datatype Resolution =
    | UnknownConnector | NotExecutable | MissingConnection
    | Ready(connector: Connector, connection: Listed)

  function RequiredActions(r: Requirement, c: Connector): set<string> {
    if r.mode.ForTriggers? then {}
    else if r.actions != {} then r.actions
    else
      var risk := if r.mode.ForReading? then Read else Write;
      set i | 0 <= i < |c.actions| && c.actions[i].risk == risk :: c.actions[i].id
  }

  function RequiredTriggers(r: Requirement, c: Connector): set<string> {
    if r.triggers != {} then r.triggers
    else if !r.mode.ForTriggers? then {}
    else set i | 0 <= i < |c.triggers| :: c.triggers[i].id
  }

  function RequiredScopes(r: Requirement, c: Connector): set<string> {
    if r.scopes != {} then r.scopes
    else
      (set i, scope | 0 <= i < |c.actions| && c.actions[i].id in RequiredActions(r, c)
       && scope in c.actions[i].scopes :: scope)
      + (set i, scope | 0 <= i < |c.triggers| && c.triggers[i].id in RequiredTriggers(r, c)
         && scope in c.triggers[i].scopes :: scope)
  }

  predicate Satisfies(l: Listed, r: Requirement, c: Connector, owner: Actor) {
    && l.connection.owner == owner && l.connection.active
    && (l.connection.connectorId == c.id || l.connection.connectorId in c.aliases)
    && RequiredScopes(r, c) <= l.connection.scopes
  }

  function FirstSatisfying(connections: seq<Listed>, r: Requirement, c: Connector, owner: Actor): Option<Listed> {
    if connections == [] then None
    else if Satisfies(connections[0], r, c, owner) then Some(connections[0])
    else FirstSatisfying(connections[1..], r, c, owner)
  }

  function ResolveRequirement(r: Requirement, owner: Actor, registry: map<string, Connector>,
                              connections: seq<Listed>): Resolution {
    if r.connectorId !in registry then UnknownConnector
    else
      var c := registry[r.connectorId];
      if c.actions == [] && c.triggers == [] then NotExecutable
      else
        match FirstSatisfying(connections, r, c, owner)
        case None => MissingConnection
        case Some(l) => Ready(c, l)
  }

  function GrantFor(manifestId: string, r: Requirement, c: Connector, l: Listed, owner: Actor, grantee: Actor): Grant {
    Grant("grant_" + manifestId + "_" + r.id + "_" + l.id, manifestId, owner, grantee, l.id, c.id,
          RequiredScopes(r, c), RequiredActions(r, c), true)
  }

  /** The grants of a manifest; `None` when a requirement that is not optional is not ready. */
  function CreateGrants(manifestId: string, requirements: seq<Requirement>, owner: Actor, grantee: Actor,
                        registry: map<string, Connector>, connections: seq<Listed>): Option<seq<Grant>> {
    if requirements == [] then Some([])
    else
      var last := requirements[|requirements| - 1];
      match CreateGrants(manifestId, requirements[..|requirements| - 1], owner, grantee, registry, connections)
      case None => None
      case Some(grants) =>
        match ResolveRequirement(last, owner, registry, connections)
        case Ready(c, l) => Some(grants + [GrantFor(manifestId, last, c, l, owner, grantee)])
        case _ => if last.optional then Some(grants) else None
  }

  // --- What the manifest asks for, mode by mode ---------------------------------------------

  predicate HasActionOf(c: Connector, id: string, risk: Risk) {
    exists n :: 0 <= n < |c.actions| && c.actions[n].id == id && c.actions[n].risk == risk
  }

  /** Named actions win, except in trigger mode; otherwise reading asks for reads and writing for writes. */
  predicate AsksFor(r: Requirement, c: Connector, id: string) {
    || (r.mode.ForReading? && r.actions == {} && HasActionOf(c, id, Read))
    || (r.mode.ForWriting? && r.actions == {} && HasActionOf(c, id, Write))
    || (!r.mode.ForTriggers? && id in r.actions)
  }

  predicate Wants(r: Requirement, trigger: TriggerSpec) {
    trigger.id in r.triggers || (r.mode.ForTriggers? && r.triggers == {})
  }

  /** Named scopes win; otherwise those of the actions asked for and of the triggers wanted. */
  predicate Needs(r: Requirement, c: Connector, scope: string) {
    || scope in r.scopes
    || (r.scopes == {} && ActionNeeds(r, c, scope))
    || (r.scopes == {} && TriggerNeeds(r, c, scope))
  }

  predicate ActionNeeds(r: Requirement, c: Connector, scope: string) {
    exists n :: 0 <= n < |c.actions| && AsksFor(r, c, c.actions[n].id) && scope in c.actions[n].scopes
  }

  predicate TriggerNeeds(r: Requirement, c: Connector, scope: string) {
    exists n :: 0 <= n < |c.triggers| && Wants(r, c.triggers[n]) && scope in c.triggers[n].scopes
  }

  lemma ActionsAsked(r: Requirement, c: Connector, id: string)
    ensures id in RequiredActions(r, c) <==> AsksFor(r, c, id)
  {}

  lemma TriggersWanted(r: Requirement, c: Connector, n: nat)
    requires n < |c.triggers|
    ensures c.triggers[n].id in RequiredTriggers(r, c) <==> Wants(r, c.triggers[n])
  {}

  lemma ScopesNeeded(r: Requirement, c: Connector, scope: string)
    ensures scope in RequiredScopes(r, c) <==> Needs(r, c, scope)
  {
    hide RequiredActions, RequiredTriggers, AsksFor, Wants;
    forall n | 0 <= n < |c.actions|
      ensures c.actions[n].id in RequiredActions(r, c) <==> AsksFor(r, c, c.actions[n].id)
    {
      ActionsAsked(r, c, c.actions[n].id);
    }
    forall n | 0 <= n < |c.triggers|
      ensures c.triggers[n].id in RequiredTriggers(r, c) <==> Wants(r, c.triggers[n])
    {
      TriggersWanted(r, c, n);
    }
  }

  /** A connection that will do: the owner's, active, of the connector or an alias, with every scope needed. */
  predicate Serves(l: Listed, r: Requirement, c: Connector, owner: Actor) {
    && l.connection.owner == owner && l.connection.active
    && (l.connection.connectorId == c.id || l.connection.connectorId in c.aliases)
    && HasScopes(l.connection, r, c)
  }

  predicate HasScopes(connection: Connection, r: Requirement, c: Connector) {
    && (r.scopes != {} ==> r.scopes <= connection.scopes)
    && (r.scopes == {} ==>
          && (forall n :: 0 <= n < |c.actions| && AsksFor(r, c, c.actions[n].id) ==>
                c.actions[n].scopes <= connection.scopes)
          && (forall n :: 0 <= n < |c.triggers| && Wants(r, c.triggers[n]) ==>
                c.triggers[n].scopes <= connection.scopes))
  }

  lemma SatisfiesIffServes(l: Listed, r: Requirement, c: Connector, owner: Actor)
    ensures Satisfies(l, r, c, owner) <==> Serves(l, r, c, owner)
  {
    hide RequiredScopes, AsksFor, Wants;
    forall scope
      ensures scope in RequiredScopes(r, c) <==> Needs(r, c, scope)
    {
      ScopesNeeded(r, c, scope);
    }
    if HasScopes(l.connection, r, c) {
      forall scope | scope in RequiredScopes(r, c)
        ensures scope in l.connection.scopes
      {
        assert Needs(r, c, scope);
      }
    } else if RequiredScopes(r, c) <= l.connection.scopes {
      NeededAreHeld(l.connection, r, c);
    }
  }

  lemma NeededAreHeld(connection: Connection, r: Requirement, c: Connector)
    requires forall scope :: Needs(r, c, scope) ==> scope in connection.scopes
    ensures HasScopes(connection, r, c)
  {
    hide AsksFor, Wants;
    forall scope | scope in r.scopes
      ensures scope in connection.scopes
    {
      assert Needs(r, c, scope);
    }
    forall n, scope | r.scopes == {} && 0 <= n < |c.actions| && AsksFor(r, c, c.actions[n].id)
                      && scope in c.actions[n].scopes
      ensures scope in connection.scopes
    {
      assert ActionNeeds(r, c, scope) && Needs(r, c, scope);
    }
    forall n, scope | r.scopes == {} && 0 <= n < |c.triggers| && Wants(r, c.triggers[n])
                      && scope in c.triggers[n].scopes
      ensures scope in connection.scopes
    {
      assert TriggerNeeds(r, c, scope) && Needs(r, c, scope);
    }
  }

  // --- Which requirements are met -----------------------------------------------------------

  /** The first listed connection that serves, if any does. */
  lemma {:induction false} SatisfyingIsFirst(connections: seq<Listed>, r: Requirement, c: Connector, owner: Actor)
    ensures FirstSatisfying(connections, r, c, owner).None? <==>
              forall i :: 0 <= i < |connections| ==> !Serves(connections[i], r, c, owner)
    ensures FirstSatisfying(connections, r, c, owner).Some? ==>
              exists i: nat :: IsFirst(connections, i, FirstSatisfying(connections, r, c, owner).value, r, c, owner)
  {
    hide Satisfies, Serves;
    if connections == [] {
    } else {
      SatisfiesIffServes(connections[0], r, c, owner);
      SatisfyingIsFirst(connections[1..], r, c, owner);
      assert forall i :: 0 < i < |connections| ==> connections[1..][i - 1] == connections[i];
      if Serves(connections[0], r, c, owner) {
        assert IsFirst(connections, 0, connections[0], r, c, owner);
      } else if FirstSatisfying(connections[1..], r, c, owner).Some? {
        var l := FirstSatisfying(connections[1..], r, c, owner).value;
        var i: nat :| IsFirst(connections[1..], i, l, r, c, owner);
        assert connections[i + 1] == connections[1..][i];
        assert forall j :: 0 < j <= i ==> connections[j] == connections[1..][j - 1];
        assert IsFirst(connections, i + 1, l, r, c, owner);
      }
    }
  }

  predicate IsFirst(connections: seq<Listed>, i: nat, l: Listed, r: Requirement, c: Connector, owner: Actor) {
    && i < |connections| && connections[i] == l && Serves(l, r, c, owner)
    && forall j :: 0 <= j < i ==> !Serves(connections[j], r, c, owner)
  }

  predicate IsReady(r: Requirement, owner: Actor, registry: map<string, Connector>, connections: seq<Listed>) {
    && r.connectorId in registry
    && (registry[r.connectorId].actions != [] || registry[r.connectorId].triggers != [])
    && exists i :: 0 <= i < |connections| && Serves(connections[i], r, registry[r.connectorId], owner)
  }

  // --- What a created grant says ------------------------------------------------------------

  /** The actions of a grant, spelled out per mode. */
  predicate GrantsActions(g: Grant, r: Requirement, c: Connector) {
    && (r.mode.ForTriggers? ==> g.actions == {})
    && (!r.mode.ForTriggers? && r.actions != {} ==> g.actions == r.actions)
    && (r.mode.ForReading? && r.actions == {} ==>
          && (forall id :: id in g.actions ==> HasActionOf(c, id, Read))
          && (forall n :: 0 <= n < |c.actions| && c.actions[n].risk == Read ==> c.actions[n].id in g.actions))
    && (r.mode.ForWriting? && r.actions == {} ==>
          && (forall id :: id in g.actions ==> HasActionOf(c, id, Write))
          && (forall n :: 0 <= n < |c.actions| && c.actions[n].risk == Write ==> c.actions[n].id in g.actions))
  }

  predicate OfGrantedAction(g: Grant, c: Connector, scope: string) {
    exists n :: 0 <= n < |c.actions| && c.actions[n].id in g.actions && scope in c.actions[n].scopes
  }

  /** Its scopes: the named ones, or else exactly those of its actions and of the triggers wanted. */
  ghost predicate GrantsScopes(g: Grant, r: Requirement, c: Connector) {
    && (r.scopes != {} ==> g.scopes == r.scopes)
    && (r.scopes == {} ==>
          forall scope :: scope in g.scopes <==> OfGrantedAction(g, c, scope) || TriggerNeeds(r, c, scope))
  }

  /** Where a grant comes from: a requirement, and the first listed connection that serves it. */
  ghost predicate Backs(g: Grant, manifestId: string, r: Requirement, owner: Actor, grantee: Actor,
                        registry: map<string, Connector>, connections: seq<Listed>) {
    && r.connectorId in registry
    && GrantsActions(g, r, registry[r.connectorId]) && GrantsScopes(g, r, registry[r.connectorId])
    && g.manifestId == manifestId && g.owner == owner && g.grantee == grantee && g.active
    && g.connectorId == registry[r.connectorId].id
    && (exists i: nat, l ::
          IsFirst(connections, i, l, r, registry[r.connectorId], owner) && g.connectionId == l.id
          && g.scopes <= l.connection.scopes)
  }

  lemma GrantIsSpelled(manifestId: string, r: Requirement, c: Connector, l: Listed, owner: Actor, grantee: Actor)
    ensures var g := GrantFor(manifestId, r, c, l, owner, grantee);
            GrantsActions(g, r, c) && GrantsScopes(g, r, c)
  {
    var g := GrantFor(manifestId, r, c, l, owner, grantee);
    hide RequiredScopes, RequiredActions;
    forall id: string
      ensures id in g.actions <==> AsksFor(r, c, id)
    {
      ActionsAsked(r, c, id);
    }
    forall scope: string
      ensures scope in g.scopes <==> Needs(r, c, scope)
    {
      ScopesNeeded(r, c, scope);
    }
    SpelledByMembers(g, r, c);
  }

  lemma SpelledByMembers(g: Grant, r: Requirement, c: Connector)
    requires forall id: string :: id in g.actions <==> AsksFor(r, c, id)
    requires forall scope: string :: scope in g.scopes <==> Needs(r, c, scope)
    ensures GrantsActions(g, r, c) && GrantsScopes(g, r, c)
  {
    ActionsByMembers(g, r, c);
    hide AsksFor, Wants, TriggerNeeds;
    if r.scopes == {} {
      forall scope
        ensures ActionNeeds(r, c, scope) <==> OfGrantedAction(g, c, scope)
      {}
    }
  }

  lemma ActionsByMembers(g: Grant, r: Requirement, c: Connector)
    requires forall id: string :: id in g.actions <==> AsksFor(r, c, id)
    ensures GrantsActions(g, r, c)
  {
    forall n | 0 <= n < |c.actions|
      ensures HasActionOf(c, c.actions[n].id, c.actions[n].risk)
    {}
  }

  lemma ReadyIsBacked(manifestId: string, r: Requirement, owner: Actor, grantee: Actor,
                      registry: map<string, Connector>, connections: seq<Listed>)
    ensures var resolution := ResolveRequirement(r, owner, registry, connections);
            && (resolution.Ready? <==> IsReady(r, owner, registry, connections))
            && (resolution.Ready? ==>
                  Backs(GrantFor(manifestId, r, resolution.connector, resolution.connection, owner, grantee),
                        manifestId, r, owner, grantee, registry, connections))
  {
    if r.connectorId in registry {
      var c := registry[r.connectorId];
      hide RequiredScopes, RequiredActions, Serves, GrantsActions, GrantsScopes;
      SatisfyingIsFirst(connections, r, c, owner);
      if ResolveRequirement(r, owner, registry, connections).Ready? {
        var l := ResolveRequirement(r, owner, registry, connections).connection;
        GrantIsSpelled(manifestId, r, c, l, owner, grantee);
        SatisfiesIffServes(l, r, c, owner);
        FirstSatisfies(connections, r, c, owner);
      }
    }
  }

  lemma {:induction false} FirstSatisfies(connections: seq<Listed>, r: Requirement, c: Connector, owner: Actor)
    ensures var l := FirstSatisfying(connections, r, c, owner);
            l.Some? ==> Satisfies(l.value, r, c, owner)
  {
    if connections == [] {
    } else {
      FirstSatisfies(connections[1..], r, c, owner);
    }
  }

  /** The grants, one by one: `of[k]` is the requirement that the `k`-th grant comes from. */
  ghost predicate ComesFrom(grants: seq<Grant>, of: seq<nat>, manifestId: string, requirements: seq<Requirement>,
                            owner: Actor, grantee: Actor, registry: map<string, Connector>,
                            connections: seq<Listed>) {
    && |of| == |grants|
    && (forall k :: 0 <= k < |of| ==>
          of[k] < |requirements|
          && Backs(grants[k], manifestId, requirements[of[k]], owner, grantee, registry, connections))
    && (forall j, k :: 0 <= j < k < |of| ==> of[j] < of[k])
    && (forall i :: 0 <= i < |requirements| && IsReady(requirements[i], owner, registry, connections) ==> i in of)
  }

  /**
    Grants exist exactly when every requirement is ready or optional: one for each ready
    requirement and no other, in the manifest's order, each saying what its requirement asks for.
    */
  lemma {:induction false} GrantsAreBacked(manifestId: string, requirements: seq<Requirement>, owner: Actor,
                                           grantee: Actor, registry: map<string, Connector>,
                                           connections: seq<Listed>) returns (of: seq<nat>)
    ensures var grants := CreateGrants(manifestId, requirements, owner, grantee, registry, connections);
            && (grants.Some? <==> forall i :: 0 <= i < |requirements| ==>
                  requirements[i].optional || IsReady(requirements[i], owner, registry, connections))
            && (grants.Some? ==>
                  ComesFrom(grants.value, of, manifestId, requirements, owner, grantee, registry, connections))
  {
    if requirements == [] {
      of := [];
    } else {
      var init, n := requirements[..|requirements| - 1], |requirements| - 1;
      of := GrantsAreBacked(manifestId, init, owner, grantee, registry, connections);
      ReadyIsBacked(manifestId, requirements[n], owner, grantee, registry, connections);
      hide Backs, IsReady, ResolveRequirement, GrantFor, ComesFrom;
      assert forall i :: 0 <= i < n ==> init[i] == requirements[i];
      var before := CreateGrants(manifestId, init, owner, grantee, registry, connections);
      if before.Some? && IsReady(requirements[n], owner, registry, connections) {
        var g := CreateGrants(manifestId, requirements, owner, grantee, registry, connections).value[|before.value|];
        OneMoreGrant(before.value, g, of, manifestId, requirements, owner, grantee, registry, connections);
        of := of + [n];
      } else if before.Some? {
        NoMoreGrants(before.value, of, manifestId, requirements, owner, grantee, registry, connections);
      }
    }
  }

  lemma NoMoreGrants(grants: seq<Grant>, of: seq<nat>, manifestId: string, requirements: seq<Requirement>,
                     owner: Actor, grantee: Actor, registry: map<string, Connector>, connections: seq<Listed>)
    requires requirements != [] && !IsReady(requirements[|requirements| - 1], owner, registry, connections)
    requires ComesFrom(grants, of, manifestId, requirements[..|requirements| - 1], owner, grantee, registry,
                       connections)
    ensures ComesFrom(grants, of, manifestId, requirements, owner, grantee, registry, connections)
  {
    hide Backs, IsReady;
    var init := requirements[..|requirements| - 1];
    assert forall i :: 0 <= i < |init| ==> init[i] == requirements[i];
  }

  lemma OneMoreGrant(grants: seq<Grant>, g: Grant, of: seq<nat>, manifestId: string, requirements: seq<Requirement>,
                     owner: Actor, grantee: Actor, registry: map<string, Connector>, connections: seq<Listed>)
    requires requirements != []
    requires Backs(g, manifestId, requirements[|requirements| - 1], owner, grantee, registry, connections)
    requires ComesFrom(grants, of, manifestId, requirements[..|requirements| - 1], owner, grantee, registry,
                       connections)
    ensures ComesFrom(grants + [g], of + [|requirements| - 1], manifestId, requirements, owner, grantee, registry,
                      connections)
  {
    hide Backs, IsReady;
    var init, n := requirements[..|requirements| - 1], |requirements| - 1;
    assert forall i :: 0 <= i < |init| ==> init[i] == requirements[i];
    var more := of + [n];
    forall i | 0 <= i < |requirements| && IsReady(requirements[i], owner, registry, connections)
      ensures i in more
    {
      if i < n {
        assert IsReady(init[i], owner, registry, connections) && i in of;
      } else {
        assert more[|of|] == n;
      }
    }
  }

  // --- A grant is enough for its actions ------------------------------------------------------

  /** The manifest leaves the scopes to be derived, or names ones that cover the actions it asks for. */
  predicate NamesEnough(r: Requirement, c: Connector) {
    r.scopes == {} || forall n :: 0 <= n < |c.actions| && AsksFor(r, c, c.actions[n].id) ==>
      c.actions[n].scopes <= r.scopes
  }

  lemma {:induction false} FoundIfListed(specs: seq<ActionSpec>, id: string)
    ensures FindAction(specs, id).Some? <==> exists k :: 0 <= k < |specs| && specs[k].id == id
  {
    if specs == [] {
    } else {
      FoundIfListed(specs[1..], id);
      if k :| 0 <= k < |specs| && specs[k].id == id && k > 0 {
        assert specs[1..][k - 1].id == id;
      }
      if k :| 0 <= k < |specs[1..]| && specs[1..][k].id == id {
        assert specs[k + 1].id == id;
      }
    }
  }

  lemma GrantedIsAsked(g: Grant, r: Requirement, c: Connector, id: string)
    requires GrantsActions(g, r, c) && id in g.actions
    ensures AsksFor(r, c, id)
  {}

  lemma EnoughForAction(g: Grant, r: Requirement, c: Connector, id: string)
    requires GrantsActions(g, r, c) && GrantsScopes(g, r, c) && NamesEnough(r, c)
    requires id in g.actions && FindAction(c.actions, id).Some?
    ensures FindAction(c.actions, id).value.scopes <= g.scopes
  {
    GrantedIsAsked(g, r, c, id);
    CapabilityTheorems.FoundActionHasId(c.actions, id);
    hide AsksFor, GrantsActions;
    var spec := FindAction(c.actions, id).value;
    forall scope | scope in spec.scopes
      ensures scope in g.scopes
    {
      if r.scopes == {} {
        assert OfGrantedAction(g, c, scope);
      }
    }
  }

  predicate DistinctIds(c: Connector) {
    forall m, n :: 0 <= m < n < |c.actions| ==> c.actions[m].id != c.actions[n].id
  }

  /** What a requirement without named actions is granted has the risk of its mode. */
  lemma RiskOfMode(g: Grant, r: Requirement, c: Connector, id: string)
    requires GrantsActions(g, r, c) && r.actions == {} && DistinctIds(c)
    requires id in g.actions && FindAction(c.actions, id).Some?
    ensures r.mode.ForReading? ==> FindAction(c.actions, id).value.risk == Read
    ensures r.mode.ForWriting? ==> FindAction(c.actions, id).value.risk == Write
  {
    CapabilityTheorems.FoundActionHasId(c.actions, id);
    var spec := FindAction(c.actions, id).value;
    var m :| 0 <= m < |c.actions| && c.actions[m] == spec;
    if r.mode.ForReading? {
      var n :| 0 <= n < |c.actions| && c.actions[n].id == id && c.actions[n].risk == Read;
      assert m == n;
    } else if r.mode.ForWriting? {
      var n :| 0 <= n < |c.actions| && c.actions[n].id == id && c.actions[n].risk == Write;
      assert m == n;
    }
  }

  /** An invocation is under way with a bundle's token for a grant, and its connection has the grant's scopes. */
  predicate InvokesGrant(s: State, bundle: nat, i: nat, invocation: nat, g: Grant) {
    && bundle in s.bundles && i < |s.bundles[bundle].bindings| && s.bundles[bundle].bindings[i].grant == g
    && invocation in s.invocations && s.invocations[invocation].pc.NeedsAction?
    && s.invocations[invocation].capability == s.bundles[bundle].bindings[i].capability
    && g.scopes <= s.invocations[invocation].pc.connection.scopes
  }

  /** The catalog has the actions that the registry had when the grants were made. */
  predicate StillDefines(s: State, c: Connection, connector: Connector) {
    && c.providerId in s.catalog && c.connectorId in s.catalog[c.providerId]
    && s.catalog[c.providerId][c.connectorId] == connector.actions
  }

  /** Every run: the invocation of a bundle's token is for an action of its grant and has the grant's scopes. */
  lemma TokenCarriesGrant(pace: Pace, now: real, trace: seq<Action>, bundle: nat, i: nat, invocation: nat, g: Grant)
    requires InvokesGrant(CapabilityTheorems.Reached(pace, now, trace), bundle, i, invocation, g)
    ensures var v := CapabilityTheorems.Reached(pace, now, trace).invocations[invocation];
            v.capability.scopes == g.scopes && v.actionId in g.actions
  {
    CapabilityTheorems.RunKeepsInv(pace, now, trace);
    var s, seen := CapabilityTheorems.Reached(pace, now, trace), CapabilityTheorems.Seen(pace, now, trace);
    hide CapabilityTheorems.Reached, CapabilityTheorems.Seen;
    var b := s.bundles[bundle];
    assert CapabilityTheorems.BundleOk(seen, s.issued, bundle, b);
    assert CapabilityTheorems.BindingOk(seen, s.issued, bundle, b.input, b.bindings[i]);
    assert CapabilityTheorems.InvocationOk(pace, seen, s, invocation, s.invocations[invocation]);
  }

  /** The next read lets the call go on exactly if the connector defines the action within the grant's scopes. */
  lemma NextReadDecides(pace: Pace, s: State, invocation: nat, allowed: bool, g: Grant, c: Connector)
    requires invocation in s.invocations && s.invocations[invocation].pc.NeedsAction?
    requires s.invocations[invocation].capability.scopes == g.scopes
    requires g.scopes <= s.invocations[invocation].pc.connection.scopes
    requires StillDefines(s, s.invocations[invocation].pc.connection, c)
    ensures var v := s.invocations[invocation];
            var v' := Step(pace, s, StepInvoke(invocation, allowed)).invocations[invocation];
            var spec := FindAction(c.actions, v.actionId);
            && (v'.pc.MayCall? <==> spec.Some? && spec.value.scopes <= g.scopes)
            && (v'.pc.MayCall? ==> v'.pc == MayCall(v.pc.connection, spec.value))
  {}

  /**
    From manifest to provider, over every run. A created grant comes from requirement `k`. As long
    as the connection still has the grant's scopes and the catalog still has the connector's
    actions, an invocation with a bundle's token for that grant passes both scope checks exactly
    if the connector defines its action within the grant's scopes; if the manifest names enough
    scopes or none, exactly if the connector defines the action at all. If action ids are distinct,
    a manifest that only says that it reads gets calls of risk `Read` only, and one that writes of `Write`.
    */
  lemma GrantedActionsPass(
    manifestId: string, requirements: seq<Requirement>, owner: Actor, grantee: Actor,
    registry: map<string, Connector>, connections: seq<Listed>, g: Grant,
    pace: Pace, now: real, trace: seq<Action>, bundle: nat, i: nat, invocation: nat, allowed: bool) returns (k: nat)
    requires var grants := CreateGrants(manifestId, requirements, owner, grantee, registry, connections);
             grants.Some? && g in grants.value
    requires InvokesGrant(CapabilityTheorems.Reached(pace, now, trace), bundle, i, invocation, g)
    ensures k < |requirements|
    ensures Backs(g, manifestId, requirements[k], owner, grantee, registry, connections)
    ensures var s, r := CapabilityTheorems.Reached(pace, now, trace), requirements[k];
            var v, c := s.invocations[invocation], registry[r.connectorId];
            var pc := Step(pace, s, StepInvoke(invocation, allowed)).invocations[invocation].pc;
            var spec := FindAction(c.actions, v.actionId);
            StillDefines(s, v.pc.connection, c) ==>
              && (pc.MayCall? <==> spec.Some? && spec.value.scopes <= g.scopes)
              && (pc.MayCall? ==> pc == MayCall(v.pc.connection, spec.value))
              && (NamesEnough(r, c) ==>
                    (pc.MayCall? <==> exists n :: 0 <= n < |c.actions| && c.actions[n].id == v.actionId))
              && (pc.MayCall? && r.actions == {} && DistinctIds(c) ==>
                    && (r.mode.ForReading? ==> pc.action.risk == Read)
                    && (r.mode.ForWriting? ==> pc.action.risk == Write))
  {
    var of := GrantsAreBacked(manifestId, requirements, owner, grantee, registry, connections);
    var grants := CreateGrants(manifestId, requirements, owner, grantee, registry, connections).value;
    var m :| 0 <= m < |grants| && grants[m] == g;
    k := of[m];
    TokenCarriesGrant(pace, now, trace, bundle, i, invocation, g);
    var s, r := CapabilityTheorems.Reached(pace, now, trace), requirements[k];
    var v, c := s.invocations[invocation], registry[r.connectorId];
    hide CapabilityTheorems.Reached, CreateGrants, ComesFrom, NamesEnough, GrantsActions, GrantsScopes, StillDefines,
         DistinctIds, Step;
    if StillDefines(s, v.pc.connection, c) {
      NextReadDecides(pace, s, invocation, allowed, g, c);
      FoundIfListed(c.actions, v.actionId);
      if NamesEnough(r, c) && FindAction(c.actions, v.actionId).Some? {
        EnoughForAction(g, r, c, v.actionId);
      }
      if r.actions == {} && DistinctIds(c) && FindAction(c.actions, v.actionId).Some? {
        RiskOfMode(g, r, c, v.actionId);
      }
    }
  }
}
