/** A provider call made with a bundle's token stays inside the grant the token was issued for. */
module CapabilityTheorems {
  import opened Wrappers
  import opened Capability

  // --- What a run has seen --------------------------------------------------------------------

  /** What a step reads in the state it starts from; each names the bundle or invocation that reads. */
  datatype Sight =
    | GrantRead(bundle: nat, grant: Grant)
    | OwnerChecked(bundle: nat, grant: Grant)
    | Vouched(bundle: nat, grant: Grant, capability: Capability)
    | ConnectionRead(invocation: nat, connection: Connection, at: real)

  predicate HasGrant(s: State, g: Grant) {
    g.id in s.grants && s.grants[g.id] == g
  }

  /** The bundling loop stands before the given grant. */
  predicate StandsAt(s: State, bundle: nat, g: Grant) {
    && bundle in s.bundles && (s.bundles[bundle].pc.Checking? || s.bundles[bundle].pc.Issuing?)
    && s.bundles[bundle].pc.next < |s.bundles[bundle].pc.grants|
    && s.bundles[bundle].pc.grants[s.bundles[bundle].pc.next] == g
  }

  predicate OwnsActive(s: State, id: string, owner: Actor) {
    id in s.connections && s.connections[id].owner == owner && s.connections[id].active
  }

  predicate Shows(pace: Pace, s: State, sight: Sight) {
    match sight
    case GrantRead(bundle, g) => bundle in s.bundles && s.bundles[bundle].pc.Resolving? && HasGrant(s, g)
    case OwnerChecked(bundle, g) =>
      StandsAt(s, bundle, g) && s.bundles[bundle].pc.Checking?
        && OwnsActive(s, g.connectionId, s.bundles[bundle].input.owner)
    case Vouched(bundle, g, c) => StandsAt(s, bundle, g) && s.bundles[bundle].pc.Issuing? && MayIssue(s, c)
    case ConnectionRead(id, c, at) =>
      && id in s.invocations && s.invocations[id].pc.NeedsConnection? && s.clock == at
      && Lookup(s, s.invocations[id].capability.connectionId) == Some(c) && IsUsable(c, at + pace.margin)
  }

  function Reached(pace: Pace, now: real, actions: seq<Action>): State {
    Run(pace, Initial(now), actions)
  }

  ghost predicate Saw(pace: Pace, now: real, actions: seq<Action>, sight: Sight) {
    exists k :: 0 <= k <= |actions| && Shows(pace, Reached(pace, now, actions[..k]), sight)
  }

  ghost function Seen(pace: Pace, now: real, actions: seq<Action>): iset<Sight> {
    iset sight | Saw(pace, now, actions, sight)
  }

  lemma SeenGrows(pace: Pace, now: real, actions: seq<Action>, action: Action)
    ensures Seen(pace, now, actions) <= Seen(pace, now, actions + [action])
  {
    hide Shows, Reached;
    forall sight | Saw(pace, now, actions, sight)
      ensures Saw(pace, now, actions + [action], sight)
    {
      var k :| 0 <= k <= |actions| && Shows(pace, Reached(pace, now, actions[..k]), sight);
      assert (actions + [action])[..k] == actions[..k];
    }
  }

  lemma SeesNow(pace: Pace, now: real, actions: seq<Action>)
    ensures AllIn(pace, Reached(pace, now, actions), Seen(pace, now, actions))
  {
    hide Shows, Reached;
    assert actions[..|actions|] == actions;
  }

  /** Everything the state shows belongs to what was seen. */
  ghost predicate AllIn(pace: Pace, s: State, seen: iset<Sight>) {
    forall sight :: Shows(pace, s, sight) ==> sight in seen
  }

  // --- The invariant --------------------------------------------------------------------------

  predicate Keyed(s: State) {
    forall id :: id in s.grants ==> s.grants[id].id == id
  }

  predicate DistinctIds(s: State) {
    forall c, d :: c in s.issued && d in s.issued && c.id == d.id ==> c == d
  }

  /** A grant that is bundled: its bundle read it from the store, active, and it is what the bundle asked for. */
  ghost predicate GrantOk(seen: iset<Sight>, id: nat, input: BundleInput, g: Grant) {
    GrantRead(id, g) in seen && Wanted(input, g)
  }

  ghost predicate BindingOk(seen: iset<Sight>, issued: set<Capability>, id: nat, input: BundleInput, b: Binding) {
    && GrantOk(seen, id, input, b.grant)
    && OwnerChecked(id, b.grant) in seen && Vouched(id, b.grant, b.capability) in seen
    && b.capability in issued
    && b.capability == CapabilityFor(input, b.grant, b.capability.id, b.capability.expiresAt - input.ttl)
  }

  ghost predicate PcOk(seen: iset<Sight>, id: nat, b: Bundle) {
    && (b.pc.Checking? || b.pc.Issuing? ==>
          forall i :: 0 <= i < |b.pc.grants| ==> GrantOk(seen, id, b.input, b.pc.grants[i]))
    && (b.pc.Issuing? ==> b.pc.next < |b.pc.grants| && OwnerChecked(id, b.pc.grants[b.pc.next]) in seen)
  }

  ghost predicate BundleOk(seen: iset<Sight>, issued: set<Capability>, id: nat, b: Bundle) {
    && (forall i :: 0 <= i < |b.bindings| ==> BindingOk(seen, issued, id, b.input, b.bindings[i]))
    && PcOk(seen, id, b)
  }

  /** Both scope checks of an invocation. */
  predicate ActionOk(v: Invocation, c: Connection, action: ActionSpec) {
    action.id == v.actionId && action.scopes <= c.scopes && action.scopes <= v.capability.scopes
  }

  /** What an invocation past the connection read relies on. */
  ghost predicate HasRead(pace: Pace, seen: iset<Sight>, id: nat, v: Invocation, c: Connection) {
    v.verifiedAt <= v.readAt && ConnectionRead(id, c, v.readAt) in seen && IsUsable(c, v.readAt + pace.margin)
  }

  predicate StillStored(pace: Pace, s: State, v: Invocation, c: Connection) {
    pace.frozen ==> Lookup(s, v.capability.connectionId) == Some(c)
  }

  ghost predicate InvocationOk(pace: Pace, seen: iset<Sight>, s: State, id: nat, v: Invocation) {
    && v.capability in s.issued && v.actionId in v.capability.actions
    && v.verifiedAt + pace.margin < v.capability.expiresAt && v.verifiedAt <= s.clock
    && match v.pc
       case NeedsConnection => true
       case NeedsAction(c) => HasRead(pace, seen, id, v, c) && StillStored(pace, s, v, c)
       case MayCall(c, action) => HasRead(pace, seen, id, v, c) && StillStored(pace, s, v, c) && ActionOk(v, c, action)
       case Called(c, action, at, stored) =>
         && HasRead(pace, seen, id, v, c) && ActionOk(v, c, action)
         && (pace.longest.Some? ==> at <= v.verifiedAt + pace.longest.value)
         && (pace.frozen ==> stored == Some(c))
       case Denied => true
  }

  ghost predicate Inv(pace: Pace, seen: iset<Sight>, s: State) {
    && Keyed(s) && DistinctIds(s)
    && (forall id :: id in s.bundles ==> BundleOk(seen, s.issued, id, s.bundles[id]))
    && (forall id :: id in s.invocations ==> InvocationOk(pace, seen, s, id, s.invocations[id]))
  }

  lemma SeeingMoreKeepsInv(pace: Pace, seen: iset<Sight>, more: iset<Sight>, s: State)
    requires Inv(pace, seen, s) && seen <= more
    ensures Inv(pace, more, s)
  {
    forall id | id in s.bundles
      ensures BundleOk(more, s.issued, id, s.bundles[id])
    {
      assert BundleOk(seen, s.issued, id, s.bundles[id]);
    }
  }

  // --- Bundles --------------------------------------------------------------------------------

  lemma {:induction false} FoundAreStored(grants: map<string, Grant>, ids: seq<string>)
    requires forall id :: id in grants ==> grants[id].id == id
    ensures forall i :: 0 <= i < |Found(grants, ids)| ==>
              && Found(grants, ids)[i].id in ids && Found(grants, ids)[i].id in grants
              && grants[Found(grants, ids)[i].id] == Found(grants, ids)[i]
  {
    if ids == [] {
      return;
    }
    FoundAreStored(grants, ids[..|ids| - 1]);
  }

  lemma {:induction false} OfManifestAreListed(listed: seq<Grant>, input: BundleInput)
    ensures forall i :: 0 <= i < |OfManifest(listed, input)| ==>
              && OfManifest(listed, input)[i] in listed && OfManifest(listed, input)[i].owner == input.owner
              && OfManifest(listed, input)[i].active
  {
    if listed == [] {
      return;
    }
    OfManifestAreListed(listed[..|listed| - 1], input);
  }

  /** Either way of naming grants yields stored, active grants of the owner that were asked for. */
  lemma ResolvedAreWanted(grants: map<string, Grant>, input: BundleInput, listed: seq<Grant>, i: nat)
    requires forall id :: id in grants ==> grants[id].id == id
    requires Resolve(grants, input, listed).Some? && i < |Resolve(grants, input, listed).value|
    ensures var g := Resolve(grants, input, listed).value[i];
            Wanted(input, g) && g.id in grants && grants[g.id] == g
  {
    if input.grantIds != [] {
      FoundAreStored(grants, input.grantIds);
    } else {
      OfManifestAreListed(listed, input);
      var g := OfManifest(listed, input)[i];
      var j :| 0 <= j < |listed| && listed[j] == g;
    }
  }

  lemma ResolvingKeepsPc(pace: Pace, seen: iset<Sight>, s: State, id: nat, listed: seq<Grant>, capabilityId: nat)
    requires Keyed(s) && AllIn(pace, s, seen) && id in s.bundles && s.bundles[id].pc.Resolving?
    ensures PcOk(seen, id, BundleAfter(s, s.bundles[id], listed, capabilityId))
  {
    hide Resolve, Wanted;
    var b := s.bundles[id];
    var resolved := Resolve(s.grants, b.input, listed);
    if resolved.Some? {
      forall i | 0 <= i < |resolved.value|
        ensures GrantOk(seen, id, b.input, resolved.value[i])
      {
        ResolvedAreWanted(s.grants, b.input, listed, i);
        assert Shows(pace, s, GrantRead(id, resolved.value[i]));
      }
    }
  }

  lemma CheckingKeepsPc(pace: Pace, seen: iset<Sight>, s: State, id: nat, listed: seq<Grant>, capabilityId: nat)
    requires AllIn(pace, s, seen) && id in s.bundles && s.bundles[id].pc.Checking? && PcOk(seen, id, s.bundles[id])
    ensures PcOk(seen, id, BundleAfter(s, s.bundles[id], listed, capabilityId))
  {
    hide GrantOk;
    var pc := s.bundles[id].pc;
    if pc.next < |pc.grants| {
      var sight := OwnerChecked(id, pc.grants[pc.next]);
      assert Shows(pace, s, sight) ==> sight in seen;
    }
  }

  lemma IssuingKeepsBundle(pace: Pace, seen: iset<Sight>, s: State, id: nat, listed: seq<Grant>, capabilityId: nat,
                           issued: set<Capability>)
    requires AllIn(pace, s, seen) && id in s.bundles && s.bundles[id].pc.Issuing?
    requires BundleOk(seen, s.issued, id, s.bundles[id])
    requires var issue := ToIssue(s, s.bundles[id], capabilityId);
             s.issued <= issued && (issue.Some? ==> issue.value in issued)
    ensures BundleOk(seen, issued, id, BundleAfter(s, s.bundles[id], listed, capabilityId))
  {
    hide Wanted, MayIssue;
    var b, issue := s.bundles[id], ToIssue(s, s.bundles[id], capabilityId);
    assert GrantOk(seen, id, b.input, b.pc.grants[b.pc.next]);
    if issue.Some? {
      assert Shows(pace, s, Vouched(id, b.pc.grants[b.pc.next], issue.value));
    }
    forall i | 0 <= i < |b.bindings|
      ensures BindingOk(seen, issued, id, b.input, b.bindings[i])
    {
      assert BindingOk(seen, s.issued, id, b.input, b.bindings[i]);
    }
  }

  lemma BundleStepKeepsBundle(pace: Pace, seen: iset<Sight>, s: State, id: nat, listed: seq<Grant>, capabilityId: nat)
    requires Keyed(s) && AllIn(pace, s, seen) && id in s.bundles && BundleOk(seen, s.issued, id, s.bundles[id])
    ensures BundleOk(seen, StepBundleAt(s, id, s.bundles[id], listed, capabilityId).issued, id,
                     BundleAfter(s, s.bundles[id], listed, capabilityId))
  {
    hide AllIn, Resolve, MayIssue;
    var b := s.bundles[id];
    if b.pc.Issuing? {
      IssuingKeepsBundle(pace, seen, s, id, listed, capabilityId, StepBundleAt(s, id, b, listed, capabilityId).issued);
    } else {
      hide BindingOk, GrantOk;
      if b.pc.Resolving? {
        ResolvingKeepsPc(pace, seen, s, id, listed, capabilityId);
      } else if b.pc.Checking? {
        CheckingKeepsPc(pace, seen, s, id, listed, capabilityId);
      }
    }
  }

  lemma IssuedMoreKeepsBundle(seen: iset<Sight>, issued: set<Capability>, more: set<Capability>, id: nat, b: Bundle)
    requires BundleOk(seen, issued, id, b) && issued <= more
    ensures BundleOk(seen, more, id, b)
  {
    hide GrantOk;
    forall i | 0 <= i < |b.bindings|
      ensures BindingOk(seen, more, id, b.input, b.bindings[i])
    {
      assert BindingOk(seen, issued, id, b.input, b.bindings[i]);
    }
  }

  lemma BundleStepKeepsInv(pace: Pace, seen: iset<Sight>, s: State, id: nat, listed: seq<Grant>, capabilityId: nat)
    requires AllIn(pace, s, seen) && Inv(pace, seen, s) && id in s.bundles
    ensures Inv(pace, seen, StepBundleAt(s, id, s.bundles[id], listed, capabilityId))
  {
    var s' := StepBundleAt(s, id, s.bundles[id], listed, capabilityId);
    hide AllIn, BundleOk, BundleAfter;
    BundleStepKeepsBundle(pace, seen, s, id, listed, capabilityId);
    forall other | other in s'.bundles
      ensures BundleOk(seen, s'.issued, other, s'.bundles[other])
    {
      if other != id {
        IssuedMoreKeepsBundle(seen, s.issued, s'.issued, other, s.bundles[other]);
      }
    }
    InvocationsKeep(pace, seen, s, s');
  }

  // --- Invocations ----------------------------------------------------------------------------

  /** Invocations rely on nothing that a step of someone else takes away. */
  lemma InvocationsKeep(pace: Pace, seen: iset<Sight>, s: State, s': State)
    requires forall id :: id in s.invocations ==> InvocationOk(pace, seen, s, id, s.invocations[id])
    requires s.issued <= s'.issued && s.clock <= s'.clock && s'.invocations == s.invocations
    requires pace.frozen ==> forall id :: InUse(s, id) ==> Lookup(s', id) == Lookup(s, id)
    ensures forall id :: id in s'.invocations ==> InvocationOk(pace, seen, s', id, s'.invocations[id])
  {
    hide HasRead, ActionOk, Lookup;
    forall id | id in s'.invocations
      ensures InvocationOk(pace, seen, s', id, s'.invocations[id])
    {
      var v := s.invocations[id];
      assert InvocationOk(pace, seen, s, id, v);
      assert v.pc.NeedsAction? || v.pc.MayCall? ==> InUse(s, v.capability.connectionId);
    }
  }

  lemma {:induction false} FoundActionHasId(specs: seq<ActionSpec>, id: string)
    ensures FindAction(specs, id).Some? ==> FindAction(specs, id).value.id == id && FindAction(specs, id).value in specs
  {
    if specs == [] {
      return;
    }
    if specs[0].id == id {
    } else {
      FoundActionHasId(specs[1..], id);
    }
  }

  lemma InvokeStepKeepsInvocation(pace: Pace, seen: iset<Sight>, s: State, id: nat, allowed: bool)
    requires AllIn(pace, s, seen) && id in s.invocations && InvocationOk(pace, seen, s, id, s.invocations[id])
    ensures InvocationOk(pace, seen, s, id, InvocationAfter(pace, s, s.invocations[id], allowed))
  {
    var v := s.invocations[id];
    if v.pc.NeedsAction? && CheckedAction(s, v, v.pc.connection).Some? {
      FoundActionHasId(s.catalog[v.pc.connection.providerId][v.pc.connection.connectorId], v.actionId);
    }
    if v.pc.NeedsConnection? && Lookup(s, v.capability.connectionId).Some? {
      var sight := ConnectionRead(id, Lookup(s, v.capability.connectionId).value, s.clock);
      assert Shows(pace, s, sight) ==> sight in seen;
    }
  }

  /** One invocation changes, and what it relies on holds; the others do not notice. */
  lemma OneInvocationKeepsInv(pace: Pace, seen: iset<Sight>, s: State, id: nat, v: Invocation)
    requires Inv(pace, seen, s) && InvocationOk(pace, seen, s, id, v)
    ensures Inv(pace, seen, SetInvocation(s, id, v))
  {
    hide HasRead, ActionOk, BundleOk;
    var s' := SetInvocation(s, id, v);
    forall other | other in s'.invocations
      ensures InvocationOk(pace, seen, s', other, s'.invocations[other])
    {
      assert other != id ==> InvocationOk(pace, seen, s, other, s.invocations[other]);
    }
  }

  // --- Every step -----------------------------------------------------------------------------

  lemma StartBundleKeepsInv(pace: Pace, seen: iset<Sight>, s: State, id: nat, input: BundleInput)
    requires Inv(pace, seen, s)
    ensures Inv(pace, seen, Step(pace, s, StartBundle(id, input)))
  {
    hide InvocationOk, BundleOk;
    var s' := Step(pace, s, StartBundle(id, input));
    NewBundleIsOk(seen, s'.issued, id, input);
    InvocationsKeep(pace, seen, s, s');
  }

  lemma NewBundleIsOk(seen: iset<Sight>, issued: set<Capability>, id: nat, input: BundleInput)
    ensures BundleOk(seen, issued, id, Bundle(input, [], Resolving))
  {}

  predicate FromOutside(action: Action) {
    !action.StartBundle? && !action.StepBundle? && !action.StartInvoke? && !action.StepInvoke?
  }

  /** A step of the environment leaves bundles and invocations alone, and a frozen connection that is in use. */
  lemma OutsideFrame(pace: Pace, s: State, action: Action)
    requires FromOutside(action) && Keyed(s) && DistinctIds(s)
    ensures var s' := Step(pace, s, action);
            && Keyed(s') && DistinctIds(s') && s.issued <= s'.issued && s.clock <= s'.clock
            && s'.bundles == s.bundles && s'.invocations == s.invocations
            && (pace.frozen ==> forall id :: InUse(s, id) ==> Lookup(s', id) == Lookup(s, id))
  {
    hide InUse, IsUsable;
  }

  /** Steps of the environment, and issues outside a bundle. */
  lemma OtherStepKeepsInv(pace: Pace, seen: iset<Sight>, s: State, action: Action)
    requires Inv(pace, seen, s) && FromOutside(action)
    ensures Inv(pace, seen, Step(pace, s, action))
  {
    hide InvocationOk, BundleOk, InUse, Step, FromOutside, Keyed, DistinctIds;
    var s' := Step(pace, s, action);
    OutsideFrame(pace, s, action);
    InvocationsKeep(pace, seen, s, s');
    forall id | id in s'.bundles
      ensures BundleOk(seen, s'.issued, id, s'.bundles[id])
    {
      IssuedMoreKeepsBundle(seen, s.issued, s'.issued, id, s.bundles[id]);
    }
  }

  lemma StepKeepsInv(pace: Pace, seen: iset<Sight>, s: State, action: Action)
    requires AllIn(pace, s, seen) && Inv(pace, seen, s)
    ensures Inv(pace, seen, Step(pace, s, action))
  {
    match action
    case StepBundle(id, listed, capabilityId) =>
      hide Inv, AllIn;
      if id in s.bundles { BundleStepKeepsInv(pace, seen, s, id, listed, capabilityId); }
    case StepInvoke(id, allowed) =>
      if id in s.invocations {
        InvokeStepKeepsInvocation(pace, seen, s, id, allowed);
        hide InvocationOk, AllIn, InvocationAfter;
        OneInvocationKeepsInv(pace, seen, s, id, InvocationAfter(pace, s, s.invocations[id], allowed));
      }
    case StartInvoke(id, token, actionId) =>
      hide AllIn, BundleOk;
      if Step(pace, s, action) != s {
        OneInvocationKeepsInv(pace, seen, s, id, Step(pace, s, action).invocations[id]);
      }
    case StartBundle(id, input) =>
      hide Inv, AllIn;
      StartBundleKeepsInv(pace, seen, s, id, input);
    case _ =>
      hide Inv, AllIn;
      OtherStepKeepsInv(pace, seen, s, action);
  }

  lemma {:induction false} RunKeepsInv(pace: Pace, now: real, actions: seq<Action>)
    ensures Inv(pace, Seen(pace, now, actions), Reached(pace, now, actions))
    decreases |actions|
  {
    if actions == [] {
      return;
    }
    hide Inv, AllIn, Seen;
    var init, last := actions[..|actions| - 1], actions[|actions| - 1];
    RunKeepsInv(pace, now, init);
    SeesNow(pace, now, init);
    StepKeepsInv(pace, Seen(pace, now, init), Reached(pace, now, init), last);
    SeenGrows(pace, now, init, last);
    assert actions == init + [last];
    SeeingMoreKeepsInv(pace, Seen(pace, now, init), Seen(pace, now, actions), Reached(pace, now, actions));
  }

  // --- Calls stay inside their grant ------------------------------------------------------------

  /**
    A call that reaches the provider with a bundle's token. Its action is one of the grant's, and
    the action's scopes lie in the grant's and in those of the connection the invocation read. The
    bundle itself read the grant from the store, active and owned by the bundle's owner, then found
    the connection active and owned by the same owner, and issued the capability while the
    connection was usable and held the grant's scopes. The invocation found the connection usable,
    after a token check before expiry.
    */
  lemma BundleCallsStayInsideTheirGrant(pace: Pace, now: real, actions: seq<Action>, bundle: nat, i: nat,
                                        invocation: nat)
    requires IsPace(pace)
    requires var s := Reached(pace, now, actions);
             && bundle in s.bundles && i < |s.bundles[bundle].bindings|
             && invocation in s.invocations && s.invocations[invocation].pc.Called?
             && s.invocations[invocation].capability == s.bundles[bundle].bindings[i].capability
    ensures var s := Reached(pace, now, actions);
            var v, g, input := s.invocations[invocation], s.bundles[bundle].bindings[i].grant, s.bundles[bundle].input;
            var c, action := v.pc.connection, v.pc.action;
            && g.active && g.owner == input.owner && Wanted(input, g)
            && action.id == v.actionId && action.id in g.actions && action.scopes <= g.scopes * c.scopes
            && Saw(pace, now, actions, GrantRead(bundle, g))
            && Saw(pace, now, actions, OwnerChecked(bundle, g))
            && Saw(pace, now, actions, Vouched(bundle, g, v.capability))
            && v.capability.connectionId == g.connectionId && v.capability.scopes == g.scopes
            && Saw(pace, now, actions, ConnectionRead(invocation, c, v.readAt)) && IsUsable(c, v.readAt)
            && v.verifiedAt < v.capability.expiresAt && v.verifiedAt <= v.readAt
  {
    RunKeepsInv(pace, now, actions);
    var s, seen := Reached(pace, now, actions), Seen(pace, now, actions);
    hide Reached, Saw;
    assert BundleOk(seen, s.issued, bundle, s.bundles[bundle]);
    assert BindingOk(seen, s.issued, bundle, s.bundles[bundle].input, s.bundles[bundle].bindings[i]);
    assert InvocationOk(pace, seen, s, invocation, s.invocations[invocation]);
  }

  /** No call carries authority the hub did not sign, and a capability id stands for one capability. */
  lemma CallsCarryIssuedCapabilities(pace: Pace, now: real, actions: seq<Action>, a: nat, b: nat)
    requires var s := Reached(pace, now, actions);
             a in s.invocations && b in s.invocations
               && s.invocations[a].capability.id == s.invocations[b].capability.id
    ensures var s := Reached(pace, now, actions);
            s.invocations[a].capability in s.issued && s.invocations[a].capability == s.invocations[b].capability
  {
    RunKeepsInv(pace, now, actions);
    var s, seen := Reached(pace, now, actions), Seen(pace, now, actions);
    hide Reached, Seen;
    assert InvocationOk(pace, seen, s, a, s.invocations[a]);
    assert InvocationOk(pace, seen, s, b, s.invocations[b]);
  }
}
