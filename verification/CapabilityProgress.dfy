/** What is granted does arrive: which grants are bundled, when a bundle is built, and when a call is made. */
module CapabilityProgress {
  import opened Wrappers
  import opened Capability
  import CapabilityTheorems

  // --- Which grants are bundled -----------------------------------------------------------------

  lemma {:induction false} FoundOnce(grants: map<string, Grant>, ids: seq<string>, g: Grant)
    requires forall id :: id in grants ==> grants[id].id == id
    ensures multiset(Found(grants, ids))[g] == if g.id in ids && g.id in grants && grants[g.id] == g then 1 else 0
  {
    if ids == [] {
    } else {
      var init, last := ids[..|ids| - 1], ids[|ids| - 1];
      assert ids == init + [last];
      FoundOnce(grants, init, g);
    }
  }

  lemma {:induction false} OfManifestKeeps(listed: seq<Grant>, input: BundleInput, g: Grant)
    ensures multiset(OfManifest(listed, input))[g] ==
              if g.owner == input.owner && g.active then multiset(listed)[g] else 0
  {
    if listed == [] {
    } else {
      var init, last := listed[..|listed| - 1], listed[|listed| - 1];
      assert listed == init + [last];
      OfManifestKeeps(init, input, g);
    }
  }

  /** Named grants resolve exactly if each is stored and as asked for, and then to each of them once. */
  lemma NamedGrantsResolve(grants: map<string, Grant>, input: BundleInput, listed: seq<Grant>)
    requires (forall id :: id in grants ==> grants[id].id == id) && input.grantIds != []
    ensures var resolved := Resolve(grants, input, listed);
            && (resolved.Some? <==> forall id :: id in input.grantIds ==> id in grants && Wanted(input, grants[id]))
            && (resolved.Some? ==>
                  forall g :: multiset(resolved.value)[g] ==
                    if g.id in input.grantIds && g.id in grants && grants[g.id] == g then 1 else 0)
  {
    var found := Found(grants, input.grantIds);
    forall g: Grant
      ensures multiset(found)[g] == if g.id in input.grantIds && g.id in grants && grants[g.id] == g then 1 else 0
    {
      FoundOnce(grants, input.grantIds, g);
    }
    CapabilityTheorems.FoundAreStored(grants, input.grantIds);
    forall id | id in input.grantIds && id in grants
      ensures exists i :: 0 <= i < |found| && found[i] == grants[id]
    {
      assert grants[id] in multiset(found);
      assert grants[id] in found;
    }
  }

  /** Without names the manifest's grants resolve as listed, those of others and inactive ones left out. */
  lemma ManifestGrantsResolve(grants: map<string, Grant>, input: BundleInput, listed: seq<Grant>)
    requires input.grantIds == []
    ensures var resolved := Resolve(grants, input, listed);
            && (resolved.Some? <==> input.manifestId.Some? && Lists(grants, input, listed))
            && (resolved.Some? ==>
                  forall g :: multiset(resolved.value)[g] ==
                    if g.owner == input.owner && g.active then multiset(listed)[g] else 0)
  {
    forall g: Grant
      ensures multiset(OfManifest(listed, input))[g] ==
                if g.owner == input.owner && g.active then multiset(listed)[g] else 0
    {
      OfManifestKeeps(listed, input, g);
    }
  }

  // --- When a bundle is built -------------------------------------------------------------------

  predicate RunsTo(pace: Pace, start: State, actions: seq<Action>, s: State) {
    Run(pace, start, actions) == s
  }

  ghost predicate Reaches(pace: Pace, start: State, s: State) {
    exists actions :: RunsTo(pace, start, actions, s)
  }

  lemma ReachesItself(pace: Pace, s: State)
    ensures Reaches(pace, s, s)
  {
    assert RunsTo(pace, s, [], s);
  }

  lemma Go(pace: Pace, start: State, s: State, action: Action) returns (s': State)
    requires Reaches(pace, start, s)
    ensures s' == Step(pace, s, action) && Reaches(pace, start, s')
  {
    var actions :| RunsTo(pace, start, actions, s);
    s' := Step(pace, s, action);
    assert (actions + [action])[..|actions|] == actions;
    assert RunsTo(pace, start, actions + [action], s');
  }

  /** What bundling needs of a grant's connection when it gets there. */
  predicate Backed(s: State, input: BundleInput, g: Grant) {
    && g.connectionId in s.connections
    && s.connections[g.connectionId].owner == input.owner && s.connections[g.connectionId].active
    && (g.connectorId in s.registered ==>
          && g.scopes <= s.connections[g.connectionId].scopes
          && (s.connections[g.connectionId].expiresAt.Some? ==>
                s.connections[g.connectionId].expiresAt.value > s.clock))
  }

  /** The capability that a grant of a registered connector gets. */
  function Share(registered: set<string>, input: BundleInput, g: Grant, free: nat, now: real): seq<Binding> {
    if g.connectorId !in registered then []
    else [Binding(g, Capability(free, input.subject, g.connectionId, g.scopes, g.actions, now + input.ttl))]
  }

  /** The shares of all grants, in their order. */
  function Promised(registered: set<string>, input: BundleInput, grants: seq<Grant>, free: nat, now: real):
    seq<Binding>
  {
    if grants == [] then []
    else
      var share := Share(registered, input, grants[0], free, now);
      share + Promised(registered, input, grants[1..], free + |share|, now)
  }

  predicate Free(s: State, free: nat) {
    forall c :: c in s.issued ==> c.id < free
  }

  /** A bundle before the grants from `next` on. */
  predicate StandsBefore(s: State, id: nat, grants: seq<Grant>, next: nat) {
    id in s.bundles && next <= |grants| && s.bundles[id].pc == NextGrant(grants, next)
  }

  /** Nothing but the bundle and the issued capabilities differs. */
  predicate SameWorld(s: State, s': State, id: nat) {
    && s' == s.(bundles := s'.bundles, issued := s'.issued) && s.issued <= s'.issued
    && id in s'.bundles && s'.bundles == s.bundles[id := s'.bundles[id]]
  }

  lemma GrantIsBundled(pace: Pace, start: State, s: State, id: nat, grants: seq<Grant>, next: nat, free: nat)
    returns (s': State)
    requires Reaches(pace, start, s) && StandsBefore(s, id, grants, next) && next < |grants| && Free(s, free)
    requires Backed(s, s.bundles[id].input, grants[next])
    ensures var b, share := s.bundles[id], Share(s.registered, s.bundles[id].input, grants[next], free, s.clock);
            && Reaches(pace, start, s') && SameWorld(s, s', id)
            && Free(s', free + |share|) && StandsBefore(s', id, grants, next + 1)
            && s'.bundles[id].input == b.input && s'.bundles[id].bindings == b.bindings + share
  {
    hide Reaches;
    s' := Go(pace, start, s, StepBundle(id, [], free));
    if grants[next].connectorId in s.registered {
      s' := Go(pace, start, s', StepBundle(id, [], free));
    }
  }

  lemma {:induction false} RestIsBundled(pace: Pace, start: State, s: State, id: nat, grants: seq<Grant>, next: nat,
                                         free: nat) returns (s': State)
    requires Reaches(pace, start, s) && StandsBefore(s, id, grants, next) && Free(s, free)
    requires forall k :: next <= k < |grants| ==> Backed(s, s.bundles[id].input, grants[k])
    ensures var b, more := s.bundles[id], Promised(s.registered, s.bundles[id].input, grants[next..], free, s.clock);
            && Reaches(pace, start, s') && SameWorld(s, s', id)
            && s'.bundles[id] == Bundle(b.input, b.bindings + more, Built)
    decreases |grants| - next
  {
    hide Reaches;
    if next == |grants| {
      s' := s;
      AllBundled(s, id, grants, free);
    } else {
      var input, before := s.bundles[id].input, s.bundles[id].bindings;
      var share := Share(s.registered, input, grants[next], free, s.clock);
      var mid := GrantIsBundled(pace, start, s, id, grants, next, free);
      WorldFacts(s, mid, id);
      hide Promised, Share, Backed, Free, StandsBefore, SameWorld;
      forall k | next + 1 <= k < |grants|
        ensures Backed(mid, input, grants[k])
      {
        BackedInSameWorld(s, mid, id, input, grants[k]);
      }
      s' := RestIsBundled(pace, start, mid, id, grants, next + 1, free + |share|);
      WorldFacts(mid, s', id);
      SameWorldStill(s, mid, s', id);
      PromisedStep(s.registered, input, grants, next, free, s.clock);
      Regroup(before, share, Promised(s.registered, input, grants[next + 1..], free + |share|, s.clock));
    }
  }

  lemma WorldFacts(s: State, s': State, id: nat)
    requires SameWorld(s, s', id)
    ensures id in s'.bundles && s'.registered == s.registered && s'.clock == s.clock
  {}

  lemma Regroup(a: seq<Binding>, b: seq<Binding>, c: seq<Binding>)
    ensures (a + b) + c == a + (b + c)
  {}

  lemma PromisedStep(registered: set<string>, input: BundleInput, grants: seq<Grant>, next: nat, free: nat, now: real)
    requires next < |grants|
    ensures var share := Share(registered, input, grants[next], free, now);
            Promised(registered, input, grants[next..], free, now) ==
              share + Promised(registered, input, grants[next + 1..], free + |share|, now)
  {
    assert grants[next..][1..] == grants[next + 1..];
  }

  lemma AllBundled(s: State, id: nat, grants: seq<Grant>, free: nat)
    requires StandsBefore(s, id, grants, |grants|)
    ensures SameWorld(s, s, id) && s.bundles[id].pc == Built
    ensures Promised(s.registered, s.bundles[id].input, grants[|grants|..], free, s.clock) == []
  {
    assert s.bundles == s.bundles[id := s.bundles[id]];
  }

  lemma BackedInSameWorld(s: State, s': State, id: nat, input: BundleInput, g: Grant)
    requires SameWorld(s, s', id)
    ensures Backed(s', input, g) <==> Backed(s, input, g)
  {}

  lemma SameWorldStill(s: State, mid: State, s': State, id: nat)
    requires SameWorld(s, mid, id) && SameWorld(mid, s', id)
    ensures SameWorld(s, s', id)
  {}

  /**
    Undisturbed, a request whose grants resolve and are backed by the owner's connections gets its
    bundle: one capability for each grant of a registered connector, with that grant's connection,
    actions and scopes, for the subject and the time asked for.
    */
  lemma UndisturbedBundleIsBuilt(pace: Pace, s: State, id: nat, input: BundleInput, listed: seq<Grant>, free: nat)
    returns (s': State)
    requires id !in s.bundles && Free(s, free)
    requires var resolved := Resolve(s.grants, input, listed);
             && resolved.Some? && resolved.value != []
             && forall k :: 0 <= k < |resolved.value| ==> Backed(s, input, resolved.value[k])
    ensures var promised := Promised(s.registered, input, Resolve(s.grants, input, listed).value, free, s.clock);
            && Reaches(pace, s, s') && s' == s.(bundles := s'.bundles, issued := s'.issued)
            && s'.bundles == s.bundles[id := Bundle(input, promised, Built)]
  {
    var grants := Resolve(s.grants, input, listed).value;
    var mid := BundleResolves(pace, s, id, input, listed);
    hide Reaches, Resolve, Promised, Share, Backed;
    forall k | 0 <= k < |grants|
      ensures Backed(mid, input, grants[k])
    {
      BackedAtStart(s, mid, input, grants[k]);
    }
    assert grants[0..] == grants;
    s' := RestIsBundled(pace, s, mid, id, grants, 0, free);
    BuiltAtLast(s, mid, s', id, Promised(s.registered, input, grants, free, s.clock));
  }

  lemma BuiltAtLast(s: State, mid: State, s': State, id: nat, promised: seq<Binding>)
    requires SameWorld(mid, s', id) && id in mid.bundles && mid == s.(bundles := s.bundles[id := mid.bundles[id]])
    requires s'.bundles[id] == Bundle(mid.bundles[id].input, promised, Built)
    ensures s' == s.(bundles := s'.bundles, issued := s'.issued)
    ensures s'.bundles == s.bundles[id := Bundle(mid.bundles[id].input, promised, Built)]
  {}

  lemma BackedAtStart(s: State, s': State, input: BundleInput, g: Grant)
    requires s' == s.(bundles := s'.bundles) && Backed(s, input, g)
    ensures Backed(s', input, g)
  {}

  lemma BundleResolves(pace: Pace, s: State, id: nat, input: BundleInput, listed: seq<Grant>) returns (s': State)
    requires id !in s.bundles && Resolve(s.grants, input, listed).Some? && Resolve(s.grants, input, listed).value != []
    ensures Reaches(pace, s, s')
    ensures s' == s.(bundles := s.bundles[id := Bundle(input, [], Checking(Resolve(s.grants, input, listed).value, 0))])
  {
    ReachesItself(pace, s);
    hide Reaches, Resolve;
    s' := Go(pace, s, s, StartBundle(id, input));
    s' := Go(pace, s, s', StepBundle(id, listed, 0));
    assert s'.bundles == s.bundles[id := Bundle(input, [], Checking(Resolve(s.grants, input, listed).value, 0))];
  }

  /** A bundle is refused only for one of these reasons. */
  lemma BundleRefusalHasACause(s: State, b: Bundle, listed: seq<Grant>, capabilityId: nat)
    requires !b.pc.Refused? && BundleAfter(s, b, listed, capabilityId).pc.Refused?
    ensures match b.pc
            case Resolving =>
              var resolved := Resolve(s.grants, b.input, listed);
              resolved.None? || resolved.value == []
            case Checking(grants, next) =>
              next < |grants| && !CapabilityTheorems.OwnsActive(s, grants[next].connectionId, b.input.owner)
            case Issuing(grants, next) =>
              && next < |grants|
              && (grants[next].connectionId in s.connections ==>
                    var c := s.connections[grants[next].connectionId];
                    !c.active || !(grants[next].scopes <= c.scopes)
                    || (c.expiresAt.Some? && c.expiresAt.value <= s.clock))
            case _ => false
  {}

  // --- When a call is made ------------------------------------------------------------------------

  /** The first definition of the action in the current catalog. */
  predicate Defines(specs: seq<ActionSpec>, n: nat, id: string) {
    n < |specs| && specs[n].id == id && forall m :: 0 <= m < n ==> specs[m].id != id
  }

  lemma {:induction false} FindsFirst(specs: seq<ActionSpec>, n: nat, id: string)
    requires Defines(specs, n, id)
    ensures FindAction(specs, id) == Some(specs[n])
  {
    if n == 0 {
    } else {
      assert specs[1..][n - 1] == specs[n] && forall m :: 0 <= m < n - 1 ==> specs[1..][m] == specs[m + 1];
      FindsFirst(specs[1..], n - 1, id);
    }
  }

  /** The connection a token names is usable with what the deployment asks for, and holds the action's scopes. */
  predicate Usable(pace: Pace, s: State, pass: Capability, spec: ActionSpec) {
    && pass.connectionId in s.connections && s.connections[pass.connectionId].active
    && (s.connections[pass.connectionId].expiresAt.Some? ==>
          s.connections[pass.connectionId].expiresAt.value > s.clock + pace.margin)
    && spec.scopes <= s.connections[pass.connectionId].scopes
  }

  /**
    Undisturbed, an issued token that has not expired gets its call: for every action it allows
    whose scopes lie in its own and in those of its usable connection.
    */
  lemma UndisturbedInvocationCalls(pace: Pace, s: State, id: nat, pass: Capability, actionId: string,
                                   specs: seq<ActionSpec>, n: nat) returns (s': State)
    requires IsPace(pace) && id !in s.invocations && pass in s.issued && s.clock + pace.margin < pass.expiresAt
    requires actionId in pass.actions && Defines(specs, n, actionId) && specs[n].scopes <= pass.scopes
    requires Usable(pace, s, pass, specs[n])
    requires var c := s.connections[pass.connectionId];
             c.providerId in s.catalog && c.connectorId in s.catalog[c.providerId]
             && s.catalog[c.providerId][c.connectorId] == specs
    ensures var c := s.connections[pass.connectionId];
            && Reaches(pace, s, s')
            && s' == SetInvocation(s, id, Invocation(pass, actionId, s.clock, s.clock,
                                                     Called(c, specs[n], s.clock, Some(c))))
  {
    var c := s.connections[pass.connectionId];
    FindsFirst(specs, n, actionId);
    ReachesItself(pace, s);
    var v := Invocation(pass, actionId, s.clock, s.clock, NeedsConnection);
    s' := InvocationStarts(pace, s, id, pass, actionId);
    hide Reaches, FindAction;
    s' := InvocationGoes(pace, s, s, id, v, v.(pc := NeedsAction(c)));
    s' := InvocationGoes(pace, s, s, id, v.(pc := NeedsAction(c)), v.(pc := MayCall(c, specs[n])));
    s' := InvocationGoes(pace, s, s, id, v.(pc := MayCall(c, specs[n])),
                         v.(pc := Called(c, specs[n], s.clock, Some(c))));
  }

  lemma InvocationStarts(pace: Pace, s: State, id: nat, pass: Capability, actionId: string) returns (s': State)
    requires id !in s.invocations && pass in s.issued && s.clock + pace.margin < pass.expiresAt
    requires actionId in pass.actions
    ensures s' == SetInvocation(s, id, Invocation(pass, actionId, s.clock, s.clock, NeedsConnection))
    ensures Reaches(pace, s, s')
  {
    ReachesItself(pace, s);
    hide Reaches;
    s' := Go(pace, s, s, StartInvoke(id, Signed(pass, HUB_SECRET), actionId));
  }

  /** One read of an invocation that policy and guard allow. */
  lemma InvocationGoes(pace: Pace, start: State, s: State, id: nat, v: Invocation, v': Invocation) returns (s': State)
    requires Reaches(pace, start, SetInvocation(s, id, v))
    requires InvocationAfter(pace, SetInvocation(s, id, v), v, true) == v'
    ensures s' == SetInvocation(s, id, v') && Reaches(pace, start, s')
  {
    hide Reaches, InvocationAfter;
    s' := Go(pace, start, SetInvocation(s, id, v), StepInvoke(id, true));
    assert s.invocations[id := v][id := v'] == s.invocations[id := v'];
  }

  /** A call is denied only for one of these reasons. */
  lemma DenialHasACause(pace: Pace, s: State, v: Invocation, allowed: bool)
    requires !v.pc.Denied? && InvocationAfter(pace, s, v, allowed).pc.Denied?
    ensures match v.pc
            case NeedsConnection =>
              v.capability.connectionId in s.connections ==>
                var c := s.connections[v.capability.connectionId];
                !c.active || (c.expiresAt.Some? && c.expiresAt.value <= s.clock + pace.margin)
            case NeedsAction(c) =>
              c.providerId in s.catalog && c.connectorId in s.catalog[c.providerId] ==>
                forall n: nat :: Defines(s.catalog[c.providerId][c.connectorId], n, v.actionId) ==>
                  var spec := s.catalog[c.providerId][c.connectorId][n];
                  !(spec.scopes <= c.scopes) || !(spec.scopes <= v.capability.scopes)
            case MayCall(_, _) =>
              !allowed || (pace.longest.Some? && s.clock > v.verifiedAt + pace.longest.value)
            case _ => false
  {
    if v.pc.NeedsAction? {
      var c := v.pc.connection;
      if c.providerId in s.catalog && c.connectorId in s.catalog[c.providerId] {
        var specs := s.catalog[c.providerId][c.connectorId];
        forall n: nat | Defines(specs, n, v.actionId)
          ensures !(specs[n].scopes <= c.scopes) || !(specs[n].scopes <= v.capability.scopes)
        {
          FindsFirst(specs, n, v.actionId);
        }
      }
    }
  }
}
