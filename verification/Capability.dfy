/**
  From grants to capabilities to provider calls. Bundles and invocations advance one store or
  catalog read at a time; connections, grants and catalogs may change between any two steps.
 */
module Capability {
  import opened Wrappers

  datatype Actor = Actor(kind: string, id: string)

  datatype Connection = Connection(owner: Actor, providerId: string, connectorId: string, active: bool,
                                   expiresAt: Option<real>, scopes: set<string>)

  datatype Risk = Read | Write | Destructive

  datatype ActionSpec = ActionSpec(id: string, risk: Risk, scopes: set<string>)

  datatype Grant = Grant(id: string, manifestId: string, owner: Actor, grantee: Actor, connectionId: string,
                         connectorId: string, scopes: set<string>, actions: set<string>, active: bool)

  datatype Capability = Capability(id: nat, subject: Actor, connectionId: string, scopes: set<string>,
                                   actions: set<string>, expiresAt: real)

  /** A capability signed with some secret. Signatures are unforgeable: nobody else can make one. */
  datatype Token = Signed(capability: Capability, secret: nat) | Malformed

  const HUB_SECRET: nat := 0

  // --- Bundles --------------------------------------------------------------------------------

  /** No grant ids means the whole manifest; an absent grantee or manifest is not checked. */
  datatype BundleInput = BundleInput(manifestId: Option<string>, grantIds: seq<string>, owner: Actor, subject: Actor,
                                     ttl: real, grantee: Option<Actor>)

  datatype Binding = Binding(grant: Grant, capability: Capability)

  datatype BundlePc =
    | Resolving
    | Checking(grants: seq<Grant>, next: nat)
    | Issuing(grants: seq<Grant>, next: nat)
    | Built
    | Refused

  datatype Bundle = Bundle(input: BundleInput, bindings: seq<Binding>, pc: BundlePc)

  predicate Wanted(input: BundleInput, g: Grant) {
    && g.owner == input.owner && g.active
    && (input.grantee.Some? ==> g.grantee == input.grantee.value)
    && (input.manifestId.Some? ==> g.manifestId == input.manifestId.value)
    && (input.grantIds != [] ==> g.id in input.grantIds)
  }

  function Found(grants: map<string, Grant>, ids: seq<string>): seq<Grant> {
    if ids == [] then []
    else
      var init, last := ids[..|ids| - 1], ids[|ids| - 1];
      Found(grants, init) + (if last in init || last !in grants then [] else [grants[last]])
  }

  function OfManifest(listed: seq<Grant>, input: BundleInput): seq<Grant> {
    if listed == [] then []
    else
      var last := listed[|listed| - 1];
      OfManifest(listed[..|listed| - 1], input) + (if last.owner == input.owner && last.active then [last] else [])
  }

  /** Whatever the grant store lists for a manifest and a grantee is stored and matches them. */
  predicate Lists(grants: map<string, Grant>, input: BundleInput, listed: seq<Grant>) {
    forall i :: 0 <= i < |listed| ==>
      && listed[i].id in grants && grants[listed[i].id] == listed[i]
      && input.manifestId == Some(listed[i].manifestId)
      && (input.grantee.Some? ==> listed[i].grantee == input.grantee.value)
  }

  /** The grants to bundle; `None` is one of the errors. */
  function Resolve(grants: map<string, Grant>, input: BundleInput, listed: seq<Grant>): Option<seq<Grant>> {
    if input.grantIds != [] then
      var found := Found(grants, input.grantIds);
      if exists id :: id in input.grantIds && id !in grants then None
      else if exists i :: 0 <= i < |found| && found[i].owner != input.owner then None
      else if input.grantee.Some? && exists i :: 0 <= i < |found| && found[i].grantee != input.grantee.value then None
      else if input.manifestId.Some? && exists i :: 0 <= i < |found| && found[i].manifestId != input.manifestId.value
        then None
      else if exists i :: 0 <= i < |found| && !found[i].active then None
      else Some(found)
    else if input.manifestId.None? then None
    else if !Lists(grants, input, listed) then None
    else Some(OfManifest(listed, input))
  }

  // --- Invocations ----------------------------------------------------------------------------

  /** A call also keeps, as history, when it reached the provider and which connection was stored then. */
  datatype InvokePc =
    | NeedsConnection
    | NeedsAction(connection: Connection)
    | MayCall(connection: Connection, action: ActionSpec)
    | Called(connection: Connection, action: ActionSpec, at: real, stored: Option<Connection>)
    | Denied

  /** `verifiedAt` and `readAt` are the clock at the token check and at the connection read. */
  datatype Invocation = Invocation(capability: Capability, actionId: string, verifiedAt: real, readAt: real,
                                   pc: InvokePc)

  /**
    What a deployment adds to the code: the longest time from verification to provider call, the
    life a token or connection must have left to be accepted, and whether a connection stays as it
    is while an invocation that has read it is under way. The code alone is `AS_WRITTEN`.
    */
  datatype Pace = Pace(longest: Option<real>, margin: real, frozen: bool)

  const AS_WRITTEN := Pace(None, 0.0, false)

  predicate IsPace(pace: Pace) {
    pace.margin >= 0.0 && (pace.longest.Some? ==> pace.longest.value >= 0.0)
  }

  type Catalog = map<string, map<string, seq<ActionSpec>>>

  datatype State = State(
    clock: real, connections: map<string, Connection>, grants: map<string, Grant>, catalog: Catalog,
    registered: set<string>, issued: set<Capability>, bundles: map<nat, Bundle>, invocations: map<nat, Invocation>)

  datatype Action =
    | Tick(now: real)
    | SetConnection(connectionId: string, connection: Connection)
    | DropConnection(connectionId: string)
    | SetGrant(grant: Grant)
    | DropGrant(grantId: string)
    | SetCatalog(catalog: Catalog, registered: set<string>)
    | Issue(capability: Capability)
    | StartBundle(id: nat, input: BundleInput)
    | StepBundle(id: nat, listed: seq<Grant>, capabilityId: nat)
    | StartInvoke(id: nat, token: Token, actionId: string)
    | StepInvoke(id: nat, allowed: bool)

  /** `assertConnectionActive`, at a given time. */
  predicate IsUsable(c: Connection, now: real) {
    c.active && (c.expiresAt.Some? ==> c.expiresAt.value > now)
  }

  predicate IsNewId(s: State, id: nat) {
    forall c :: c in s.issued ==> c.id != id
  }

  /** A random capability id never repeats. */
  predicate MayIssue(s: State, c: Capability) {
    && IsNewId(s, c.id)
    && c.connectionId in s.connections && IsUsable(s.connections[c.connectionId], s.clock)
    && c.scopes <= s.connections[c.connectionId].scopes
  }

  function CapabilityFor(input: BundleInput, g: Grant, id: nat, now: real): Capability {
    Capability(id, input.subject, g.connectionId, g.scopes, g.actions, now + input.ttl)
  }

  function NextGrant(grants: seq<Grant>, next: nat): BundlePc {
    if next < |grants| then Checking(grants, next) else Built
  }

  /** The capability an issuing step would sign, if the hub agrees. */
  function ToIssue(s: State, b: Bundle, capabilityId: nat): Option<Capability> {
    if !b.pc.Issuing? || b.pc.next >= |b.pc.grants| then None
    else
      var c := CapabilityFor(b.input, b.pc.grants[b.pc.next], capabilityId, s.clock);
      if MayIssue(s, c) then Some(c) else None
  }

  /** One read of the bundling loop; a successful issue draws the given capability id. */
  function BundleAfter(s: State, b: Bundle, listed: seq<Grant>, capabilityId: nat): Bundle {
    match b.pc
    case Resolving =>
      var resolved := Resolve(s.grants, b.input, listed);
      b.(pc := if resolved.None? || resolved.value == [] then Refused else Checking(resolved.value, 0))
    case Checking(grants, next) =>
      if next >= |grants| then b
      else
        var g := grants[next];
        if g.connectionId !in s.connections || s.connections[g.connectionId].owner != b.input.owner
          || !s.connections[g.connectionId].active
        then b.(pc := Refused)
        else if g.connectorId !in s.registered then b.(pc := NextGrant(grants, next + 1))
        else b.(pc := Issuing(grants, next))
    case Issuing(grants, next) =>
      if next >= |grants| || !IsNewId(s, capabilityId) then b
      else
        var issue := ToIssue(s, b, capabilityId);
        if issue.None? then b.(pc := Refused)
        else b.(bindings := b.bindings + [Binding(grants[next], issue.value)], pc := NextGrant(grants, next + 1))
    case Built => b
    case Refused => b
  }

  function StepBundleAt(s: State, id: nat, b: Bundle, listed: seq<Grant>, capabilityId: nat): State {
    var issue := ToIssue(s, b, capabilityId);
    s.(issued := if issue.Some? then s.issued + {issue.value} else s.issued,
       bundles := s.bundles[id := BundleAfter(s, b, listed, capabilityId)])
  }

  /** `verifyCapability` and the action check, both before the first read. */
  predicate Verifies(pace: Pace, s: State, token: Token, actionId: string) {
    && token.Signed? && token.secret == HUB_SECRET
    && s.clock + pace.margin < token.capability.expiresAt
    && actionId in token.capability.actions
  }

  /** A token under the hub's secret exists only where the hub issued it. */
  predicate Presentable(s: State, token: Token) {
    token.Signed? && token.secret == HUB_SECRET ==> token.capability in s.issued
  }

  function FindAction(specs: seq<ActionSpec>, id: string): Option<ActionSpec> {
    if specs == [] then None
    else if specs[0].id == id then Some(specs[0])
    else FindAction(specs[1..], id)
  }

  /** The action the current catalog has for an invocation, and whether both scope checks pass. */
  function CheckedAction(s: State, v: Invocation, c: Connection): Option<ActionSpec> {
    if c.providerId !in s.catalog || c.connectorId !in s.catalog[c.providerId] then None
    else
      match FindAction(s.catalog[c.providerId][c.connectorId], v.actionId)
      case None => None
      case Some(action) => if action.scopes <= c.scopes && action.scopes <= v.capability.scopes then Some(action)
        else None
  }

  function Lookup(s: State, id: string): Option<Connection> {
    if id in s.connections then Some(s.connections[id]) else None
  }

  function AfterConnectionRead(pace: Pace, s: State, v: Invocation): Invocation {
    match Lookup(s, v.capability.connectionId)
    case None => v.(pc := Denied)
    case Some(c) => if IsUsable(c, s.clock + pace.margin) then v.(pc := NeedsAction(c), readAt := s.clock)
      else v.(pc := Denied)
  }

  predicate InPatience(pace: Pace, s: State, v: Invocation) {
    pace.longest.Some? ==> s.clock <= v.verifiedAt + pace.longest.value
  }

  /** One read of an invocation; at the end policy and guard allow the call or not. */
  function InvocationAfter(pace: Pace, s: State, v: Invocation, allowed: bool): Invocation {
    match v.pc
    case NeedsConnection => AfterConnectionRead(pace, s, v)
    case NeedsAction(c) =>
      var action := CheckedAction(s, v, c);
      v.(pc := if action.None? then Denied else MayCall(c, action.value))
    case MayCall(c, action) =>
      if allowed && InPatience(pace, s, v)
      then v.(pc := Called(c, action, s.clock, Lookup(s, v.capability.connectionId)))
      else v.(pc := Denied)
    case Called(_, _, _, _) => v
    case Denied => v
  }

  function SetInvocation(s: State, id: nat, v: Invocation): State {
    s.(invocations := s.invocations[id := v])
  }

  /** An invocation that has read the connection has not called yet. */
  predicate InUse(s: State, connectionId: string) {
    exists id :: id in s.invocations && s.invocations[id].capability.connectionId == connectionId
                 && (s.invocations[id].pc.NeedsAction? || s.invocations[id].pc.MayCall?)
  }

  function Step(pace: Pace, s: State, action: Action): State {
    match action
    case Tick(now) => if s.clock <= now then s.(clock := now) else s
    case SetConnection(id, connection) =>
      if pace.frozen && InUse(s, id) then s else s.(connections := s.connections[id := connection])
    case DropConnection(id) => if pace.frozen && InUse(s, id) then s else s.(connections := s.connections - {id})
    case SetGrant(grant) => s.(grants := s.grants[grant.id := grant])
    case DropGrant(id) => s.(grants := s.grants - {id})
    case SetCatalog(catalog, registered) => s.(catalog := catalog, registered := registered)
    case Issue(c) => if MayIssue(s, c) then s.(issued := s.issued + {c}) else s
    case StartBundle(id, input) => if id in s.bundles then s
      else s.(bundles := s.bundles[id := Bundle(input, [], Resolving)])
    case StepBundle(id, listed, capabilityId) =>
      if id in s.bundles then StepBundleAt(s, id, s.bundles[id], listed, capabilityId) else s
    case StartInvoke(id, token, actionId) =>
      if id in s.invocations || !Presentable(s, token) || !Verifies(pace, s, token, actionId) then s
      else SetInvocation(s, id, Invocation(token.capability, actionId, s.clock, s.clock, NeedsConnection))
    case StepInvoke(id, allowed) =>
      if id in s.invocations then SetInvocation(s, id, InvocationAfter(pace, s, s.invocations[id], allowed)) else s
  }

  function Run(pace: Pace, s: State, actions: seq<Action>): State
    decreases |actions|
  {
    if actions == [] then s else Step(pace, Run(pace, s, actions[..|actions| - 1]), actions[|actions| - 1])
  }

  function Initial(now: real): State {
    State(now, map[], map[], map[], {}, {}, map[], map[])
  }
}
