/** One registry out of many catalogs: candidates grouped by canonical id, ranked, merged and indexed. */
module Registry {
  import opened Wrappers
  import opened Text
  import opened Aliases
  import opened Sorting

  datatype Tier = CatalogOnly | SetupReady | GatewayExecutable | FirstPartyExecutable | SandboxExecutable

  function Rank(tier: Tier): nat {
    match tier
    case CatalogOnly => 0
    case SetupReady => 1
    case GatewayExecutable => 2
    case FirstPartyExecutable => 3
    case SandboxExecutable => 4
  }

  /** An action or a trigger: its id, and everything else about it. */
  datatype Item = Item(id: Text, rest: int)

  datatype Metadata = Metadata(supportTier: Option<Tier>, sandboxExecutable: bool, source: Text, executable: bool,
                               catalogOnly: bool, catalogActionCount: Option<int>)

  datatype Connector = Connector(id: Text, providerId: Text, auth: Text, category: Text, scopes: seq<Text>,
                                 actions: seq<Item>, triggers: Option<seq<Item>>, metadata: Metadata)

  datatype Source = Source(id: Text, precedence: Option<int>, connectors: seq<Connector>)

  datatype Candidate = Candidate(sourceId: Text, sourcePrecedence: Option<int>, connector: Connector, tier: Tier)

  /** The alias table, the precedence of sources by id, and the collation of ids. */
  datatype Setup = Setup(aliases: Table, precedence: map<Text, int>, collates: (Text, Text) -> bool)

  const FIRST_PARTY: Text := Codes("first-party")
  const FIRST_PARTY_ADAPTER: Text := Codes("first-party-adapter")
  const GATEWAY_CATALOG: Text := Codes("gateway-catalog")
  const INTEGRATION_SPEC: Text := Codes("integration-spec")
  const COVERAGE_CATALOG: Text := Codes("coverage-catalog")
  const ACTIVEPIECES_COMMUNITY: Text := Codes("activepieces-community")
  const TANGLE_CATALOG: Text := Codes("tangle-integrations-catalog")

  function InferTier(c: Connector): Tier {
    var m := c.metadata;
    if m.supportTier.Some? then m.supportTier.value
    else if m.sandboxExecutable then SandboxExecutable
    else if m.source == FIRST_PARTY_ADAPTER || c.providerId == FIRST_PARTY then FirstPartyExecutable
    else if m.source == GATEWAY_CATALOG && m.executable then GatewayExecutable
    else if m.source == INTEGRATION_SPEC then SetupReady
    else if m.source == COVERAGE_CATALOG || m.source == ACTIVEPIECES_COMMUNITY || m.source == TANGLE_CATALOG
      || m.catalogOnly
    then CatalogOnly
    else if |c.actions| > 0 then GatewayExecutable
    else CatalogOnly
  }

  // --- Ranking ------------------------------------------------------------------------------

  function Precedence(setup: Setup, c: Candidate): int {
    if c.sourcePrecedence.Some? then c.sourcePrecedence.value
    else if c.sourceId in setup.precedence then setup.precedence[c.sourceId]
    else 0
  }

  /** The comparison is not positive: higher tier, then precedence, then more actions, then id. */
  predicate NotAfter(setup: Setup, a: Candidate, b: Candidate) {
    if Rank(a.tier) != Rank(b.tier) then Rank(a.tier) > Rank(b.tier)
    else if Precedence(setup, a) != Precedence(setup, b) then Precedence(setup, a) > Precedence(setup, b)
    else if |a.connector.actions| != |b.connector.actions| then |a.connector.actions| > |b.connector.actions|
    else setup.collates(a.connector.id, b.connector.id)
  }

  function Comparison(setup: Setup): (Candidate, Candidate) -> bool {
    (a, b) => NotAfter(setup, a, b)
  }

  lemma ComparisonIsPreorder(setup: Setup)
    requires Preorder(setup.collates)
    ensures Preorder(Comparison(setup))
  {}

  // --- Merging ------------------------------------------------------------------------------

  predicate HasId(items: seq<Item>, id: Text) {
    exists i :: 0 <= i < |items| && items[i].id == id
  }

  /** Of several items with one id, the first. */
  function FirstWins(items: seq<Item>): seq<Item> {
    if items == [] then []
    else
      var init := FirstWins(items[..|items| - 1]);
      if HasId(init, items[|items| - 1].id) then init else init + [items[|items| - 1]]
  }

  predicate IsFirst(items: seq<Item>, k: nat)
    requires k < |items|
  {
    forall j :: 0 <= j < k ==> items[j].id != items[k].id
  }

  function ActionsOf(candidates: seq<Candidate>): seq<Item> {
    if candidates == [] then []
    else ActionsOf(candidates[..|candidates| - 1]) + candidates[|candidates| - 1].connector.actions
  }

  function Triggers(c: Connector): seq<Item> {
    if c.triggers.None? then [] else c.triggers.value
  }

  function TriggersOf(candidates: seq<Candidate>): seq<Item> {
    if candidates == [] then []
    else TriggersOf(candidates[..|candidates| - 1]) + Triggers(candidates[|candidates| - 1].connector)
  }

  function ScopesOf(candidates: seq<Candidate>): seq<Text> {
    if candidates == [] then []
    else ScopesOf(candidates[..|candidates| - 1]) + candidates[|candidates| - 1].connector.scopes
  }

  function Unique(texts: seq<Text>): seq<Text> {
    if texts == [] then []
    else
      var init := Unique(texts[..|texts| - 1]);
      if texts[|texts| - 1] in init then init else init + [texts[|texts| - 1]]
  }

  function OfTier(candidates: seq<Candidate>, rank: int): seq<Candidate> {
    if candidates == [] then []
    else
      OfTier(candidates[..|candidates| - 1], rank)
      + (if Rank(candidates[|candidates| - 1].tier) == rank then [candidates[|candidates| - 1]] else [])
  }

  function MaxRank(candidates: seq<Candidate>): nat {
    if candidates == [] then 0
    else
      var rest := MaxRank(candidates[..|candidates| - 1]);
      if Rank(candidates[|candidates| - 1].tier) > rest then Rank(candidates[|candidates| - 1].tier) else rest
  }

  /** The candidates of the best tier, unless that is the catalog-only tier. */
  function ToolBindable(candidates: seq<Candidate>): seq<Candidate> {
    if MaxRank(candidates) == 0 then [] else OfTier(candidates, MaxRank(candidates))
  }

  /** The tier a left-to-right scan for a better one ends with. */
  function FoldedTier(candidates: seq<Candidate>, best: Tier): Tier {
    if candidates == [] then best
    else
      var before := FoldedTier(candidates[..|candidates| - 1], best);
      if Rank(candidates[|candidates| - 1].tier) > Rank(before) then candidates[|candidates| - 1].tier else before
  }

  // --- Entries ------------------------------------------------------------------------------

  datatype SourceRef = SourceRef(sourceId: Text, providerId: Text, connectorId: Text, tier: Tier, actionCount: nat,
                                 triggerCount: nat)

  datatype Valued = Valued(value: Text, sourceId: Text, connectorId: Text)

  datatype Field = Auth | Category

  datatype Conflict = Conflict(field: Field, values: seq<Valued>)

  datatype Entry = Entry(canonicalId: Text, connector: Connector, aliases: set<Text>, tier: Tier,
                         sources: seq<SourceRef>, conflicts: seq<Conflict>, toolBindable: bool,
                         catalogOnlyActionCount: int)

  function RefOf(c: Candidate): SourceRef {
    SourceRef(c.sourceId, c.connector.providerId, c.connector.id, c.tier, |c.connector.actions|,
              |Triggers(c.connector)|)
  }

  function Refs(candidates: seq<Candidate>): (refs: seq<SourceRef>)
    ensures |refs| == |candidates| && forall i :: 0 <= i < |refs| ==> refs[i] == RefOf(candidates[i])
  {
    seq(|candidates|, i requires 0 <= i < |candidates| => RefOf(candidates[i]))
  }

  function ValueOf(field: Field, c: Candidate): Valued {
    Valued(if field.Auth? then c.connector.auth else c.connector.category, c.sourceId, c.connector.id)
  }

  /** The field, if the candidates do not all have the same value for it. */
  function ConflictsFor(field: Field, candidates: seq<Candidate>): seq<Conflict> {
    if exists i, j ::
         0 <= i < j < |candidates| && ValueOf(field, candidates[i]).value != ValueOf(field, candidates[j]).value
    then [Conflict(field, seq(|candidates|, i requires 0 <= i < |candidates| => ValueOf(field, candidates[i])))]
    else []
  }

  function CatalogActions(candidates: seq<Candidate>): int {
    if candidates == [] then 0
    else
      var c := candidates[|candidates| - 1];
      CatalogActions(candidates[..|candidates| - 1])
      + if !c.tier.CatalogOnly? then 0
        else if c.connector.metadata.catalogActionCount.Some? then c.connector.metadata.catalogActionCount.value
        else |c.connector.actions|
  }

  function AliasesFor(setup: Setup, id: Text, candidates: seq<Candidate>): set<Text> {
    (set i | 0 <= i < |candidates| && Slug(candidates[i].connector.id) !in {[], id} :: Slug(candidates[i].connector.id))
    + (set alias | alias in setup.aliases && CanonicalId(setup.aliases, setup.aliases[alias]) == id
       && Slug(alias) !in {[], id} :: Slug(alias))
  }

  function EntryOf(setup: Setup, id: Text, group: seq<Candidate>): Entry
    requires group != []
  {
    var ordered := Sorted(Comparison(setup), group);
    SortedPermutes(Comparison(setup), group);
    SameLength(ordered, group);
    var primary := ordered[0];
    var bindable := ToolBindable(ordered);
    var actions, triggers := FirstWins(ActionsOf(bindable)), FirstWins(TriggersOf(bindable));
    Entry(id,
          primary.connector.(id := id, scopes := Unique(ScopesOf(bindable)), actions := actions,
                             triggers := if triggers == [] then None else Some(triggers)),
          AliasesFor(setup, id, ordered), FoldedTier(ordered, primary.tier), Refs(ordered),
          ConflictsFor(Auth, ordered) + ConflictsFor(Category, ordered), actions != [], CatalogActions(ordered))
  }

  // --- The registry -------------------------------------------------------------------------

  function CandidateOf(source: Source, connector: Connector): Candidate {
    Candidate(source.id, source.precedence, connector, InferTier(connector))
  }

  function FromSource(source: Source, n: nat): seq<Candidate>
    requires n <= |source.connectors|
  {
    if n == 0 then [] else FromSource(source, n - 1) + [CandidateOf(source, source.connectors[n - 1])]
  }

  function Candidates(sources: seq<Source>): seq<Candidate> {
    if sources == [] then []
    else
      var last := sources[|sources| - 1];
      Candidates(sources[..|sources| - 1]) + FromSource(last, |last.connectors|)
  }

  function IdOf(setup: Setup, c: Candidate): Text {
    CanonicalId(setup.aliases, c.connector.id)
  }

  function Ids(setup: Setup, candidates: seq<Candidate>): seq<Text> {
    if candidates == [] then []
    else
      var init, id := Ids(setup, candidates[..|candidates| - 1]), IdOf(setup, candidates[|candidates| - 1]);
      if id in init then init else init + [id]
  }

  function Group(setup: Setup, candidates: seq<Candidate>, id: Text): seq<Candidate> {
    if candidates == [] then []
    else
      Group(setup, candidates[..|candidates| - 1], id)
      + (if IdOf(setup, candidates[|candidates| - 1]) == id then [candidates[|candidates| - 1]] else [])
  }

  lemma {:induction false} GroupedIffSeen(setup: Setup, candidates: seq<Candidate>, id: Text)
    ensures id in Ids(setup, candidates) <==> Group(setup, candidates, id) != []
  {
    hide IdOf;
    if candidates == [] {
    } else {
      GroupedIffSeen(setup, candidates[..|candidates| - 1], id);
    }
  }

  function EntriesFor(setup: Setup, candidates: seq<Candidate>, ids: seq<Text>): (entries: seq<Entry>)
    requires forall id :: id in ids ==> Group(setup, candidates, id) != []
    ensures |entries| == |ids|
    ensures forall i :: 0 <= i < |ids| ==> entries[i] == EntryOf(setup, ids[i], Group(setup, candidates, ids[i]))
  {
    seq(|ids|, i requires 0 <= i < |ids| && Group(setup, candidates, ids[i]) != [] =>
          EntryOf(setup, ids[i], Group(setup, candidates, ids[i])))
  }

  function KeysOf(e: Entry): set<Text> {
    e.aliases + {e.canonicalId}
  }

  /** Later entries overwrite earlier ones. */
  function Index(entries: seq<Entry>): map<Text, Entry> {
    if entries == [] then map[]
    else
      var last := entries[|entries| - 1];
      Index(entries[..|entries| - 1]) + map key | key in KeysOf(last) :: last
  }

  datatype Registry = Registry(entries: seq<Entry>, byId: map<Text, Entry>)

  function SortedIds(setup: Setup, candidates: seq<Candidate>): (ids: seq<Text>)
    ensures forall id :: id in ids ==> Group(setup, candidates, id) != []
    ensures multiset(ids) == multiset(Ids(setup, candidates))
  {
    var ids := Sorted(setup.collates, Ids(setup, candidates));
    SortedPermutes(setup.collates, Ids(setup, candidates));
    assert forall id :: id in ids ==> Group(setup, candidates, id) != [] by {
      forall id | id in ids
        ensures Group(setup, candidates, id) != []
      {
        assert id in multiset(ids);
        GroupedIffSeen(setup, candidates, id);
      }
    }
    ids
  }

  function Composed(setup: Setup, candidates: seq<Candidate>): Registry {
    var entries := EntriesFor(setup, candidates, SortedIds(setup, candidates));
    Registry(entries, Index(entries))
  }

  function Compose(setup: Setup, sources: seq<Source>): Registry {
    Composed(setup, Candidates(sources))
  }
}
