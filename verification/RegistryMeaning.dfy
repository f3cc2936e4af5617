/** What the entries of a composed registry say, in terms of the connectors that came in. */
module RegistryMeaning {
  import opened Wrappers
  import opened Text
  import opened Aliases
  import opened Sorting
  import opened Registry
  import opened RegistryTheorems
  import RegistryOrder

  // --- The tier of a connector ------------------------------------------------------------------

  predicate IsFirstParty(c: Connector) {
    c.metadata.source == Codes("first-party-adapter") || c.providerId == Codes("first-party")
  }

  predicate IsGateway(c: Connector) {
    c.metadata.source == Codes("gateway-catalog") && c.metadata.executable
  }

  predicate IsSpec(c: Connector) {
    c.metadata.source == Codes("integration-spec")
  }

  predicate IsCatalog(c: Connector) {
    || c.metadata.source == Codes("coverage-catalog") || c.metadata.source == Codes("activepieces-community")
    || c.metadata.source == Codes("tangle-integrations-catalog") || c.metadata.catalogOnly
  }

  /** An explicit tier wins; otherwise the first of five marks that the connector has; otherwise its actions decide. */
  predicate HasTier(c: Connector, tier: Tier) {
    var named, sandbox := c.metadata.supportTier, c.metadata.sandboxExecutable;
    && (named.Some? ==> tier == named.value)
    && (named.None? && sandbox ==> tier == SandboxExecutable)
    && (named.None? && !sandbox && IsFirstParty(c) ==> tier == FirstPartyExecutable)
    && (named.None? && !sandbox && !IsFirstParty(c) && IsGateway(c) ==> tier == GatewayExecutable)
    && (named.None? && !sandbox && !IsFirstParty(c) && !IsGateway(c) && IsSpec(c) ==> tier == SetupReady)
    && (named.None? && !sandbox && !IsFirstParty(c) && !IsGateway(c) && !IsSpec(c) && IsCatalog(c) ==>
          tier == CatalogOnly)
    && (named.None? && !sandbox && !IsFirstParty(c) && !IsGateway(c) && !IsSpec(c) && !IsCatalog(c) ==>
          tier == if c.actions == [] then CatalogOnly else GatewayExecutable)
  }

  lemma TierIsInferred(c: Connector)
    ensures HasTier(c, InferTier(c))
  {}

  // --- Where a candidate comes from ---------------------------------------------------------------

  /** A candidate stands for a connector of one of the sources, with the tier the connector's own marks give it. */
  predicate StandsFor(c: Candidate, source: Source, connector: Connector) {
    c.connector == connector && c.sourceId == source.id && c.sourcePrecedence == source.precedence
    && HasTier(connector, c.tier)
  }

  predicate ComesFrom(c: Candidate, sources: seq<Source>) {
    exists i, j :: 0 <= i < |sources| && 0 <= j < |sources[i].connectors|
                   && StandsFor(c, sources[i], sources[i].connectors[j])
  }

  lemma {:induction false} OfOneSource(source: Source, n: nat)
    requires n <= |source.connectors|
    ensures |FromSource(source, n)| == n
    ensures forall j :: 0 <= j < n ==> FromSource(source, n)[j] == CandidateOf(source, source.connectors[j])
  {
    if n == 0 {
    } else {
      OfOneSource(source, n - 1);
    }
  }

  lemma StandsForItsConnector(source: Source, connector: Connector)
    ensures StandsFor(CandidateOf(source, connector), source, connector)
  {
    hide HasTier, InferTier;
    TierIsInferred(connector);
  }

  lemma ComesFromLonger(c: Candidate, sources: seq<Source>)
    requires sources != [] && ComesFrom(c, sources[..|sources| - 1])
    ensures ComesFrom(c, sources)
  {
    hide StandsFor;
    var init := sources[..|sources| - 1];
    var i, j :| 0 <= i < |init| && 0 <= j < |init[i].connectors| && StandsFor(c, init[i], init[i].connectors[j]);
    assert StandsFor(c, sources[i], sources[i].connectors[j]);
  }

  lemma ComesFromLast(source: Source, c: Candidate, sources: seq<Source>)
    requires sources != [] && sources[|sources| - 1] == source && c in FromSource(source, |source.connectors|)
    ensures ComesFrom(c, sources)
  {
    hide StandsFor, CandidateOf, FromSource;
    OfOneSource(source, |source.connectors|);
    var j :| 0 <= j < |source.connectors| && c == CandidateOf(source, source.connectors[j]);
    StandsForItsConnector(source, source.connectors[j]);
    assert StandsFor(c, sources[|sources| - 1], sources[|sources| - 1].connectors[j]);
  }

  /** Each candidate comes from a connector. */
  lemma {:induction false} CandidateHasSource(sources: seq<Source>, c: Candidate)
    requires c in Candidates(sources)
    ensures ComesFrom(c, sources)
  {
    hide ComesFrom, FromSource;
    var init, last := sources[..|sources| - 1], sources[|sources| - 1];
    if c in Candidates(init) {
      CandidateHasSource(init, c);
      ComesFromLonger(c, sources);
    } else {
      ComesFromLast(last, c, sources);
    }
  }

  /** Each connector has its candidate. */
  lemma {:induction false} SourceHasCandidate(sources: seq<Source>, i: nat, j: nat)
    requires i < |sources| && j < |sources[i].connectors|
    ensures CandidateOf(sources[i], sources[i].connectors[j]) in Candidates(sources)
  {
    hide CandidateOf, FromSource;
    var init, last := sources[..|sources| - 1], sources[|sources| - 1];
    if i < |init| {
      SourceHasCandidate(init, i, j);
    } else {
      OfOneSource(last, |last.connectors|);
      assert FromSource(last, |last.connectors|)[j] == CandidateOf(last, last.connectors[j]);
    }
  }

  // --- What an entry merges -----------------------------------------------------------------------

  /** The offers of several candidates, one list each: item `n` of list `k` is the first of its id. */
  predicate OffersFirst(lists: seq<seq<Item>>, k: nat, n: nat) {
    && k < |lists| && n < |lists[k]|
    && (forall m :: 0 <= m < n ==> lists[k][m].id != lists[k][n].id)
    && (forall i, m :: 0 <= i < k && 0 <= m < |lists[i]| ==> lists[i][m].id != lists[k][n].id)
  }

  function Flat(lists: seq<seq<Item>>): seq<Item> {
    if lists == [] then [] else Flat(lists[..|lists| - 1]) + lists[|lists| - 1]
  }

  predicate Offers(lists: seq<seq<Item>>, id: Text) {
    exists k, n :: 0 <= k < |lists| && 0 <= n < |lists[k]| && lists[k][n].id == id
  }

  ghost predicate FirstOffer(lists: seq<seq<Item>>, item: Item) {
    exists k: nat, n: nat :: OffersFirst(lists, k, n) && lists[k][n] == item
  }

  lemma OffersGrow(init: seq<seq<Item>>, last: seq<Item>, id: Text)
    ensures Offers(init + [last], id) <==> Offers(init, id) || HasId(last, id)
  {
    var lists := init + [last];
    assert lists[|init|] == last && forall k :: 0 <= k < |init| ==> lists[k] == init[k];
    if Offers(init, id) {
      var k, n :| 0 <= k < |init| && 0 <= n < |init[k]| && init[k][n].id == id;
      assert lists[k][n].id == id;
    }
    if HasId(last, id) {
      var n :| 0 <= n < |last| && last[n].id == id;
      assert lists[|init|][n].id == id;
    }
  }

  lemma FirstOfferGrows(init: seq<seq<Item>>, last: seq<Item>, item: Item)
    ensures FirstOffer(init + [last], item) <==>
              FirstOffer(init, item) || (!Offers(init, item.id) && StandsFirst(last, item))
  {
    var lists, z := init + [last], |init|;
    assert lists[z] == last && forall k :: 0 <= k < z ==> lists[k] == init[k];
    if FirstOffer(init, item) {
      var k: nat, n: nat :| OffersFirst(init, k, n) && init[k][n] == item;
      assert OffersFirst(lists, k, n) && lists[k][n] == item;
    }
    if !Offers(init, item.id) && StandsFirst(last, item) {
      var n :| 0 <= n < |last| && last[n] == item && IsFirst(last, n);
      assert OffersFirst(lists, z, n) && lists[z][n] == item;
    }
    if FirstOffer(lists, item) {
      var k: nat, n: nat :| OffersFirst(lists, k, n) && lists[k][n] == item;
      if k < z {
        assert OffersFirst(init, k, n) && init[k][n] == item;
      } else {
        assert last[n] == item && IsFirst(last, n);
      }
    }
  }

  lemma HasIdAppended(a: seq<Item>, b: seq<Item>, id: Text)
    ensures HasId(a + b, id) <==> HasId(a, id) || HasId(b, id)
  {
    if i :| 0 <= i < |a| && a[i].id == id {
      assert (a + b)[i].id == id;
    }
    if i :| 0 <= i < |b| && b[i].id == id {
      assert (a + b)[|a| + i].id == id;
    }
  }

  lemma {:induction false} StandsFirstAppended(a: seq<Item>, b: seq<Item>, item: Item)
    ensures StandsFirst(a + b, item) <==> StandsFirst(a, item) || (!HasId(a, item.id) && StandsFirst(b, item))
    decreases |b|
  {
    hide StandsFirst, HasId;
    if b == [] {
      assert a + b == a;
      NothingMerged(item);
    } else {
      var init, last := b[..|b| - 1], b[|b| - 1];
      assert a + b == (a + init) + [last] && b == init + [last];
      StandsFirstAppended(a, init, item);
      StandsFirstGrows(a + init, last, item);
      StandsFirstGrows(init, last, item);
      HasIdAppended(a, init, last.id);
    }
  }

  lemma {:induction false} FlatOffers(lists: seq<seq<Item>>, id: Text)
    ensures HasId(Flat(lists), id) <==> Offers(lists, id)
  {
    if lists == [] {
    } else {
      var init, last := lists[..|lists| - 1], lists[|lists| - 1];
      assert lists == init + [last];
      hide HasId, Offers;
      FlatOffers(init, id);
      OffersGrow(init, last, id);
      HasIdAppended(Flat(init), last, id);
    }
  }

  lemma NothingOffered(item: Item)
    ensures !FirstOffer([], item)
  {}

  lemma {:induction false} FlatFirsts(lists: seq<seq<Item>>, item: Item)
    ensures StandsFirst(Flat(lists), item) <==> FirstOffer(lists, item)
  {
    hide StandsFirst, HasId, FirstOffer, Offers;
    if lists == [] {
      NothingMerged(item);
      NothingOffered(item);
    } else {
      var init, last := lists[..|lists| - 1], lists[|lists| - 1];
      assert lists == init + [last];
      FlatFirsts(init, item);
      FlatOffers(init, item.id);
      FirstOfferGrows(init, last, item);
      StandsFirstAppended(Flat(init), last, item);
    }
  }

  /** Merging keeps of each id exactly the first offer. */
  lemma MergedAreFirstOffers(lists: seq<seq<Item>>, item: Item)
    ensures item in FirstWins(Flat(lists)) <==> FirstOffer(lists, item)
  {
    hide StandsFirst, FirstWins, FirstOffer;
    FirstWinsKeepsFirsts(Flat(lists), item);
    FlatFirsts(lists, item);
  }

  function ActionLists(members: seq<Candidate>): (lists: seq<seq<Item>>)
    ensures |lists| == |members| && forall k :: 0 <= k < |members| ==> lists[k] == members[k].connector.actions
  {
    seq(|members|, k requires 0 <= k < |members| => members[k].connector.actions)
  }

  function TriggerLists(members: seq<Candidate>): (lists: seq<seq<Item>>)
    ensures |lists| == |members|
    ensures forall k :: 0 <= k < |members| ==>
              lists[k] == if members[k].connector.triggers.None? then [] else members[k].connector.triggers.value
  {
    seq(|members|, k requires 0 <= k < |members| => Triggers(members[k].connector))
  }

  lemma {:induction false} ListsAreFlat(members: seq<Candidate>)
    ensures ActionsOf(members) == Flat(ActionLists(members)) && TriggersOf(members) == Flat(TriggerLists(members))
  {
    if members == [] {
    } else {
      var init := members[..|members| - 1];
      ListsAreFlat(init);
      assert ActionLists(members)[..|members| - 1] == ActionLists(init);
      assert TriggerLists(members)[..|members| - 1] == TriggerLists(init);
    }
  }

  lemma {:induction false} ScopesAreOffered(members: seq<Candidate>, scope: Text)
    ensures scope in ScopesOf(members) <==>
              exists k :: 0 <= k < |members| && scope in members[k].connector.scopes
  {
    if members == [] {
    } else {
      var init, n := members[..|members| - 1], |members| - 1;
      ScopesAreOffered(init, scope);
      assert forall k :: 0 <= k < n ==> init[k] == members[k];
    }
  }

  lemma {:induction false} UniqueKeeps(texts: seq<Text>)
    ensures forall t :: t in Unique(texts) <==> t in texts
    ensures forall i, j :: 0 <= i < j < |Unique(texts)| ==> Unique(texts)[i] != Unique(texts)[j]
  {
    if texts == [] {
    } else {
      var init, last := texts[..|texts| - 1], texts[|texts| - 1];
      assert texts == init + [last];
      UniqueKeeps(init);
    }
  }

  // --- How candidates are ranked ------------------------------------------------------------------

  predicate Above(a: Tier, b: Tier) {
    || (a == SandboxExecutable && b != SandboxExecutable)
    || (a == FirstPartyExecutable && (b == GatewayExecutable || b == SetupReady || b == CatalogOnly))
    || (a == GatewayExecutable && (b == SetupReady || b == CatalogOnly))
    || (a == SetupReady && b == CatalogOnly)
  }

  /** A source's own precedence, else the configured one, else none. */
  predicate HasPrecedence(setup: Setup, c: Candidate, p: int) {
    && (c.sourcePrecedence.Some? ==> p == c.sourcePrecedence.value)
    && (c.sourcePrecedence.None? && c.sourceId in setup.precedence ==> p == setup.precedence[c.sourceId])
    && (c.sourcePrecedence.None? && c.sourceId !in setup.precedence ==> p == 0)
  }

  /** The higher tier goes first, then the higher precedence, then the more actions, then the id. */
  ghost predicate GoesFirst(setup: Setup, a: Candidate, b: Candidate) {
    || Above(a.tier, b.tier)
    || (a.tier == b.tier
        && exists p, q :: HasPrecedence(setup, a, p) && HasPrecedence(setup, b, q)
                          && (p > q || (p == q && OffersMore(setup, a.connector, b.connector))))
  }

  predicate OffersMore(setup: Setup, a: Connector, b: Connector) {
    |a.actions| > |b.actions| || (|a.actions| == |b.actions| && setup.collates(a.id, b.id))
  }

  lemma RankedIffFirst(setup: Setup, a: Candidate, b: Candidate)
    ensures Comparison(setup)(a, b) <==> GoesFirst(setup, a, b)
  {
    assert HasPrecedence(setup, a, Precedence(setup, a)) && HasPrecedence(setup, b, Precedence(setup, b));
    assert forall p :: HasPrecedence(setup, a, p) ==> p == Precedence(setup, a);
    assert forall p :: HasPrecedence(setup, b, p) ==> p == Precedence(setup, b);
  }

  /** The first `top` members share the best tier. */
  predicate Topped(members: seq<Candidate>, top: nat, tier: Tier) {
    && 0 < top <= |members|
    && (forall k :: 0 <= k < top ==> members[k].tier == tier)
    && (forall k :: top <= k < |members| ==> Above(tier, members[k].tier))
  }

  lemma AboveIsRanked(a: Tier, b: Tier)
    ensures Above(a, b) <==> Rank(a) > Rank(b)
    ensures a == b <==> Rank(a) == Rank(b)
  {}

  lemma {:induction false} TopOf(members: seq<Candidate>, tier: Tier) returns (top: nat)
    requires members != [] && members[0].tier == tier
    requires forall j, k :: 0 <= j < k < |members| ==> !Above(members[k].tier, members[j].tier)
    ensures Topped(members, top, tier)
  {
    hide Above;
    top := 1;
    while top < |members| && members[top].tier == tier
      invariant 0 < top <= |members| && forall k :: 0 <= k < top ==> members[k].tier == tier
    {
      top := top + 1;
    }
    forall k | top <= k < |members|
      ensures Above(tier, members[k].tier)
    {
      assert !Above(members[top].tier, members[0].tier);
      if k == top {
        NotAboveItself(members[k].tier);
      }
      OneIsAbove(tier, members[top].tier, members[k].tier);
    }
  }

  lemma NotAboveItself(a: Tier)
    ensures !Above(a, a)
  {}

  lemma OneIsAbove(a: Tier, b: Tier, c: Tier)
    requires a != b && !Above(b, a) && !Above(c, b)
    ensures Above(a, c)
  {}

  lemma {:induction false} OfTierIsPrefix(members: seq<Candidate>, top: nat, tier: Tier)
    requires top <= |members| && forall k :: 0 <= k < top ==> members[k].tier == tier
    requires forall k :: top <= k < |members| ==> Above(tier, members[k].tier)
    ensures OfTier(members, Rank(tier)) == members[..top]
  {
    hide Above, Rank;
    if members == [] {
    } else {
      var init, last := members[..|members| - 1], members[|members| - 1];
      AboveIsRanked(tier, last.tier);
      if top == |members| {
        OfTierIsPrefix(init, top - 1, tier);
        assert members[..top] == init[..top - 1] + [last];
      } else {
        OfTierIsPrefix(init, top, tier);
        assert members[..top] == init[..top];
      }
    }
  }

  // --- The entry of a group -----------------------------------------------------------------------

  /** The members that may offer tools: those of the best tier, unless that is the catalog tier. */
  function Bindable(members: seq<Candidate>, top: nat, tier: Tier): seq<Candidate>
    requires top <= |members|
  {
    if tier == CatalogOnly then [] else members[..top]
  }

  /** The references, in rank order, and the entry's tier. */
  ghost predicate SaysSources(setup: Setup, e: Entry, members: seq<Candidate>, top: nat) {
    && |e.sources| == |members| && Topped(members, top, e.tier)
    && (forall k :: 0 <= k < |members| ==>
          var c := members[k].connector;
          e.sources[k] == SourceRef(members[k].sourceId, c.providerId, c.id, members[k].tier, |c.actions|,
                                    if c.triggers.None? then 0 else |c.triggers.value|))
    && (forall j, k :: 0 <= j < k < |members| ==> GoesFirst(setup, members[j], members[k]))
  }

  ghost predicate DistinctItems(items: seq<Item>) {
    forall j, k :: 0 <= j < k < |items| ==> items[j].id != items[k].id
  }

  /** Of each id the first item that is offered, once. */
  ghost predicate Merges(items: seq<Item>, lists: seq<seq<Item>>) {
    DistinctItems(items) && forall item :: item in items <==> FirstOffer(lists, item)
  }

  ghost predicate MergesScopes(scopes: seq<Text>, members: seq<Candidate>) {
    && (forall j, k :: 0 <= j < k < |scopes| ==> scopes[j] != scopes[k])
    && (forall scope :: scope in scopes <==> exists k :: 0 <= k < |members| && scope in members[k].connector.scopes)
  }

  /** The tools: what the bindable members offer; the rest of the connector is the primary member's. */
  ghost predicate SaysTools(e: Entry, members: seq<Candidate>, top: nat)
    requires 0 < top <= |members|
  {
    var c, bindable := e.connector, Bindable(members, top, e.tier);
    && c == members[0].connector.(id := e.canonicalId, scopes := c.scopes, actions := c.actions, triggers := c.triggers)
    && Merges(c.actions, ActionLists(bindable))
    && Merges(if c.triggers.None? then [] else c.triggers.value, TriggerLists(bindable)) && c.triggers != Some([])
    && MergesScopes(c.scopes, bindable)
    && (e.toolBindable <==> exists k :: 0 <= k < |bindable| && bindable[k].connector.actions != [])
  }

  /** How an entry is put together out of its ranked members. */
  ghost predicate IsMade(setup: Setup, e: Entry, members: seq<Candidate>) {
    var bindable := ToolBindable(members);
    var triggers := FirstWins(TriggersOf(bindable));
    && members != [] && e.sources == Refs(members) && e.aliases == AliasesFor(setup, e.canonicalId, members)
    && e.conflicts == ConflictsFor(Auth, members) + ConflictsFor(Category, members)
    && e.catalogOnlyActionCount == CatalogActions(members)
    && e.connector.actions == FirstWins(ActionsOf(bindable)) && e.connector.scopes == Unique(ScopesOf(bindable))
    && e.connector.triggers == (if triggers == [] then None else Some(triggers))
    && e.connector == members[0].connector.(id := e.canonicalId, scopes := e.connector.scopes,
                                            actions := e.connector.actions, triggers := e.connector.triggers)
    && (e.toolBindable <==> e.connector.actions != [])
  }

  lemma GroupIsMade(setup: Setup, id: Text, group: seq<Candidate>)
    requires group != []
    ensures EntryOf(setup, id, group).canonicalId == id
    ensures IsMade(setup, EntryOf(setup, id, group), Sorted(Comparison(setup), group))
  {
    hide AliasesFor, ActionsOf, TriggersOf, ScopesOf, FirstWins, Unique, ToolBindable, FoldedTier, ConflictsFor,
         CatalogActions, Sorted;
    SortedPermutes(Comparison(setup), group);
    SameLength(Sorted(Comparison(setup), group), group);
  }

  lemma RefsOfMade(setup: Setup, e: Entry, members: seq<Candidate>)
    requires IsMade(setup, e, members)
    ensures members != [] && e.sources == Refs(members) && e.catalogOnlyActionCount == CatalogActions(members)
  {}

  lemma RanksAreSaid(setup: Setup, e: Entry, members: seq<Candidate>) returns (top: nat)
    requires members != [] && e.sources == Refs(members) && Ordered(Comparison(setup), members)
    requires e.tier == members[0].tier && MaxRank(members) == Rank(e.tier)
    ensures SaysSources(setup, e, members, top) && ToolBindable(members) == Bindable(members, top, e.tier)
  {
    hide GoesFirst, Above, Rank, Comparison;
    forall j, k | 0 <= j < k < |members|
      ensures GoesFirst(setup, members[j], members[k]) && !Above(members[k].tier, members[j].tier)
    {
      RankedIffFirst(setup, members[j], members[k]);
      FirstIsNotBelow(setup, members[j], members[k]);
    }
    top := TopOf(members, e.tier);
    OfTierIsPrefix(members, top, e.tier);
    CatalogRank(e.tier);
  }

  lemma CatalogRank(tier: Tier)
    ensures Rank(tier) == 0 <==> tier == CatalogOnly
  {}

  lemma FirstIsNotBelow(setup: Setup, a: Candidate, b: Candidate)
    requires GoesFirst(setup, a, b)
    ensures !Above(b.tier, a.tier)
  {}

  lemma FirstWinsMerges(lists: seq<seq<Item>>)
    ensures Merges(FirstWins(Flat(lists)), lists)
  {
    hide FirstWins, FirstOffer, Flat;
    FirstWinsHasDistinctIds(Flat(lists));
    forall item
      ensures item in FirstWins(Flat(lists)) <==> FirstOffer(lists, item)
    {
      MergedAreFirstOffers(lists, item);
    }
  }

  lemma UniqueMerges(members: seq<Candidate>)
    ensures MergesScopes(Unique(ScopesOf(members)), members)
  {
    hide Unique, ScopesOf;
    UniqueKeeps(ScopesOf(members));
    forall scope
      ensures scope in ScopesOf(members) <==> exists k :: 0 <= k < |members| && scope in members[k].connector.scopes
    {
      ScopesAreOffered(members, scope);
    }
  }

  lemma ToolsAreSaid(setup: Setup, e: Entry, members: seq<Candidate>, top: nat)
    requires IsMade(setup, e, members) && 0 < top <= |members|
    requires ToolBindable(members) == Bindable(members, top, e.tier)
    ensures SaysTools(e, members, top)
  {
    var bindable := Bindable(members, top, e.tier);
    hide ToolBindable, Bindable, FirstWins, ActionsOf, TriggersOf, ScopesOf, Unique, ActionLists, TriggerLists,
         AliasesFor, ConflictsFor, CatalogActions, Merges, MergesScopes, Refs;
    ListsAreFlat(bindable);
    FirstWinsMerges(ActionLists(bindable));
    FirstWinsMerges(TriggerLists(bindable));
    UniqueMerges(bindable);
    NoActionsIff(bindable);
    HasSomeIff(ActionsOf(bindable));
  }

  // --- Conflicts, aliases and what the catalog counts -----------------------------------------------

  ghost predicate Differ(values: seq<Text>) {
    exists j, k :: 0 <= j < k < |values| && values[j] != values[k]
  }

  function Auths(members: seq<Candidate>): (values: seq<Text>)
    ensures |values| == |members| && forall k :: 0 <= k < |members| ==> values[k] == members[k].connector.auth
  {
    seq(|members|, k requires 0 <= k < |members| => members[k].connector.auth)
  }

  function Categories(members: seq<Candidate>): (values: seq<Text>)
    ensures |values| == |members| && forall k :: 0 <= k < |members| ==> values[k] == members[k].connector.category
  {
    seq(|members|, k requires 0 <= k < |members| => members[k].connector.category)
  }

  /** Every member's value is named, in rank order. */
  predicate Names(conflict: Conflict, field: Field, values: seq<Text>, members: seq<Candidate>)
    requires |values| == |members|
  {
    && conflict.field == field && |conflict.values| == |members|
    && forall k :: 0 <= k < |members| ==>
         conflict.values[k] == Valued(values[k], members[k].sourceId, members[k].connector.id)
  }

  /** A field is reported exactly if the members do not all have the same value. */
  ghost predicate SaysConflicts(e: Entry, members: seq<Candidate>) {
    var auth, category := Differ(Auths(members)), Differ(Categories(members));
    && |e.conflicts| == (if auth then 1 else 0) + (if category then 1 else 0)
    && (auth ==> Names(e.conflicts[0], Auth, Auths(members), members))
    && (category ==> Names(e.conflicts[|e.conflicts| - 1], Category, Categories(members), members))
  }

  lemma FieldConflicts(field: Field, values: seq<Text>, members: seq<Candidate>)
    requires |values| == |members|
    requires forall k :: 0 <= k < |members| ==> values[k] == ValueOf(field, members[k]).value
    ensures |ConflictsFor(field, members)| == if Differ(values) then 1 else 0
    ensures Differ(values) ==> Names(ConflictsFor(field, members)[0], field, values, members)
  {
    if Differ(values) {
      var j, k :| 0 <= j < k < |values| && values[j] != values[k];
      assert ValueOf(field, members[j]).value != ValueOf(field, members[k]).value;
    }
  }

  lemma ConflictsAreSaid(setup: Setup, e: Entry, members: seq<Candidate>)
    requires IsMade(setup, e, members)
    ensures SaysConflicts(e, members)
  {
    FieldConflicts(Auth, Auths(members), members);
    FieldConflicts(Category, Categories(members), members);
    hide ConflictsFor, Differ, AliasesFor, FirstWins, ActionsOf, TriggersOf, ScopesOf, Unique, ToolBindable,
         CatalogActions, Refs;
  }

  /** Other names: slugs of the members' ids, and aliases in the table that lead to this entry. */
  ghost predicate SaysAliases(setup: Setup, e: Entry, members: seq<Candidate>) {
    forall key ::
      key in e.aliases <==>
        && key != [] && key != e.canonicalId
        && ((exists k :: 0 <= k < |members| && Slug(members[k].connector.id) == key)
            || (exists alias :: alias in setup.aliases && Slug(alias) == key
                                && CanonicalId(setup.aliases, setup.aliases[alias]) == e.canonicalId))
  }

  lemma AliasesAreSaid(setup: Setup, e: Entry, members: seq<Candidate>)
    requires IsMade(setup, e, members)
    ensures SaysAliases(setup, e, members)
  {
    hide Slug, CanonicalId, ConflictsFor, FirstWins, ActionsOf, TriggersOf, ScopesOf, Unique, ToolBindable,
         CatalogActions, Refs;
  }

  function Total(counts: seq<int>): int {
    if counts == [] then 0 else Total(counts[..|counts| - 1]) + counts[|counts| - 1]
  }

  /** How many actions the catalog-only members stand for. */
  predicate Counts(members: seq<Candidate>, counts: seq<int>) {
    && |counts| == |members|
    && forall k :: 0 <= k < |members| ==>
         var m := members[k].connector.metadata;
         && (members[k].tier != CatalogOnly ==> counts[k] == 0)
         && (members[k].tier == CatalogOnly && m.catalogActionCount.Some? ==> counts[k] == m.catalogActionCount.value)
         && (members[k].tier == CatalogOnly && m.catalogActionCount.None? ==>
               counts[k] == |members[k].connector.actions|)
  }

  lemma {:induction false} CatalogTotals(members: seq<Candidate>) returns (counts: seq<int>)
    ensures Counts(members, counts) && CatalogActions(members) == Total(counts)
  {
    if members == [] {
      counts := [];
    } else {
      var init, last := members[..|members| - 1], members[|members| - 1];
      var before := CatalogTotals(init);
      counts := before + [CatalogActions(members) - CatalogActions(init)];
      assert counts[..|counts| - 1] == before;
    }
  }

  // --- The whole registry -------------------------------------------------------------------------

  /** The members of an entry are exactly the connectors whose canonical id is the entry's. */
  ghost predicate SaysMembers(setup: Setup, sources: seq<Source>, e: Entry, members: seq<Candidate>) {
    && (forall k :: 0 <= k < |members| ==>
          ComesFrom(members[k], sources) && CanonicalId(setup.aliases, members[k].connector.id) == e.canonicalId)
    && (forall i, j ::
          0 <= i < |sources| && 0 <= j < |sources[i].connectors|
          && CanonicalId(setup.aliases, sources[i].connectors[j].id) == e.canonicalId ==>
            exists k :: 0 <= k < |members| && StandsFor(members[k], sources[i], sources[i].connectors[j]))
  }

  lemma GroupComesFromSources(setup: Setup, sources: seq<Source>, id: Text, e: Entry)
    requires e.canonicalId == id
    ensures SaysMembers(setup, sources, e, Sorted(Comparison(setup), Group(setup, Candidates(sources), id)))
  {
    hide Sorted, Comparison, Group, Candidates, CanonicalId, StandsFor, CandidateOf, ComesFrom;
    var group := Group(setup, Candidates(sources), id);
    var ordered := Sorted(Comparison(setup), group);
    SortedPermutes(Comparison(setup), group);
    GroupMembers(setup, Candidates(sources), id);
    forall c
      ensures c in ordered <==> c in group
    {
      assert multiset(ordered)[c] == multiset(group)[c];
    }
    forall k | 0 <= k < |ordered|
      ensures ComesFrom(ordered[k], sources) && CanonicalId(setup.aliases, ordered[k].connector.id) == id
    {
      assert ordered[k] in group;
      CandidateHasSource(sources, ordered[k]);
    }
    forall i, j | 0 <= i < |sources| && 0 <= j < |sources[i].connectors|
                  && CanonicalId(setup.aliases, sources[i].connectors[j].id) == id
      ensures exists k :: 0 <= k < |ordered| && StandsFor(ordered[k], sources[i], sources[i].connectors[j])
    {
      var c := CandidateOf(sources[i], sources[i].connectors[j]);
      StandsForItsConnector(sources[i], sources[i].connectors[j]);
      ConnectorOf(sources[i], sources[i].connectors[j]);
      SourceHasCandidate(sources, i, j);
      assert c in ordered;
    }
  }

  lemma ConnectorOf(source: Source, connector: Connector)
    ensures CandidateOf(source, connector).connector == connector
  {}

  /**
    An entry of a composed registry, spelled out: whose connectors it merges, how they rank, which
    of them offer its tools, and what it reports about the rest.
    */
  lemma EntrySaysWhatItMerges(setup: Setup, sources: seq<Source>, i: nat)
    returns (members: seq<Candidate>, top: nat, counts: seq<int>)
    requires Preorder(setup.collates) && i < |Compose(setup, sources).entries|
    ensures var e := Compose(setup, sources).entries[i];
            && SaysMembers(setup, sources, e, members)
            && SaysSources(setup, e, members, top) && SaysTools(e, members, top)
            && SaysConflicts(e, members) && SaysAliases(setup, e, members)
            && Counts(members, counts) && e.catalogOnlyActionCount == Total(counts)
  {
    var candidates := Candidates(sources);
    var id := SortedIds(setup, candidates)[i];
    assert id in SortedIds(setup, candidates);
    var group := Group(setup, candidates, id);
    members := Sorted(Comparison(setup), group);
    assert Compose(setup, sources).entries[i] == EntryOf(setup, id, group);
    var e := EntryOf(setup, id, group);
    TierIsThePrimarys(setup, id, group);
    ComparisonIsPreorder(setup);
    SortedIsOrdered(Comparison(setup), group);
    GroupIsMade(setup, id, group);
    hide Sorted, Comparison, Group, Candidates, EntryOf, Compose, SortedIds, SaysMembers, SaysSources, SaysTools,
         SaysConflicts, SaysAliases, Counts, IsMade, Refs, Rank, MaxRank;
    RefsOfMade(setup, e, members);
    GroupComesFromSources(setup, sources, id, e);
    top := RanksAreSaid(setup, e, members);
    TopIsInside(setup, e, members, top);
    ToolsAreSaid(setup, e, members, top);
    ConflictsAreSaid(setup, e, members);
    AliasesAreSaid(setup, e, members);
    counts := CatalogTotals(members);
  }

  lemma TopIsInside(setup: Setup, e: Entry, members: seq<Candidate>, top: nat)
    requires SaysSources(setup, e, members, top)
    ensures 0 < top <= |members|
  {}

  lemma OneTier(c: Connector, a: Tier, b: Tier)
    requires HasTier(c, a) && HasTier(c, b)
    ensures a == b
  {
    hide IsFirstParty, IsGateway, IsSpec, IsCatalog;
  }

  lemma OfferedIsMerged(items: seq<Item>, lists: seq<seq<Item>>, id: Text)
    requires Merges(items, lists) && Offers(lists, id)
    ensures HasId(items, id)
  {
    hide FirstWins, FirstOffer, Flat, Offers;
    FlatOffers(lists, id);
    HasIdOfFirstWins(Flat(lists), id);
    var k :| 0 <= k < |FirstWins(Flat(lists))| && FirstWins(Flat(lists))[k].id == id;
    var item := FirstWins(Flat(lists))[k];
    MergedAreFirstOffers(lists, item);
    var m :| 0 <= m < |items| && items[m] == item;
  }

  /** No connector of the entry has a tier above the given one. */
  ghost predicate NoneAbove(setup: Setup, sources: seq<Source>, id: Text, tier: Tier) {
    forall i, j, other ::
      0 <= i < |sources| && 0 <= j < |sources[i].connectors|
      && CanonicalId(setup.aliases, sources[i].connectors[j].id) == id && HasTier(sources[i].connectors[j], other) ==>
        !Above(other, tier)
  }

  lemma BestMemberIsInTop(setup: Setup, sources: seq<Source>, e: Entry, members: seq<Candidate>, top: nat, tier: Tier,
                          k: nat)
    requires SaysMembers(setup, sources, e, members) && Topped(members, top, e.tier)
    requires NoneAbove(setup, sources, e.canonicalId, tier) && k < |members| && members[k].tier == tier
    ensures k < top && e.tier == tier
  {
    hide CanonicalId, HasTier, Above;
    assert ComesFrom(members[0], sources);
    var i, j :| 0 <= i < |sources| && 0 <= j < |sources[i].connectors|
      && StandsFor(members[0], sources[i], sources[i].connectors[j]);
    assert !Above(e.tier, tier);
  }

  ghost predicate IsEntry(setup: Setup, sources: seq<Source>, e: Entry) {
    exists i :: 0 <= i < |Compose(setup, sources).entries| && Compose(setup, sources).entries[i] == e
  }

  /** The connector came in, and its canonical id is the entry's. */
  predicate IsMerged(setup: Setup, sources: seq<Source>, e: Entry, c: Connector) {
    CanonicalId(setup.aliases, c.id) == e.canonicalId && IsListed(sources, c)
  }

  predicate IsListed(sources: seq<Source>, c: Connector) {
    exists a, b :: 0 <= a < |sources| && 0 <= b < |sources[a].connectors| && sources[a].connectors[b] == c
  }

  /** The entry has the given tier and an action for each action id of the connector. */
  predicate OffersAllOf(e: Entry, c: Connector, tier: Tier) {
    && e.tier == tier && (c.actions != [] ==> e.toolBindable)
    && forall n :: 0 <= n < |c.actions| ==> HasId(e.connector.actions, c.actions[n].id)
  }

  lemma MemberFor(setup: Setup, sources: seq<Source>, e: Entry, members: seq<Candidate>, c: Connector, tier: Tier)
    returns (k: nat)
    requires SaysMembers(setup, sources, e, members) && IsMerged(setup, sources, e, c) && HasTier(c, tier)
    ensures k < |members| && members[k].connector == c && members[k].tier == tier
  {
    hide CanonicalId, HasTier, ComesFrom;
    var a, b :| 0 <= a < |sources| && 0 <= b < |sources[a].connectors| && sources[a].connectors[b] == c;
    k :| 0 <= k < |members| && StandsFor(members[k], sources[a], sources[a].connectors[b]);
    OneTier(c, members[k].tier, tier);
  }

  lemma TopMemberIsOffered(e: Entry, members: seq<Candidate>, top: nat, k: nat)
    requires 0 < top <= |members| && SaysTools(e, members, top) && k < top && e.tier != CatalogOnly
    ensures OffersAllOf(e, members[k].connector, e.tier)
  {
    hide HasId, Merges, MergesScopes;
    var c, bindable := members[k].connector, Bindable(members, top, e.tier);
    assert bindable[k] == members[k] && ActionLists(bindable)[k] == c.actions;
    forall n | 0 <= n < |c.actions|
      ensures HasId(e.connector.actions, c.actions[n].id)
    {
      assert ActionLists(bindable)[k][n].id == c.actions[n].id;
      OfferedIsMerged(e.connector.actions, ActionLists(bindable), c.actions[n].id);
    }
  }

  /** A connector of the entry's best tier, unless that is the catalog tier, contributes all its action ids. */
  lemma BestToolsAreOffered(setup: Setup, sources: seq<Source>, e: Entry, c: Connector, tier: Tier)
    requires Preorder(setup.collates) && IsEntry(setup, sources, e) && IsMerged(setup, sources, e, c)
    requires HasTier(c, tier) && tier != CatalogOnly && NoneAbove(setup, sources, e.canonicalId, tier)
    ensures OffersAllOf(e, c, tier)
  {
    var i :| 0 <= i < |Compose(setup, sources).entries| && Compose(setup, sources).entries[i] == e;
    var members, top, counts := EntrySaysWhatItMerges(setup, sources, i);
    TopIsInside(setup, e, members, top);
    hide Compose, IsMerged, HasTier, NoneAbove, OffersAllOf, SaysMembers, SaysTools, SaysConflicts, SaysAliases, Counts;
    var k := MemberFor(setup, sources, e, members, c, tier);
    BestMemberIsInTop(setup, sources, e, members, top, tier, k);
    TopMemberIsOffered(e, members, top, k);
  }

  /** In particular a first-party connector that is not outranked: its tools are there. */
  lemma FirstPartyToolsAreOffered(setup: Setup, sources: seq<Source>, e: Entry, c: Connector)
    requires Preorder(setup.collates) && IsEntry(setup, sources, e) && IsMerged(setup, sources, e, c)
    requires c.metadata.supportTier.None? && !c.metadata.sandboxExecutable
    requires IsFirstParty(c) && NoneAbove(setup, sources, e.canonicalId, FirstPartyExecutable)
    ensures OffersAllOf(e, c, FirstPartyExecutable)
  {
    hide IsEntry, IsMerged, NoneAbove, OffersAllOf, IsFirstParty, IsGateway, IsSpec, IsCatalog;
    assert HasTier(c, FirstPartyExecutable);
    BestToolsAreOffered(setup, sources, e, c, FirstPartyExecutable);
  }

  lemma NothingAboveSandbox(setup: Setup, sources: seq<Source>, id: Text)
    ensures NoneAbove(setup, sources, id, SandboxExecutable)
  {
    hide CanonicalId, HasTier;
  }

  /** And any connector that runs in a sandbox, which nothing outranks. */
  lemma SandboxToolsAreOffered(setup: Setup, sources: seq<Source>, e: Entry, c: Connector)
    requires Preorder(setup.collates) && IsEntry(setup, sources, e) && IsMerged(setup, sources, e, c)
    requires c.metadata.supportTier.None? && c.metadata.sandboxExecutable
    ensures OffersAllOf(e, c, SandboxExecutable)
  {
    hide IsEntry, IsMerged, NoneAbove, OffersAllOf, IsFirstParty, IsGateway, IsSpec, IsCatalog;
    assert HasTier(c, SandboxExecutable);
    NothingAboveSandbox(setup, sources, e.canonicalId);
    BestToolsAreOffered(setup, sources, e, c, SandboxExecutable);
  }

  // --- One entry for each canonical id --------------------------------------------------------------

  lemma EntryIds(setup: Setup, sources: seq<Source>)
    ensures var entries, ids := Compose(setup, sources).entries, SortedIds(setup, Candidates(sources));
            |entries| == |ids| && forall i :: 0 <= i < |ids| ==> entries[i].canonicalId == ids[i]
  {
    var ids := SortedIds(setup, Candidates(sources));
    hide EntryOf, Group, Candidates;
    forall i | 0 <= i < |ids|
      ensures Compose(setup, sources).entries[i].canonicalId == ids[i]
    {
      assert ids[i] in ids;
      EntryKeys(setup, ids[i], Group(setup, Candidates(sources), ids[i]));
    }
  }

  lemma SortedIdsAreRanked(setup: Setup, candidates: seq<Candidate>)
    requires Preorder(setup.collates)
    ensures var ids := SortedIds(setup, candidates);
            forall i, j :: 0 <= i < j < |ids| ==> ids[i] != ids[j] && setup.collates(ids[i], ids[j])
  {
    SortedIsOrdered(setup.collates, Ids(setup, candidates));
    RegistryOrder.IdsAreDistinct(setup, candidates);
    RegistryOrder.PermutedIsDistinct(Ids(setup, candidates), SortedIds(setup, candidates));
    hide Ids, Group, Sorted;
  }

  lemma ListedIsSeen(setup: Setup, sources: seq<Source>, c: Connector)
    requires IsListed(sources, c)
    ensures CanonicalId(setup.aliases, c.id) in SortedIds(setup, Candidates(sources))
  {
    hide CanonicalId, Group, Ids, Sorted, InferTier;
    var a, b :| 0 <= a < |sources| && 0 <= b < |sources[a].connectors| && sources[a].connectors[b] == c;
    var candidate := CandidateOf(sources[a], c);
    SourceHasCandidate(sources, a, b);
    var id := IdOf(setup, candidate);
    GroupMembers(setup, Candidates(sources), id);
    GroupedIffSeen(setup, Candidates(sources), id);
    assert id in multiset(SortedIds(setup, Candidates(sources)));
  }

  /** There is exactly one entry for each canonical id of a connector, and they stand in collation order. */
  lemma EntriesAreTheIds(setup: Setup, sources: seq<Source>)
    requires Preorder(setup.collates)
    ensures var entries := Compose(setup, sources).entries;
            && (forall i, j :: 0 <= i < j < |entries| ==>
                  entries[i].canonicalId != entries[j].canonicalId
                  && setup.collates(entries[i].canonicalId, entries[j].canonicalId))
            && (forall c :: IsListed(sources, c) ==>
                  exists i :: 0 <= i < |entries| && entries[i].canonicalId == CanonicalId(setup.aliases, c.id))
  {
    EntryIds(setup, sources);
    SortedIdsAreRanked(setup, Candidates(sources));
    var entries, ids := Compose(setup, sources).entries, SortedIds(setup, Candidates(sources));
    hide Compose, SortedIds, Candidates, CanonicalId, IsListed;
    forall c | IsListed(sources, c)
      ensures exists i :: 0 <= i < |entries| && entries[i].canonicalId == CanonicalId(setup.aliases, c.id)
    {
      ListedIsSeen(setup, sources, c);
      var i :| 0 <= i < |ids| && ids[i] == CanonicalId(setup.aliases, c.id);
      assert entries[i].canonicalId == ids[i];
    }
  }

  // --- The index ----------------------------------------------------------------------------------

  lemma {:induction false} IndexHolds(entries: seq<Entry>, i: nat, key: Text)
    requires i < |entries| && key in KeysOf(entries[i])
    requires forall j :: i < j < |entries| ==> key !in KeysOf(entries[j])
    ensures key in Index(entries) && Index(entries)[key] == entries[i]
    decreases |entries|
  {
    hide KeysOf;
    if i == |entries| - 1 {
    } else {
      IndexHolds(entries[..|entries| - 1], i, key);
    }
  }

  lemma ComposedIndex(setup: Setup, sources: seq<Source>)
    ensures var registry := Compose(setup, sources); registry.byId == Index(registry.entries)
  {
    hide EntriesFor, SortedIds, Candidates, Index;
  }

  predicate IsNamed(e: Entry, key: Text) {
    key == e.canonicalId || key in e.aliases
  }

  /** Each entry is found under its id and each of its aliases, unless a later one has the same name. */
  lemma NamesLeadToTheLast(setup: Setup, sources: seq<Source>, i: nat, key: Text)
    requires i < |Compose(setup, sources).entries|
    requires IsNamed(Compose(setup, sources).entries[i], key)
    requires var entries := Compose(setup, sources).entries;
             forall j :: i < j < |entries| ==> !IsNamed(entries[j], key)
    ensures var registry := Compose(setup, sources);
            key in registry.byId && registry.byId[key] == registry.entries[i]
  {
    hide Compose, Index;
    ComposedIndex(setup, sources);
    IndexHolds(Compose(setup, sources).entries, i, key);
  }

  /** And nothing else is found. */
  lemma OnlyNamesAreFound(setup: Setup, sources: seq<Source>, key: Text) returns (i: nat)
    requires key in Compose(setup, sources).byId
    ensures var registry := Compose(setup, sources);
            && i < |registry.entries| && registry.byId[key] == registry.entries[i] && IsNamed(registry.entries[i], key)
  {
    hide Compose, Index;
    ComposedIndex(setup, sources);
    var entries := Compose(setup, sources).entries;
    IndexedEntry(entries, key);
    i :| 0 <= i < |entries| && Index(entries)[key] == entries[i] && key in KeysOf(entries[i]);
  }
}