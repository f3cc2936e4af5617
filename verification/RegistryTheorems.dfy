/** What a composed registry promises, whatever the catalogs and however they are ordered. */
module RegistryTheorems {
  import opened Wrappers
  import opened Text
  import opened Aliases
  import opened Sorting
  import opened Registry

  // --- Merging ------------------------------------------------------------------------------

  lemma NoId(id: Text)
    ensures !HasId([], id) && !HasId(FirstWins([]), id)
  {}

  lemma {:induction false} HasIdOfFirstWins(items: seq<Item>, id: Text)
    ensures HasId(FirstWins(items), id) <==> HasId(items, id)
  {
    hide FirstWins, HasId;
    if items == [] {
      NoId(id);
    } else {
      var init, last := items[..|items| - 1], items[|items| - 1];
      assert items == init + [last];
      HasIdOfFirstWins(init, id);
      HasIdOfFirstWins(init, last.id);
      FirstWinsGrows(init, last);
      HasIdGrows(init, last, id);
      HasIdGrows(FirstWins(init), last, id);
    }
  }

  lemma HasIdGrows(items: seq<Item>, last: Item, id: Text)
    ensures HasId(items + [last], id) <==> HasId(items, id) || last.id == id
  {
    var longer := items + [last];
    assert longer[|items|] == last;
    assert forall i :: 0 <= i < |items| ==> longer[i] == items[i];
    if i :| 0 <= i < |items| && items[i].id == id {
      assert longer[i].id == id;
    }
  }

  lemma FirstWinsGrows(init: seq<Item>, last: Item)
    ensures FirstWins(init + [last]) == if HasId(FirstWins(init), last.id) then FirstWins(init)
            else FirstWins(init) + [last]
  {
    hide HasId;
    assert (init + [last])[..|init|] == init;
  }

  /** The item stands somewhere as the first one of its id. */
  ghost predicate StandsFirst(items: seq<Item>, item: Item) {
    exists k :: 0 <= k < |items| && items[k] == item && IsFirst(items, k)
  }

  lemma StandsFirstGrows(init: seq<Item>, last: Item, item: Item)
    ensures StandsFirst(init + [last], item) <==> StandsFirst(init, item) || (last == item && !HasId(init, last.id))
  {
    var items, n := init + [last], |init|;
    assert items[n] == last && forall k :: 0 <= k < n ==> items[k] == init[k];
    assert forall k :: 0 <= k < n ==> (IsFirst(init, k) <==> IsFirst(items, k));
    assert HasId(init, last.id) <==> !IsFirst(items, n) by {
      if j :| 0 <= j < n && items[j].id == items[n].id {
        assert init[j].id == last.id;
      }
    }
    if StandsFirst(init, item) {
      var k :| 0 <= k < n && init[k] == item && IsFirst(init, k);
      assert items[k] == item && IsFirst(items, k);
    }
  }

  lemma NothingMerged(item: Item)
    ensures item !in FirstWins([]) && !StandsFirst([], item)
  {}

  /** The merged items are exactly the first ones of their ids. */
  lemma {:induction false} FirstWinsKeepsFirsts(items: seq<Item>, item: Item)
    ensures item in FirstWins(items) <==> StandsFirst(items, item)
  {
    hide FirstWins, StandsFirst, HasId;
    if items == [] {
      NothingMerged(item);
    } else {
      var init, last := items[..|items| - 1], items[|items| - 1];
      assert items == init + [last];
      FirstWinsKeepsFirsts(init, item);
      FirstWinsGrows(init, last);
      HasIdOfFirstWins(init, last.id);
      StandsFirstGrows(init, last, item);
    }
  }

  lemma {:induction false} FirstWinsHasDistinctIds(items: seq<Item>)
    ensures forall i, j :: 0 <= i < j < |FirstWins(items)| ==> FirstWins(items)[i].id != FirstWins(items)[j].id
  {
    if items == [] {
    } else {
      FirstWinsHasDistinctIds(items[..|items| - 1]);
    }
  }

  // --- The best tier ------------------------------------------------------------------------

  lemma MaxRankGrows(init: seq<Candidate>, last: Candidate)
    ensures MaxRank(init + [last]) == if Rank(last.tier) > MaxRank(init) then Rank(last.tier) else MaxRank(init)
  {
    assert (init + [last])[..|init|] == init;
  }

  lemma {:induction false} RanksAreBounded(candidates: seq<Candidate>)
    ensures forall i :: 0 <= i < |candidates| ==> Rank(candidates[i].tier) <= MaxRank(candidates)
    ensures candidates != [] ==> exists i :: 0 <= i < |candidates| && Rank(candidates[i].tier) == MaxRank(candidates)
  {
    hide MaxRank, Rank;
    if candidates == [] {
    } else {
      var init, n := candidates[..|candidates| - 1], |candidates| - 1;
      assert candidates == init + [candidates[n]];
      RanksAreBounded(init);
      MaxRankGrows(init, candidates[n]);
      if Rank(candidates[n].tier) <= MaxRank(init) && init != [] {
        var i :| 0 <= i < |init| && Rank(init[i].tier) == MaxRank(init);
        assert Rank(candidates[i].tier) == MaxRank(candidates);
      } else if init == [] {
        LoneRank(candidates[n]);
        assert Rank(candidates[n].tier) == MaxRank(candidates);
      } else {
        assert Rank(candidates[n].tier) == MaxRank(candidates);
      }
    }
  }

  lemma LoneRank(c: Candidate)
    ensures MaxRank([c]) == Rank(c.tier)
  {
    assert [c][..0] == [];
    assert MaxRank([]) == 0;
  }

  lemma {:induction false} NothingBetter(candidates: seq<Candidate>, best: Tier)
    requires forall i :: 0 <= i < |candidates| ==> Rank(candidates[i].tier) <= Rank(best)
    ensures FoldedTier(candidates, best) == best
  {
    if candidates == [] {
    } else {
      NothingBetter(candidates[..|candidates| - 1], best);
    }
  }

  /** The folded support tier of an entry is the tier of its primary candidate, which no candidate exceeds. */
  lemma TierIsThePrimarys(setup: Setup, id: Text, group: seq<Candidate>)
    requires Preorder(setup.collates) && group != []
    ensures var ordered := Sorted(Comparison(setup), group);
            && ordered != [] && EntryOf(setup, id, group).tier == ordered[0].tier
            && MaxRank(ordered) == Rank(ordered[0].tier)
            && forall i :: 0 <= i < |ordered| ==> Rank(ordered[i].tier) <= Rank(ordered[0].tier)
  {
    var ordered := Sorted(Comparison(setup), group);
    SortedPermutes(Comparison(setup), group);
    SameLength(ordered, group);
    ComparisonIsPreorder(setup);
    SortedIsOrdered(Comparison(setup), group);
    forall i | 0 <= i < |ordered|
      ensures Rank(ordered[i].tier) <= Rank(ordered[0].tier)
    {
      assert i > 0 ==> Comparison(setup)(ordered[0], ordered[i]);
    }
    NothingBetter(ordered, ordered[0].tier);
    RanksAreBounded(ordered);
  }

  lemma EntryTools(setup: Setup, id: Text, group: seq<Candidate>)
    requires group != []
    ensures var e := EntryOf(setup, id, group);
            && e.connector.actions == FirstWins(ActionsOf(ToolBindable(Sorted(Comparison(setup), group))))
            && (e.toolBindable <==> e.connector.actions != [])
  {
    hide AliasesFor, ActionsOf, TriggersOf, ScopesOf, FirstWins, Unique, ToolBindable, FoldedTier, ConflictsFor,
         CatalogActions, Sorted;
  }

  lemma BindableIsTheTier(setup: Setup, id: Text, group: seq<Candidate>)
    requires Preorder(setup.collates) && group != []
    ensures var tier, ordered := EntryOf(setup, id, group).tier, Sorted(Comparison(setup), group);
            ToolBindable(ordered) == if tier == CatalogOnly then [] else OfTier(ordered, Rank(tier))
  {
    hide EntryOf, Sorted, OfTier, MaxRank, Comparison;
    TierIsThePrimarys(setup, id, group);
  }

  /** Tools come from exactly the candidates of the entry's tier, and from none if that is the catalog tier. */
  lemma ToolsComeFromTheTier(setup: Setup, id: Text, group: seq<Candidate>)
    requires Preorder(setup.collates) && group != []
    ensures var e, ordered := EntryOf(setup, id, group), Sorted(Comparison(setup), group);
            var bindable := if e.tier == CatalogOnly then [] else OfTier(ordered, Rank(e.tier));
            && e.connector.actions == FirstWins(ActionsOf(bindable))
            && (e.toolBindable <==> exists i :: 0 <= i < |bindable| && bindable[i].connector.actions != [])
  {
    hide EntryOf, Sorted, OfTier, ToolBindable, ActionsOf, FirstWins, Comparison, Rank;
    BindableIsTheTier(setup, id, group);
    EntryTools(setup, id, group);
    var bindable := ToolBindable(Sorted(Comparison(setup), group));
    NoActionsIff(bindable);
    HasSomeIff(ActionsOf(bindable));
  }

  lemma {:induction false} NoActionsIff(candidates: seq<Candidate>)
    ensures ActionsOf(candidates) != [] <==> exists i :: 0 <= i < |candidates| && candidates[i].connector.actions != []
  {
    if candidates == [] {
    } else {
      var init, n := candidates[..|candidates| - 1], |candidates| - 1;
      NoActionsIff(init);
      assert forall i :: 0 <= i < n ==> init[i] == candidates[i];
      if ActionsOf(init) != [] {
        var i :| 0 <= i < |init| && init[i].connector.actions != [];
        assert candidates[i].connector.actions != [];
      }
      if candidates[n].connector.actions != [] {
        assert ActionsOf(candidates) != [];
      }
    }
  }

  lemma {:induction false} HasSomeIff(items: seq<Item>)
    ensures FirstWins(items) != [] <==> items != []
  {}

  // --- The index ----------------------------------------------------------------------------

  /** Every key leads to the entry of its own canonical id. */
  ghost predicate IndexAgrees(setup: Setup, registry: Registry) {
    forall key :: key in registry.byId ==> registry.byId[key].canonicalId == CanonicalId(setup.aliases, key)
  }

  lemma {:induction false} IndexedEntry(entries: seq<Entry>, key: Text)
    requires key in Index(entries)
    ensures exists i :: 0 <= i < |entries| && Index(entries)[key] == entries[i] && key in KeysOf(entries[i])
  {
    var init, n := entries[..|entries| - 1], |entries| - 1;
    if key in KeysOf(entries[n]) {
      assert Index(entries)[key] == entries[n];
    } else {
      IndexedEntry(init, key);
      var i :| 0 <= i < |init| && Index(init)[key] == init[i] && key in KeysOf(init[i]);
      assert Index(entries)[key] == entries[i] && key in KeysOf(entries[i]);
    }
  }

  lemma {:induction false} GroupMembers(setup: Setup, candidates: seq<Candidate>, id: Text)
    ensures forall c :: c in Group(setup, candidates, id) <==> c in candidates && IdOf(setup, c) == id
  {
    if candidates == [] {
    } else {
      GroupMembers(setup, candidates[..|candidates| - 1], id);
      assert candidates == candidates[..|candidates| - 1] + [candidates[|candidates| - 1]];
    }
  }

  lemma SlugHasSameCanonicalId(aliases: Table, id: Text)
    ensures CanonicalId(aliases, Slug(id)) == CanonicalId(aliases, id)
  {
    SlugIffUnchanged(id);
    SlugIffUnchanged(Slug(id));
  }

  lemma EntryKeys(setup: Setup, id: Text, group: seq<Candidate>)
    requires group != []
    ensures EntryOf(setup, id, group).canonicalId == id
    ensures KeysOf(EntryOf(setup, id, group)) == AliasesFor(setup, id, Sorted(Comparison(setup), group)) + {id}
  {
    hide AliasesFor, ActionsOf, TriggersOf, ScopesOf, FirstWins, Unique, ToolBindable, FoldedTier, ConflictsFor,
         CatalogActions, Sorted;
  }

  /** An alias of an entry is the slug of a grouped connector's id, or a table entry that leads to the group. */
  lemma AliasOrigin(setup: Setup, id: Text, group: seq<Candidate>, key: Text)
    requires key in AliasesFor(setup, id, Sorted(Comparison(setup), group))
    ensures (exists c :: c in group && Slug(c.connector.id) == key)
            || exists alias ::
                 alias in setup.aliases && CanonicalId(setup.aliases, setup.aliases[alias]) == id && Slug(alias) == key
  {
    hide Slug, CanonicalId, Sorted;
    var ordered := Sorted(Comparison(setup), group);
    SortedPermutes(Comparison(setup), group);
    if i :| 0 <= i < |ordered| && Slug(ordered[i].connector.id) == key {
      assert ordered[i] in multiset(group);
      assert ordered[i] in group;
    }
  }

  lemma AliasLeadsHome(setup: Setup, candidates: seq<Candidate>, id: Text, key: Text)
    requires IsNormal(setup.aliases) && AliasesAgree(setup.aliases) && Group(setup, candidates, id) != []
    requires key in KeysOf(EntryOf(setup, id, Group(setup, candidates, id)))
    ensures CanonicalId(setup.aliases, key) == id
  {
    hide Slug, CanonicalId, EntryOf, KeysOf, AliasesFor, Group;
    var group := Group(setup, candidates, id);
    EntryKeys(setup, id, group);
    GroupMembers(setup, candidates, id);
    if key == id {
      assert group[0] in group;
      CanonicalIsIdempotent(setup.aliases, group[0].connector.id);
    } else {
      AliasOrigin(setup, id, group, key);
      if c :| c in group && Slug(c.connector.id) == key {
        SlugHasSameCanonicalId(setup.aliases, c.connector.id);
      } else {
        var alias :| alias in setup.aliases && CanonicalId(setup.aliases, setup.aliases[alias]) == id
          && Slug(alias) == key;
        SlugHasSameCanonicalId(setup.aliases, alias);
      }
    }
  }

  lemma AgreeingAliasesIndexWell(setup: Setup, sources: seq<Source>)
    requires IsNormal(setup.aliases) && AliasesAgree(setup.aliases)
    ensures IndexAgrees(setup, Compose(setup, sources))
  {
    var candidates := Candidates(sources);
    var ids, registry := SortedIds(setup, candidates), Compose(setup, sources);
    forall key | key in registry.byId
      ensures registry.byId[key].canonicalId == CanonicalId(setup.aliases, key)
    {
      IndexedEntry(registry.entries, key);
      var i :| 0 <= i < |registry.entries| && registry.byId[key] == registry.entries[i]
        && key in KeysOf(registry.entries[i]);
      assert ids[i] in ids;
      AliasLeadsHome(setup, candidates, ids[i], key);
    }
  }

  /** A catalog with one connector of the given id. */
  function Lone(id: Text): seq<Source> {
    [Source([], None, [Connector(id, [], [], [], [], [], None, Metadata(None, false, [], false, false, None))])]
  }

  lemma LoneCandidate(id: Text) returns (c: Candidate)
    ensures Candidates(Lone(id)) == [c] && c.connector.id == id
  {
    hide InferTier;
    var source := Lone(id)[0];
    c := CandidateOf(source, source.connectors[0]);
    assert FromSource(source, 1) == FromSource(source, 0) + [c];
    assert Candidates(Lone(id)) == Candidates(Lone(id)[..0]) + FromSource(source, 1);
  }

  lemma OneSorted<T(!new)>(leq: (T, T) -> bool, x: T)
    ensures Sorted(leq, [x]) == [x]
  {
    assert [x][..0] == [];
    assert Sorted(leq, [x]) == Inserted(leq, Sorted(leq, []), x);
  }

  lemma OneGroup(setup: Setup, c: Candidate, id: Text)
    requires IdOf(setup, c) == id
    ensures SortedIds(setup, [c]) == [id] && Group(setup, [c], id) == [c]
  {
    hide IdOf, Sorted;
    OneSorted(setup.collates, id);
    assert [c][..0] == [];
    assert Ids(setup, [c]) == Ids(setup, []) + [id] == [id];
    assert Group(setup, [c], id) == Group(setup, [], id) + [c];
  }

  lemma OneIndexed(e: Entry, key: Text)
    requires key in KeysOf(e)
    ensures key in Index([e]) && Index([e])[key] == e
  {
    assert [e][..0] == [];
  }

  /** What a registry of one connector knows. */
  lemma LoneEntry(setup: Setup, id: Text, alias: Text)
    requires CanonicalId(setup.aliases, id) == id
    requires alias in setup.aliases && CanonicalId(setup.aliases, setup.aliases[alias]) == id
    requires Slug(alias) == alias && alias !in {[], id}
    ensures var registry := Compose(setup, Lone(id));
            alias in registry.byId && registry.byId[alias].canonicalId == id
  {
    hide CanonicalId, Slug, EntryOf, KeysOf, Sorted, SortedIds, Group, Candidates, Index;
    var c := LoneCandidate(id);
    OneGroup(setup, c, id);
    EntryKeys(setup, id, [c]);
    var e := EntryOf(setup, id, [c]);
    assert alias in KeysOf(e);
    OneIndexed(e, alias);
    assert Compose(setup, Lone(id)).entries == [e];
  }

  /** The index is right for every catalog exactly when each alias leads where its target leads. */
  lemma IndexAgreesIffAliasesAgree(setup: Setup)
    requires IsNormal(setup.aliases)
    ensures (forall sources :: IndexAgrees(setup, Compose(setup, sources))) <==> AliasesAgree(setup.aliases)
  {
    if AliasesAgree(setup.aliases) {
      forall sources
        ensures IndexAgrees(setup, Compose(setup, sources))
      {
        AgreeingAliasesIndexWell(setup, sources);
      }
    } else {
      var alias :| alias in setup.aliases
        && CanonicalId(setup.aliases, setup.aliases[alias]) != CanonicalId(setup.aliases, alias);
      var id := CanonicalId(setup.aliases, setup.aliases[alias]);
      CanonicalIsIdempotent(setup.aliases, setup.aliases[alias]);
      SlugIffUnchanged(alias);
      LoneEntry(setup, id, alias);
      assert !IndexAgrees(setup, Compose(setup, Lone(id)));
    }
  }

  /** In terms of the table alone: the index is right for every catalog exactly if no cycle is longer than one. */
  lemma IndexAgreesIffCyclesAreTrivial(setup: Setup)
    requires IsNormal(setup.aliases)
    ensures (forall sources :: IndexAgrees(setup, Compose(setup, sources))) <==> OnlyTrivialCycles(setup.aliases)
  {
    hide IndexAgrees, Compose, AliasesAgree, OnlyTrivialCycles, IsNormal;
    IndexAgreesIffAliasesAgree(setup);
    AliasesAgreeIff(setup.aliases);
  }

  /** Any longer cycle, in any normal table, puts an id under the wrong entry for some catalog. */
  lemma CyclesMisindex(setup: Setup, cycle: seq<Text>, id: Text)
    requires IsNormal(setup.aliases) && ReturnsTo(setup.aliases, cycle, id) && |cycle| >= 2
    ensures exists sources :: !IndexAgrees(setup, Compose(setup, sources))
  {
    IndexAgreesIffCyclesAreTrivial(setup);
  }
}
