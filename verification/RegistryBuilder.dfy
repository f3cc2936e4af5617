/** The loops that build and summarize a registry, against what a registry is. */
module RegistryBuilder {
  import opened Text
  import opened Sorting
  import opened Registry
  import RegistryOrder

  lemma FirstWinsStep(items: seq<Item>, item: Item)
    ensures FirstWins(items + [item]) == if HasId(FirstWins(items), item.id) then FirstWins(items)
            else FirstWins(items) + [item]
  {
    assert (items + [item])[..|items|] == items;
  }

  lemma ActionsStep(candidates: seq<Candidate>, i: nat)
    requires i < |candidates|
    ensures ActionsOf(candidates[..i + 1]) == ActionsOf(candidates[..i]) + candidates[i].connector.actions
  {
    assert candidates[..i + 1][..i] == candidates[..i];
  }

  lemma NothingMerged(candidates: seq<Candidate>)
    ensures FirstWins(ActionsOf(candidates[..0])) == []
  {}

  lemma OneMore(before: seq<Item>, items: seq<Item>, j: nat)
    requires j < |items|
    ensures before + items[..j] + [items[j]] == before + items[..j + 1]
  {}

  /** Keeps the first action of each id over the bindable candidates, in order. */
  method MergeActions(candidates: seq<Candidate>) returns (out: seq<Item>)
    ensures out == FirstWins(ActionsOf(ToolBindable(candidates)))
  {
    hide ToolBindable, FirstWins, ActionsOf, HasId;
    var bindable := ToolBindable(candidates);
    out := [];
    NothingMerged(bindable);
    for i := 0 to |bindable|
      invariant out == FirstWins(ActionsOf(bindable[..i]))
    {
      var actions := bindable[i].connector.actions;
      ghost var before := ActionsOf(bindable[..i]);
      assert before + actions[..0] == before;
      for j := 0 to |actions|
        invariant out == FirstWins(before + actions[..j])
      {
        FirstWinsStep(before + actions[..j], actions[j]);
        OneMore(before, actions, j);
        if !HasId(out, actions[j].id) {
          out := out + [actions[j]];
        }
      }
      assert actions[..|actions|] == actions;
      ActionsStep(bindable, i);
    }
    assert bindable[..|bindable|] == bindable;
  }

  ghost predicate Grouped(setup: Setup, candidates: seq<Candidate>, order: seq<Text>,
                          grouped: map<Text, seq<Candidate>>) {
    && order == Ids(setup, candidates)
    && (forall id :: id in grouped <==> id in order)
    && (forall id :: id in grouped ==> grouped[id] == Group(setup, candidates, id))
  }

  lemma OneMoreGrouped(setup: Setup, candidates: seq<Candidate>, c: Candidate, order: seq<Text>,
                       grouped: map<Text, seq<Candidate>>)
    requires Grouped(setup, candidates, order, grouped)
    ensures var id := IdOf(setup, c);
            if id in grouped then Grouped(setup, candidates + [c], order, grouped[id := grouped[id] + [c]])
            else Grouped(setup, candidates + [c], order + [id], grouped[id := [c]])
  {
    hide IdOf;
    assert (candidates + [c])[..|candidates|] == candidates;
    GroupedIffSeen(setup, candidates, IdOf(setup, c));
  }

  lemma SameEntry(setup: Setup, candidates: seq<Candidate>, order: seq<Text>, grouped: map<Text, seq<Candidate>>,
                  id: Text)
    requires Grouped(setup, candidates, order, grouped) && id in order
    ensures id in grouped && grouped[id] == Group(setup, candidates, id) && Group(setup, candidates, id) != []
  {
    GroupedIffSeen(setup, candidates, id);
  }

  /** Groups by canonical id as the connectors come in, ranks and merges each group, and indexes the result. */
  method ComposeIntegrationRegistry(setup: Setup, sources: seq<Source>) returns (registry: Registry)
    ensures registry == Compose(setup, sources)
  {
    hide Ids, Group, Grouped, IdOf, EntryOf, Index, Sorted, InferTier;
    var grouped: map<Text, seq<Candidate>> := map[];
    var order: seq<Text> := [];
    NothingGrouped(setup);
    for i := 0 to |sources|
      invariant Grouped(setup, Candidates(sources[..i]), order, grouped)
    {
      var source := sources[i];
      ghost var before := Candidates(sources[..i]);
      assert before + FromSource(source, 0) == before;
      for j := 0 to |source.connectors|
        invariant Grouped(setup, before + FromSource(source, j), order, grouped)
      {
        var candidate := CandidateOf(source, source.connectors[j]);
        var canonicalId := IdOf(setup, candidate);
        OneMoreGrouped(setup, before + FromSource(source, j), candidate, order, grouped);
        assert before + FromSource(source, j) + [candidate] == before + FromSource(source, j + 1);
        if canonicalId in grouped {
          grouped := grouped[canonicalId := grouped[canonicalId] + [candidate]];
        } else {
          order, grouped := order + [canonicalId], grouped[canonicalId := [candidate]];
        }
      }
      assert sources[..i + 1][..i] == sources[..i];
    }
    assert sources[..|sources|] == sources;
    ghost var candidates := Candidates(sources);
    InOrder(setup, candidates, order, grouped);
    var ids := Sorted(setup.collates, order);
    var entries: seq<Entry> := [];
    for i := 0 to |ids|
      invariant |entries| == i
      invariant ids == SortedIds(setup, candidates)
      invariant forall k :: 0 <= k < i ==> entries[k] == EntriesFor(setup, candidates, ids)[k]
    {
      assert ids[i] in multiset(ids);
      SameEntry(setup, candidates, order, grouped, ids[i]);
      entries := entries + [EntryOf(setup, ids[i], grouped[ids[i]])];
    }
    assert entries == EntriesFor(setup, candidates, ids);
    var byId := IndexEntries(entries);
    registry := Registry(entries, byId);
  }

  lemma NothingGrouped(setup: Setup)
    ensures Grouped(setup, Candidates([]), [], map[])
  {}

  lemma InOrder(setup: Setup, candidates: seq<Candidate>, order: seq<Text>, grouped: map<Text, seq<Candidate>>)
    requires Grouped(setup, candidates, order, grouped)
    ensures order == Ids(setup, candidates) && Sorted(setup.collates, order) == SortedIds(setup, candidates)
    ensures multiset(Sorted(setup.collates, order)) == multiset(order)
  {
    SortedPermutes(setup.collates, order);
  }

  lemma IndexStep(entries: seq<Entry>, i: nat)
    requires i < |entries|
    ensures Index(entries[..i + 1]) == Index(entries[..i]) + map key | key in KeysOf(entries[i]) :: entries[i]
  {
    assert entries[..i + 1][..i] == entries[..i];
  }

  method IndexEntry(before: map<Text, Entry>, entry: Entry) returns (byId: map<Text, Entry>)
    ensures byId == before + map key | key in KeysOf(entry) :: entry
  {
    byId := before[entry.canonicalId := entry];
    var rest := entry.aliases;
    while rest != {}
      invariant rest <= entry.aliases
      invariant byId == before + map key | key in entry.aliases - rest + {entry.canonicalId} :: entry
      decreases rest
    {
      var alias :| alias in rest;
      byId := byId[alias := entry];
      rest := rest - {alias};
    }
    assert entry.aliases - {} + {entry.canonicalId} == KeysOf(entry);
  }

  method IndexEntries(entries: seq<Entry>) returns (byId: map<Text, Entry>)
    ensures byId == Index(entries)
  {
    byId := map[];
    for i := 0 to |entries|
      invariant byId == Index(entries[..i])
    {
      IndexStep(entries, i);
      byId := IndexEntry(byId, entries[i]);
    }
    assert entries[..|entries|] == entries;
  }

  // --- Summaries ----------------------------------------------------------------------------

  function CountTier(entries: seq<Entry>, tier: Tier): nat {
    if entries == [] then 0
    else CountTier(entries[..|entries| - 1], tier) + if entries[|entries| - 1].tier == tier then 1 else 0
  }

  datatype Summary = Summary(totalEntries: nat, totalSources: nat, toolBindableEntries: nat, conflictEntries: nat,
                             bySupportTier: map<Tier, nat>)

  /** The entries at these positions, as the two filters of the summary select them. */
  function BindablePositions(entries: seq<Entry>): set<nat> {
    set i | 0 <= i < |entries| && entries[i].connector.actions != []
  }

  function ConflictPositions(entries: seq<Entry>): set<nat> {
    set i | 0 <= i < |entries| && entries[i].conflicts != []
  }

  lemma BindableGrows(entries: seq<Entry>, i: nat)
    requires i < |entries|
    ensures i !in BindablePositions(entries[..i])
    ensures BindablePositions(entries[..i + 1]) ==
              BindablePositions(entries[..i]) + if entries[i].connector.actions != [] then {i} else {}
  {
    var shorter, longer := entries[..i], entries[..i + 1];
    assert forall k :: 0 <= k < i ==> shorter[k] == longer[k] == entries[k];
  }

  lemma ConflictsGrow(entries: seq<Entry>, i: nat)
    requires i < |entries|
    ensures i !in ConflictPositions(entries[..i])
    ensures ConflictPositions(entries[..i + 1]) == ConflictPositions(entries[..i]) + if entries[i].conflicts != []
            then {i} else {}
  {
    var shorter, longer := entries[..i], entries[..i + 1];
    assert forall k :: 0 <= k < i ==> shorter[k] == longer[k] == entries[k];
  }

  /** What one more entry adds to each total. */
  lemma OneMoreEntry(entries: seq<Entry>, i: nat)
    requires i < |entries|
    ensures |BindablePositions(entries[..i + 1])| == |BindablePositions(entries[..i])|
            + if entries[i].connector.actions != [] then 1 else 0
    ensures |ConflictPositions(entries[..i + 1])| == |ConflictPositions(entries[..i])| + if entries[i].conflicts != []
            then 1 else 0
    ensures RegistryOrder.TotalSources(entries[..i + 1]) == RegistryOrder.TotalSources(entries[..i])
            + |entries[i].sources|
    ensures forall tier ::
              var more := if entries[i].tier == tier then 1 else 0;
              CountTier(entries[..i + 1], tier) == CountTier(entries[..i], tier) + more
  {
    BindableGrows(entries, i);
    ConflictsGrow(entries, i);
    assert entries[..i + 1][..i] == entries[..i];
  }

  lemma NoEntries(entries: seq<Entry>)
    ensures |BindablePositions(entries[..0])| == 0 && |ConflictPositions(entries[..0])| == 0
    ensures RegistryOrder.TotalSources(entries[..0]) == 0 && forall tier :: CountTier(entries[..0], tier) == 0
  {}

  method Summarize(registry: Registry) returns (summary: Summary)
    ensures summary.totalEntries == |registry.entries|
    ensures summary.totalSources == RegistryOrder.TotalSources(registry.entries)
    ensures summary.toolBindableEntries == |BindablePositions(registry.entries)|
    ensures summary.conflictEntries == |ConflictPositions(registry.entries)|
    ensures forall tier ::
              tier in summary.bySupportTier && summary.bySupportTier[tier] == CountTier(registry.entries, tier)
  {
    hide CountTier, RegistryOrder.TotalSources, BindablePositions, ConflictPositions;
    var entries := registry.entries;
    NoEntries(entries);
    var bySupportTier :=
      map[CatalogOnly := 0, SetupReady := 0, GatewayExecutable := 0, FirstPartyExecutable := 0, SandboxExecutable := 0];
    var totalSources, bindable, conflicts := 0, 0, 0;
    forall tier: Tier
      ensures tier in bySupportTier && bySupportTier[tier] == 0
    {
      assert || tier == CatalogOnly || tier == SetupReady || tier == GatewayExecutable
             || tier == FirstPartyExecutable || tier == SandboxExecutable;
    }
    for i := 0 to |entries|
      invariant forall tier: Tier :: tier in bySupportTier && bySupportTier[tier] == CountTier(entries[..i], tier)
      invariant totalSources == RegistryOrder.TotalSources(entries[..i])
      invariant bindable == |BindablePositions(entries[..i])| && conflicts == |ConflictPositions(entries[..i])|
    {
      OneMoreEntry(entries, i);
      bySupportTier := bySupportTier[entries[i].tier := bySupportTier[entries[i].tier] + 1];
      totalSources := totalSources + |entries[i].sources|;
      bindable := bindable + if |entries[i].connector.actions| > 0 then 1 else 0;
      conflicts := conflicts + if |entries[i].conflicts| > 0 then 1 else 0;
    }
    assert entries[..|entries|] == entries;
    summary := Summary(|entries|, totalSources, bindable, conflicts, bySupportTier);
  }

  /** Each entry is counted under exactly one tier. */
  lemma {:induction false} TiersTotalEntries(entries: seq<Entry>)
    ensures CountTier(entries, CatalogOnly) + CountTier(entries, SetupReady) + CountTier(entries, GatewayExecutable)
          + CountTier(entries, FirstPartyExecutable) + CountTier(entries, SandboxExecutable) == |entries|
  {
    if entries == [] {
    } else {
      TiersTotalEntries(entries[..|entries| - 1]);
    }
  }
}
