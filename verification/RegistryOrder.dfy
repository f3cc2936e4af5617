/** The order of the catalogs does not matter, and no connector is lost or counted twice. */
module RegistryOrder {
  import opened Text
  import opened Sorting
  import opened Registry
  import opened RegistryTheorems

  predicate Distinct<T(==)>(s: seq<T>) {
    forall i, j :: 0 <= i < j < |s| ==> s[i] != s[j]
  }

  lemma {:induction false} CountsOfDistinct<T(!new)>(s: seq<T>, x: T)
    requires Distinct(s)
    ensures multiset(s)[x] == if x in s then 1 else 0
  {
    if s == [] {
    } else {
      CountsOfDistinct(s[..|s| - 1], x);
      assert s == s[..|s| - 1] + [s[|s| - 1]];
    }
  }

  lemma SameElementsPermute<T(!new)>(s: seq<T>, t: seq<T>)
    requires Distinct(s) && Distinct(t) && forall x :: x in s <==> x in t
    ensures multiset(s) == multiset(t)
  {
    forall x
      ensures multiset(s)[x] == multiset(t)[x]
    {
      CountsOfDistinct(s, x);
      CountsOfDistinct(t, x);
    }
  }

  lemma PermutedIsDistinct<T(!new)>(s: seq<T>, t: seq<T>)
    requires Distinct(s) && multiset(s) == multiset(t)
    ensures Distinct(t)
  {
    forall i, j | 0 <= i < j < |t|
      ensures t[i] != t[j]
    {
      if t[i] == t[j] {
        TwiceInBoth(s, t, i, j);
      }
    }
  }

  // --- Groups and ids ignore the order ------------------------------------------------------

  lemma GroupGrows(setup: Setup, init: seq<Candidate>, last: Candidate, id: Text)
    ensures Group(setup, init + [last], id) == if IdOf(setup, last) == id then Group(setup, init, id) + [last]
            else Group(setup, init, id)
  {
    hide IdOf;
    assert (init + [last])[..|init|] == init;
  }

  lemma {:induction false} GroupCounts(setup: Setup, candidates: seq<Candidate>, id: Text, c: Candidate)
    ensures multiset(Group(setup, candidates, id))[c] == if IdOf(setup, c) == id then multiset(candidates)[c] else 0
  {
    if candidates == [] {
      return;
    }
    hide IdOf, Group;
    var init, last := candidates[..|candidates| - 1], candidates[|candidates| - 1];
    GroupCounts(setup, init, id, c);
    assert candidates == init + [last];
    GroupGrows(setup, init, last, id);
    OneMoreCounts(init, last, c);
    OneMoreCounts(Group(setup, init, id), last, c);
  }

  lemma OneMoreCounts<T(!new)>(s: seq<T>, x: T, y: T)
    ensures multiset(s + [x])[y] == multiset(s)[y] + if x == y then 1 else 0
  {}

  lemma GroupsPermute(setup: Setup, candidates: seq<Candidate>, others: seq<Candidate>, id: Text)
    requires multiset(candidates) == multiset(others)
    ensures multiset(Group(setup, candidates, id)) == multiset(Group(setup, others, id))
  {
    hide Group, IdOf;
    forall c
      ensures multiset(Group(setup, candidates, id))[c] == multiset(Group(setup, others, id))[c]
    {
      GroupCounts(setup, candidates, id, c);
      GroupCounts(setup, others, id, c);
    }
  }

  lemma {:induction false} IdsAreDistinct(setup: Setup, candidates: seq<Candidate>)
    ensures Distinct(Ids(setup, candidates))
  {
    if candidates != [] {
      hide IdOf, Distinct;
      var init, id := Ids(setup, candidates[..|candidates| - 1]), IdOf(setup, candidates[|candidates| - 1]);
      IdsAreDistinct(setup, candidates[..|candidates| - 1]);
      if id !in init {
        OneMoreDistinct(init, id);
      }
    } else {
      NoneIsDistinct<Text>();
    }
  }

  lemma NoneIsDistinct<T>()
    ensures Distinct<T>([])
  {}

  lemma OneMoreDistinct<T(!new)>(s: seq<T>, x: T)
    requires Distinct(s) && x !in s
    ensures Distinct(s + [x])
  {}

  lemma EmptyAlike<T(!new)>(s: seq<T>, t: seq<T>)
    requires multiset(s) == multiset(t)
    ensures s == [] <==> t == []
  {
    SameLength(s, t);
  }

  lemma IdsPermute(setup: Setup, candidates: seq<Candidate>, others: seq<Candidate>)
    requires multiset(candidates) == multiset(others)
    ensures multiset(Ids(setup, candidates)) == multiset(Ids(setup, others))
  {
    hide Ids, Group, Distinct;
    forall id
      ensures id in Ids(setup, candidates) <==> id in Ids(setup, others)
    {
      GroupedIffSeen(setup, candidates, id);
      GroupedIffSeen(setup, others, id);
      GroupsPermute(setup, candidates, others, id);
      EmptyAlike(Group(setup, candidates, id), Group(setup, others, id));
    }
    IdsAreDistinct(setup, candidates);
    IdsAreDistinct(setup, others);
    SameElementsPermute(Ids(setup, candidates), Ids(setup, others));
  }

  /** The collation never calls two different ids equal. */
  ghost predicate TotalOrder(collates: (Text, Text) -> bool) {
    Preorder(collates) && forall x, y :: collates(x, y) && collates(y, x) ==> x == y
  }

  lemma EntryIgnoresOrder(setup: Setup, id: Text, group: seq<Candidate>, other: seq<Candidate>)
    requires Preorder(setup.collates) && group != [] && other != []
    requires multiset(group) == multiset(other) && NoTies(Comparison(setup), group)
    ensures EntryOf(setup, id, group) == EntryOf(setup, id, other)
  {
    ComparisonIsPreorder(setup);
    SortIgnoresOrder(Comparison(setup), group, other);
    hide Sorted, AliasesFor, ActionsOf, TriggersOf, ScopesOf, FirstWins, Unique, ToolBindable, FoldedTier,
         ConflictsFor, CatalogActions,
         Comparison, NoTies;
  }

  lemma SortedIdsAreSame(setup: Setup, candidates: seq<Candidate>, others: seq<Candidate>)
    requires TotalOrder(setup.collates) && multiset(candidates) == multiset(others)
    ensures SortedIds(setup, candidates) == SortedIds(setup, others)
  {
    IdsPermute(setup, candidates, others);
    IdsAreDistinct(setup, candidates);
    assert NoTies(setup.collates, Ids(setup, candidates));
    SortIgnoresOrder(setup.collates, Ids(setup, candidates), Ids(setup, others));
  }

  /** Without ties inside a group, rearranging the candidates leaves the whole registry as it is. */
  lemma ComposeIgnoresOrder(setup: Setup, sources: seq<Source>, others: seq<Source>)
    requires TotalOrder(setup.collates) && multiset(Candidates(sources)) == multiset(Candidates(others))
    requires forall id :: NoTies(Comparison(setup), Group(setup, Candidates(sources), id))
    ensures Compose(setup, sources) == Compose(setup, others)
  {
    var a, b := Candidates(sources), Candidates(others);
    hide Candidates, Group, EntryOf, SortedIds, Index, Comparison, NoTies;
    SortedIdsAreSame(setup, a, b);
    var ids := SortedIds(setup, a);
    var x, y := Compose(setup, sources).entries, Compose(setup, others).entries;
    forall i | 0 <= i < |ids|
      ensures x[i] == y[i]
    {
      assert ids[i] in ids;
      GroupsPermute(setup, a, b, ids[i]);
      EntryIgnoresOrder(setup, ids[i], Group(setup, a, ids[i]), Group(setup, b, ids[i]));
    }
    assert x == y;
  }

  // --- Rearranging sources and connectors rearranges the candidates -------------------------

  lemma CandidatesGrow(init: seq<Source>, last: Source)
    ensures Candidates(init + [last]) == Candidates(init) + FromSource(last, |last.connectors|)
  {
    hide FromSource;
    assert (init + [last])[..|init|] == init;
  }

  lemma {:induction false} CandidatesSplit(sources: seq<Source>, k: nat)
    requires k < |sources|
    ensures multiset(Candidates(sources)) ==
              multiset(Candidates(sources[..k] + sources[k + 1..]))
                + multiset(FromSource(sources[k], |sources[k].connectors|))
  {
    hide FromSource, Candidates;
    var n := |sources| - 1;
    var init, last := sources[..n], sources[n];
    assert sources == init + [last];
    CandidatesGrow(init, last);
    if k == n {
      assert sources[..k] + sources[k + 1..] == init;
    } else {
      CandidatesSplit(init, k);
      assert sources[..k] + sources[k + 1..] == init[..k] + init[k + 1..] + [last];
      CandidatesGrow(init[..k] + init[k + 1..], last);
    }
  }

  /** Permuting the sources. */
  lemma {:induction false} SourcesPermute(sources: seq<Source>, others: seq<Source>)
    requires Permutes(sources, others)
    ensures multiset(Candidates(sources)) == multiset(Candidates(others))
  {
    SameLength(sources, others);
    if sources == [] {
    } else {
      var n := |sources| - 1;
      assert sources[n] in multiset(others);
      var k :| 0 <= k < |others| && others[k] == sources[n];
      CandidatesSplit(sources, n);
      CandidatesSplit(others, k);
      Removed(sources, n, others, k);
      SourcesPermute(sources[..n] + sources[n + 1..], others[..k] + others[k + 1..]);
    }
  }

  lemma Removed<T(!new)>(s: seq<T>, i: nat, t: seq<T>, k: nat)
    requires Permutes(s, t) && i < |s| && k < |t| && s[i] == t[k]
    ensures Permutes(s[..i] + s[i + 1..], t[..k] + t[k + 1..])
  {
    OneRemoved(s, i);
    OneRemoved(t, k);
  }

  lemma OneRemoved<T(!new)>(s: seq<T>, i: nat)
    requires i < |s|
    ensures multiset(s[..i] + s[i + 1..]) == multiset(s) - multiset{s[i]}
  {
    assert s == s[..i] + [s[i]] + s[i + 1..];
  }

  lemma FromSourceGrows(source: Source, n: nat)
    requires 0 < n <= |source.connectors|
    ensures FromSource(source, n) == FromSource(source, n - 1) + [CandidateOf(source, source.connectors[n - 1])]
    ensures source.connectors[..n] == source.connectors[..n - 1] + [source.connectors[n - 1]]
  {}

  lemma NoneFromSource(source: Source)
    ensures FromSource(source, 0) == []
  {}

  predicate ComesFrom(source: Source, c: Candidate) {
    c == CandidateOf(source, c.connector)
  }

  lemma SameCandidateOf(source: Source, connector: Connector, c: Candidate)
    ensures CandidateOf(source, connector) == c <==> ComesFrom(source, c) && c.connector == connector
  {
    hide InferTier;
  }

  lemma {:induction false} ConnectorCounts(source: Source, n: nat, c: Candidate)
    requires n <= |source.connectors|
    ensures multiset(FromSource(source, n))[c] == if ComesFrom(source, c)
            then multiset(source.connectors[..n])[c.connector] else 0
  {
    hide FromSource, CandidateOf, ComesFrom;
    if n == 0 {
      NoneFromSource(source);
    } else {
      var last := source.connectors[n - 1];
      ConnectorCounts(source, n - 1, c);
      FromSourceGrows(source, n);
      SameCandidateOf(source, last, c);
      OneMoreCounts(source.connectors[..n - 1], last, c.connector);
      OneMoreCounts(FromSource(source, n - 1), CandidateOf(source, last), c);
    }
  }

  /** Permuting the connectors of one source. */
  lemma ConnectorsPermute(sources: seq<Source>, k: nat, connectors: seq<Connector>)
    requires k < |sources| && multiset(sources[k].connectors) == multiset(connectors)
    ensures multiset(Candidates(sources)) == multiset(Candidates(sources[k := sources[k].(connectors := connectors)]))
  {
    hide FromSource, Candidates, CandidateOf;
    var source, other := sources[k], sources[k].(connectors := connectors);
    var others := sources[k := other];
    CandidatesSplit(sources, k);
    CandidatesSplit(others, k);
    assert others[..k] == sources[..k] && others[k + 1..] == sources[k + 1..];
    assert source.connectors[..|source.connectors|] == source.connectors
           && other.connectors[..|other.connectors|] == other.connectors;
    forall c
      ensures multiset(FromSource(source, |source.connectors|))[c] == multiset(FromSource(other, |other.connectors|))[c]
    {
      ConnectorCounts(source, |source.connectors|, c);
      ConnectorCounts(other, |other.connectors|, c);
      SameCandidate(source, other, c.connector);
    }
    assert multiset(FromSource(source, |source.connectors|)) == multiset(FromSource(other, |other.connectors|));
  }

  lemma SameCandidate(source: Source, other: Source, connector: Connector)
    requires source.id == other.id && source.precedence == other.precedence
    ensures CandidateOf(source, connector) == CandidateOf(other, connector)
  {}

  // --- Every connector is accounted for once ------------------------------------------------

  function TotalSources(entries: seq<Entry>): nat {
    if entries == [] then 0 else TotalSources(entries[..|entries| - 1]) + |entries[|entries| - 1].sources|
  }

  function GroupedUnder(setup: Setup, candidates: seq<Candidate>, ids: seq<Text>): nat {
    if ids == [] then 0
    else GroupedUnder(setup, candidates, ids[..|ids| - 1]) + |Group(setup, candidates, ids[|ids| - 1])|
  }

  lemma {:induction false} OneMoreGrouped(setup: Setup, candidates: seq<Candidate>, c: Candidate, ids: seq<Text>)
    requires Distinct(ids)
    ensures GroupedUnder(setup, candidates + [c], ids) == GroupedUnder(setup, candidates, ids)
            + if IdOf(setup, c) in ids then 1 else 0
  {
    hide IdOf;
    if ids == [] {
    } else {
      var n := |ids| - 1;
      OneMoreGrouped(setup, candidates, c, ids[..n]);
      assert (candidates + [c])[..|candidates|] == candidates;
      assert ids == ids[..n] + [ids[n]];
    }
  }

  lemma {:induction false} NothingGrouped(setup: Setup, ids: seq<Text>)
    ensures GroupedUnder(setup, [], ids) == 0
  {
    if ids == [] {
    } else {
      NothingGrouped(setup, ids[..|ids| - 1]);
    }
  }

  lemma {:induction false} AllGrouped(setup: Setup, candidates: seq<Candidate>, ids: seq<Text>)
    requires Distinct(ids) && forall i :: 0 <= i < |candidates| ==> IdOf(setup, candidates[i]) in ids
    ensures GroupedUnder(setup, candidates, ids) == |candidates|
  {
    hide IdOf;
    if candidates == [] {
      NothingGrouped(setup, ids);
    } else {
      var init, last := candidates[..|candidates| - 1], candidates[|candidates| - 1];
      AllGrouped(setup, init, ids);
      OneMoreGrouped(setup, init, last, ids);
      assert candidates == init + [last];
    }
  }

  lemma EntryHasItsGroup(setup: Setup, id: Text, group: seq<Candidate>)
    requires group != []
    ensures |EntryOf(setup, id, group).sources| == |group|
  {
    hide AliasesFor, ActionsOf, TriggersOf, ScopesOf, FirstWins, Unique, ToolBindable, FoldedTier, ConflictsFor,
         CatalogActions, Sorted;
    SortedPermutes(Comparison(setup), group);
    SameLength(Sorted(Comparison(setup), group), group);
  }

  lemma {:induction false} EntriesHaveTheirGroups(setup: Setup, candidates: seq<Candidate>, ids: seq<Text>)
    requires forall id :: id in ids ==> Group(setup, candidates, id) != []
    ensures TotalSources(EntriesFor(setup, candidates, ids)) == GroupedUnder(setup, candidates, ids)
  {
    hide EntryOf, Group;
    if ids == [] {
    } else {
      var n := |ids| - 1;
      EntriesHaveTheirGroups(setup, candidates, ids[..n]);
      assert EntriesFor(setup, candidates, ids)[..n] == EntriesFor(setup, candidates, ids[..n]);
      assert ids[n] in ids;
      EntryHasItsGroup(setup, ids[n], Group(setup, candidates, ids[n]));
    }
  }

  lemma SourcesTotalCandidates(setup: Setup, sources: seq<Source>)
    ensures TotalSources(Compose(setup, sources).entries) == |Candidates(sources)|
  {
    var candidates := Candidates(sources);
    var ids := SortedIds(setup, candidates);
    hide Candidates, EntryOf, SortedIds, Index, EntriesFor;
    IdsAreDistinct(setup, candidates);
    PermutedIsDistinct(Ids(setup, candidates), ids);
    forall i | 0 <= i < |candidates|
      ensures IdOf(setup, candidates[i]) in ids
    {
      GroupMembers(setup, candidates, IdOf(setup, candidates[i]));
      assert candidates[i] in Group(setup, candidates, IdOf(setup, candidates[i]));
      GroupedIffSeen(setup, candidates, IdOf(setup, candidates[i]));
      assert IdOf(setup, candidates[i]) in multiset(ids);
    }
    AllGrouped(setup, candidates, ids);
    EntriesHaveTheirGroups(setup, candidates, ids);
  }

  function TotalConnectors(sources: seq<Source>): nat {
    if sources == [] then 0 else TotalConnectors(sources[..|sources| - 1]) + |sources[|sources| - 1].connectors|
  }

  lemma {:induction false} OneCandidateEach(source: Source, n: nat)
    requires n <= |source.connectors|
    ensures |FromSource(source, n)| == n
  {
    if n == 0 {
      return;
    }
    OneCandidateEach(source, n - 1);
  }

  lemma {:induction false} CandidatesAreConnectors(sources: seq<Source>)
    ensures |Candidates(sources)| == TotalConnectors(sources)
  {
    if sources == [] {
      return;
    }
    var last := sources[|sources| - 1];
    CandidatesAreConnectors(sources[..|sources| - 1]);
    OneCandidateEach(last, |last.connectors|);
  }

  /** The sources of all entries together are exactly as many as the connectors that came in. */
  lemma SourcesTotalConnectors(setup: Setup, sources: seq<Source>)
    ensures TotalSources(Compose(setup, sources).entries) == TotalConnectors(sources)
  {
    SourcesTotalCandidates(setup, sources);
    CandidatesAreConnectors(sources);
  }
}
