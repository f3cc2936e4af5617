/** Canonical connector ids: slugs, chased through a table of aliases. */
module Aliases {
  import opened Text

  const DASH: Code := 45
  const AMPERSAND: Code := 38

  // --- Slugs --------------------------------------------------------------------------------

  predicate IsSlugLetter(c: Code) {
    IsLower(c) || IsDigit(c)
  }

  function TrimEnd(t: Text): Text {
    if t != [] && IsTrimmed(t[|t| - 1]) then TrimEnd(t[..|t| - 1]) else t
  }

  function Spelled(t: Text): Text {
    if t == [] then []
    else (if t[0] == AMPERSAND then [97, 110, 100] else [t[0]]) + Spelled(t[1..])
  }

  /** One dash for each run of other characters. */
  function Dashed(t: Text, inRun: bool): Text {
    if t == [] then []
    else if IsSlugLetter(t[0]) then [t[0]] + Dashed(t[1..], false)
    else (if inRun then [] else [DASH]) + Dashed(t[1..], true)
  }

  function WithoutLeading(t: Text): Text {
    if t != [] && t[0] == DASH then WithoutLeading(t[1..]) else t
  }

  function WithoutTrailing(t: Text): Text {
    if t != [] && t[|t| - 1] == DASH then WithoutTrailing(t[..|t| - 1]) else t
  }

  function Slug(t: Text): Text {
    WithoutTrailing(WithoutLeading(Dashed(Spelled(Lower(TrimEnd(TrimStart(t)))), false)))
  }

  predicate SingleDashes(t: Text) {
    && (forall i :: 0 <= i < |t| ==> IsSlugLetter(t[i]) || t[i] == DASH)
    && (forall i :: 0 < i < |t| ==> !(t[i - 1] == DASH && t[i] == DASH))
  }

  /** Words of lower-case letters and digits with single dashes between them. */
  predicate IsSlug(t: Text) {
    SingleDashes(t) && (t != [] ==> t[0] != DASH && t[|t| - 1] != DASH)
  }

  lemma {:induction false} DashedIsSingle(t: Text, inRun: bool)
    ensures SingleDashes(Dashed(t, inRun)) && (inRun && Dashed(t, inRun) != [] ==> Dashed(t, inRun)[0] != DASH)
  {
    if t == [] {
    } else {
      DashedIsSingle(t[1..], false);
      DashedIsSingle(t[1..], true);
    }
  }

  lemma {:induction false} WithoutLeadingIsSingle(t: Text)
    requires SingleDashes(t)
    ensures SingleDashes(WithoutLeading(t)) && (WithoutLeading(t) != [] ==> WithoutLeading(t)[0] != DASH)
  {
    if t == [] || t[0] != DASH {
    } else {
      WithoutLeadingIsSingle(t[1..]);
    }
  }

  lemma {:induction false} WithoutTrailingIsSlug(t: Text)
    requires SingleDashes(t) && (t != [] ==> t[0] != DASH)
    ensures IsSlug(WithoutTrailing(t))
  {
    if t == [] || t[|t| - 1] != DASH {
    } else {
      WithoutTrailingIsSlug(t[..|t| - 1]);
    }
  }

  lemma {:induction false} SlugIsSpelled(t: Text)
    requires SingleDashes(t)
    ensures Spelled(t) == t
  {
    if t == [] {
    } else {
      SlugIsSpelled(t[1..]);
    }
  }

  lemma {:induction false} SlugIsDashed(t: Text, inRun: bool)
    requires SingleDashes(t) && (inRun && t != [] ==> t[0] != DASH)
    ensures Dashed(t, inRun) == t
  {
    if t == [] {
    } else {
      SlugIsDashed(t[1..], t[0] == DASH);
    }
  }

  lemma NothingToTrim(t: Text)
    requires t != [] ==> !IsTrimmed(t[0]) && !IsTrimmed(t[|t| - 1])
    ensures TrimStart(t) == t && TrimEnd(t) == t
  {
    hide IsTrimmed;
  }

  lemma SlugIsLower(t: Text)
    requires SingleDashes(t)
    ensures Lower(t) == t
    ensures t != [] ==> !IsTrimmed(t[0]) && !IsTrimmed(t[|t| - 1])
  {}

  /** A slug is a slug, and slugs are left alone. */
  lemma SlugIffUnchanged(t: Text)
    ensures IsSlug(Slug(t))
    ensures Slug(t) == t <==> IsSlug(t)
  {
    var dashed := Dashed(Spelled(Lower(TrimEnd(TrimStart(t)))), false);
    DashedIsSingle(Spelled(Lower(TrimEnd(TrimStart(t)))), false);
    WithoutLeadingIsSingle(dashed);
    WithoutTrailingIsSlug(WithoutLeading(dashed));
    if IsSlug(t) {
      SlugIsLower(t);
      NothingToTrim(t);
      SlugIsSpelled(t);
      SlugIsDashed(t, false);
    }
  }

  // --- Chasing aliases ----------------------------------------------------------------------

  type Table = map<Text, Text>

  /** An entry whose target is empty counts as none. */
  predicate IsAliased(aliases: Table, id: Text) {
    id in aliases && aliases[id] != []
  }

  function Chase(aliases: Table, current: Text, seen: set<Text>): Text
    decreases aliases.Keys - seen
  {
    if IsAliased(aliases, current) && current !in seen
    then Chase(aliases, aliases[current], seen + {current})
    else current
  }

  function CanonicalId(aliases: Table, id: Text): Text {
    Chase(aliases, Slug(id), {})
  }

  method CanonicalConnectorId(id: Text, aliases: Table) returns (current: Text)
    ensures current == CanonicalId(aliases, id)
  {
    current := Slug(id);
    var seen: set<Text> := {};
    while IsAliased(aliases, current) && current !in seen
      invariant Chase(aliases, current, seen) == CanonicalId(aliases, id)
      decreases aliases.Keys - seen
    {
      seen := seen + {current};
      current := aliases[current];
    }
  }

  predicate TargetsAreSlugs(aliases: Table) {
    forall alias :: alias in aliases ==> IsSlug(aliases[alias])
  }

  /** Every alias and every target is a slug, and none is empty. */
  predicate IsNormal(aliases: Table) {
    forall alias :: alias in aliases ==> alias != [] && IsSlug(alias) && aliases[alias] != [] && IsSlug(aliases[alias])
  }

  // --- Where a chase ends -------------------------------------------------------------------

  function Visited(path: seq<Text>): set<Text> {
    set x <- path
  }

  lemma VisitedGrows(path: seq<Text>, id: Text)
    ensures Visited(path + [id]) == Visited(path) + {id}
  {}

  /** Distinct aliases, each the target of the one before. */
  ghost predicate IsPath(aliases: Table, path: seq<Text>) {
    && (forall i :: 0 <= i < |path| ==> IsAliased(aliases, path[i]))
    && (forall i :: 0 < i < |path| ==> path[i] == aliases[path[i - 1]])
    && (forall i, j :: 0 <= i < j < |path| ==> path[i] != path[j])
  }

  ghost predicate ReturnsTo(aliases: Table, path: seq<Text>, id: Text) {
    path != [] && IsPath(aliases, path) && path[0] == id && aliases[path[|path| - 1]] == id
  }

  /** A chase ends at an id without alias, or where a cycle closes. */
  ghost predicate IsEnd(aliases: Table, id: Text) {
    !IsAliased(aliases, id) || exists cycle :: ReturnsTo(aliases, cycle, id)
  }

  lemma PathGrows(aliases: Table, path: seq<Text>, current: Text)
    requires IsPath(aliases, path) && IsAliased(aliases, current) && current !in path
    requires path != [] ==> aliases[path[|path| - 1]] == current
    ensures IsPath(aliases, path + [current])
  {}

  lemma {:induction false} ChaseEnds(aliases: Table, path: seq<Text>, current: Text)
    requires IsPath(aliases, path) && (path != [] ==> aliases[path[|path| - 1]] == current)
    ensures IsEnd(aliases, Chase(aliases, current, Visited(path)))
    decreases aliases.Keys - Visited(path)
  {
    var seen := Visited(path);
    if IsAliased(aliases, current) && current !in seen {
      PathGrows(aliases, path, current);
      VisitedGrows(path, current);
      ChaseEnds(aliases, path + [current], aliases[current]);
    } else if IsAliased(aliases, current) {
      var k :| 0 <= k < |path| && path[k] == current;
      var cycle := path[k..];
      forall i | 0 < i < |cycle|
        ensures cycle[i] == aliases[cycle[i - 1]]
      {
        assert cycle[i] == path[k + i] && cycle[i - 1] == path[k + i - 1];
      }
      assert ReturnsTo(aliases, cycle, current);
    }
  }

  lemma {:induction false} ChaseRunsRound(aliases: Table, cycle: seq<Text>, id: Text, k: nat)
    requires ReturnsTo(aliases, cycle, id) && k <= |cycle|
    ensures Chase(aliases, if k < |cycle| then cycle[k] else id, Visited(cycle[..k])) == id
    decreases |cycle| - k
  {
    if k < |cycle| {
      assert cycle[k] !in Visited(cycle[..k]);
      assert cycle[..k + 1] == cycle[..k] + [cycle[k]];
      VisitedGrows(cycle[..k], cycle[k]);
      ChaseRunsRound(aliases, cycle, id, k + 1);
    } else {
      assert id == cycle[..k][0];
    }
  }

  lemma StartsEmpty(aliases: Table)
    ensures IsPath(aliases, []) && Visited([]) == {}
  {}

  lemma EndStays(aliases: Table, id: Text)
    requires IsEnd(aliases, id)
    ensures Chase(aliases, id, {}) == id
  {
    if IsAliased(aliases, id) {
      var cycle :| ReturnsTo(aliases, cycle, id);
      assert Visited(cycle[..0]) == {};
      ChaseRunsRound(aliases, cycle, id, 0);
    }
  }

  lemma {:induction false} ChaseStaysSlug(aliases: Table, current: Text, seen: set<Text>)
    requires TargetsAreSlugs(aliases) && IsSlug(current)
    ensures IsSlug(Chase(aliases, current, seen))
    decreases aliases.Keys - seen
  {
    if !IsAliased(aliases, current) || current in seen {
    } else {
      ChaseStaysSlug(aliases, aliases[current], seen + {current});
    }
  }

  /** When all targets are slugs a canonical id is its own canonical id, cycles or not. */
  lemma CanonicalIsIdempotent(aliases: Table, id: Text)
    requires TargetsAreSlugs(aliases)
    ensures CanonicalId(aliases, CanonicalId(aliases, id)) == CanonicalId(aliases, id)
    ensures IsSlug(CanonicalId(aliases, id))
  {
    hide Slug, IsSlug, Chase, IsEnd, TargetsAreSlugs;
    var end := CanonicalId(aliases, id);
    SlugIffUnchanged(id);
    ChaseStaysSlug(aliases, Slug(id), {});
    SlugIffUnchanged(end);
    StartsEmpty(aliases);
    ChaseEnds(aliases, [], Slug(id));
    EndStays(aliases, end);
  }

  /** Each alias leads where its target leads. */
  predicate AliasesAgree(aliases: Table) {
    forall alias :: alias in aliases ==> CanonicalId(aliases, aliases[alias]) == CanonicalId(aliases, alias)
  }

  /** Nothing leads back to itself but an alias that is its own target. */
  ghost predicate OnlyTrivialCycles(aliases: Table) {
    forall id, cycle :: ReturnsTo(aliases, cycle, id) ==> |cycle| == 1
  }

  /** A cycle of two or more can be entered at its second id as well. */
  lemma RotatedCycle(aliases: Table, cycle: seq<Text>, id: Text)
    requires ReturnsTo(aliases, cycle, id) && |cycle| >= 2
    ensures ReturnsTo(aliases, cycle[1..] + [id], cycle[1])
  {
    var rotated := cycle[1..] + [id];
    forall i | 0 < i < |rotated|
      ensures rotated[i] == aliases[rotated[i - 1]]
    {
      assert rotated[i - 1] == cycle[i];
    }
    assert forall i :: 0 <= i < |cycle| - 1 ==> rotated[i] == cycle[i + 1];
  }

  lemma CanonicalEnd(aliases: Table, id: Text)
    requires IsSlug(id) && IsEnd(aliases, id)
    ensures CanonicalId(aliases, id) == id
  {
    SlugIffUnchanged(id);
    EndStays(aliases, id);
  }

  lemma LongCycleDisagrees(aliases: Table, cycle: seq<Text>, id: Text)
    requires IsNormal(aliases) && ReturnsTo(aliases, cycle, id) && |cycle| >= 2
    ensures !AliasesAgree(aliases)
  {
    hide Chase, Slug, CanonicalId;
    RotatedCycle(aliases, cycle, id);
    assert cycle[1] == aliases[id] && IsAliased(aliases, cycle[0]) && IsAliased(aliases, cycle[1]);
    CanonicalEnd(aliases, id);
    CanonicalEnd(aliases, cycle[1]);
  }

  /** Without long cycles a chase does not depend on having begun one alias earlier. */
  lemma {:induction false} ChaseForgetsFirst(aliases: Table, path: seq<Text>, current: Text)
    requires OnlyTrivialCycles(aliases) && path != [] && IsPath(aliases, path) && aliases[path[|path| - 1]] == current
    ensures Chase(aliases, current, Visited(path)) == Chase(aliases, current, Visited(path[1..]))
    decreases aliases.Keys - Visited(path)
  {
    assert path == [path[0]] + path[1..];
    if !IsAliased(aliases, current) || current in path[1..] {
      return;
    }
    if current == path[0] {
      assert ReturnsTo(aliases, path, current);
      assert path[1..] == [] && Visited(path[1..]) + {current} == Visited(path);
    } else {
      hide OnlyTrivialCycles;
      PathGrows(aliases, path, current);
      VisitedGrows(path, current);
      VisitedGrows(path[1..], current);
      assert (path + [current])[1..] == path[1..] + [current];
      ChaseForgetsFirst(aliases, path + [current], aliases[current]);
    }
  }

  lemma TrivialCyclesAgree(aliases: Table)
    requires IsNormal(aliases) && OnlyTrivialCycles(aliases)
    ensures AliasesAgree(aliases)
  {
    hide Slug, OnlyTrivialCycles;
    forall alias | alias in aliases
      ensures CanonicalId(aliases, aliases[alias]) == CanonicalId(aliases, alias)
    {
      SlugIffUnchanged(alias);
      SlugIffUnchanged(aliases[alias]);
      assert IsPath(aliases, [alias]) && Visited([alias]) == {} + {alias} && Visited([alias][1..]) == {};
      ChaseForgetsFirst(aliases, [alias], aliases[alias]);
    }
  }

  /** In a normal table each alias leads where its target leads exactly if no cycle is longer than one. */
  lemma AliasesAgreeIff(aliases: Table)
    requires IsNormal(aliases)
    ensures AliasesAgree(aliases) <==> OnlyTrivialCycles(aliases)
  {
    hide AliasesAgree, IsNormal;
    if OnlyTrivialCycles(aliases) {
      TrivialCyclesAgree(aliases);
    } else {
      var id, cycle :| ReturnsTo(aliases, cycle, id) && |cycle| != 1;
      LongCycleDisagrees(aliases, cycle, id);
    }
  }

  /** Some measure falls along every alias. */
  predicate Falls(aliases: Table, height: Text -> nat) {
    forall alias :: alias in aliases ==> height(aliases[alias]) < height(alias)
  }

  lemma {:induction false} PathFalls(aliases: Table, height: Text -> nat, path: seq<Text>)
    requires Falls(aliases, height) && IsPath(aliases, path) && path != []
    ensures height(aliases[path[|path| - 1]]) < height(path[0])
  {
    if |path| == 1 {
      return;
    }
    PathFalls(aliases, height, path[..|path| - 1]);
  }

  /** In particular in every table whose aliases all fall. */
  lemma AcyclicAliasesAgree(aliases: Table, height: Text -> nat)
    requires IsNormal(aliases) && Falls(aliases, height)
    ensures AliasesAgree(aliases)
  {
    forall id, cycle | ReturnsTo(aliases, cycle, id)
      ensures |cycle| == 1
    {
      PathFalls(aliases, height, cycle);
    }
    AliasesAgreeIff(aliases);
  }
}
