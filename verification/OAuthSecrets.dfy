/** The redaction of OAuth error texts: every form of every secret is replaced, longest form first. */
module OAuthSecrets {
  import opened Text
  import opened Unicode
  import opened OAuthRedaction
  import opened Sorting

  datatype Matcher = Matcher(pattern: Pattern, representedLength: nat)

  // --- Collecting the matchers --------------------------------------------------------------

  predicate Has(matchers: seq<Matcher>, pattern: Pattern) {
    exists k :: 0 <= k < |matchers| && matchers[k].pattern == pattern
  }

  /** One entry per pattern, in order of arrival; the longest length it stands for is kept. */
  function Added(matchers: seq<Matcher>, pattern: Pattern, representedLength: nat): seq<Matcher> {
    if matchers == [] then [Matcher(pattern, representedLength)]
    else if matchers[0].pattern == pattern
    then [if matchers[0].representedLength >= representedLength then matchers[0]
          else Matcher(pattern, representedLength)] + matchers[1..]
    else [matchers[0]] + Added(matchers[1..], pattern, representedLength)
  }

  function Pluses(t: Text): nat {
    if t == [] then 0 else Pluses(t[1..]) + if t[0] == PLUS then 1 else 0
  }

  /** The length of the form with `%20` for every `+`, which is never the shorter one. */
  function FormLength(t: Text): nat {
    |t| + 2 * Pluses(t)
  }

  function SecretAdded(matchers: seq<Matcher>, secret: Text): seq<Matcher> {
    if secret == [] then matchers
    else
      var json, form := JsonEscaped(secret), FormEncoded(secret);
      Added(Added(Added(matchers, Literals(secret), |secret|), Literals(json), |json|), FormPattern(form),
            FormLength(form))
  }

  function Matchers(secrets: seq<Text>): seq<Matcher> {
    if secrets == [] then []
    else if secrets[|secrets| - 1] in secrets[..|secrets| - 1] then Matchers(secrets[..|secrets| - 1])
    else SecretAdded(Matchers(secrets[..|secrets| - 1]), secrets[|secrets| - 1])
  }

  // --- Longest first ------------------------------------------------------------------------

  predicate LongerFirst(a: Matcher, b: Matcher) {
    a.representedLength >= b.representedLength
  }

  function InTurn(matchers: seq<Matcher>): seq<Matcher> {
    Sorted(LongerFirst, matchers)
  }

  /** The reduction replaces longer forms before shorter ones, and leaves out none. */
  lemma LongerFormsComeFirst(matchers: seq<Matcher>)
    ensures multiset(InTurn(matchers)) == multiset(matchers)
    ensures forall i, j :: 0 <= i < j < |InTurn(matchers)| ==>
              InTurn(matchers)[i].representedLength >= InTurn(matchers)[j].representedLength
  {
    SortedPermutes(LongerFirst, matchers);
    SortedIsOrdered(LongerFirst, matchers);
    forall i, j | 0 <= i < j < |InTurn(matchers)|
      ensures InTurn(matchers)[i].representedLength >= InTurn(matchers)[j].representedLength
    {
      assert LongerFirst(InTurn(matchers)[i], InTurn(matchers)[j]);
    }
  }

  // --- The reduction ------------------------------------------------------------------------

  predicate Proper(matchers: seq<Matcher>) {
    forall k :: 0 <= k < |matchers| ==> matchers[k].pattern != []
  }

  function RedactAll(matchers: seq<Matcher>, text: Text): Text
    requires Proper(matchers)
  {
    if matchers == [] then text
    else ReplaceAll(matchers[|matchers| - 1].pattern, RedactAll(matchers[..|matchers| - 1], text))
  }

  predicate SomeCovers(matchers: seq<Matcher>, w: Text) {
    exists k :: 0 <= k < |matchers| && Covers(matchers[k].pattern, w)
  }

  lemma SomeCoversSplits(matchers: seq<Matcher>, w: Text)
    requires matchers != []
    ensures SomeCovers(matchers, w) ==>
              SomeCovers(matchers[..|matchers| - 1], w) || Covers(matchers[|matchers| - 1].pattern, w)
  {
    hide Covers;
    var init := matchers[..|matchers| - 1];
    if k :| 0 <= k < |matchers| && Covers(matchers[k].pattern, w) {
      assert k < |init| ==> init[k] == matchers[k];
    }
  }

  lemma {:induction false} MatchedIsGone(matchers: seq<Matcher>, text: Text, w: Text)
    requires Proper(matchers) && w != [] && Isolated(w)
    ensures SomeCovers(matchers, w) || !Occurs(w, text) ==> !Occurs(w, RedactAll(matchers, text))
  {
    if matchers == [] {
      return;
    }
    SomeCoversSplits(matchers, w);
    hide Isolated, Occurs, Covers, ReplaceAll, SomeCovers;
    var init, last := matchers[..|matchers| - 1], matchers[|matchers| - 1];
    MatchedIsGone(init, text, w);
    ReplacedIsGone(last.pattern, RedactAll(init, text), w);
  }

  /** A piece of the marker that stands in the text is never taken out of it, whatever is replaced. */
  lemma {:induction false} MarkerPiecesStay(matchers: seq<Matcher>, text: Text, w: Text)
    requires Proper(matchers) && Occurs(w, MARKER) && Occurs(w, text)
    ensures Occurs(w, RedactAll(matchers, text))
  {
    if matchers == [] {
      return;
    }
    hide Occurs, ReplaceAll, MARKER;
    var init, last := matchers[..|matchers| - 1], matchers[|matchers| - 1];
    MarkerPiecesStay(init, text, w);
    MarkerPieceStays(last.pattern, RedactAll(init, text), w);
  }

  lemma {:induction false} AddedHas(matchers: seq<Matcher>, pattern: Pattern, representedLength: nat, other: Pattern)
    ensures Has(Added(matchers, pattern, representedLength), other) <==> other == pattern || Has(matchers, other)
  {
    var added := Added(matchers, pattern, representedLength);
    if matchers == [] {
      assert added[0].pattern == pattern;
    } else if matchers[0].pattern == pattern {
      assert added[0].pattern == pattern;
      assert forall k :: 1 <= k < |matchers| ==> added[k] == matchers[k];
      if k :| 0 <= k < |added| && added[k].pattern == other {
        assert matchers[k].pattern == other;
      }
      if k :| 0 <= k < |matchers| && matchers[k].pattern == other {
        assert added[k].pattern == other;
      }
    } else {
      var rest := Added(matchers[1..], pattern, representedLength);
      AddedHas(matchers[1..], pattern, representedLength, other);
      HasSplits(matchers[0], matchers[1..], other);
      HasSplits(matchers[0], rest, other);
      assert matchers == [matchers[0]] + matchers[1..];
    }
  }

  lemma HasSplits(first: Matcher, rest: seq<Matcher>, pattern: Pattern)
    ensures Has([first] + rest, pattern) <==> first.pattern == pattern || Has(rest, pattern)
  {
    var all := [first] + rest;
    assert all[0] == first;
    assert forall k :: 0 <= k < |rest| ==> all[k + 1] == rest[k];
    if k :| 0 <= k < |rest| && rest[k].pattern == pattern {
      assert all[k + 1].pattern == pattern;
    }
    if k :| 0 < k < |all| && all[k].pattern == pattern {
      assert rest[k - 1].pattern == pattern;
    }
  }

  /** A pattern that belongs to a secret. */
  predicate IsPatternOf(pattern: Pattern, secret: Text) {
    pattern == Literals(secret) || pattern == Literals(JsonEscaped(secret))
      || pattern == FormPattern(FormEncoded(secret))
  }

  lemma SecretAddedHas(matchers: seq<Matcher>, secret: Text, pattern: Pattern)
    ensures Has(SecretAdded(matchers, secret), pattern) <==>
              Has(matchers, pattern) || (secret != [] && IsPatternOf(pattern, secret))
  {
    if secret != [] {
      var json, form := JsonEscaped(secret), FormEncoded(secret);
      hide Has, Added, JsonEscaped, FormEncoded, FormPattern, Literals;
      var one := Added(matchers, Literals(secret), |secret|);
      var two := Added(one, Literals(json), |json|);
      AddedHas(matchers, Literals(secret), |secret|, pattern);
      AddedHas(one, Literals(json), |json|, pattern);
      AddedHas(two, FormPattern(form), FormLength(form), pattern);
    }
  }

  /** The matchers are exactly the patterns of the secrets that are not empty. */
  lemma {:induction false} MatchersHave(secrets: seq<Text>, pattern: Pattern)
    ensures Has(Matchers(secrets), pattern) <==>
              exists s :: 0 <= s < |secrets| && secrets[s] != [] && IsPatternOf(pattern, secrets[s])
  {
    if secrets != [] {
      hide Has, IsPatternOf, SecretAdded;
      var init, last := secrets[..|secrets| - 1], secrets[|secrets| - 1];
      MatchersHave(init, pattern);
      SecretAddedHas(Matchers(init), last, pattern);
      assert forall s :: 0 <= s < |init| ==> init[s] == secrets[s];
      if last in init {
        var s :| 0 <= s < |init| && init[s] == last;
        assert secrets[s] == last;
      }
    } else {
      NoMatchers(pattern);
    }
  }

  lemma NoMatchers(pattern: Pattern)
    ensures !Has([], pattern)
  {}

  // --- Nothing is empty ---------------------------------------------------------------------

  lemma {:induction false} JsonIsLonger(t: Text, n: nat)
    requires n <= |t|
    ensures |JsonPrefix(t, n)| >= n
  {
    if n == 0 {
    } else {
      JsonIsLonger(t, n - 1);
    }
  }

  lemma FormIsNotEmpty(secret: Text)
    requires secret != []
    ensures FormEncoded(secret) != []
  {
    assert EncodeText(secret) != [];
  }

  lemma PatternsAreProper(pattern: Pattern, secret: Text)
    requires secret != [] && IsPatternOf(pattern, secret)
    ensures pattern != []
  {
    JsonIsLonger(secret, |secret|);
    FormIsNotEmpty(secret);
    hide FormEncoded, JsonPrefix;
  }

  lemma MatchersAreProper(secrets: seq<Text>)
    ensures Proper(InTurn(Matchers(secrets)))
  {
    var all := Matchers(secrets);
    LongerFormsComeFirst(all);
    forall k | 0 <= k < |InTurn(all)|
      ensures InTurn(all)[k].pattern != []
    {
      assert InTurn(all)[k] in multiset(all);
      var j :| 0 <= j < |all| && all[j] == InTurn(all)[k];
      assert Has(all, all[j].pattern);
      MatchersHave(secrets, all[j].pattern);
      var s :| 0 <= s < |secrets| && secrets[s] != [] && IsPatternOf(all[j].pattern, secrets[s]);
      PatternsAreProper(all[j].pattern, secrets[s]);
    }
  }

  // --- The theorem --------------------------------------------------------------------------

  /** What gives a secret away is matched, whole, by one of its patterns. */
  lemma GivenIsCovered(w: Text, secret: Text) returns (pattern: Pattern)
    requires Gives(w, secret)
    ensures IsPatternOf(pattern, secret) && Covers(pattern, w)
  {
    if w == secret {
      LiteralsCover(w);
      pattern := Literals(w);
    } else if w == JsonEscaped(secret) {
      LiteralsCover(w);
      pattern := Literals(w);
    } else {
      FormCovered(w, EncodeText(secret));
      pattern := FormPattern(FormEncoded(secret));
    }
  }

  function Redacted(text: Text, secrets: seq<Text>): Text {
    MatchersAreProper(secrets);
    RedactAll(InTurn(Matchers(secrets)), text)
  }

  lemma GivenIsMatched(secrets: seq<Text>, s: nat, w: Text)
    requires s < |secrets| && secrets[s] != [] && Gives(w, secrets[s])
    ensures w != [] && SomeCovers(InTurn(Matchers(secrets)), w)
  {
    var pattern := GivenIsCovered(w, secrets[s]);
    PatternsAreProper(pattern, secrets[s]);
    hide Gives, IsPatternOf, InTurn, Matchers;
    var all := Matchers(secrets);
    MatchersHave(secrets, pattern);
    var j :| 0 <= j < |all| && all[j].pattern == pattern;
    LongerFormsComeFirst(all);
    assert all[j] in multiset(InTurn(all));
    var k :| 0 <= k < |InTurn(all)| && InTurn(all)[k] == all[j];
  }

  /**
    No form of any secret is left, plain, inside a JSON string or in a form with either spelling
    of a space and either case of an escape, unless a marker can contribute to an occurrence of it.
    */
  lemma SecretsAreGone(text: Text, secrets: seq<Text>, s: nat, w: Text)
    requires s < |secrets| && secrets[s] != [] && Gives(w, secrets[s]) && Isolated(w)
    ensures !Occurs(w, Redacted(text, secrets))
  {
    hide Gives, Isolated, Occurs, RedactAll, InTurn, Matchers;
    GivenIsMatched(secrets, s, w);
    MatchersAreProper(secrets);
    MatchedIsGone(InTurn(Matchers(secrets)), text, w);
  }

  /**
    A form that cannot straddle an edge of a marker, such as any form without brackets, is taken
    out of every text exactly when it is no piece of the marker.
    */
  lemma SecretsAreGoneIff(secrets: seq<Text>, s: nat, w: Text)
    requires s < |secrets| && secrets[s] != [] && Gives(w, secrets[s]) && !Straddles(w)
    ensures (forall text :: !Occurs(w, Redacted(text, secrets))) <==> !Occurs(w, MARKER)
  {
    if Occurs(w, MARKER) {
      hide Gives, Straddles, RedactAll, InTurn, Matchers;
      assert w + [] == w;
      FirstOccurs(w, []);
      MatchersAreProper(secrets);
      MarkerPiecesStay(InTurn(Matchers(secrets)), w, w);
      assert Occurs(w, Redacted(w, secrets));
    } else {
      forall text
        ensures !Occurs(w, Redacted(text, secrets))
      {
        SecretsAreGone(text, secrets, s, w);
      }
    }
  }

  /** In particular every form without brackets. */
  lemma BracketFreeSecretsAreGoneIff(secrets: seq<Text>, s: nat, w: Text)
    requires s < |secrets| && secrets[s] != [] && Gives(w, secrets[s]) && 91 !in w && 93 !in w
    ensures (forall text :: !Occurs(w, Redacted(text, secrets))) <==> !Occurs(w, MARKER)
  {
    hide Gives, Redacted, Straddles;
    if Straddles(w) {
      StraddlingNeedsBracket(w);
    }
    SecretsAreGoneIff(secrets, s, w);
  }

  lemma {:induction false} NoMatchNoChange(p: Pattern, t: Text)
    requires p != [] && forall j :: 0 <= j < |t| ==> MatchLength(p, t[j..]).None?
    ensures ReplaceAll(p, t) == t
  {
    if t == [] {
      return;
    }
    hide MatchLength;
    assert t[0..] == t;
    forall j | 0 <= j < |t[1..]|
      ensures MatchLength(p, t[1..][j..]).None?
    {
      assert t[1..][j..] == t[j + 1..];
    }
    NoMatchNoChange(p, t[1..]);
  }

  predicate MatchesIn(p: Pattern, t: Text) {
    exists j :: 0 <= j < |t| && MatchLength(p, t[j..]).Some?
  }

  lemma {:induction false} UnmatchedStays(matchers: seq<Matcher>, text: Text)
    requires Proper(matchers) && forall k :: 0 <= k < |matchers| ==> !MatchesIn(matchers[k].pattern, text)
    ensures RedactAll(matchers, text) == text
  {
    if matchers == [] {
      return;
    }
    hide ReplaceAll, MatchLength;
    UnmatchedStays(matchers[..|matchers| - 1], text);
    assert !MatchesIn(matchers[|matchers| - 1].pattern, text);
    NoMatchNoChange(matchers[|matchers| - 1].pattern, text);
  }

  /** A text in which no pattern of any secret matches is left alone by the whole redaction. */
  lemma OtherTextStays(text: Text, secrets: seq<Text>)
    requires forall p :: Has(Matchers(secrets), p) ==> !MatchesIn(p, text)
    ensures Redacted(text, secrets) == text
  {
    var all := Matchers(secrets);
    hide MatchesIn, Matchers, RedactAll, InTurn;
    MatchersAreProper(secrets);
    LongerFormsComeFirst(all);
    forall k | 0 <= k < |InTurn(all)|
      ensures !MatchesIn(InTurn(all)[k].pattern, text)
    {
      assert InTurn(all)[k] in multiset(all);
      var j :| 0 <= j < |all| && all[j] == InTurn(all)[k];
      assert Has(all, all[j].pattern);
    }
    UnmatchedStays(InTurn(all), text);
  }

  method RedactOAuthSensitiveText(text: Text, secrets: seq<Text>) returns (redacted: Text)
    ensures redacted == Redacted(text, secrets)
    ensures forall s, w ::
              0 <= s < |secrets| && secrets[s] != [] && Gives(w, secrets[s]) && Isolated(w) ==> !Occurs(w, redacted)
  {
    hide Gives, Isolated, Occurs, InTurn, RedactAll, Added, JsonEscaped, FormEncoded, FormPattern;
    MatchersAreProper(secrets);
    var matchers: seq<Matcher> := [];
    for i := 0 to |secrets|
      invariant matchers == Matchers(secrets[..i])
    {
      MatchersStep(secrets, i);
      var secret := secrets[i];
      if secret in secrets[..i] || |secret| == 0 {
        continue;
      }
      matchers := Added(matchers, Literals(secret), |secret|);
      var jsonEscaped := JsonEscaped(secret);
      matchers := Added(matchers, Literals(jsonEscaped), |jsonEscaped|);
      var formEncoded := FormEncoded(secret);
      var pattern := FormEncodedRedactionPattern(formEncoded);
      matchers := Added(matchers, pattern, FormLength(formEncoded));
    }
    assert secrets[..|secrets|] == secrets;
    var sorted := InTurn(matchers);
    redacted := text;
    NothingToRedact(sorted, text);
    for i := 0 to |sorted|
      invariant redacted == RedactAll(sorted[..i], text)
    {
      RedactStep(sorted, i, text);
      redacted := ReplaceAll(sorted[i].pattern, redacted);
    }
    assert sorted[..|sorted|] == sorted;
    forall s, w | 0 <= s < |secrets| && secrets[s] != [] && Gives(w, secrets[s]) && Isolated(w)
      ensures !Occurs(w, redacted)
    {
      SecretsAreGone(text, secrets, s, w);
    }
  }

  lemma MatchersStep(secrets: seq<Text>, i: nat)
    requires i < |secrets|
    ensures Matchers(secrets[..i + 1]) ==
              if secrets[i] in secrets[..i] then Matchers(secrets[..i])
                else SecretAdded(Matchers(secrets[..i]), secrets[i])
  {
    assert secrets[..i + 1][..i] == secrets[..i];
  }

  lemma NothingToRedact(matchers: seq<Matcher>, text: Text)
    ensures RedactAll(matchers[..0], text) == text
  {}

  lemma RedactStep(matchers: seq<Matcher>, i: nat, text: Text)
    requires Proper(matchers) && i < |matchers|
    ensures RedactAll(matchers[..i + 1], text) == ReplaceAll(matchers[i].pattern, RedactAll(matchers[..i], text))
  {
    assert matchers[..i + 1][..i] == matchers[..i];
  }
}
