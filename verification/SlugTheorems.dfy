/** What a slug says: the words of a text, in order, with one dash between them. */
module SlugTheorems {
  import opened Text
  import opened Aliases

  /** A letter or digit in either case, or an ampersand, which is spelled out. */
  predicate IsWordCode(c: Code) {
    65 <= c <= 90 || 97 <= c <= 122 || 48 <= c <= 57 || c == 38
  }

  predicate IsWord(w: Text) {
    w != [] && forall i :: 0 <= i < |w| ==> IsWordCode(w[i])
  }

  predicate IsBetween(g: Text) {
    forall i :: 0 <= i < |g| ==> !IsWordCode(g[i])
  }

  /** The words, each with what stands behind it. */
  function Written(words: seq<Text>, gaps: seq<Text>): Text
    requires |words| == |gaps|
  {
    if words == [] then [] else words[0] + gaps[0] + Written(words[1..], gaps[1..])
  }

  /** In lower case, with `and` for an ampersand. */
  function Plain(w: Text): Text {
    if w == [] then []
    else (if w[0] == 38 then Codes("and") else if 65 <= w[0] <= 90 then [w[0] + 32] else [w[0]]) + Plain(w[1..])
  }

  function Joined(words: seq<Text>): Text {
    if words == [] then []
    else if |words| == 1 then Plain(words[0])
    else Plain(words[0]) + Codes("-") + Joined(words[1..])
  }

  // --- Without the trimming ---------------------------------------------------------------------

  function Bare(t: Text): Text {
    WithoutTrailing(WithoutLeading(Dashed(Spelled(Lower(t)), false)))
  }

  lemma {:induction false} PlainIsSpelled(t: Text)
    ensures Spelled(Lower(t)) == Plain(t)
  {
    if t == [] {
    } else {
      PlainIsSpelled(t[1..]);
      assert Lower(t)[1..] == Lower(t[1..]);
      assert Codes("and") == [97, 110, 100];
    }
  }

  lemma {:induction false} PlainJoins(a: Text, b: Text)
    ensures Plain(a + b) == Plain(a) + Plain(b)
  {
    if a == [] {
      assert a + b == b;
    } else {
      assert (a + b)[1..] == a[1..] + b;
      PlainJoins(a[1..], b);
    }
  }

  lemma {:induction false} PlainWord(w: Text)
    requires forall i :: 0 <= i < |w| ==> IsWordCode(w[i])
    ensures |Plain(w)| >= |w| && forall i :: 0 <= i < |Plain(w)| ==> IsSlugLetter(Plain(w)[i])
  {
    if w == [] {
    } else {
      PlainWord(w[1..]);
      assert Codes("and") == [97, 110, 100];
    }
  }

  lemma {:induction false} PlainGap(g: Text)
    requires IsBetween(g)
    ensures |Plain(g)| == |g| && forall i :: 0 <= i < |g| ==> !IsSlugLetter(Plain(g)[i])
  {
    if g == [] {
    } else {
      PlainGap(g[1..]);
    }
  }

  /** Letters come out as they are, and whatever follows them begins a new run. */
  lemma {:induction false} LettersStay(w: Text, rest: Text, inRun: bool)
    requires w != [] && forall i :: 0 <= i < |w| ==> IsSlugLetter(w[i])
    ensures Dashed(w + rest, inRun) == w + Dashed(rest, false)
  {
    assert (w + rest)[1..] == w[1..] + rest;
    if |w| == 1 {
      assert w[1..] + rest == rest;
    } else {
      LettersStay(w[1..], rest, false);
    }
  }

  lemma {:induction false} RunsAreOneDash(g: Text, rest: Text)
    requires forall i :: 0 <= i < |g| ==> !IsSlugLetter(g[i])
    ensures Dashed(g + rest, true) == Dashed(rest, true)
    ensures g != [] ==> Dashed(g + rest, false) == [DASH] + Dashed(rest, true)
  {
    if g == [] {
      assert g + rest == rest;
    } else {
      assert (g + rest)[1..] == g[1..] + rest;
      RunsAreOneDash(g[1..], rest);
    }
  }

  /** A run at the end leaves at most one more dash. */
  lemma {:induction false} RunAtEnd(t: Text, c: Code, inRun: bool)
    requires !IsSlugLetter(c)
    ensures Dashed(t + [c], inRun) == Dashed(t, inRun) || Dashed(t + [c], inRun) == Dashed(t, inRun) + [DASH]
  {
    if t == [] {
      assert t + [c] == [c];
    } else {
      assert (t + [c])[1..] == t[1..] + [c];
      RunAtEnd(t[1..], c, false);
      RunAtEnd(t[1..], c, true);
    }
  }

  lemma RunBeforeDoesNotMatter(t: Text)
    ensures WithoutLeading(Dashed(t, true)) == WithoutLeading(Dashed(t, false))
  {
    if t != [] && !IsSlugLetter(t[0]) {
      var rest := Dashed(t[1..], true);
      assert Dashed(t, true) == [] + rest == rest && Dashed(t, false) == [DASH] + rest;
      assert ([DASH] + rest)[1..] == rest;
    }
  }

  lemma {:induction false} DashBehind(t: Text)
    ensures WithoutTrailing(WithoutLeading(t + [DASH])) == WithoutTrailing(WithoutLeading(t))
  {
    if t == [] {
    } else if t[0] == DASH {
      assert (t + [DASH])[1..] == t[1..] + [DASH];
      DashBehind(t[1..]);
    } else {
      assert (t + [DASH])[..|t|] == t;
    }
  }

  /** What is no word at the beginning of a text does not matter. */
  lemma GapInFront(g: Text, t: Text)
    requires IsBetween(g)
    ensures Bare(g + t) == Bare(t)
  {
    PlainIsSpelled(g + t);
    PlainIsSpelled(t);
    PlainJoins(g, t);
    PlainGap(g);
    hide IsSlugLetter, Plain, Spelled;
    if g == [] {
      assert g + t == t;
    } else {
      RunsAreOneDash(Plain(g), Plain(t));
      RunBeforeDoesNotMatter(Plain(t));
      hide Dashed;
      assert ([DASH] + Dashed(Plain(t), true))[1..] == Dashed(Plain(t), true);
    }
  }

  /** Nor at its end. */
  lemma {:induction false} GapBehind(t: Text, g: Text)
    requires IsBetween(g)
    ensures Bare(t + g) == Bare(t)
  {
    if g == [] {
      assert t + g == t;
    } else {
      var init, c := t + g[..|g| - 1], g[|g| - 1];
      GapBehind(t, g[..|g| - 1]);
      assert t + g == init + [c];
      LastBehind(init, c);
    }
  }

  lemma LastBehind(t: Text, c: Code)
    requires !IsWordCode(c)
    ensures Bare(t + [c]) == Bare(t)
  {
    PlainIsSpelled(t + [c]);
    PlainIsSpelled(t);
    PlainJoins(t, [c]);
    assert Plain([c]) == [c];
    RunAtEnd(Plain(t), c, false);
    hide Plain, Spelled, Dashed;
    DashBehind(Dashed(Plain(t), false));
  }

  // --- Slugs --------------------------------------------------------------------------------------

  lemma TrimmedIsNoWord(c: Code)
    requires IsTrimmed(c)
    ensures !IsWordCode(c)
  {}

  lemma {:induction false} TrimmedStart(t: Text)
    ensures Bare(TrimStart(t)) == Bare(t)
  {
    hide Bare, IsTrimmed, IsWordCode;
    if t == [] || !IsTrimmed(t[0]) {
    } else {
      TrimmedStart(t[1..]);
      TrimmedIsNoWord(t[0]);
      GapInFront([t[0]], t[1..]);
      assert t == [t[0]] + t[1..];
    }
  }

  lemma {:induction false} TrimmedEnd(t: Text)
    ensures Bare(TrimEnd(t)) == Bare(t)
  {
    hide Bare, IsTrimmed, IsWordCode;
    if t == [] || !IsTrimmed(t[|t| - 1]) {
    } else {
      var init, c := t[..|t| - 1], t[|t| - 1];
      TrimmedEnd(init);
      TrimmedIsNoWord(c);
      LastBehind(init, c);
      assert t == init + [c];
    }
  }

  ghost predicate AreWritten(words: seq<Text>, gaps: seq<Text>) {
    && |words| == |gaps|
    && (forall i :: 0 <= i < |words| ==> IsWord(words[i]) && IsBetween(gaps[i]))
    && (forall i :: 0 <= i < |words| - 1 ==> gaps[i] != [])
  }

  /** A word, and a gap behind it. */
  lemma WordIsDashed(w: Text, g: Text, rest: Text, inRun: bool)
    requires IsWord(w) && IsBetween(g)
    ensures Dashed(Plain(w + g + rest), inRun) ==
            Plain(w) + (if g == [] then Dashed(Plain(rest), false) else [DASH] + Dashed(Plain(rest), true))
  {
    PlainWord(w);
    PlainGap(g);
    PlainJoins(w + g, rest);
    PlainJoins(w, g);
    hide IsBetween, IsSlugLetter, Plain, Dashed;
    assert Plain(w) + Plain(g) + Plain(rest) == Plain(w) + (Plain(g) + Plain(rest));
    LettersStay(Plain(w), Plain(g) + Plain(rest), inRun);
    RunsAreOneDash(Plain(g), Plain(rest));
    assert g == [] ==> Plain(g) + Plain(rest) == Plain(rest);
  }

  /** With nothing behind the last word. */
  lemma {:induction false} WordsAreDashed(words: seq<Text>, gaps: seq<Text>, inRun: bool)
    requires AreWritten(words, gaps) && words != [] && gaps[|gaps| - 1] == []
    ensures Dashed(Plain(Written(words, gaps)), inRun) == Joined(words)
  {
    hide IsWord, IsBetween, Plain, Dashed;
    WordIsDashed(words[0], gaps[0], Written(words[1..], gaps[1..]), inRun);
    if |words| == 1 {
      NothingLeft(words[1..], gaps[1..]);
    } else {
      WordsAreDashed(words[1..], gaps[1..], true);
      assert Codes("-") == [DASH];
      assert Plain(words[0]) + Codes("-") + Joined(words[1..]) == Plain(words[0]) + ([DASH] + Joined(words[1..]));
    }
  }

  lemma NothingLeft(words: seq<Text>, gaps: seq<Text>)
    requires words == [] && gaps == []
    ensures Dashed(Plain(Written(words, gaps)), false) == []
  {}

  lemma {:induction false} JoinedEnds(words: seq<Text>)
    requires words != [] && forall i :: 0 <= i < |words| ==> IsWord(words[i])
    ensures Joined(words) != [] && IsSlugLetter(Joined(words)[0]) && IsSlugLetter(Joined(words)[|Joined(words)| - 1])
  {
    assert IsWord(words[0]);
    PlainWord(words[0]);
    hide IsWord, IsSlugLetter, Plain;
    if |words| == 1 {
    } else {
      JoinedEnds(words[1..]);
    }
  }

  /** The last gap can be taken off. */
  lemma {:induction false} LastGapApart(words: seq<Text>, gaps: seq<Text>)
    requires |words| == |gaps| > 0
    ensures Written(words, gaps) == Written(words, gaps[|gaps| - 1 := []]) + gaps[|gaps| - 1]
  {
    if |words| == 1 {
    } else {
      LastGapApart(words[1..], gaps[1..]);
      assert gaps[|gaps| - 1 := []][1..] == gaps[1..][|gaps| - 2 := []];
    }
  }

  lemma NothingIsTrailing(t: Text)
    requires t != [] && IsSlugLetter(t[0]) && IsSlugLetter(t[|t| - 1])
    ensures WithoutTrailing(WithoutLeading(t)) == t
  {}

  /**
    Every text is some words with something else around and between them. Its slug is these words
    in lower case, in their order, with single dashes between them.
    */
  lemma SlugJoinsTheWords(front: Text, words: seq<Text>, gaps: seq<Text>)
    requires IsBetween(front) && AreWritten(words, gaps)
    ensures Slug(front + Written(words, gaps)) == Joined(words)
  {
    hide IsBetween, IsWord, Bare, Plain, TrimEnd, TrimStart, Dashed;
    var t := front + Written(words, gaps);
    TrimmedStart(t);
    TrimmedEnd(TrimStart(t));
    SlugIsBare(t);
    GapInFront(front, Written(words, gaps));
    if words == [] {
      BareNothing();
    } else {
      var last := |gaps| - 1;
      var closed := gaps[last := []];
      LastGapApart(words, gaps);
      GapBehind(Written(words, closed), gaps[last]);
      NothingBetween();
      WordsAreDashed(words, closed, false);
      PlainIsSpelled(Written(words, closed));
      JoinedEnds(words);
      NothingIsTrailing(Joined(words));
      BareIs(Written(words, closed));
    }
  }

  lemma NothingBetween()
    ensures IsBetween([])
  {}

  lemma SlugIsBare(t: Text)
    ensures Slug(t) == Bare(TrimEnd(TrimStart(t)))
  {}

  lemma BareNothing()
    ensures Bare([]) == [] && Bare(Written([], [])) == []
  {}

  lemma BareIs(t: Text)
    ensures Bare(t) == WithoutTrailing(WithoutLeading(Dashed(Spelled(Lower(t)), false)))
  {}

  /** And every text can be read in this way. */
  lemma {:induction false} TextsAreWritten(t: Text) returns (front: Text, words: seq<Text>, gaps: seq<Text>)
    ensures IsBetween(front) && AreWritten(words, gaps) && t == front + Written(words, gaps)
  {
    if t == [] {
      front, words, gaps := [], [], [];
    } else {
      front, words, gaps := TextsAreWritten(t[1..]);
      var all := front + Written(words, gaps);
      assert t == [t[0]] + all;
      if !IsWordCode(t[0]) {
        front := [t[0]] + front;
      } else if front == [] && words != [] {
        assert all == words[0] + gaps[0] + Written(words[1..], gaps[1..]);
        words := [[t[0]] + words[0]] + words[1..];
      } else {
        assert all == front + Written(words, gaps);
        words, gaps, front := [[t[0]]] + words, [front] + gaps, [];
      }
    }
  }
}
