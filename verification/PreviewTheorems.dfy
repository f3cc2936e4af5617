/** What redaction shows and hides, entry by entry, with the private words spelled out. */
module PreviewTheorems {
  import opened Text
  import opened Redaction
  import opened Previews

  // --- Private keys ---------------------------------------------------------------------------

  /** A letter of a pattern that ignores case. */
  predicate SameLetter(c: Code, letter: char) {
    c == letter as int || ('a' <= letter <= 'z' && c == letter as int - 32)
  }

  predicate SameLetters(v: Text, word: string) {
    |v| == |word| && forall i :: 0 <= i < |v| ==> SameLetter(v[i], word[i])
  }

  /** The key has the word in it, in any mixture of upper and lower case. */
  ghost predicate Spells(key: Text, word: string) {
    exists a: Text, v: Text, b: Text :: key == a + v + b && SameLetters(v, word)
  }

  /** The words of the pattern. */
  ghost predicate SpellsPrivateWord(key: Text) {
    || Spells(key, "token") || Spells(key, "secret") || Spells(key, "password") || Spells(key, "authorization")
    || Spells(key, "apikey") || Spells(key, "api_key") || Spells(key, "api-key") || Spells(key, "credential")
    || Spells(key, "refresh") || Spells(key, "base64") || Spells(key, "bytes") || Spells(key, "binary")
    || Spells(key, "audio") || Spells(key, "attachment") || Spells(key, "media") || Spells(key, "payload")
  }

  predicate IsLowerWord(word: string) {
    Ascii(word) && forall i :: 0 <= i < |word| ==> !('A' <= word[i] <= 'Z')
  }

  lemma LettersFold(v: Text, word: string)
    requires IsLowerWord(word)
    ensures Lower(v) == Codes(word) <==> SameLetters(v, word)
  {
    if Lower(v) == Codes(word) {
      assert |v| == |word|;
      forall i | 0 <= i < |v|
        ensures SameLetter(v[i], word[i])
      {
        assert Lower(v)[i] == Codes(word)[i];
      }
    }
  }

  lemma LowerSlice(t: Text, i: nat, j: nat)
    requires i <= j <= |t|
    ensures Lower(t)[i..j] == Lower(t[i..j])
  {}

  lemma ContainsIffSpells(key: Text, word: string)
    requires IsLowerWord(word)
    ensures Contains(Lower(key), Codes(word)) <==> Spells(key, word)
  {
    if Contains(Lower(key), Codes(word)) {
      var i :| 0 <= i <= |Lower(key)| && OccursAt(Codes(word), Lower(key), i);
      var v := key[i..i + |word|];
      LowerSlice(key, i, i + |word|);
      LettersFold(v, word);
      assert key == key[..i] + v + key[i + |word|..];
    }
    if Spells(key, word) {
      var a: Text, v: Text, b: Text :| key == a + v + b && SameLetters(v, word);
      LettersFold(v, word);
      LowerSlice(key, |a|, |a| + |v|);
      assert key[|a|..|a| + |v|] == v;
      assert OccursAt(Codes(word), Lower(key), |a|);
    }
  }

  lemma LowerWords()
    ensures IsLowerWord("token") && IsLowerWord("secret") && IsLowerWord("password") && IsLowerWord("authorization")
  {}

  lemma MoreLowerWords()
    ensures IsLowerWord("apikey") && IsLowerWord("api_key") && IsLowerWord("api-key") && IsLowerWord("credential")
  {}

  lemma YetMoreLowerWords()
    ensures IsLowerWord("refresh") && IsLowerWord("base64") && IsLowerWord("bytes") && IsLowerWord("binary")
  {}

  lemma LastLowerWords()
    ensures IsLowerWord("audio") && IsLowerWord("attachment") && IsLowerWord("media") && IsLowerWord("payload")
  {}

  lemma WordsOfPattern()
    ensures SENSITIVE_WORDS ==
              ["token", "secret", "password", "authorization", "apikey", "api_key", "api-key", "credential", "refresh",
               "base64", "bytes", "binary", "audio", "attachment", "media", "payload"]
    ensures forall w :: 0 <= w < 16 ==> IsLowerWord(SENSITIVE_WORDS[w])
  {
    hide IsLowerWord;
    LowerWords();
    MoreLowerWords();
    YetMoreLowerWords();
    LastLowerWords();
  }

  lemma SensitiveIffSpelled(key: Text)
    ensures IsSensitiveKey(key) <==> SpellsPrivateWord(key)
  {
    WordsOfPattern();
    hide SENSITIVE_WORDS, Contains, Lower, Codes, Spells;
    forall w | 0 <= w < 16
      ensures Ascii(SENSITIVE_WORDS[w])
      ensures Contains(Lower(key), Codes(SENSITIVE_WORDS[w])) <==> Spells(key, SENSITIVE_WORDS[w])
    {
      ContainsIffSpells(key, SENSITIVE_WORDS[w]);
    }
    assert IsSensitiveKey(key) <==> exists w :: 0 <= w < 16 && Spells(key, SENSITIVE_WORDS[w]);
    EachWord(key);
  }

  lemma EachWord(key: Text)
    ensures (exists w :: 0 <= w < 16 && Spells(key, SENSITIVE_WORDS[w])) <==> SpellsPrivateWord(key)
  {
    WordsOfPattern();
    hide Spells;
    assert Spells(key, SENSITIVE_WORDS[0]) <==> Spells(key, "token");
    assert Spells(key, SENSITIVE_WORDS[1]) <==> Spells(key, "secret");
    assert Spells(key, SENSITIVE_WORDS[2]) <==> Spells(key, "password");
    assert Spells(key, SENSITIVE_WORDS[3]) <==> Spells(key, "authorization");
    assert Spells(key, SENSITIVE_WORDS[4]) <==> Spells(key, "apikey");
    assert Spells(key, SENSITIVE_WORDS[5]) <==> Spells(key, "api_key");
    assert Spells(key, SENSITIVE_WORDS[6]) <==> Spells(key, "api-key");
    assert Spells(key, SENSITIVE_WORDS[7]) <==> Spells(key, "credential");
    assert Spells(key, SENSITIVE_WORDS[8]) <==> Spells(key, "refresh");
    assert Spells(key, SENSITIVE_WORDS[9]) <==> Spells(key, "base64");
    assert Spells(key, SENSITIVE_WORDS[10]) <==> Spells(key, "bytes");
    assert Spells(key, SENSITIVE_WORDS[11]) <==> Spells(key, "binary");
    assert Spells(key, SENSITIVE_WORDS[12]) <==> Spells(key, "audio");
    assert Spells(key, SENSITIVE_WORDS[13]) <==> Spells(key, "attachment");
    assert Spells(key, SENSITIVE_WORDS[14]) <==> Spells(key, "media");
    assert Spells(key, SENSITIVE_WORDS[15]) <==> Spells(key, "payload");
  }

  // --- One entry of a record --------------------------------------------------------------------

  lemma {:induction false} RecordSplits(before: seq<Entry>, after: seq<Entry>)
    ensures RedactedEntries(before + after) == RedactedEntries(before) + RedactedEntries(after)
    decreases |after|
  {
    hide RedactedEntry, PROTO;
    if after == [] {
      assert before + after == before;
    } else {
      var init, last := after[..|after| - 1], after[|after| - 1];
      RecordSplits(before, init);
      assert before + after == (before + init) + [last] && after == init + [last];
      EntriesGrow(before + init, last);
      EntriesGrow(init, last);
    }
  }

  lemma LoneEntry(e: Entry)
    ensures RedactedEntries([e]) == if e.key == PROTO then [] else [RedactedEntry(e)]
  {
    NoEntriesRedacted();
    assert [] + [e] == [e];
    EntriesGrow([], e);
  }

  /** The entries before and behind one are redacted as they would be without it. */
  lemma EntryInPlace(before: seq<Entry>, e: Entry, after: seq<Entry>)
    requires e.key != PROTO
    ensures RedactedEntries(before + [e] + after) ==
              RedactedEntries(before) + [RedactedEntry(e)] + RedactedEntries(after)
  {
    hide RedactedEntry, RedactedEntries, PROTO;
    RecordSplits(before + [e], after);
    RecordSplits(before, [e]);
    LoneEntry(e);
  }

  predicate IsProtoCode(c: int) {
    c == 95 || c == 112 || c == 114 || c == 111 || c == 116
  }

  /** Each word of the pattern has a letter, among its first three, that `__proto__` lacks. */
  lemma WordsAreForeign(w: nat)
    requires w < 16
    ensures var word := SENSITIVE_WORDS[w];
            Ascii(word) && |word| >= 3
            && !(IsProtoCode(word[0] as int) && IsProtoCode(word[1] as int) && IsProtoCode(word[2] as int))
  {
    WordsOfPattern();
  }

  lemma ProtoCodes()
    ensures PROTO == Codes("__proto__") && Lower(PROTO) == PROTO
    ensures forall i :: 0 <= i < |PROTO| ==> IsProtoCode(PROTO[i])
  {}

  lemma ContainedCodes(t: Text, word: Text, k: nat)
    requires Contains(t, word) && k < |word|
    ensures word[k] in t
  {
    var i :| 0 <= i <= |t| && OccursAt(word, t, i);
    assert t[i..i + |word|][k] == t[i + k];
  }

  lemma ProtoSpellsNothing()
    ensures PROTO == Codes("__proto__") && !SpellsPrivateWord(PROTO)
  {
    ProtoCodes();
    hide Contains, PROTO, SENSITIVE_WORDS, Lower;
    SensitiveIffSpelled(PROTO);
    assert |SENSITIVE_WORDS| == 16 by {
      WordsOfPattern();
    }
    forall w | 0 <= w < 16
      ensures Ascii(SENSITIVE_WORDS[w]) && !Contains(PROTO, Codes(SENSITIVE_WORDS[w]))
    {
      WordsAreForeign(w);
      if Contains(PROTO, Codes(SENSITIVE_WORDS[w])) {
        ContainedCodes(PROTO, Codes(SENSITIVE_WORDS[w]), 0);
        ContainedCodes(PROTO, Codes(SENSITIVE_WORDS[w]), 1);
        ContainedCodes(PROTO, Codes(SENSITIVE_WORDS[w]), 2);
      }
    }
  }

  /**
    Whatever surrounds it in the key, and however its letters are cased, a private word leaves of
    its entry nothing but the marker; the other entries are redacted as if it were not there.
    */
  lemma PrivateKeysAreMarked(before: seq<Entry>, a: Text, v: Text, b: Text, value: Value, after: seq<Entry>)
    requires || SameLetters(v, "token") || SameLetters(v, "secret") || SameLetters(v, "password")
             || SameLetters(v, "authorization") || SameLetters(v, "apikey") || SameLetters(v, "api_key")
             || SameLetters(v, "api-key") || SameLetters(v, "credential") || SameLetters(v, "refresh")
             || SameLetters(v, "base64") || SameLetters(v, "bytes") || SameLetters(v, "binary")
             || SameLetters(v, "audio") || SameLetters(v, "attachment") || SameLetters(v, "media")
             || SameLetters(v, "payload")
    ensures var marked := Entry(a + v + b, Str(Codes("[REDACTED]")));
            Redacted(Record(before + [Entry(a + v + b, value)] + after)) ==
              Record(Redacted(Record(before)).entries + [marked] + Redacted(Record(after)).entries)
  {
    var key := a + v + b;
    assert SpellsPrivateWord(key) by {
      hide SameLetters;
      assert forall word: string :: SameLetters(v, word) ==> Spells(key, word);
    }
    hide SpellsPrivateWord, SameLetters;
    SensitiveIffSpelled(key);
    ProtoSpellsNothing();
    hide IsSensitiveKey, PROTO, RedactedEntries;
    EntryInPlace(before, Entry(key, value), after);
  }

  /** A key without such a word keeps its value, redacted in turn. */
  lemma OtherKeysStay(before: seq<Entry>, key: Text, value: Value, after: seq<Entry>)
    requires !SpellsPrivateWord(key) && key != Codes("__proto__")
    ensures Redacted(Record(before + [Entry(key, value)] + after)) ==
              Record(Redacted(Record(before)).entries + [Entry(key, Redacted(value))] + Redacted(Record(after)).entries)
  {
    hide SpellsPrivateWord, IsSensitiveKey, RedactedEntries;
    SensitiveIffSpelled(key);
    EntryInPlace(before, Entry(key, value), after);
  }

  /** Everything else keeps its shape: lists item by item, buffers as the marker, other values as they are. */
  lemma ShapesStay(items: seq<Value>, i: nat, bytes: seq<int>, id: int)
    requires i < |items|
    ensures |Redacted(List(items)).items| == |items| && Redacted(List(items)).items[i] == Redacted(items[i])
    ensures Redacted(Bytes(bytes)) == Str(Codes("[REDACTED]")) && Redacted(Other(id)) == Other(id)
    ensures Redacted(Record([])) == Record([])
  {
    RedactedItemsAt(items, i);
  }

  // --- Texts ------------------------------------------------------------------------------------

  /** White space and line terminators, as ECMA-262 lists them. */
  predicate IsWhite(c: int) {
    || c == 9 || c == 10 || c == 11 || c == 12 || c == 13 || c == 32 || c == 160 || c == 5760
    || 8192 <= c <= 8202 || c == 8232 || c == 8233 || c == 8239 || c == 8287 || c == 12288 || c == 65279
  }

  /** Within the first 256 code units, and behind nothing but white space, stands `data:` in any case. */
  predicate NamesDataUrl(t: Text) {
    exists k :: 0 <= k <= 251 && k + 5 <= |t| && AllWhite(t, k) && SameLetters(t[k..k + 5], "data:")
  }

  predicate AllWhite(t: Text, k: nat)
    requires k <= |t|
  {
    forall i :: 0 <= i < k ==> IsWhite(t[i])
  }

  /** It begins or ends with more than 64 spaces and tabs. */
  predicate HasWideEdge(t: Text) {
    |t| > 64
    && ((forall i :: 0 <= i <= 64 ==> t[i] == 32 || t[i] == 9)
        || (forall i :: |t| - 65 <= i < |t| ==> t[i] == 32 || t[i] == 9))
  }

  /** No letter, digit, sign or padding of base64, and no space, tab or line break. */
  predicate IsForeign(c: int) {
    && !(65 <= c <= 90) && !(97 <= c <= 122) && !(48 <= c <= 57)
    && c != 43 && c != 47 && c != 45 && c != 95 && c != 61 && c != 32 && c != 9 && c != 10 && c != 13
  }

  lemma {:induction false} TrimmedAt(t: Text, k: nat)
    requires k <= |t| && AllWhite(t, k) && (k < |t| ==> !IsWhite(t[k]))
    ensures TrimStart(t) == t[k..]
  {
    if k == 0 {
    } else {
      assert t[1..][k - 1..] == t[k..];
      TrimmedAt(t[1..], k - 1);
    }
  }

  function Begin(t: Text): Text {
    t[..if |t| < 256 then |t| else 256]
  }

  lemma NamedIsDataUrl(t: Text, k: nat)
    requires k <= 251 && k + 5 <= |t| && AllWhite(t, k) && SameLetters(t[k..k + 5], "data:")
    ensures IsDataUrl(t)
  {
    hide SameLetters, IsWhite, IsTrimmed, TrimStart, Lower;
    LettersFold(t[k..k + 5], "data:");
    DataIsNotWhite(t[k..k + 5]);
    assert t[k..k + 5][0] == t[k];
    TrimmedAt(Begin(t), k);
    assert Begin(t)[k..][..5] == t[k..k + 5];
  }

  lemma DataUrlBehindWhite(t: Text)
    requires IsDataUrl(t)
    ensures NamesDataUrl(t)
  {
    hide SameLetters, IsWhite, IsTrimmed, Lower;
    var trimmed := TrimStart(Begin(t));
    var n := |Begin(t)| - |trimmed|;
    hide TrimStart;
    assert t[n..n + 5] == trimmed[..5];
    LettersFold(t[n..n + 5], "data:");
    WhiteIsTrimmed();
    assert AllWhite(t, n);
  }

  lemma DataUrlIsNamed(t: Text)
    ensures IsDataUrl(t) <==> NamesDataUrl(t)
  {
    hide IsDataUrl, AllWhite, SameLetters;
    if NamesDataUrl(t) {
      var k :| 0 <= k <= 251 && k + 5 <= |t| && AllWhite(t, k) && SameLetters(t[k..k + 5], "data:");
      NamedIsDataUrl(t, k);
    }
    if IsDataUrl(t) {
      DataUrlBehindWhite(t);
    }
  }

  lemma WhiteIsTrimmed()
    ensures forall c: Code :: IsTrimmed(c) == IsWhite(c)
  {}

  lemma DataIsNotWhite(v: Text)
    requires SameLetters(v, "data:")
    ensures !IsWhite(v[0])
  {
    assert SameLetter(v[0], 'd');
  }

  lemma {:induction false} LeadingIsBlank(t: Text)
    ensures forall i :: 0 <= i < LeadingBlanks(t) ==> IsHorizontal(t[i])
  {
    if t == [] || !IsHorizontal(t[0]) {
    } else {
      LeadingIsBlank(t[1..]);
    }
  }

  lemma {:induction false} TrailingIsBlank(t: Text)
    ensures forall i :: |t| - TrailingBlanks(t) <= i < |t| ==> IsHorizontal(t[i])
  {
    if t == [] || !IsHorizontal(t[|t| - 1]) {
    } else {
      TrailingIsBlank(t[..|t| - 1]);
    }
  }

  lemma WideEdgesAreLong(t: Text)
    ensures HasLongEdge(t) <==> HasWideEdge(t)
  {
    LeadingIsBlank(t);
    TrailingIsBlank(t);
    hide LeadingBlanks, TrailingBlanks;
    if |t| > 64 && Blanks(t, 0, 65) {
      LeadingRun(t, 65);
    }
    if |t| > 64 && Blanks(t, |t| - 65, |t|) {
      TrailingRun(t, 65);
    }
  }

  lemma {:induction false} PayloadHas(t: Text, i: nat)
    requires i < |t| && !IsGap(t[i])
    ensures t[i] in Payload(t)
  {
    if i == |t| - 1 {
    } else {
      PayloadHas(t[..|t| - 1], i);
    }
  }

  /** One foreign character anywhere makes a text ordinary. */
  lemma ForeignIsNotEncoded(t: Text, i: nat)
    requires i < |t| && IsForeign(t[i])
    ensures i < LeadingBlanks(t) || |t| - TrailingBlanks(t) <= i || !IsEncoded(Core(t))
  {
    if LeadingBlanks(t) <= i < |t| - TrailingBlanks(t) {
      var core := Core(t);
      assert core[i - LeadingBlanks(t)] == t[i];
      PayloadHas(core, i - LeadingBlanks(t));
    }
  }

  /** Data URLs, and long texts with a wide blank edge, are marked whatever else they hold. */
  lemma PrivateTextsAreMarked(t: Text)
    requires NamesDataUrl(t) || HasWideEdge(t)
    ensures Redacted(Str(t)) == Str(Codes("[REDACTED]"))
  {
    DataUrlIsNamed(t);
    WideEdgesAreLong(t);
    hide NamesDataUrl, IsDataUrl, HasLongEdge, IsEncoded, Core;
  }

  /** Any other text is shown if it has fewer than 16 code units, or a single one that base64 does not use. */
  lemma OrdinaryTextsStay(t: Text)
    requires !NamesDataUrl(t) && !HasWideEdge(t)
    requires |t| < 16 || exists i :: 0 <= i < |t| && IsForeign(t[i])
    ensures Redacted(Str(t)) == Str(t)
  {
    DataUrlIsNamed(t);
    WideEdgesAreLong(t);
    if |t| >= 16 {
      var i :| 0 <= i < |t| && IsForeign(t[i]);
      ForeignIsNotEncoded(t, i);
      LeadingIsBlank(t);
      TrailingIsBlank(t);
    }
    hide NamesDataUrl, IsDataUrl, HasLongEdge, IsEncoded, Core;
  }
}
