/** Values shown in approvals, audits and errors, with everything private taken out. */
module Previews {
  import opened Wrappers
  import opened Text
  import opened Redaction

  /** A runtime value: `Bytes` is a buffer or a view of one, `Other` any other primitive or a function. */
  datatype Value =
    | Str(text: Text)
    | Bytes(bytes: seq<int>)
    | List(items: seq<Value>)
    | Record(entries: seq<Entry>)
    | Other(id: int)

  datatype Entry = Entry(key: Text, value: Value)

  const REDACTED: Text := Codes("[REDACTED]")
  // Assigning this key sets the prototype of the copy and adds no entry to it.
  const PROTO: Text := Codes("__proto__")

  const SENSITIVE_WORDS: seq<string> := [
    "token", "secret", "password", "authorization", "apikey", "api_key", "api-key", "credential", "refresh",
    "base64", "bytes", "binary", "audio", "attachment", "media", "payload"
  ]

  predicate Contains(t: Text, word: Text) {
    exists i :: 0 <= i <= |t| && OccursAt(word, t, i)
  }

  predicate IsSensitiveKey(key: Text) {
    exists w :: 0 <= w < |SENSITIVE_WORDS| && Ascii(SENSITIVE_WORDS[w])
      && Contains(Lower(key), Codes(SENSITIVE_WORDS[w]))
  }

  // --- What a redacted value is -----------------------------------------------------------

  ghost function Redacted(v: Value): Value {
    match v
    case Str(text) => if IsPrivate(text) then Str(REDACTED) else v
    case Bytes(_) => Str(REDACTED)
    case List(items) => List(RedactedItems(items))
    case Record(entries) => Record(RedactedEntries(entries))
    case Other(_) => v
  }

  ghost function RedactedItems(items: seq<Value>): (r: seq<Value>)
    ensures |r| == |items|
  {
    if items == [] then [] else RedactedItems(items[..|items| - 1]) + [Redacted(items[|items| - 1])]
  }

  ghost function RedactedEntry(e: Entry): Entry {
    Entry(e.key, if IsSensitiveKey(e.key) then Str(REDACTED) else Redacted(e.value))
  }

  ghost function RedactedEntries(entries: seq<Entry>): seq<Entry> {
    if entries == [] then []
    else
      RedactedEntries(entries[..|entries| - 1])
      + (if entries[|entries| - 1].key == PROTO then [] else [RedactedEntry(entries[|entries| - 1])])
  }

  /** Nothing in the value is private: no payload, no bytes, and nothing but the marker under a sensitive key. */
  ghost predicate Clean(v: Value) {
    match v
    case Str(text) => !IsPrivate(text)
    case Bytes(_) => false
    case List(items) => forall i :: 0 <= i < |items| ==> Clean(items[i])
    case Record(entries) => forall i :: 0 <= i < |entries| ==> CleanEntry(entries[i])
    case Other(_) => true
  }

  ghost predicate CleanEntry(e: Entry) {
    e.key != PROTO && if IsSensitiveKey(e.key) then e.value == Str(REDACTED) else Clean(e.value)
  }

  lemma MarkerText()
    ensures |REDACTED| == 10 && REDACTED[0] == 91
  {}

  /** A short text that does not begin like a data URL is visible. */
  lemma ShortTextIsVisible(t: Text)
    requires 0 < |t| < MIN_OPAQUE_PREVIEW_VALUE_LENGTH && !IsTrimmed(t[0]) && LowerCode(t[0]) != 100
    ensures !IsPrivate(t)
  {
    hide HasLongEdge, IsEncoded, Core, IsTrimmed, LowerCode;
    assert t[..|t|] == t;
    assert TrimStart(t) == t;
    assert |t| >= 5 ==> Lower(t[..5])[0] == LowerCode(t[0]);
  }

  lemma MarkerIsVisible()
    ensures !IsPrivate(REDACTED)
  {
    hide REDACTED, IsPrivate;
    MarkerText();
    ShortTextIsVisible(REDACTED);
  }

  lemma EntriesGrow(init: seq<Entry>, last: Entry)
    ensures RedactedEntries(init + [last]) == RedactedEntries(init) + if last.key == PROTO then []
            else [RedactedEntry(last)]
  {
    hide RedactedEntry, PROTO;
    assert (init + [last])[..|init|] == init;
  }

  lemma NoItemsRedacted(items: seq<Value>)
    ensures RedactedItems(items[..0]) == []
  {}

  lemma ItemsGrow(init: seq<Value>, last: Value)
    ensures RedactedItems(init + [last]) == RedactedItems(init) + [Redacted(last)]
  {
    hide Redacted;
    assert (init + [last])[..|init|] == init;
  }

  lemma NoEntriesRedacted()
    ensures RedactedEntries([]) == []
  {}

  lemma {:induction false} RedactedItemsAt(items: seq<Value>, i: nat)
    requires i < |items|
    ensures RedactedItems(items)[i] == Redacted(items[i])
  {
    if i == |items| - 1 {
    } else {
      RedactedItemsAt(items[..|items| - 1], i);
    }
  }

  /** What the redaction returns is clean. */
  lemma {:induction false} RedactedIsClean(v: Value)
    ensures Clean(Redacted(v))
    decreases v, 1
  {
    MarkerIsVisible();
    match v
    case Str(_) =>
    case Bytes(_) =>
    case List(items) =>
      forall i | 0 <= i < |items|
        ensures Clean(RedactedItems(items)[i])
      {
        RedactedItemsAt(items, i);
        RedactedIsClean(items[i]);
      }
    case Record(entries) => RedactedEntriesAreClean(entries);
    case Other(_) =>
  }

  lemma RecordGrows(init: seq<Entry>, last: Entry)
    ensures Clean(Record([]))
    ensures Clean(Record(init + [last])) <==> Clean(Record(init)) && CleanEntry(last)
  {
    hide CleanEntry;
    var longer := init + [last];
    assert longer[|init|] == last;
    assert forall i :: 0 <= i < |init| ==> longer[i] == init[i];
  }

  lemma {:induction false} RedactedEntryIsClean(e: Entry)
    ensures e.key != PROTO ==> CleanEntry(RedactedEntry(e))
    decreases e, 0
  {
    hide IsSensitiveKey, PROTO, REDACTED;
    RedactedIsClean(e.value);
  }

  lemma {:induction false} RedactedEntriesAreClean(entries: seq<Entry>)
    ensures Clean(Record(RedactedEntries(entries)))
    decreases entries, 0
  {
    hide Clean, CleanEntry, RedactedEntry, RedactedEntries, PROTO;
    if entries == [] {
      NoEntriesRedacted();
      RecordGrows([], Entry([], Other(0)));
    } else {
      var init, last := entries[..|entries| - 1], entries[|entries| - 1];
      assert entries == init + [last];
      RedactedEntriesAreClean(init);
      RedactedEntryIsClean(last);
      EntriesGrow(init, last);
      RecordGrows(RedactedEntries(init), RedactedEntry(last));
      assert RedactedEntries(init) + [] == RedactedEntries(init);
    }
  }

  /** Exactly the clean values are left as they are; so redacting twice changes nothing more. */
  lemma {:induction false} UnchangedIffClean(v: Value)
    ensures Redacted(v) == v <==> Clean(v)
  {
    if Redacted(v) == v {
      RedactedIsClean(v);
    } else {
      if Clean(v) {
        CleanStays(v);
      }
    }
  }

  lemma {:induction false} CleanStays(v: Value)
    requires Clean(v)
    ensures Redacted(v) == v
    decreases v, 1
  {
    match v
    case Str(_) =>
    case List(items) =>
      forall i | 0 <= i < |items|
        ensures RedactedItems(items)[i] == items[i]
      {
        RedactedItemsAt(items, i);
        CleanStays(items[i]);
      }
    case Record(entries) => CleanEntriesStay(entries);
    case Other(_) =>
  }

  lemma {:induction false} CleanEntriesStay(entries: seq<Entry>)
    requires Clean(Record(entries))
    ensures RedactedEntries(entries) == entries
    decreases entries, 0
  {
    hide Redacted, CleanEntry, Clean, IsSensitiveKey, RedactedEntries, RedactedEntry, PROTO;
    if entries == [] {
      NoEntriesRedacted();
    } else {
      var init, last := entries[..|entries| - 1], entries[|entries| - 1];
      assert entries == init + [last];
      CleanRecord(entries);
      CleanRecord(init);
      CleanEntriesStay(init);
      CleanEntryStays(last);
      EntriesGrow(init, last);
    }
  }

  lemma CleanRecord(entries: seq<Entry>)
    ensures Clean(Record(entries)) <==> forall i :: 0 <= i < |entries| ==> CleanEntry(entries[i])
  {}

  lemma {:induction false} CleanEntryStays(e: Entry)
    requires CleanEntry(e)
    ensures RedactedEntry(e) == e && e.key != PROTO
    decreases e, 0
  {
    if !IsSensitiveKey(e.key) {
      CleanStays(e.value);
    }
  }

  // --- The operations ---------------------------------------------------------------------

  method RedactUnknown(value: Value) returns (r: Value)
    ensures r == Redacted(value)
    decreases value
  {
    match value
    case Str(text) =>
      var private := IsEncodedPrivatePayload(text);
      r := if private then Str(REDACTED) else value;
    case Bytes(_) => r := Str(REDACTED);
    case List(items) =>
      hide RedactedItems;
      var out: seq<Value> := [];
      assert RedactedItems(items[..0]) == [] by { NoItemsRedacted(items); }
      for i := 0 to |items|
        invariant out == RedactedItems(items[..i])
      {
        var item := RedactUnknown(items[i]);
        ItemsGrow(items[..i], items[i]);
        assert items[..i + 1] == items[..i] + [items[i]];
        out := out + [item];
      }
      assert items[..|items|] == items;
      r := List(out);
    case Record(entries) =>
      hide RedactedEntries;
      var out: seq<Entry> := [];
      NoEntriesRedacted();
      assert entries[..0] == [];
      for i := 0 to |entries|
        invariant out == RedactedEntries(entries[..i])
      {
        var child: Value := Str(REDACTED);
        if !IsSensitiveKey(entries[i].key) {
          child := RedactUnknown(entries[i].value);
        }
        EntriesGrow(entries[..i], entries[i]);
        assert entries[..i + 1] == entries[..i] + [entries[i]];
        if entries[i].key != PROTO {
          out := out + [Entry(entries[i].key, child)];
        }
      }
      assert entries[..|entries|] == entries;
      r := Record(out);
    case Other(_) => r := value;
  }

  // --- Preview policies -------------------------------------------------------------------

  datatype Policy = Unset | Nothing | Include(keys: seq<Text>)

  function Find(entries: seq<Entry>, key: Text): Option<Value> {
    if entries == [] then None
    else if entries[|entries| - 1].key == key then Some(entries[|entries| - 1].value)
    else Find(entries[..|entries| - 1], key)
  }

  /** Assigning a property: an existing entry keeps its place, and the prototype is no entry. */
  function Assigned(entries: seq<Entry>, key: Text, value: Value): seq<Entry> {
    if key == PROTO then entries
    else if entries == [] then [Entry(key, value)]
    else if entries[|entries| - 1].key == key then entries[..|entries| - 1] + [Entry(key, value)]
    else Assigned(entries[..|entries| - 1], key, value) + [entries[|entries| - 1]]
  }

  /** Exactly the named arguments that exist are picked, each with its own value. */
  ghost predicate PicksFrom(picked: seq<Entry>, source: seq<Entry>, keys: seq<Text>) {
    forall key: Text ::
      Find(picked, key) == if key in keys && key != PROTO then Find(source, key) else None
  }

  lemma FindGrows(init: seq<Entry>, last: Entry, key: Text)
    ensures Find(init + [last], key) == if last.key == key then Some(last.value) else Find(init, key)
  {
    assert (init + [last])[..|init|] == init;
  }

  lemma AssignedGrows(init: seq<Entry>, last: Entry, key: Text, value: Value)
    requires key != PROTO
    ensures Assigned(init + [last], key, value) ==
              if last.key == key then init + [Entry(key, value)] else Assigned(init, key, value) + [last]
  {
    hide PROTO;
    assert (init + [last])[..|init|] == init;
  }

  lemma {:induction false} FindAssigned(entries: seq<Entry>, key: Text, value: Value, other: Text)
    ensures Find(Assigned(entries, key, value), other) == if other == key && key != PROTO then Some(value)
            else Find(entries, other)
  {
    hide PROTO;
    if key == PROTO {
    } else if entries == [] {
      assert [Entry(key, value)][..0] == [];
    } else {
      hide Assigned, Find;
      var init, last := entries[..|entries| - 1], entries[|entries| - 1];
      assert entries == init + [last];
      AssignedGrows(init, last, key, value);
      FindGrows(init, last, other);
      FindGrows(init, Entry(key, value), other);
      FindGrows(Assigned(init, key, value), last, other);
      FindAssigned(init, key, value, other);
    }
  }

  lemma RedactedEntryParts(e: Entry)
    ensures RedactedEntry(e).key == e.key
    ensures RedactedEntry(e).value == if IsSensitiveKey(e.key) then Str(REDACTED) else Redacted(e.value)
  {}

  lemma NothingFound(key: Text)
    ensures Find([], key) == None && Find(RedactedEntries([]), key) == None
  {}

  /** Redaction keeps each named entry, with its marker or its redacted value. */
  lemma {:induction false} FindRedacted(entries: seq<Entry>, key: Text)
    ensures Find(RedactedEntries(entries), key) ==
              if key == PROTO || Find(entries, key).None? then None
              else Some(if IsSensitiveKey(key) then Str(REDACTED) else Redacted(Find(entries, key).value))
  {
    hide IsSensitiveKey, Redacted, RedactedEntry, RedactedEntries, Find, PROTO, REDACTED;
    if entries == [] {
      NothingFound(key);
    } else {
      var init, last := entries[..|entries| - 1], entries[|entries| - 1];
      assert entries == init + [last];
      FindRedacted(init, key);
      EntriesGrow(init, last);
      FindGrows(init, last, key);
      FindGrows(RedactedEntries(init), RedactedEntry(last), key);
      RedactedEntryParts(last);
      assert RedactedEntries(init) + [] == RedactedEntries(init);
    }
  }

  /** Per-argument meaning of a preview: nothing, or a clean value that shows only what the policy names. */
  ghost predicate Previews(policy: Policy, value: Value, preview: Option<Value>) {
    match policy
    case Nothing => preview == None
    case Unset => preview == Some(Redacted(value))
    case Include(keys) =>
      if !value.Record? then preview == None
      else
        && preview.Some? && preview.value.Record? && Clean(preview.value)
        && forall key: Text ::
             Find(preview.value.entries, key) ==
               if key in keys && key != PROTO && Find(value.entries, key).Some?
               then Some(if IsSensitiveKey(key) then Str(REDACTED) else Redacted(Find(value.entries, key).value))
               else None
  }

  method ProjectInputPreview(policy: Policy, value: Value) returns (preview: Option<Value>)
    ensures Previews(policy, value, preview)
  {
    match policy
    case Nothing => return None;
    case Unset =>
      var redacted := RedactUnknown(value);
      return Some(redacted);
    case Include(keys) =>
      if !value.Record? { return None; }
      hide IsSensitiveKey, Redacted, RedactedEntries, Clean, Assigned, Find;
      var picked: seq<Entry> := NoEntries();
      for i := 0 to |keys|
        invariant PicksFrom(picked, value.entries, keys[..i])
      {
        var found := Find(value.entries, keys[i]);
        ghost var before := picked;
        if found.Some? {
          picked := Assigned(picked, keys[i], found.value);
        }
        forall key: Text
          ensures Find(picked, key) == if key in keys[..i + 1] && key != PROTO then Find(value.entries, key) else None
        {
          assert key in keys[..i + 1] <==> key in keys[..i] || key == keys[i];
          if found.Some? {
            FindAssigned(before, keys[i], found.value, key);
          }
        }
      }
      assert keys[..|keys|] == keys;
      var redacted := RedactUnknown(Record(picked));
      RedactedRecord(picked);
      RedactedIsClean(Record(picked));
      forall key: Text
        ensures Find(redacted.entries, key) ==
               if key in keys && key != PROTO && Find(value.entries, key).Some?
               then Some(if IsSensitiveKey(key) then Str(REDACTED) else Redacted(Find(value.entries, key).value))
               else None
      {
        FindRedacted(picked, key);
      }
      return Some(redacted);
  }

  function NoEntries(): (none: seq<Entry>)
    ensures forall key: Text :: Find(none, key) == None
  {
    []
  }

  lemma RedactedRecord(entries: seq<Entry>)
    ensures Redacted(Record(entries)) == Record(RedactedEntries(entries))
  {}
}
