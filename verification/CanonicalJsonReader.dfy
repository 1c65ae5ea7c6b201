/** A reader for JSON without white space (sections 4 to 7 of RFC 8259) that
    inverts the canonical printer, and so shows that the text determines the
    value. */
module CanonicalJsonReader {
  import opened Common
  import opened JsonText
  import opened CanonicalJson

  function NumberLength(text: Text): (n: nat)
    ensures n <= |text|
  {
    if text == [] || !NumberUnit(text[0]) then 0 else 1 + NumberLength(text[1..])
  }

  function ReadWord(text: Text, word: Text, v: Value): (r: Option<(Value, Text)>)
    requires word != []
    ensures r.Some? ==> |r.value.1| < |text|
  {
    if word <= text then Some((v, text[|word|..])) else None
  }

  function ReadNumber(text: Text): (r: Option<(Value, Text)>)
    ensures r.Some? ==> |r.value.1| < |text|
  {
    var n := NumberLength(text);
    if IsNumberText(text[..n]) then Some((Num(Finite(text[..n])), text[n..])) else None
  }

  function ReadString(text: Text): (r: Option<(Text, Text)>)
    ensures r.Some? ==> |r.value.1| < |text|
  {
    if text == [] || text[0] != QUOTE then None else Unquote(text[1..])
  }

  /** The value at the start of the text, and what follows it. */
  function Read(text: Text): (r: Option<(Value, Text)>)
    ensures r.Some? ==> |r.value.1| < |text|
    decreases |text|, 0
  {
    if text == [] then None
    else if text[0] == LEFT_BRACKET then
      if |text| > 1 && text[1] == RIGHT_BRACKET then Some((Arr([]), text[2..]))
      else
        var items := ReadItems(text[1..]);
        if items.None? then None else Some((Arr(items.value.0), items.value.1))
    else if text[0] == LEFT_BRACE then
      if |text| > 1 && text[1] == RIGHT_BRACE then Some((Obj([]), text[2..]))
      else
        var entries := ReadEntries(text[1..]);
        if entries.None? then None else Some((Obj(entries.value.0), entries.value.1))
    else if text[0] == QUOTE then
      var s := ReadString(text);
      if s.None? then None else Some((Str(s.value.0), s.value.1))
    else if text[0] == NULL_TEXT[0] then ReadWord(text, NULL_TEXT, Null)
    else if text[0] == TRUE_TEXT[0] then ReadWord(text, TRUE_TEXT, Bool(true))
    else if text[0] == FALSE_TEXT[0] then ReadWord(text, FALSE_TEXT, Bool(false))
    else ReadNumber(text)
  }

  /** At least one item, up to the closing bracket. */
  function ReadItems(text: Text): (r: Option<(seq<Value>, Text)>)
    ensures r.Some? ==> |r.value.1| < |text|
    decreases |text|, 1
  {
    var item := Read(text);
    if item.None? || item.value.1 == [] then None
    else
      var rest := item.value.1;
      if rest[0] == RIGHT_BRACKET then Some(([item.value.0], rest[1..]))
      else if rest[0] != COMMA then None
      else
        var more := ReadItems(rest[1..]);
        if more.None? then None else Some(([item.value.0] + more.value.0, more.value.1))
  }

  function ReadEntry(text: Text): (r: Option<(Entry, Text)>)
    ensures r.Some? ==> |r.value.1| < |text|
    decreases |text|, 1
  {
    var key := ReadString(text);
    if key.None? || key.value.1 == [] || key.value.1[0] != COLON then None
    else
      var value := Read(key.value.1[1..]);
      if value.None? then None else Some((Entry(key.value.0, value.value.0), value.value.1))
  }

  function ReadEntries(text: Text): (r: Option<(seq<Entry>, Text)>)
    ensures r.Some? ==> |r.value.1| < |text|
    decreases |text|, 2
  {
    var entry := ReadEntry(text);
    if entry.None? || entry.value.1 == [] then None
    else
      var rest := entry.value.1;
      if rest[0] == RIGHT_BRACE then Some(([entry.value.0], rest[1..]))
      else if rest[0] != COMMA then None
      else
        var more := ReadEntries(rest[1..]);
        if more.None? then None else Some(([entry.value.0] + more.value.0, more.value.1))
  }

  // The value that a canonical text stands for.

  /** The value with its keys in order and without -0. */
  function Normal(v: Value): Value
    decreases v, 1, 0
  {
    match v
    case Num(NegativeZero) => Num(Finite(ZERO))
    case Arr(_) => Arr(NormalItems(v, 0))
    case Obj(entries) =>
      SortedKeysAreKeys(entries);
      Obj(NormalEntries(v, SortKeys(Keys(entries))))
    case _ => v
  }

  function NormalItems(v: Value, n: nat): (items: seq<Value>)
    requires v.Arr? && n <= |v.items|
    ensures |items| == |v.items| - n
    decreases v, 0, |v.items| - n
  {
    if n == |v.items| then [] else [Normal(v.items[n])] + NormalItems(v, n + 1)
  }

  function NormalEntries(v: Value, keys: seq<Text>): (entries: seq<Entry>)
    requires v.Obj? && forall key :: key in keys ==> key in Keys(v.entries)
    ensures |entries| == |keys| && forall k :: 0 <= k < |keys| ==> entries[k].key == keys[k]
    decreases v, 0, |keys|
  {
    if keys == [] then []
    else [Entry(keys[0], Normal(v.entries[Find(v.entries, keys[0])].value))] + NormalEntries(v, keys[1..])
  }

  // Reading inverts printing.

  /** What may follow a value: nothing that continues a number. */
  predicate Ends(rest: Text) {
    rest == [] || !NumberUnit(rest[0])
  }

  lemma {:induction false} NumberEnds(text: Text, rest: Text)
    requires (forall k :: 0 <= k < |text| ==> NumberUnit(text[k])) && Ends(rest)
    ensures NumberLength(text + rest) == |text|
  {
    if text == [] {
      assert text + rest == rest;
    } else {
      NumberEnds(text[1..], rest);
      assert (text + rest)[1..] == text[1..] + rest;
    }
  }

  lemma NumberIsRead(text: NumberText, rest: Text)
    requires Ends(rest)
    ensures Read(text + rest) == Some((Num(Finite(text)), rest))
  {
    NumberEnds(text, rest);
    assert (text + rest)[..|text|] == text && (text + rest)[|text|..] == rest;
  }

  lemma WordIsRead(word: Text, v: Value, rest: Text)
    requires word != []
    ensures ReadWord(word + rest, word, v) == Some((v, rest))
  {
    assert word <= word + rest && (word + rest)[|word|..] == rest;
  }

  lemma OpensWithQuote(inner: Text, rest: Text)
    ensures ([QUOTE] + inner + [QUOTE] + rest)[0] == QUOTE
    ensures ([QUOTE] + inner + [QUOTE] + rest)[1..] == inner + ([QUOTE] + rest)
  {
  }

  lemma StringIsRead(s: Text, rest: Text)
    ensures ReadString(Quoted(s) + rest) == Some((s, rest))
  {
    var tail := [QUOTE] + rest;
    UnquoteInverts(s, tail);
    OpensWithQuote(EscapeAll(s), rest);
    assert tail[1..] == rest;
  }

  lemma SimpleIsRead(v: Value, rest: Text)
    requires !v.Arr? && !v.Obj? && Canonical(v).Ok? && Ends(rest)
    ensures Read(Canonical(v).value + rest) == Some((Normal(v), rest))
  {
    match v {
      case Null => WordIsRead(NULL_TEXT, v, rest);
      case Bool(b) => WordIsRead(if b then TRUE_TEXT else FALSE_TEXT, v, rest);
      case Num(NegativeZero) => NumberIsRead(ZERO, rest);
      case Num(Finite(text)) => NumberIsRead(text, rest);
      case Str(s) => StringIsRead(s, rest);
    }
  }

  /** No value starts like the end of an array or object. */
  lemma FirstUnit(v: Value)
    requires Canonical(v).Ok?
    ensures Canonical(v).value != []
    ensures Canonical(v).value[0] != RIGHT_BRACKET
  {
  }

  lemma LastItemIsRead(text: Text, v: Value, rest: Text)
    requires Read(text + ([RIGHT_BRACKET] + rest)) == Some((v, [RIGHT_BRACKET] + rest))
    ensures ReadItems(text + ([RIGHT_BRACKET] + rest)) == Some(([v], rest))
  {
    assert ([RIGHT_BRACKET] + rest)[1..] == rest;
  }

  lemma NextItemIsRead(text: Text, v: Value, more: Text)
    requires Read(text + ([COMMA] + more)) == Some((v, [COMMA] + more)) && ReadItems(more).Some?
    ensures ReadItems(text + ([COMMA] + more)) == Some(([v] + ReadItems(more).value.0, ReadItems(more).value.1))
  {
    assert ([COMMA] + more)[1..] == more;
  }

  lemma LastEntryIsRead(text: Text, e: Entry, rest: Text)
    requires ReadEntry(text + ([RIGHT_BRACE] + rest)) == Some((e, [RIGHT_BRACE] + rest))
    ensures ReadEntries(text + ([RIGHT_BRACE] + rest)) == Some(([e], rest))
  {
    assert ([RIGHT_BRACE] + rest)[1..] == rest;
  }

  lemma NextEntryIsRead(text: Text, e: Entry, more: Text)
    requires ReadEntry(text + ([COMMA] + more)) == Some((e, [COMMA] + more)) && ReadEntries(more).Some?
    ensures ReadEntries(text + ([COMMA] + more)) == Some(([e] + ReadEntries(more).value.0, ReadEntries(more).value.1))
  {
    assert ([COMMA] + more)[1..] == more;
  }

  lemma JoinedBefore(parts: seq<Text>, tail: Text)
    requires |parts| > 1
    ensures Join(parts) + tail == parts[0] + ([COMMA] + (Join(parts[1..]) + tail))
  {
  }

  /** The text of an entry, grouped the way it is read. */
  lemma EntryIsRead(key: Text, text: Text, v: Value, rest: Text)
    requires Read(text + rest) == Some((v, rest))
    ensures ReadEntry((Quoted(key) + [COLON] + text) + rest) == Some((Entry(key, v), rest))
  {
    var after := [COLON] + (text + rest);
    StringIsRead(key, after);
    assert (Quoted(key) + [COLON] + text) + rest == Quoted(key) + after;
    assert after[1..] == text + rest;
  }

  lemma {:induction false} ItemsAreRead(v: Value, n: nat, rest: Text)
    requires v.Arr? && n < |v.items| && CanonicalItems(v, n).Ok?
    ensures ReadItems(Join(CanonicalItems(v, n).value) + ([RIGHT_BRACKET] + rest)) == Some((NormalItems(v, n), rest))
    decreases v, 0, |v.items| - n
  {
    var parts, first := CanonicalItems(v, n).value, Canonical(v.items[n]).value;
    var tail := [RIGHT_BRACKET] + rest;
    if n + 1 == |v.items| {
      assert parts == [first] && Join(parts) == first;
      ValueIsRead(v.items[n], tail);
      LastItemIsRead(first, Normal(v.items[n]), rest);
      assert NormalItems(v, n) == [Normal(v.items[n])];
    } else {
      assert parts[0] == first && parts[1..] == CanonicalItems(v, n + 1).value;
      ItemsAreRead(v, n + 1, rest);
      var more := Join(parts[1..]) + tail;
      ValueIsRead(v.items[n], [COMMA] + more);
      NextItemIsRead(first, Normal(v.items[n]), more);
      JoinedBefore(parts, tail);
    }
  }

  lemma {:induction false} EntriesAreRead(v: Value, keys: seq<Text>, rest: Text)
    requires v.Obj? && keys != [] && forall key :: key in keys ==> key in Keys(v.entries)
    requires CanonicalEntries(v, keys).Ok?
    ensures ReadEntries(Join(CanonicalEntries(v, keys).value) + ([RIGHT_BRACE] + rest))
            == Some((NormalEntries(v, keys), rest))
    decreases v, 0, |keys|
  {
    var value := v.entries[Find(v.entries, keys[0])].value;
    var parts, tail := CanonicalEntries(v, keys).value, [RIGHT_BRACE] + rest;
    var entry := Entry(keys[0], Normal(value));
    if |keys| == 1 {
      assert NormalEntries(v, keys) == [entry];
      assert Join(parts) == parts[0];
      ValueIsRead(value, tail);
      EntryIsRead(keys[0], Canonical(value).value, Normal(value), tail);
      LastEntryIsRead(parts[0], entry, rest);
    } else {
      EntriesAreRead(v, keys[1..], rest);
      var more := Join(parts[1..]) + tail;
      assert parts[1..] == CanonicalEntries(v, keys[1..]).value;
      ValueIsRead(value, [COMMA] + more);
      EntryIsRead(keys[0], Canonical(value).value, Normal(value), [COMMA] + more);
      NextEntryIsRead(parts[0], entry, more);
      JoinedBefore(parts, tail);
    }
  }

  lemma ArrayIsRead(inner: Text, items: seq<Value>, rest: Text)
    requires inner != [] && inner[0] != RIGHT_BRACKET
    requires ReadItems(inner + ([RIGHT_BRACKET] + rest)) == Some((items, rest))
    ensures Read(([LEFT_BRACKET] + inner + [RIGHT_BRACKET]) + rest) == Some((Arr(items), rest))
  {
    var text := ([LEFT_BRACKET] + inner + [RIGHT_BRACKET]) + rest;
    assert text[1..] == inner + ([RIGHT_BRACKET] + rest) && text[1] == inner[0];
  }

  lemma ObjectIsRead(inner: Text, entries: seq<Entry>, rest: Text)
    requires inner != [] && inner[0] != RIGHT_BRACE
    requires ReadEntries(inner + ([RIGHT_BRACE] + rest)) == Some((entries, rest))
    ensures Read(([LEFT_BRACE] + inner + [RIGHT_BRACE]) + rest) == Some((Obj(entries), rest))
  {
    var text := ([LEFT_BRACE] + inner + [RIGHT_BRACE]) + rest;
    assert text[1..] == inner + ([RIGHT_BRACE] + rest) && text[1] == inner[0];
  }

  lemma EmptyIsRead(rest: Text)
    ensures Read([LEFT_BRACKET] + Join([]) + [RIGHT_BRACKET] + rest) == Some((Arr([]), rest))
    ensures Read([LEFT_BRACE] + Join([]) + [RIGHT_BRACE] + rest) == Some((Obj([]), rest))
  {
    assert [LEFT_BRACKET] + Join([]) + [RIGHT_BRACKET] + rest == [LEFT_BRACKET, RIGHT_BRACKET] + rest;
    assert [LEFT_BRACE] + Join([]) + [RIGHT_BRACE] + rest == [LEFT_BRACE, RIGHT_BRACE] + rest;
  }

  /** Reading what was printed gives the value back, whatever follows it. */
  lemma {:induction false} ValueIsRead(v: Value, rest: Text)
    requires Canonical(v).Ok? && Ends(rest)
    ensures Read(Canonical(v).value + rest) == Some((Normal(v), rest))
    decreases v, 1, 0
  {
    if v.Arr? {
      var parts := CanonicalItems(v, 0).value;
      if v.items == [] {
        EmptyIsRead(rest);
      } else {
        ItemsAreRead(v, 0, rest);
        FirstUnit(v.items[0]);
        ArrayIsRead(Join(parts), NormalItems(v, 0), rest);
      }
    } else if v.Obj? {
      SortHolds(Keys(v.entries));
      var keys := SortKeys(Keys(v.entries));
      var parts := CanonicalEntries(v, keys).value;
      if keys == [] {
        EmptyIsRead(rest);
      } else {
        EntriesAreRead(v, keys, rest);
        ObjectIsRead(Join(parts), NormalEntries(v, keys), rest);
      }
    } else {
      SimpleIsRead(v, rest);
    }
  }

  // Equal texts stand for equal values.

  lemma {:induction false} NormalItemAt(v: Value, n: nat, k: nat)
    requires v.Arr? && n <= k < |v.items|
    ensures NormalItems(v, n)[k - n] == Normal(v.items[k])
    decreases k - n
  {
    if n < k {
      NormalItemAt(v, n + 1, k);
    }
  }

  lemma {:induction false} NormalEntryAt(v: Value, keys: seq<Text>, k: nat)
    requires v.Obj? && k < |keys| && forall key :: key in keys ==> key in Keys(v.entries)
    ensures NormalEntries(v, keys)[k].value == Normal(v.entries[Find(v.entries, keys[k])].value)
    decreases k
  {
    if k > 0 {
      NormalEntryAt(v, keys[1..], k - 1);
    }
  }

  lemma EntriesTellKeys(a: Value, b: Value)
    requires a.Obj? && b.Obj? && Normal(a) == Normal(b)
    ensures SortKeys(Keys(a.entries)) == SortKeys(Keys(b.entries))
  {
    SortHolds(Keys(a.entries));
    SortHolds(Keys(b.entries));
    var keys, keys' := SortKeys(Keys(a.entries)), SortKeys(Keys(b.entries));
    assert NormalEntries(a, keys) == NormalEntries(b, keys');
    assert |keys| == |keys'|;
    assert forall k :: 0 <= k < |keys| ==> keys[k] == NormalEntries(a, keys)[k].key;
  }

  lemma {:induction false} NormalDetermines(a: Value, b: Value)
    requires Keyed(a) && Keyed(b) && Normal(a) == Normal(b)
    ensures Same(a, b)
    decreases a
  {
    if a.Arr? {
      assert NormalItems(a, 0) == NormalItems(b, 0);
      forall k | 0 <= k < |a.items|
        ensures Same(a.items[k], b.items[k])
      {
        NormalItemAt(a, 0, k);
        NormalItemAt(b, 0, k);
        NormalDetermines(a.items[k], b.items[k]);
      }
    } else if a.Obj? {
      EntriesTellKeys(a, b);
      SortIsCanonical(a.entries, b.entries);
      SortHolds(Keys(a.entries));
      forall key | key in Keys(a.entries) && key in Keys(b.entries)
        ensures Same(a.entries[Find(a.entries, key)].value, b.entries[Find(b.entries, key)].value)
      {
        EntryDetermines(a, b, key);
        NormalDetermines(a.entries[Find(a.entries, key)].value, b.entries[Find(b.entries, key)].value);
      }
    }
  }

  lemma EntryDetermines(a: Value, b: Value, key: Text)
    requires a.Obj? && b.Obj? && Normal(a) == Normal(b) && key in Keys(a.entries) && key in Keys(b.entries)
    ensures Normal(a.entries[Find(a.entries, key)].value) == Normal(b.entries[Find(b.entries, key)].value)
  {
    EntriesTellKeys(a, b);
    SortHolds(Keys(a.entries));
    SortHolds(Keys(b.entries));
    var keys := SortKeys(Keys(a.entries));
    assert key in keys;
    var k :| 0 <= k < |keys| && keys[k] == key;
    NormalEntryAt(a, keys, k);
    NormalEntryAt(b, keys, k);
    assert NormalEntries(a, keys) == NormalEntries(b, keys);
  }

  /** Two values are printed equally exactly when they are equal with objects
      taken as maps and -0 taken as 0. */
  lemma TextDeterminesValue(a: Value, b: Value)
    requires Keyed(a) && Keyed(b) && Canonical(a).Ok? && Canonical(b).Ok?
    ensures Canonical(a) == Canonical(b) <==> Same(a, b)
  {
    if Canonical(a) == Canonical(b) {
      ValueIsRead(a, []);
      ValueIsRead(b, []);
      NormalDetermines(a, b);
    }
    if Same(a, b) {
      SamePrintsSame(a, b);
    }
  }
}
