/** The canonical JSON whose digest identifies a packaged profile. The text
    determines the value, up to the order of keys and the sign of zero. */
module CanonicalJson {
  import opened Common
  import opened JsonText

  predicate NumberUnit(u: Unit) {
    48 <= u < 58 || u == 43 || u == 45 || u == 46 || u == 101
  }

  predicate IsNumberText(text: Text) {
    text != [] && (48 <= text[0] < 58 || text[0] == 45) && forall k :: 0 <= k < |text| ==> NumberUnit(text[k])
  }

  type NumberText = text: Text | IsNumberText(text) witness [48]

  const ZERO: NumberText := [48]

  /** A finite number other than -0 is identified with what `JSON.stringify`
      prints for it. */
  datatype Number = NonFinite | NegativeZero | Finite(text: NumberText)

  /** An object lists its entries in the order of `Object.keys`. */
  datatype Value =
    | Null
    | Bool(b: bool)
    | Num(n: Number)
    | Str(s: Text)
    | Arr(items: seq<Value>)
    | Obj(entries: seq<Entry>)
    | Unsupported(kind: string)

  datatype Entry = Entry(key: Text, value: Value)

  datatype TypeError = NonFiniteNumber | UnsupportedValue(kind: string)

  function Keys(entries: seq<Entry>): (keys: seq<Text>)
    ensures |keys| == |entries| && forall k :: 0 <= k < |keys| ==> keys[k] == entries[k].key
  {
    seq(|entries|, k requires 0 <= k < |entries| => entries[k].key)
  }

  /** Where an object keeps a key. */
  function Find(entries: seq<Entry>, key: Text): (k: nat)
    requires key in Keys(entries)
    ensures k < |entries| && entries[k].key == key
  {
    if entries[0].key == key then 0
    else
      assert forall k :: 1 <= k < |entries| ==> Keys(entries)[k] == Keys(entries[1..])[k - 1];
      1 + Find(entries[1..], key)
  }

  ghost predicate DistinctKeys(entries: seq<Entry>) {
    forall i, j :: 0 <= i < j < |entries| ==> entries[i].key != entries[j].key
  }

  /** Objects anywhere inside have no key twice. */
  ghost predicate Keyed(v: Value) {
    match v
    case Arr(items) => forall k :: 0 <= k < |items| ==> Keyed(items[k])
    case Obj(entries) => DistinctKeys(entries) && forall k :: 0 <= k < |entries| ==> Keyed(entries[k].value)
    case _ => true
  }

  // Sorting the keys.

  function Insert(key: Text, keys: seq<Text>): seq<Text> {
    if keys == [] || CompareText(key, keys[0]) <= 0 then [key] + keys else [keys[0]] + Insert(key, keys[1..])
  }

  function SortKeys(keys: seq<Text>): seq<Text> {
    if keys == [] then [] else Insert(keys[0], SortKeys(keys[1..]))
  }

  lemma {:induction false} InsertHolds(key: Text, keys: seq<Text>)
    ensures forall k :: k in Insert(key, keys) <==> k == key || k in keys
  {
    if keys != [] && CompareText(key, keys[0]) > 0 {
      InsertHolds(key, keys[1..]);
      assert keys == [keys[0]] + keys[1..];
    }
  }

  lemma {:induction false} SortHolds(keys: seq<Text>)
    ensures forall k :: k in SortKeys(keys) <==> k in keys
  {
    if keys != [] {
      SortHolds(keys[1..]);
      InsertHolds(keys[0], SortKeys(keys[1..]));
      assert keys == [keys[0]] + keys[1..];
    }
  }

  lemma SortedKeysAreKeys(entries: seq<Entry>)
    ensures forall key :: key in SortKeys(Keys(entries)) ==> key in Keys(entries)
  {
    SortHolds(Keys(entries));
  }

  ghost predicate Ascending(keys: seq<Text>) {
    forall i, j :: 0 <= i < j < |keys| ==> Less(keys[i], keys[j])
  }

  ghost predicate Distinct(keys: seq<Text>) {
    forall i, j :: 0 <= i < j < |keys| ==> keys[i] != keys[j]
  }

  lemma {:induction false} InsertKeeps(key: Text, keys: seq<Text>)
    requires Ascending(keys) && key !in keys
    ensures Ascending(Insert(key, keys))
  {
    if keys != [] {
      LessIsTotal(key, keys[0]);
      if Less(key, keys[0]) {
        forall k | 0 <= k < |keys|
          ensures Less(key, keys[k])
        {
          if k > 0 {
            LessIsTransitive(key, keys[0], keys[k]);
          }
        }
      } else {
        InsertKeeps(key, keys[1..]);
        InsertHolds(key, keys[1..]);
        var rest := Insert(key, keys[1..]);
        forall k | 0 <= k < |rest|
          ensures Less(keys[0], rest[k])
        {
          assert rest[k] in rest;
        }
      }
    }
  }

  lemma {:induction false} SortKeysSorts(keys: seq<Text>)
    requires Distinct(keys)
    ensures Ascending(SortKeys(keys))
  {
    if keys != [] {
      SortKeysSorts(keys[1..]);
      SortHolds(keys[1..]);
      InsertKeeps(keys[0], SortKeys(keys[1..]));
    }
  }

  /** An ascending arrangement is determined by the keys it holds. */
  lemma {:induction false} AscendingIsUnique(a: seq<Text>, b: seq<Text>)
    requires Ascending(a) && Ascending(b)
    requires forall key :: key in a <==> key in b
    ensures a == b
  {
    assert a != [] ==> a[0] in a;
    assert b != [] ==> b[0] in b;
    if a != [] {
      SmallestFirst(a, b);
      forall key
        ensures key in a[1..] <==> key in b[1..]
      {
        InTail(a, key);
        InTail(b, key);
      }
      AscendingIsUnique(a[1..], b[1..]);
      assert a == [a[0]] + a[1..] && b == [b[0]] + b[1..];
    }
  }

  lemma SmallestFirst(a: seq<Text>, b: seq<Text>)
    requires Ascending(a) && Ascending(b) && a != [] && b != []
    requires forall key :: key in a <==> key in b
    ensures a[0] == b[0]
  {
    assert a[0] in a && b[0] in b;
    var i :| 0 <= i < |b| && b[i] == a[0];
    var j :| 0 <= j < |a| && a[j] == b[0];
    LessIsTotal(a[0], b[0]);
  }

  lemma InTail(keys: seq<Text>, key: Text)
    requires Ascending(keys) && keys != []
    ensures key in keys[1..] <==> key in keys && key != keys[0]
  {
    LessIsTotal(keys[0], keys[0]);
  }

  // Printing.

  const NULL_TEXT: Text := [110, 117, 108, 108]
  const TRUE_TEXT: Text := [116, 114, 117, 101]
  const FALSE_TEXT: Text := [102, 97, 108, 115, 101]

  function Join(parts: seq<Text>): Text {
    if parts == [] then []
    else if |parts| == 1 then parts[0]
    else parts[0] + [COMMA] + Join(parts[1..])
  }

  function Canonical(v: Value): Result<Text, TypeError>
    decreases v, 1, 0
  {
    match v
    case Null => Ok(NULL_TEXT)
    case Bool(b) => Ok(if b then TRUE_TEXT else FALSE_TEXT)
    case Num(NonFinite) => Err(NonFiniteNumber)
    case Num(NegativeZero) => Ok(ZERO)
    case Num(Finite(text)) => Ok(text)
    case Str(s) => Ok(Quoted(s))
    case Arr(_) =>
      var parts := CanonicalItems(v, 0);
      if parts.Err? then Err(parts.error) else Ok([LEFT_BRACKET] + Join(parts.value) + [RIGHT_BRACKET])
    case Obj(entries) =>
      SortedKeysAreKeys(entries);
      var parts := CanonicalEntries(v, SortKeys(Keys(entries)));
      if parts.Err? then Err(parts.error) else Ok([LEFT_BRACE] + Join(parts.value) + [RIGHT_BRACE])
    case Unsupported(kind) => Err(UnsupportedValue(kind))
  }

  /** The printed items from the n-th on. */
  function CanonicalItems(v: Value, n: nat): (r: Result<seq<Text>, TypeError>)
    requires v.Arr? && n <= |v.items|
    ensures r.Ok? ==> |r.value| == |v.items| - n
    decreases v, 0, |v.items| - n
  {
    if n == |v.items| then Ok([])
    else
      var item := Canonical(v.items[n]);
      if item.Err? then Err(item.error)
      else
        var more := CanonicalItems(v, n + 1);
        if more.Err? then Err(more.error) else Ok([item.value] + more.value)
  }

  /** The printed members of an object for some of its keys. */
  function CanonicalEntries(v: Value, keys: seq<Text>): (r: Result<seq<Text>, TypeError>)
    requires v.Obj? && forall key :: key in keys ==> key in Keys(v.entries)
    ensures r.Ok? ==> |r.value| == |keys|
    decreases v, 0, |keys|
  {
    if keys == [] then Ok([])
    else
      var value := Canonical(v.entries[Find(v.entries, keys[0])].value);
      if value.Err? then Err(value.error)
      else
        var more := CanonicalEntries(v, keys[1..]);
        if more.Err? then Err(more.error) else Ok([Quoted(keys[0]) + [COLON] + value.value] + more.value)
  }

  // Equality of values: objects as maps, -0 as 0.

  ghost predicate SameNumber(a: Number, b: Number) {
    a == b || (a in {NegativeZero, Finite(ZERO)} && b in {NegativeZero, Finite(ZERO)})
  }

  ghost predicate Same(a: Value, b: Value)
    decreases a
  {
    match a
    case Num(n) => b.Num? && SameNumber(n, b.n)
    case Arr(items) => b.Arr? && |items| == |b.items| && forall k :: 0 <= k < |items| ==> Same(items[k], b.items[k])
    case Obj(entries) =>
      && b.Obj?
      && (forall key :: key in Keys(entries) <==> key in Keys(b.entries))
      && (forall key :: key in Keys(entries) && key in Keys(b.entries) ==>
            Same(entries[Find(entries, key)].value, b.entries[Find(b.entries, key)].value))
    case _ => a == b
  }

  lemma SortIsCanonical(a: seq<Entry>, b: seq<Entry>)
    requires DistinctKeys(a) && DistinctKeys(b)
    ensures SortKeys(Keys(a)) == SortKeys(Keys(b)) <==> (forall key :: key in Keys(a) <==> key in Keys(b))
  {
    SortHolds(Keys(a));
    SortHolds(Keys(b));
    SortKeysSorts(Keys(a));
    SortKeysSorts(Keys(b));
    if forall key :: key in Keys(a) <==> key in Keys(b) {
      AscendingIsUnique(SortKeys(Keys(a)), SortKeys(Keys(b)));
    }
  }

  // The same value is printed the same.

  lemma {:induction false} SameItemsPrintSame(a: Value, b: Value, n: nat)
    requires a.Arr? && b.Arr? && Same(a, b) && Keyed(a) && Keyed(b) && n <= |a.items|
    ensures CanonicalItems(a, n) == CanonicalItems(b, n)
    decreases a, 0, |a.items| - n
  {
    if n < |a.items| {
      SamePrintsSame(a.items[n], b.items[n]);
      SameItemsPrintSame(a, b, n + 1);
    }
  }

  lemma {:induction false} SameEntriesPrintSame(a: Value, b: Value, keys: seq<Text>)
    requires a.Obj? && b.Obj? && Same(a, b) && Keyed(a) && Keyed(b)
    requires forall key :: key in keys ==> key in Keys(a.entries)
    ensures CanonicalEntries(a, keys) == CanonicalEntries(b, keys)
    decreases a, 0, |keys|
  {
    if keys != [] {
      assert keys[0] in keys;
      SamePrintsSame(a.entries[Find(a.entries, keys[0])].value, b.entries[Find(b.entries, keys[0])].value);
      SameEntriesPrintSame(a, b, keys[1..]);
    }
  }

  lemma {:induction false} SamePrintsSame(a: Value, b: Value)
    requires Keyed(a) && Keyed(b) && Same(a, b)
    ensures Canonical(a) == Canonical(b)
    decreases a, 1, 0
  {
    if a.Arr? {
      SameItemsPrintSame(a, b, 0);
    } else if a.Obj? {
      SortIsCanonical(a.entries, b.entries);
      SortHolds(Keys(a.entries));
      SameEntriesPrintSame(a, b, SortKeys(Keys(a.entries)));
    }
  }

  // Which values have a canonical text.

  ghost predicate Supported(v: Value) {
    match v
    case Num(n) => !n.NonFinite?
    case Arr(items) => forall k :: 0 <= k < |items| ==> Supported(items[k])
    case Obj(entries) => forall k :: 0 <= k < |entries| ==> Supported(entries[k].value)
    case Unsupported(_) => false
    case _ => true
  }

  lemma {:induction false} ItemsSupported(v: Value, n: nat)
    requires v.Arr? && Keyed(v) && n <= |v.items|
    ensures CanonicalItems(v, n).Ok? <==> forall k :: n <= k < |v.items| ==> Supported(v.items[k])
    decreases v, 0, |v.items| - n
  {
    if n < |v.items| {
      PrintsSupported(v.items[n]);
      ItemsSupported(v, n + 1);
    }
  }

  lemma {:induction false} EntriesSupported(v: Value, keys: seq<Text>)
    requires v.Obj? && Keyed(v) && forall key :: key in keys ==> key in Keys(v.entries)
    ensures CanonicalEntries(v, keys).Ok? <==>
      forall key :: key in keys ==> Supported(v.entries[Find(v.entries, key)].value)
    decreases v, 0, |keys|
  {
    if keys != [] {
      PrintsSupported(v.entries[Find(v.entries, keys[0])].value);
      EntriesSupported(v, keys[1..]);
      assert keys == [keys[0]] + keys[1..];
    }
  }

  lemma FoundAt(entries: seq<Entry>, k: nat)
    requires DistinctKeys(entries) && k < |entries|
    ensures entries[k].key in Keys(entries) && Find(entries, entries[k].key) == k
  {
    assert Keys(entries)[k] == entries[k].key;
  }

  /** Printing fails exactly on values with a non-finite number or an
      unsupported part. */
  lemma {:induction false} PrintsSupported(v: Value)
    requires Keyed(v)
    ensures Canonical(v).Ok? <==> Supported(v)
    decreases v, 1, 0
  {
    if v.Arr? {
      ItemsSupported(v, 0);
    } else if v.Obj? {
      SortHolds(Keys(v.entries));
      EntriesSupported(v, SortKeys(Keys(v.entries)));
      forall k | 0 <= k < |v.entries|
        ensures v.entries[k].key in Keys(v.entries) && Find(v.entries, v.entries[k].key) == k
      {
        FoundAt(v.entries, k);
      }
    }
  }

  // Canonical text is well-formed Unicode, so its digest covers all of it.

  lemma {:induction false} JoinIsPaired(parts: seq<Text>)
    requires forall k :: 0 <= k < |parts| ==> Paired(parts[k])
    ensures Paired(Join(parts))
  {
    if |parts| > 1 {
      JoinIsPaired(parts[1..]);
      PlainIsPaired([COMMA]);
      PairedConcat(parts[0], [COMMA]);
      PairedConcat(parts[0] + [COMMA], Join(parts[1..]));
    }
  }

  lemma BracketsArePaired(open: Unit, inner: Text, close: Unit)
    requires Paired(inner) && open < 0xD800 && close < 0xD800
    ensures Paired([open] + inner + [close])
  {
    PlainIsPaired([open]);
    PlainIsPaired([close]);
    PairedConcat([open], inner);
    PairedConcat([open] + inner, [close]);
  }

  lemma QuotedIsPaired(s: Text)
    ensures Paired(Quoted(s))
  {
    EscapedIsPaired(s);
    BracketsArePaired(QUOTE, EscapeAll(s), QUOTE);
  }

  lemma {:induction false} ItemsArePaired(v: Value, n: nat)
    requires v.Arr? && n <= |v.items| && CanonicalItems(v, n).Ok?
    ensures forall k :: 0 <= k < |v.items| - n ==> Paired(CanonicalItems(v, n).value[k])
    decreases v, 0, |v.items| - n
  {
    if n < |v.items| {
      CanonicalIsPaired(v.items[n]);
      ItemsArePaired(v, n + 1);
    }
  }

  lemma {:induction false} EntriesArePaired(v: Value, keys: seq<Text>)
    requires v.Obj? && (forall key :: key in keys ==> key in Keys(v.entries)) && CanonicalEntries(v, keys).Ok?
    ensures forall k :: 0 <= k < |keys| ==> Paired(CanonicalEntries(v, keys).value[k])
    decreases v, 0, |keys|
  {
    if keys != [] {
      var value := v.entries[Find(v.entries, keys[0])].value;
      CanonicalIsPaired(value);
      EntriesArePaired(v, keys[1..]);
      QuotedIsPaired(keys[0]);
      PlainIsPaired([COLON]);
      PairedConcat(Quoted(keys[0]), [COLON]);
      PairedConcat(Quoted(keys[0]) + [COLON], Canonical(value).value);
    }
  }

  lemma {:induction false} CanonicalIsPaired(v: Value)
    requires Canonical(v).Ok?
    ensures Paired(Canonical(v).value)
    decreases v, 1, 0
  {
    if v.Arr? {
      var parts := CanonicalItems(v, 0).value;
      ItemsArePaired(v, 0);
      JoinIsPaired(parts);
      BracketsArePaired(LEFT_BRACKET, Join(parts), RIGHT_BRACKET);
    } else if v.Obj? {
      SortHolds(Keys(v.entries));
      var parts := CanonicalEntries(v, SortKeys(Keys(v.entries))).value;
      EntriesArePaired(v, SortKeys(Keys(v.entries)));
      JoinIsPaired(parts);
      BracketsArePaired(LEFT_BRACE, Join(parts), RIGHT_BRACE);
    } else if v.Str? {
      QuotedIsPaired(v.s);
    } else {
      PlainIsPaired(Canonical(v).value);
    }
  }

  // What is printed, by the letter.

  /** The keys of an object are printed in ascending order: each later key
      continues the earlier one or has the larger unit at the first difference. */
  lemma KeysAscendByUnit(entries: seq<Entry>, i: nat, j: nat) returns (n: nat)
    requires DistinctKeys(entries) && i < j < |SortKeys(Keys(entries))|
    ensures DivergesAt(SortKeys(Keys(entries))[i], SortKeys(Keys(entries))[j], n)
  {
    SortKeysSorts(Keys(entries));
    n := LessDiverges(SortKeys(Keys(entries))[i], SortKeys(Keys(entries))[j]);
  }

  lemma {:induction false} EntryText(v: Value, keys: seq<Text>, k: nat)
    requires v.Obj? && (forall key :: key in keys ==> key in Keys(v.entries))
    requires CanonicalEntries(v, keys).Ok? && k < |keys|
    ensures var value := Canonical(v.entries[Find(v.entries, keys[k])].value);
      value.Ok? && CanonicalEntries(v, keys).value[k] == Quoted(keys[k]) + [58] + value.value
    decreases k
  {
    if k > 0 {
      EntryText(v, keys[1..], k - 1);
    }
  }

  lemma {:induction false} ItemText(v: Value, n: nat, k: nat)
    requires v.Arr? && n <= k < |v.items| && CanonicalItems(v, n).Ok?
    ensures Canonical(v.items[k]).Ok? && CanonicalItems(v, n).value[k - n] == Canonical(v.items[k]).value
    decreases k - n
  {
    if n < k {
      ItemText(v, n + 1, k);
    }
  }

  /** One comma between any two parts. */
  lemma JoinByTheLetter(first: Text, rest: seq<Text>)
    ensures Join([]) == [] && Join([first]) == first
    ensures rest != [] ==> Join([first] + rest) == first + [44] + Join(rest)
  {
    assert ([first] + rest)[1..] == rest;
  }

  lemma ScalarsByTheLetter(s: Text, text: NumberText)
    ensures Canonical(Null) == Ok([110, 117, 108, 108])
    ensures Canonical(Bool(true)) == Ok([116, 114, 117, 101])
    ensures Canonical(Bool(false)) == Ok([102, 97, 108, 115, 101])
    ensures Canonical(Num(NegativeZero)) == Ok([48])
    ensures Canonical(Num(Finite(text))) == Ok(text)
    ensures Canonical(Str(s)) == Ok([34] + EscapeAll(s) + [34])
  {
  }

  /** An array is its items, printed in order, between brackets. */
  lemma ArraysByTheLetter(items: seq<Value>) returns (parts: seq<Text>)
    requires Canonical(Arr(items)).Ok?
    ensures |parts| == |items| && Canonical(Arr(items)) == Ok([91] + Join(parts) + [93])
    ensures forall k :: 0 <= k < |items| ==> Canonical(items[k]) == Ok(parts[k])
  {
    parts := CanonicalItems(Arr(items), 0).value;
    forall k | 0 <= k < |items|
      ensures Canonical(items[k]) == Ok(parts[k])
    {
      ItemText(Arr(items), 0, k);
    }
  }

  /** The key, quoted, a colon and the value the object has for it. */
  ghost predicate IsMember(entries: seq<Entry>, key: Text, part: Text) {
    exists i :: 0 <= i < |entries| && entries[i].key == key && Canonical(entries[i].value).Ok?
             && part == [34] + EscapeAll(key) + [34] + [58] + Canonical(entries[i].value).value
  }

  lemma MemberText(entries: seq<Entry>, keys: seq<Text>, k: nat)
    requires (forall key :: key in keys ==> key in Keys(entries)) && k < |keys|
    requires CanonicalEntries(Obj(entries), keys).Ok?
    ensures IsMember(entries, keys[k], CanonicalEntries(Obj(entries), keys).value[k])
  {
    EntryText(Obj(entries), keys, k);
    assert entries[Find(entries, keys[k])].key == keys[k];
  }

  /** An object is its members in the order of its sorted keys, with commas,
      between braces. */
  lemma ObjectsByTheLetter(entries: seq<Entry>) returns (parts: seq<Text>)
    requires DistinctKeys(entries) && Canonical(Obj(entries)).Ok?
    ensures |parts| == |SortKeys(Keys(entries))|
    ensures Canonical(Obj(entries)) == Ok([123] + Join(parts) + [125])
    ensures forall k :: 0 <= k < |parts| ==> IsMember(entries, SortKeys(Keys(entries))[k], parts[k])
  {
    var keys := SortKeys(Keys(entries));
    SortHolds(Keys(entries));
    parts := CanonicalEntries(Obj(entries), keys).value;
    forall k | 0 <= k < |parts|
      ensures IsMember(entries, keys[k], parts[k])
    {
      MemberText(entries, keys, k);
    }
  }
}
