/** Text as JavaScript sees it: UTF-16 code units, their order, and how
    `JSON.stringify` quotes them (section 7 of RFC 8259). */
module JsonText {
  import opened Common

  type Unit = n: int | 0 <= n < 0x1_0000

  type Text = seq<Unit>

  const QUOTE: Unit := 34
  const COMMA: Unit := 44
  const COLON: Unit := 58
  const LEFT_BRACKET: Unit := 91
  const BACKSLASH: Unit := 92
  const RIGHT_BRACKET: Unit := 93
  const LEFT_BRACE: Unit := 123
  const RIGHT_BRACE: Unit := 125

  // The order of the keys: by code unit, as in section 3.2.3 of RFC 8785.

  predicate Less(left: Text, right: Text) {
    if left == [] || right == [] then left == [] && right != []
    else if left[0] != right[0] then left[0] < right[0]
    else Less(left[1..], right[1..])
  }

  function CompareText(left: Text, right: Text): int {
    if Less(left, right) then -1 else if Less(right, left) then 1 else 0
  }

  lemma {:induction false} LessIsTotal(left: Text, right: Text)
    ensures !(Less(left, right) && Less(right, left))
    ensures Less(left, right) || Less(right, left) || left == right
    ensures !Less(left, left)
  {
    if left != [] && right != [] && left[0] == right[0] {
      LessIsTotal(left[1..], right[1..]);
      assert left == [left[0]] + left[1..] && right == [right[0]] + right[1..];
    }
    if left != [] {
      LessIsTotal(left[1..], left[1..]);
    }
  }

  lemma {:induction false} LessIsTransitive(a: Text, b: Text, c: Text)
    requires Less(a, b) && Less(b, c)
    ensures Less(a, c)
  {
    if a != [] && a[0] == b[0] == c[0] {
      LessIsTransitive(a[1..], b[1..], c[1..]);
    }
  }

  /** `compareText` is a comparison function: its sign tells the two orders and
      equality apart, and swapping the arguments flips it. */
  lemma ComparesConsistently(left: Text, right: Text)
    ensures CompareText(left, right) == 0 <==> left == right
    ensures CompareText(left, right) == -CompareText(right, left)
  {
    LessIsTotal(left, right);
  }

  /** At the first difference the smaller unit comes first. */
  lemma {:induction false} ComparesByUnit(p: Text, x: Unit, a: Text, y: Unit, b: Text)
    requires x < y
    ensures CompareText(p + [x] + a, p + [y] + b) == -1
    ensures CompareText(p + [y] + b, p + [x] + a) == 1
  {
    var left, right := p + [x] + a, p + [y] + b;
    if p == [] {
      assert left[0] == x && right[0] == y;
    } else {
      assert left[0] == right[0] == p[0];
      assert left[1..] == p[1..] + [x] + a && right[1..] == p[1..] + [y] + b;
      ComparesByUnit(p[1..], x, a, y, b);
    }
    LessIsTotal(left, right);
  }

  /** A proper prefix comes first. */
  lemma {:induction false} PrefixComesFirst(p: Text, x: Unit, a: Text)
    ensures CompareText(p, p + [x] + a) == -1
    ensures CompareText(p + [x] + a, p) == 1
  {
    var longer := p + [x] + a;
    if p != [] {
      assert longer[0] == p[0] && longer[1..] == p[1..] + [x] + a;
      PrefixComesFirst(p[1..], x, a);
    }
    LessIsTotal(p, longer);
  }

  /** The two agree on `n` units; then the left one ends, or has the smaller unit. */
  predicate DivergesAt(left: Text, right: Text, n: nat) {
    && n <= |left| && n < |right| && left[..n] == right[..n]
    && (n == |left| || left[n] < right[n])
  }

  lemma {:induction false} LessDiverges(left: Text, right: Text) returns (n: nat)
    requires Less(left, right)
    ensures DivergesAt(left, right, n)
  {
    if left == [] || left[0] != right[0] {
      n := 0;
    } else {
      n := LessDiverges(left[1..], right[1..]);
      n := n + 1;
      assert left[..n] == [left[0]] + left[1..][..n - 1] && right[..n] == [right[0]] + right[1..][..n - 1];
    }
  }

  // Quoting.

  predicate High(u: Unit) {
    0xD800 <= u < 0xDC00
  }

  predicate Low(u: Unit) {
    0xDC00 <= u < 0xE000
  }

  function HexDigit(n: int): Unit
    requires 0 <= n < 16
  {
    if n < 10 then 48 + n else 87 + n
  }

  function HexValue(u: Unit): Option<int> {
    if 48 <= u < 58 then Some(u - 48) else if 97 <= u < 103 then Some(u - 87) else None
  }

  /** The letter of a two-character escape. */
  function Short(u: Unit): Option<Unit> {
    if u == 8 then Some(98)
    else if u == 9 then Some(116)
    else if u == 10 then Some(110)
    else if u == 12 then Some(102)
    else if u == 13 then Some(114)
    else if u == QUOTE || u == BACKSLASH then Some(u)
    else None
  }

  function Unshort(u: Unit): Option<Unit> {
    if u == 98 then Some(8)
    else if u == 116 then Some(9)
    else if u == 110 then Some(10)
    else if u == 102 then Some(12)
    else if u == 114 then Some(13)
    else if u == QUOTE || u == BACKSLASH then Some(u)
    else None
  }

  function HexEscape(u: Unit): Text {
    var low12 := u % 4096;
    var low8 := low12 % 256;
    [BACKSLASH, 117, HexDigit(u / 4096), HexDigit(low12 / 256), HexDigit(low8 / 16), HexDigit(low8 % 16)]
  }

  /** A unit outside a surrogate pair. */
  function Escape(u: Unit): Text {
    if Short(u).Some? then [BACKSLASH, Short(u).value]
    else if u < 32 || High(u) || Low(u) then HexEscape(u)
    else [u]
  }

  /** The escapes as they are written: the short ones, lower-case hexadecimal
      for the other controls and for lone surrogates, everything else as it is. */
  lemma EscapesAreStandard()
    ensures Escape(8) == [92, 98] && Escape(9) == [92, 116] && Escape(10) == [92, 110]
    ensures Escape(12) == [92, 102] && Escape(13) == [92, 114]
    ensures Escape(34) == [92, 34] && Escape(92) == [92, 92]
    ensures Escape(0) == [92, 117, 48, 48, 48, 48] && Escape(31) == [92, 117, 48, 48, 49, 102]
    ensures Escape(0xD83D) == [92, 117, 100, 56, 51, 100] && Escape(0xDC0A) == [92, 117, 100, 99, 48, 97]
    ensures forall u: Unit :: u >= 32 && u != 34 && u != 92 && !(0xD800 <= u < 0xE000) ==> Escape(u) == [u]
    ensures forall u: Unit :: u < 32 && u !in {8, 9, 10, 12, 13} ==> |Escape(u)| == 6
  {
  }

  predicate StartsWithPair(text: Text) {
    |text| >= 2 && High(text[0]) && Low(text[1])
  }

  function EscapeAll(text: Text): Text {
    if text == [] then []
    else if StartsWithPair(text) then text[..2] + EscapeAll(text[2..])
    else Escape(text[0]) + EscapeAll(text[1..])
  }

  function Quoted(text: Text): Text {
    [QUOTE] + EscapeAll(text) + [QUOTE]
  }

  // Reading quoted text.

  /** The unit at the start of the text, and how many units it is written with. */
  function Unescape(text: Text): (r: Option<(Unit, nat)>)
    requires text != []
    ensures r.Some? ==> 1 <= r.value.1 <= |text|
  {
    if text[0] != BACKSLASH then Some((text[0], 1))
    else if |text| < 2 then None
    else if Unshort(text[1]).Some? then Some((Unshort(text[1]).value, 2))
    else if text[1] != 117 || |text| < 6 then None
    else
      var a, b, c, d := HexValue(text[2]), HexValue(text[3]), HexValue(text[4]), HexValue(text[5]);
      if a.None? || b.None? || c.None? || d.None? then None
      else Some((a.value * 4096 + b.value * 256 + c.value * 16 + d.value, 6))
  }

  /** The string whose opening quote has been read, and what follows it. */
  function Unquote(text: Text): (r: Option<(Text, Text)>)
    ensures r.Some? ==> |r.value.1| < |text|
    decreases |text|
  {
    if text == [] then None
    else if text[0] == QUOTE then Some(([], text[1..]))
    else
      var unit := Unescape(text);
      if unit.None? then None
      else
        var more := Unquote(text[unit.value.1..]);
        if more.None? then None else Some(([unit.value.0] + more.value.0, more.value.1))
  }

  lemma HexReads(n: int)
    requires 0 <= n < 16
    ensures HexValue(HexDigit(n)) == Some(n)
  {
  }

  lemma UnescapeInverts(u: Unit, rest: Text)
    ensures Escape(u) != [] && Escape(u)[0] != QUOTE
    ensures Unescape(Escape(u) + rest) == Some((u, |Escape(u)|))
  {
    var low12 := u % 4096;
    var low8 := low12 % 256;
    HexReads(u / 4096);
    HexReads(low12 / 256);
    HexReads(low8 / 16);
    HexReads(low8 % 16);
    assert Unshort(117).None?;
  }

  /** Reading one unit, however it is written, and then the rest. */
  lemma UnquoteOne(head: Text, u: Unit, more: Text)
    requires head != [] && head[0] != QUOTE && Unescape(head + more) == Some((u, |head|))
    requires Unquote(more).Some?
    ensures Unquote(head + more) == Some(([u] + Unquote(more).value.0, Unquote(more).value.1))
  {
    assert (head + more)[|head|..] == more;
  }

  lemma UnquotePair(pair: Text, more: Text)
    requires |pair| == 2 && High(pair[0]) && Low(pair[1]) && Unquote(more).Some?
    ensures Unquote(pair + more) == Some((pair + Unquote(more).value.0, Unquote(more).value.1))
  {
    UnquoteOne([pair[1]], pair[1], more);
    UnquoteOne([pair[0]], pair[0], [pair[1]] + more);
    assert pair + more == [pair[0]] + ([pair[1]] + more);
    assert pair + Unquote(more).value.0 == [pair[0]] + ([pair[1]] + Unquote(more).value.0);
  }

  lemma UnquoteUnit(u: Unit, more: Text)
    requires Unquote(more).Some?
    ensures Unquote(Escape(u) + more) == Some(([u] + Unquote(more).value.0, Unquote(more).value.1))
  {
    UnescapeInverts(u, more);
    UnquoteOne(Escape(u), u, more);
  }

  /** Reading what was quoted gives the text back, whatever follows it. */
  lemma {:induction false} UnquoteInverts(text: Text, tail: Text)
    requires tail != [] && tail[0] == QUOTE
    ensures Unquote(EscapeAll(text) + tail) == Some((text, tail[1..]))
    decreases |text|
  {
    if text == [] {
      assert EscapeAll(text) + tail == tail;
    } else if StartsWithPair(text) {
      UnquoteInverts(text[2..], tail);
      UnquotePair(text[..2], EscapeAll(text[2..]) + tail);
      Regroup(text[..2], EscapeAll(text[2..]), tail);
      assert text == text[..2] + text[2..];
    } else {
      UnquoteInverts(text[1..], tail);
      UnquoteUnit(text[0], EscapeAll(text[1..]) + tail);
      Regroup(Escape(text[0]), EscapeAll(text[1..]), tail);
      assert text == [text[0]] + text[1..];
    }
  }

  lemma Regroup(a: Text, b: Text, c: Text)
    ensures (a + b) + c == a + (b + c)
  {
  }

  // Surrogates come in pairs, so encoding as UTF-8 loses nothing.

  predicate Paired(text: Text) {
    if text == [] then true
    else if StartsWithPair(text) then Paired(text[2..])
    else !High(text[0]) && !Low(text[0]) && Paired(text[1..])
  }

  lemma {:induction false} PairedConcat(a: Text, b: Text)
    requires Paired(a) && Paired(b)
    ensures Paired(a + b)
    decreases |a|
  {
    if a == [] {
      assert a + b == b;
    } else if StartsWithPair(a) {
      PairedConcat(a[2..], b);
      assert (a + b)[2..] == a[2..] + b;
    } else {
      PairedConcat(a[1..], b);
      assert (a + b)[1..] == a[1..] + b;
    }
  }

  lemma {:induction false} PlainIsPaired(text: Text)
    requires forall k :: 0 <= k < |text| ==> text[k] < 0xD800
    ensures Paired(text)
  {
    if text != [] {
      PlainIsPaired(text[1..]);
    }
  }

  lemma {:induction false} EscapedIsPaired(text: Text)
    ensures Paired(EscapeAll(text))
    decreases |text|
  {
    if text == [] {
    } else if StartsWithPair(text) {
      EscapedIsPaired(text[2..]);
      assert EscapeAll(text)[2..] == EscapeAll(text[2..]);
    } else {
      EscapedIsPaired(text[1..]);
      var first := Escape(text[0]);
      assert Paired(first) by {
        if |first| == 1 {
          assert first[1..] == [];
        } else {
          PlainIsPaired(first);
        }
      }
      PairedConcat(first, EscapeAll(text[1..]));
    }
  }
}
