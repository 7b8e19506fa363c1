// The bencode format in concrete characters: what texts mean, and which are
// refused with which exception.

module BencodeTexts {

  import opened Bencode
  import opened NumberTexts
  import opened Numerals
  import opened Texts

  // ---------- Values ----------

  /** The examples by which the format is usually described. */
  lemma EncodedTexts()
    ensures Encode(Str("spam")) == "4:spam" && Encode(Str("")) == "0:"
    ensures Encode(Int(-3)) == "i-3e" && Encode(List([])) == "le" && Encode(Dict([])) == "de"
    ensures Encode(List([Str("spam"), Int(42)])) == "l4:spami42ee"
    ensures Encode(Dict([Entry("bar", Str("spam")), Entry("foo", Int(42))])) == "d3:bar4:spam3:fooi42ee"
  {
    hide Decimal, Signed;
    DecimalTexts();
    ListText();
    DictText();
  }

  lemma ListText()
    ensures Encode(List([Str("spam"), Int(42)])) == "l4:spami42ee"
  {
    hide Decimal, Signed;
    DecimalTexts();
    var items := [Str("spam"), Int(42)];
    var v := List(items);
    assert items[..1] == [Str("spam")] && items[..1][..0] == [];
    assert EncodeItems(v, items[..1][..0]) == "";
    assert EncodeItems(v, items[..1]) == "" + "4:spam";
    assert EncodeItems(v, items) == "4:spam" + "i42e";
  }

  lemma DictText()
    ensures Encode(Dict([Entry("bar", Str("spam")), Entry("foo", Int(42))])) == "d3:bar4:spam3:fooi42ee"
  {
    hide Decimal, Signed;
    DecimalTexts();
    var es := [Entry("bar", Str("spam")), Entry("foo", Int(42))];
    var v := Dict(es);
    assert es[..1] == [es[0]] && es[..1][..0] == [];
    assert EncodeEntries(v, es[..1][..0]) == "";
    assert EncodeString("bar") == "3:bar" && EncodeString("foo") == "3:foo";
    assert EncodeEntries(v, es[..1]) == "" + "3:bar" + "4:spam";
    assert EncodeEntries(v, es) == "3:bar4:spam" + "3:foo" + "i42e";
  }

  /** Dictionaries are written, and read, in the order of their keys: that of the first character that differs. */
  lemma {:induction false} KeyOrder(a: string, c: char, b: string, d: char, e: string)
    ensures Less(a + [c] + b, a + [d] + e) <==> c < d || (c == d && Less(b, e))
    ensures Less(a, a + [d] + e) && !Less(a + [d] + e, a)
  {
    if a == [] {
      assert a + [c] + b == [c] + b && a + [d] + e == [d] + e;
    } else {
      KeyOrder(a[1..], c, b, d, e);
      assert (a + [c] + b)[1..] == a[1..] + [c] + b && (a + [d] + e)[1..] == a[1..] + [d] + e;
    }
  }

  /** Two entries in any order: the value has them sorted, and of two under the same key it has the second. */
  lemma TwoEntries(a: string, v: Value, b: string, w: Value, steps: nat)
    requires WellFormed(v) && WellFormed(w)
    requires var d := "d" + EncodeString(a) + Encode(v) + EncodeString(b) + Encode(w) + "e";
             |d| <= ULONG_MAX && steps >= 2 * |d| + 1
    ensures var d := "d" + EncodeString(a) + Encode(v) + EncodeString(b) + Encode(w) + "e";
            Decode(d, steps) == Parsed(Dict(if a == b then [Entry(a, w)]
                                            else if Less(b, a) then [Entry(b, w), Entry(a, v)]
                                            else [Entry(a, v), Entry(b, w)]), |d|)
  {
    hide EncodeString, Encode, WellFormed, Less, Read, ParseAt, Inserted;
    var d := "d" + EncodeString(a) + Encode(v) + EncodeString(b) + Encode(w) + "e";
    TwoEntriesAreRead(a, v, b, w);
    TwoInserted(a, v, b, w);
    ReadingEndsUnlessItWraps(d, 0, steps);
  }

  lemma TwoInserted(a: string, v: Value, b: string, w: Value)
    ensures Inserted(Inserted([], a, v), b, w) == if a == b then [Entry(a, w)]
                                                  else if Less(b, a) then [Entry(b, w), Entry(a, v)]
                                                  else [Entry(a, v), Entry(b, w)]
  {
    hide Less;
    assert [Entry(a, v)][1..] == [];
    assert Inserted([], b, w) == [Entry(b, w)];
  }

  lemma TwoEntriesAreRead(a: string, v: Value, b: string, w: Value)
    requires WellFormed(v) && WellFormed(w)
    requires |"d" + EncodeString(a) + Encode(v) + EncodeString(b) + Encode(w) + "e"| <= ULONG_MAX
    ensures var d := "d" + EncodeString(a) + Encode(v) + EncodeString(b) + Encode(w) + "e";
            ParseAt(d, 0) == Parsed(Dict(Inserted(Inserted([], a, v), b, w)), |d|)
  {
    hide EncodeString, Encode, WellFormed, Less, EntriesAt, Stands, Inserted;
    var x, y := EncodeString(a), EncodeString(b);
    var d := "d" + x + Encode(v) + y + Encode(w) + "e";
    EntriesStand(x, Encode(v), y, Encode(w));
    var q := 1 + |x| + |Encode(v)|;
    OneEntry(d, 1, a, v, []);
    OneEntry(d, q, b, w, Inserted([], a, v));
    LastEntry(d, q + |y| + |Encode(w)|, Inserted(Inserted([], a, v), b, w));
  }

  lemma OneEntry(d: string, pos: nat, key: string, v: Value, es: seq<Entry>)
    requires |d| <= ULONG_MAX && WellFormed(v)
    requires Stands(d, pos, EncodeString(key)) && Stands(d, pos + |EncodeString(key)|, Encode(v))
    ensures var next := pos + |EncodeString(key)| + |Encode(v)|;
            pos < next <= |d| && EntriesAt(d, pos, es) == EntriesAt(d, next, Inserted(es, key, v))
  {
    hide EncodeString, Encode, WellFormed, ParseAt, Inserted, EntriesAt;
    var afterKey := pos + |EncodeString(key)|;
    KeyIsRead(d, pos, key);
    ValueIsRead(d, afterKey, v);
    EntryIsRead(d, pos, Str(key), afterKey, v, afterKey + |Encode(v)|, es);
  }

  lemma LastEntry(d: string, pos: nat, es: seq<Entry>)
    requires pos < |d| && d[pos] == 'e'
    ensures EntriesAt(d, pos, es) == Parsed(Dict(es), pos + 1)
  {
  }

  lemma EntriesStand(x: string, v: string, y: string, w: string)
    ensures var d := "d" + x + v + y + w + "e";
            && d[0] == 'd' && Stands(d, 1, x) && Stands(d, 1 + |x|, v) && Stands(d, 1 + |x| + |v|, y) && Stands(d, 1 + |x| + |v| + |y|, w)
            && d[1 + |x| + |v| + |y| + |w|] == 'e'
  {
    var d := "d" + x + v + y + w + "e";
    assert d[1..1 + |x|] == x && d[1 + |x|..1 + |x| + |v|] == v;
    assert d[1 + |x| + |v|..1 + |x| + |v| + |y|] == y && d[1 + |x| + |v| + |y|..1 + |x| + |v| + |y| + |w|] == w;
  }

  // ---------- What is refused ----------

  /** A value starts with i, l, d or a digit. */
  lemma OtherStartsAreMalformed(d: string, pos: nat, steps: nat)
    requires pos <= |d| && steps > 0
    requires pos < |d| ==> d[pos] != 'i' && d[pos] != 'l' && d[pos] != 'd' && !('0' <= d[pos] <= '9')
    ensures Read(d, pos, steps) == Failed(Malformed)
  {
  }

  /** An integer is read when it fits 64 bits and is out of range when it does not. */
  lemma IntegerTexts(i: int, rest: string, steps: nat)
    requires steps > 0
    ensures var text := "i" + Signed(i) + "e";
            Decode(text + rest, steps) ==
              if -0x8000_0000_0000_0000 <= i < 0x8000_0000_0000_0000 then Parsed(Int(i), |text|) else Failed(NumberRange)
  {
    hide Decimal, Stoll, Find;
    var s := Signed(i);
    var d := "i" + s + "e" + rest;
    IntegerEnds(s, rest, i);
    StollReads("", if i < 0 then "-" else "", if i < 0 then -i else i, "");
    assert "" + (if i < 0 then "-" else "") + Decimal(if i < 0 then -i else i) + "" == s;
    assert d[1..1 + |s|] == s;
  }

  lemma IntegerEnds(s: string, rest: string, i: int)
    requires s == Signed(i)
    ensures Find("i" + s + "e" + rest, 'e', 1) == 1 + |s|
  {
    hide Signed, Find;
    var d := "i" + s + "e" + rest;
    forall j | 1 <= j < 1 + |s| ensures d[j] != 'e' {
      assert d[j] == s[j - 1] && s[j - 1] in s;
      SignedHasNoOtherChar(i, s[j - 1]);
    }
    FindsAt(d, 'e', 1, 1 + |s|);
  }

  /** An i that no e follows, and one with no digit before it. */
  lemma BrokenIntegers(text: string, steps: nat)
    requires steps > 0 && 'e' !in text
    ensures Decode("i" + text, steps) == Failed(Malformed)
    ensures (forall c | c in text :: !('0' <= c <= '9')) ==> Decode("i" + text + "e", steps) == Failed(BadNumber)
  {
    hide Stoll;
    var d := "i" + text;
    assert forall j | 1 <= j < |d| :: d[j] == text[j - 1] && text[j - 1] in text;
    var e := "i" + text + "e";
    assert forall j | 1 <= j < |e| - 1 :: e[j] == text[j - 1] && text[j - 1] in text;
    FindsAt(e, 'e', 1, |e| - 1);
    assert e[1..|e| - 1] == text;
    if forall c | c in text :: !('0' <= c <= '9') { NoDigitNoNumber(text); }
  }

  /** A length, a colon and a text: the string is the first so many characters, and a text shorter than that is refused. */
  lemma StringTexts(n: nat, text: string, steps: nat)
    requires steps > 0 && |Decimal(n)| + 1 + n < 0x1_0000_0000_0000_0000
    ensures var d := Decimal(n) + ":" + text;
            Decode(d, steps) == if n <= |text| then Parsed(Str(text[..n]), |Decimal(n)| + 1 + n) else Failed(Malformed)
  {
    hide Decimal, Stoul;
    var s := Decimal(n);
    var d := s + ":" + text;
    LengthIsRead(s, text, n);
    if n <= |text| { assert d[|s| + 1..|s| + 1 + n] == text[..n]; }
  }

  lemma LengthIsRead(s: string, text: string, n: nat)
    requires s == Decimal(n) && n < 0x1_0000_0000_0000_0000
    ensures var d := s + ":" + text; Find(d, ':', 0) == |s| && Stoul(d[0..|s|]) == Numerals.Value(n) && IsDigit(d[0])
  {
    hide Decimal, Stoul, Find;
    var d := s + ":" + text;
    forall j | 0 <= j < |s| ensures IsDigit(d[j]) { assert d[j] == s[j] && s[j] in s; }
    FindsAt(d, ':', 0, |s|);
    assert d[0..|s|] == s;
    StoulReadsDecimal(n);
  }

  lemma StringsNeedAColon(d: string, steps: nat)
    requires steps > 0 && d != "" && '0' <= d[0] <= '9' && ':' !in d
    ensures Decode(d, steps) == Failed(Malformed)
  {
  }

  /** A dictionary whose first key is an integer. */
  lemma KeysAreStrings(i: int, rest: string, steps: nat)
    requires steps > 2 && -0x8000_0000_0000_0000 <= i < 0x8000_0000_0000_0000
    ensures Decode("di" + Signed(i) + "e" + rest, steps) == Failed(Malformed)
  {
    hide Signed, Stoll, Find;
    var d := "di" + Signed(i) + "e" + rest;
    var text := "i" + Signed(i) + "e";
    assert d[1..1 + |text|] == text;
    IntegerIsRead(d, 1, i);
    assert Read(d, 1, steps - 2) == Parsed(Int(i), 1 + |text|);
    assert d[0] == 'd' && d[1] == 'i';
    assert ReadEntries(d, 1, [], steps - 1) == Failed(Malformed);
  }

  /** A list or dictionary that ends without its e. */
  lemma CompositesNeedAnEnd(v: Value, steps: nat)
    requires (v.List? || v.Dict?) && WellFormed(v) && |Encode(v)| <= ULONG_MAX && steps >= 2 * |Encode(v)| + 1
    ensures |Encode(v)| > 0 && Decode(Encode(v)[..|Encode(v)| - 1], steps) == Failed(Malformed)
  {
    hide EncodeItems, EncodeEntries, Read, WellFormed;
    if v.List? {
      var body := EncodeItems(v, v.items);
      var d := "l" + body;
      assert Encode(v)[..|Encode(v)| - 1] == d && d[1..1 + |body|] == body;
      assert v.items[..|v.items|] == v.items;
      ItemsAreRead(d, 1, v, v.items, |v.items|);
      ReadingEndsUnlessItWraps(d, 0, steps);
    } else {
      var body := EncodeEntries(v, v.entries);
      var d := "d" + body;
      assert Encode(v)[..|Encode(v)| - 1] == d && d[1..1 + |body|] == body;
      assert v.entries[..|v.entries|] == v.entries;
      EntriesAreRead(d, 1, v, v.entries, |v.entries|);
      ReadingEndsUnlessItWraps(d, 0, steps);
    }
  }
}
