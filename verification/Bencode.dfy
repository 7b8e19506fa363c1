// The bencode printer and the recursive parser.

module Bencode {

  import opened Numerals
  import opened Texts

  /** A dictionary lists its entries in key order, as std::map does. */
  datatype Value = Str(text: string) | Int(number: int) | List(items: seq<Value>) | Dict(entries: seq<Entry>)

  datatype Entry = Entry(key: string, value: Value)

  datatype Error = Malformed | BadNumber | NumberRange

  /** Wrapped: a length moves the position around 2^64. OutOfSteps: the budget of steps is used up. */
  datatype Result = Parsed(value: Value, next: nat) | Failed(error: Error) | Wrapped | OutOfSteps

  /** The order of std::string. */
  predicate Less(a: string, b: string) {
    if b == [] then false
    else if a == [] then true
    else a[0] < b[0] || (a[0] == b[0] && Less(a[1..], b[1..]))
  }

  predicate Sorted(es: seq<Entry>) {
    forall i, j | 0 <= i < j < |es| :: Less(es[i].key, es[j].key)
  }

  /** The values the C++ types can hold. */
  predicate WellFormed(v: Value) {
    match v
    case Str(s) => |s| <= ULONG_MAX
    case Int(i) => -LLONG_MAX - 1 <= i <= LLONG_MAX
    case List(items) => forall i | 0 <= i < |items| :: WellFormed(items[i])
    case Dict(es) => Sorted(es) && forall i | 0 <= i < |es| :: |es[i].key| <= ULONG_MAX && WellFormed(es[i].value)
  }

  // ---------- Printing ----------

  function EncodeString(s: string): string {
    Decimal(|s|) + ":" + s
  }

  function Encode(v: Value): string
    decreases v, 2
  {
    match v
    case Str(s) => EncodeString(s)
    case Int(i) => "i" + Signed(i) + "e"
    case List(items) => "l" + EncodeItems(v, items) + "e"
    case Dict(es) => "d" + EncodeEntries(v, es) + "e"
  }

  ghost predicate ItemsOf(parent: Value, items: seq<Value>) {
    forall i | 0 <= i < |items| :: items[i] < parent
  }

  ghost predicate EntriesOf(parent: Value, es: seq<Entry>) {
    forall i | 0 <= i < |es| :: es[i].value < parent
  }

  function EncodeItems(ghost parent: Value, items: seq<Value>): string
    requires ItemsOf(parent, items)
    decreases parent, 1, |items|
  {
    if items == [] then "" else EncodeItems(parent, items[..|items| - 1]) + Encode(items[|items| - 1])
  }

  function EncodeEntries(ghost parent: Value, es: seq<Entry>): string
    requires EntriesOf(parent, es)
    decreases parent, 1, |es|
  {
    if es == [] then ""
    else EncodeEntries(parent, es[..|es| - 1]) + EncodeString(es[|es| - 1].key) + Encode(es[|es| - 1].value)
  }

  // ---------- Parsing without wrap-around ----------

  function Inserted(es: seq<Entry>, key: string, v: Value): seq<Entry> {
    if es == [] then [Entry(key, v)]
    else if es[0].key == key then [Entry(key, v)] + es[1..]
    else if Less(key, es[0].key) then [Entry(key, v)] + es
    else [es[0]] + Inserted(es[1..], key, v)
  }

  function StringAt(d: string, pos: nat): (r: Result)
    requires pos <= |d|
    ensures r.Parsed? ==> pos < r.next <= |d|
  {
    var colon := Find(d, ':', pos);
    if colon == |d| then Failed(Malformed)
    else
      match Stoul(d[pos..colon])
      case InvalidArgument => Failed(BadNumber)
      case OutOfRange => Failed(NumberRange)
      case Value(len) =>
        if colon + 1 + len > ULONG_MAX then Wrapped
        else if colon + 1 + len > |d| then Failed(Malformed)
        else Parsed(Str(d[colon + 1..colon + 1 + len]), colon + 1 + len)
  }

  function IntegerAt(d: string, pos: nat): (r: Result)
    requires pos < |d|
    ensures r.Parsed? ==> pos < r.next <= |d|
  {
    var end := Find(d, 'e', pos + 1);
    if end == |d| then Failed(Malformed)
    else
      match Stoll(d[pos + 1..end])
      case InvalidArgument => Failed(BadNumber)
      case OutOfRange => Failed(NumberRange)
      case Value(n) => Parsed(Int(n), end + 1)
  }

  /** What stands at pos and where it ends, as long as no length wraps. */
  function ParseAt(d: string, pos: nat): (r: Result)
    requires pos <= |d|
    ensures r.Parsed? ==> pos < r.next <= |d|
    decreases |d| - pos, 0
  {
    if pos == |d| then Failed(Malformed)
    else if d[pos] == 'i' then IntegerAt(d, pos)
    else if d[pos] == 'l' then ItemsAt(d, pos + 1, [])
    else if d[pos] == 'd' then EntriesAt(d, pos + 1, [])
    else if IsDigit(d[pos]) then StringAt(d, pos)
    else Failed(Malformed)
  }

  function ItemsAt(d: string, pos: nat, items: seq<Value>): (r: Result)
    requires pos <= |d|
    ensures r.Parsed? ==> pos < r.next <= |d|
    decreases |d| - pos, 1
  {
    if pos == |d| then Failed(Malformed)
    else if d[pos] == 'e' then Parsed(List(items), pos + 1)
    else
      var item := ParseAt(d, pos);
      if item.Parsed? then ItemsAt(d, item.next, items + [item.value]) else item
  }

  function EntriesAt(d: string, pos: nat, es: seq<Entry>): (r: Result)
    requires pos <= |d|
    ensures r.Parsed? ==> pos < r.next <= |d|
    decreases |d| - pos, 1
  {
    if pos == |d| then Failed(Malformed)
    else if d[pos] == 'e' then Parsed(Dict(es), pos + 1)
    else
      var key := ParseAt(d, pos);
      if !key.Parsed? then key
      else if !key.value.Str? then Failed(Malformed)
      else
        var v := ParseAt(d, key.next);
        if v.Parsed? then EntriesAt(d, v.next, Inserted(es, key.value.text, v.value)) else v
  }

  // ---------- Parsing as written ----------

  /** substr(pos, n), which stops at the end of the text. */
  function Substr(d: string, pos: nat, n: nat): (r: string)
    requires pos <= |d|
    ensures |r| <= |d|
  {
    d[pos..if pos + n <= |d| then pos + n else |d|]
  }

  /** parseString with the sum of position and length on 64 bits. */
  function StringRead(d: string, pos: nat): (r: Result)
    requires pos <= |d|
    ensures r.Parsed? ==> r.next <= |d|
    ensures r.Parsed? || r.Failed?
  {
    var colon := Find(d, ':', pos);
    if colon == |d| then Failed(Malformed)
    else
      match Stoul(d[pos..colon])
      case InvalidArgument => Failed(BadNumber)
      case OutOfRange => Failed(NumberRange)
      case Value(len) =>
        var next := (colon + 1 + len) % (ULONG_MAX + 1);
        if next > |d| then Failed(Malformed)
        else Parsed(Str(Substr(d, colon + 1, len)), next)
  }

  /** What the recursive parser does from pos on in at most the given number of calls and loop rounds. */
  function Read(d: string, pos: nat, steps: nat): (r: Result)
    requires pos <= |d|
    ensures r.Parsed? ==> r.next <= |d|
    decreases steps
  {
    if steps == 0 then OutOfSteps
    else if pos == |d| then Failed(Malformed)
    else if d[pos] == 'i' then IntegerAt(d, pos)
    else if d[pos] == 'l' then ReadItems(d, pos + 1, [], steps - 1)
    else if d[pos] == 'd' then ReadEntries(d, pos + 1, [], steps - 1)
    else if IsDigit(d[pos]) then StringRead(d, pos)
    else Failed(Malformed)
  }

  function ReadItems(d: string, pos: nat, items: seq<Value>, steps: nat): (r: Result)
    requires pos <= |d|
    ensures r.Parsed? ==> r.next <= |d|
    decreases steps
  {
    if pos == |d| then Failed(Malformed)
    else if d[pos] == 'e' then Parsed(List(items), pos + 1)
    else if steps == 0 then OutOfSteps
    else
      var item := Read(d, pos, steps - 1);
      if item.Parsed? then ReadItems(d, item.next, items + [item.value], steps - 1) else item
  }

  function ReadEntries(d: string, pos: nat, es: seq<Entry>, steps: nat): (r: Result)
    requires pos <= |d|
    ensures r.Parsed? ==> r.next <= |d|
    decreases steps
  {
    if pos == |d| then Failed(Malformed)
    else if d[pos] == 'e' then Parsed(Dict(es), pos + 1)
    else if steps == 0 then OutOfSteps
    else
      var key := Read(d, pos, steps - 1);
      if !key.Parsed? then key
      else if !key.value.Str? then Failed(Malformed)
      else
        var v := Read(d, key.next, steps - 1);
        if v.Parsed? then ReadEntries(d, v.next, Inserted(es, key.value.text, v.value), steps - 1) else v
  }

  /** A string read gets past its own prefix exactly when the sum of position and length does not wrap. */
  lemma StringGetsOnUnlessItWraps(d: string, pos: nat)
    requires pos <= |d| <= ULONG_MAX
    ensures StringRead(d, pos).Parsed? ==>
              (StringRead(d, pos).next > Find(d, ':', pos) <==> !StringAt(d, pos).Wrapped?)
    ensures !StringAt(d, pos).Wrapped? ==> StringRead(d, pos) == StringAt(d, pos)
    ensures StringAt(d, pos).Wrapped? ==> StringRead(d, pos).Parsed?
  {
    hide Find, Stoul;
  }

  /**
   * Where no length wraps, the parser ends, within two steps for each character left, with what stands in
   * the text; a text with a wrapping length is the only one on which it can do anything else.
   */
  lemma {:induction false} ReadingEndsUnlessItWraps(d: string, pos: nat, steps: nat)
    requires pos <= |d| <= ULONG_MAX && !ParseAt(d, pos).Wrapped? && steps >= 2 * (|d| - pos) + 1
    ensures Read(d, pos, steps) == ParseAt(d, pos)
    decreases |d| - pos, 0
  {
    hide StringAt, StringRead, IntegerAt;
    if pos < |d| {
      if d[pos] == 'l' { ItemsEndUnlessTheyWrap(d, pos + 1, [], steps - 1); }
      else if d[pos] == 'd' { EntriesEndUnlessTheyWrap(d, pos + 1, [], steps - 1); }
      else { StringGetsOnUnlessItWraps(d, pos); }
    }
  }

  lemma {:induction false} ItemsEndUnlessTheyWrap(d: string, pos: nat, items: seq<Value>, steps: nat)
    requires pos <= |d| <= ULONG_MAX && !ItemsAt(d, pos, items).Wrapped? && steps >= 2 * (|d| - pos) + 2
    ensures ReadItems(d, pos, items, steps) == ItemsAt(d, pos, items)
    decreases |d| - pos, 1
  {
    hide ParseAt, Read;
    if pos < |d| && d[pos] != 'e' {
      ReadingEndsUnlessItWraps(d, pos, steps - 1);
      var item := ParseAt(d, pos);
      if item.Parsed? { ItemsEndUnlessTheyWrap(d, item.next, items + [item.value], steps - 1); }
    }
  }

  lemma {:induction false} EntriesEndUnlessTheyWrap(d: string, pos: nat, es: seq<Entry>, steps: nat)
    requires pos <= |d| <= ULONG_MAX && !EntriesAt(d, pos, es).Wrapped? && steps >= 2 * (|d| - pos) + 2
    ensures ReadEntries(d, pos, es, steps) == EntriesAt(d, pos, es)
    decreases |d| - pos, 1
  {
    hide ParseAt, Read, Inserted;
    if pos < |d| && d[pos] != 'e' {
      ReadingEndsUnlessItWraps(d, pos, steps - 1);
      var key := ParseAt(d, pos);
      if key.Parsed? && key.value.Str? {
        ReadingEndsUnlessItWraps(d, key.next, steps - 1);
        var v := ParseAt(d, key.next);
        if v.Parsed? { EntriesEndUnlessTheyWrap(d, v.next, Inserted(es, key.value.text, v.value), steps - 1); }
      }
    }
  }

  /** An outcome does not depend on how many more steps there were. */
  lemma {:induction false} OutcomeIsFinal(d: string, pos: nat, steps: nat, more: nat)
    requires pos <= |d| && steps <= more && !Read(d, pos, steps).OutOfSteps?
    ensures Read(d, pos, more) == Read(d, pos, steps)
    decreases steps, 0
  {
    hide StringRead, IntegerAt;
    if pos < |d| && d[pos] == 'l' { ItemsAreFinal(d, pos + 1, [], steps - 1, more - 1); }
    if pos < |d| && d[pos] == 'd' { EntriesAreFinal(d, pos + 1, [], steps - 1, more - 1); }
  }

  lemma {:induction false} ItemsAreFinal(d: string, pos: nat, items: seq<Value>, steps: nat, more: nat)
    requires pos <= |d| && steps <= more && !ReadItems(d, pos, items, steps).OutOfSteps?
    ensures ReadItems(d, pos, items, more) == ReadItems(d, pos, items, steps)
    decreases steps, 1
  {
    hide Read;
    if pos < |d| && d[pos] != 'e' {
      OutcomeIsFinal(d, pos, steps - 1, more - 1);
      var item := Read(d, pos, steps - 1);
      if item.Parsed? { ItemsAreFinal(d, item.next, items + [item.value], steps - 1, more - 1); }
    }
  }

  lemma {:induction false} EntriesAreFinal(d: string, pos: nat, es: seq<Entry>, steps: nat, more: nat)
    requires pos <= |d| && steps <= more && !ReadEntries(d, pos, es, steps).OutOfSteps?
    ensures ReadEntries(d, pos, es, more) == ReadEntries(d, pos, es, steps)
    decreases steps, 1
  {
    hide Read, Inserted;
    if pos < |d| && d[pos] != 'e' {
      OutcomeIsFinal(d, pos, steps - 1, more - 1);
      var key := Read(d, pos, steps - 1);
      if key.Parsed? && key.value.Str? {
        OutcomeIsFinal(d, key.next, steps - 1, more - 1);
        var v := Read(d, key.next, steps - 1);
        if v.Parsed? { EntriesAreFinal(d, v.next, Inserted(es, key.value.text, v.value), steps - 1, more - 1); }
      }
    }
  }

  /** The length that leads back from the end of "l", its own twenty digits and a colon to position 1. */
  const BACKWARD: nat := 18446744073709551595

  function BackwardText(): string {
    "l" + Decimal(BACKWARD) + ":"
  }

  lemma BackwardIsTwentyLong()
    ensures |Decimal(BACKWARD)| == 20
  {
    assert Pow10(4) == 10_000 && Pow10(8) == 100_000_000 && Pow10(12) == 1_000_000_000_000;
    assert Pow10(16) == 10_000_000_000_000_000 && Pow10(19) == 10_000_000_000_000_000_000;
    assert Pow10(20) == 10 * Pow10(19);
    DecimalLength(BACKWARD, 20);
  }

  /** A list with this length in it leads back to its own first item. */
  lemma BackwardStringLoops()
    ensures var d := BackwardText(); |d| == 22 && d[1] != 'e' && IsDigit(d[1])
    ensures StringRead(BackwardText(), 1) == Parsed(Str(""), 1) && StringAt(BackwardText(), 1).Wrapped?
  {
    hide Decimal, Stoul, Find;
    var d := BackwardText();
    var n := Decimal(BACKWARD);
    BackwardIsTwentyLong();
    assert forall c | c in n :: IsDigit(c);
    assert d[1] == n[0] && n[0] in n;
    forall j | 1 <= j < 21 ensures d[j] != ':' { assert d[j] == n[j - 1] && n[j - 1] in n; }
    FindsAt(d, ':', 1, 21);
    assert d[1..21] == n;
    StoulReadsDecimal(BACKWARD);
  }

  lemma {:induction false} BackwardListNeverEnds(items: seq<Value>, steps: nat)
    ensures |BackwardText()| == 22 && ReadItems(BackwardText(), 1, items, steps).OutOfSteps?
    decreases steps
  {
    hide StringRead, StringAt, BackwardText;
    BackwardStringLoops();
    if steps > 1 { BackwardListNeverEnds(items + [Str("")], steps - 1); }
  }

  /** So the parser does not end on every text. */
  lemma ParserNeedNotEnd(steps: nat)
    ensures Read(BackwardText(), 0, steps).OutOfSteps?
  {
    hide ReadItems, Decimal;
    if steps > 0 { BackwardListNeverEnds([], steps - 1); }
  }

  // ---------- Decoding undoes encoding ----------

  /** text stands in d at pos. */
  predicate Stands(d: string, pos: nat, text: string) {
    pos + |text| <= |d| && d[pos..pos + |text|] == text
  }

  lemma StandsApart(d: string, pos: nat, a: string, b: string)
    requires Stands(d, pos, a + b)
    ensures Stands(d, pos, a) && Stands(d, pos + |a|, b)
  {
    var t := d[pos..pos + |a + b|];
    assert t[..|a|] == a && t[|a|..] == b;
    assert t[..|a|] == d[pos..pos + |a|] && t[|a|..] == d[pos + |a|..pos + |a| + |b|];
  }

  lemma {:induction false} FieldEndsAt(d: string, pos: nat, text: string, c: char)
    requires Stands(d, pos, text + [c]) && c !in text
    ensures Find(d, c, pos) == pos + |text| < |d|
    ensures d[pos..pos + |text|] == text
  {
    StandsApart(d, pos, text, [c]);
    var end := pos + |text|;
    assert d[end] == d[end..end + 1][0];
    forall j | pos <= j < end ensures d[j] != c {
      assert d[j] == d[pos..end][j - pos];
      assert text[j - pos] in text;
    }
    FindsAt(d, c, pos, end);
  }

  lemma StringIsRead(d: string, pos: nat, s: string)
    requires |d| <= ULONG_MAX && Stands(d, pos, EncodeString(s))
    ensures pos < |d| && IsDigit(d[pos])
    ensures StringAt(d, pos) == Parsed(Str(s), pos + |EncodeString(s)|)
  {
    hide Decimal, Stoul, Find;
    var n := Decimal(|s|);
    assert EncodeString(s) == (n + [':']) + s;
    StandsApart(d, pos, n + [':'], s);
    assert forall c | c in n :: IsDigit(c);
    FieldEndsAt(d, pos, n, ':');
    assert d[pos] == d[pos..pos + |n|][0];
    assert n[0] in n;
    StoulReadsDecimal(|s|);
  }

  lemma KeyIsRead(d: string, pos: nat, s: string)
    requires |d| <= ULONG_MAX && Stands(d, pos, EncodeString(s))
    ensures pos < |d| && d[pos] != 'e' && ParseAt(d, pos) == Parsed(Str(s), pos + |EncodeString(s)|)
  {
    hide StringAt, EncodeString;
    StringIsRead(d, pos, s);
  }

  lemma IntegerIsRead(d: string, pos: nat, i: int)
    requires -LLONG_MAX - 1 <= i <= LLONG_MAX && Stands(d, pos, "i" + Signed(i) + "e")
    ensures pos < |d| && d[pos] == 'i'
    ensures IntegerAt(d, pos) == Parsed(Int(i), pos + |"i" + Signed(i) + "e"|)
  {
    hide Signed, Stoll, Find;
    var s := Signed(i);
    assert "i" + s + "e" == "i" + (s + ['e']);
    StandsApart(d, pos, "i", s + ['e']);
    assert d[pos] == d[pos..pos + 1][0];
    if 'e' in s { SignedHasNoOtherChar(i, 'e'); }
    FieldEndsAt(d, pos + 1, s, 'e');
    StollReadsSigned(i);
  }

  lemma EncodingStarts(v: Value)
    ensures Encode(v) != [] && Encode(v)[0] != 'e'
  {
    hide Decimal;
    if v.Str? {
      var n := Decimal(|v.text|);
      assert n[0] in n && Encode(v)[0] == n[0];
    }
  }

  /** A composite is an opening letter, a body and an e. */
  lemma BodyStands(d: string, pos: nat, open: char, body: string)
    requires Stands(d, pos, [open] + body + "e")
    ensures pos < |d| && d[pos] == open && Stands(d, pos + 1, body)
    ensures pos + 1 + |body| < |d| && d[pos + 1 + |body|] == 'e'
  {
    StandsApart(d, pos, [open] + body, "e");
    StandsApart(d, pos, [open], body);
    var end := pos + 1 + |body|;
    assert d[pos] == d[pos..pos + 1][0];
    assert d[end] == d[end..end + 1][0];
  }

  /** The parser reads back what the printer wrote, wherever it stands and whatever follows. */
  lemma {:induction false} ValueIsRead(d: string, pos: nat, v: Value)
    requires |d| <= ULONG_MAX && WellFormed(v) && Stands(d, pos, Encode(v))
    ensures ParseAt(d, pos) == Parsed(v, pos + |Encode(v)|)
    decreases v, 1, 0
  {
    hide StringAt, IntegerAt, EncodeString, Signed, Stands, EncodeItems, EncodeEntries, Less;
    match v
    case Str(s) => StringIsRead(d, pos, s);
    case Int(i) => IntegerIsRead(d, pos, i);
    case List(items) =>
      assert items[..|items|] == items;
      BodyStands(d, pos, 'l', EncodeItems(v, items));
      ItemsAreRead(d, pos + 1, v, items, |items|);
    case Dict(es) =>
      assert es[..|es|] == es;
      BodyStands(d, pos, 'd', EncodeEntries(v, es));
      EntriesAreRead(d, pos + 1, v, es, |es|);
  }

  /** After the first n items the list loop is where their encoding ends. */
  lemma {:induction false} ItemsAreRead(d: string, pos: nat, parent: Value, items: seq<Value>, n: nat)
    requires parent == List(items) && WellFormed(parent) && n <= |items|
    requires |d| <= ULONG_MAX && Stands(d, pos, EncodeItems(parent, items[..n]))
    ensures ItemsAt(d, pos, []) == ItemsAt(d, pos + |EncodeItems(parent, items[..n])|, items[..n])
    decreases parent, 0, n
  {
    hide Encode, ParseAt;
    if n > 0 {
      var init, last := items[..n - 1], items[n - 1];
      assert items[..n][..n - 1] == init;
      StandsApart(d, pos, EncodeItems(parent, init), Encode(last));
      ItemsAreRead(d, pos, parent, items, n - 1);
      var p := pos + |EncodeItems(parent, init)|;
      ValueIsRead(d, p, last);
      EncodingStarts(last);
      assert d[p] == d[p..p + |Encode(last)|][0];
      assert init + [last] == items[..n];
    }
  }

  lemma {:induction false} AppendsInOrder(es: seq<Entry>, key: string, v: Value)
    requires forall i | 0 <= i < |es| :: Less(es[i].key, key)
    ensures Inserted(es, key, v) == es + [Entry(key, v)]
  {
    if es != [] {
      LessIsAsymmetric(es[0].key, key);
      AppendsInOrder(es[1..], key, v);
    }
  }

  lemma {:induction false} LessIsAsymmetric(a: string, b: string)
    requires Less(a, b)
    ensures a != b && !Less(b, a)
  {
    if a != [] && a[0] == b[0] { LessIsAsymmetric(a[1..], b[1..]); }
  }

  lemma EntryIsRead(d: string, pos: nat, key: Value, afterKey: nat, v: Value, next: nat, es: seq<Entry>)
    requires pos < |d| && d[pos] != 'e' && key.Str? && afterKey <= |d|
    requires ParseAt(d, pos) == Parsed(key, afterKey) && ParseAt(d, afterKey) == Parsed(v, next)
    ensures next <= |d| && EntriesAt(d, pos, es) == EntriesAt(d, next, Inserted(es, key.text, v))
  {
    hide ParseAt, Inserted;
  }

  lemma {:induction false} EntriesAreRead(d: string, pos: nat, parent: Value, es: seq<Entry>, n: nat)
    requires parent == Dict(es) && WellFormed(parent) && n <= |es|
    requires |d| <= ULONG_MAX && Stands(d, pos, EncodeEntries(parent, es[..n]))
    ensures EntriesAt(d, pos, []) == EntriesAt(d, pos + |EncodeEntries(parent, es[..n])|, es[..n])
    decreases parent, 0, n
  {
    hide EncodeString, Encode, Less, ParseAt, EntriesAt, Inserted;
    if n > 0 {
      var init, last := es[..n - 1], es[n - 1];
      assert es[..n][..n - 1] == init;
      var front, key := EncodeEntries(parent, init), EncodeString(last.key);
      StandsApart(d, pos, front + key, Encode(last.value));
      StandsApart(d, pos, front, key);
      EntriesAreRead(d, pos, parent, es, n - 1);
      var p := pos + |front|;
      KeyIsRead(d, p, last.key);
      ValueIsRead(d, p + |key|, last.value);
      EntryIsRead(d, p, Str(last.key), p + |key|, last.value, p + |key| + |Encode(last.value)|, init);
      AppendsInOrder(init, last.key, last.value);
      assert init + [last] == es[..n];
    }
  }

  /** bencode_decode looks at the first value only. */
  function Decode(d: string, steps: nat): Result {
    Read(d, 0, steps)
  }

  /** Decoding an encoding with anything behind it gives the value, and ends right behind it. */
  lemma DecodeUndoesEncode(v: Value, suffix: string, steps: nat)
    requires WellFormed(v) && |Encode(v) + suffix| <= ULONG_MAX && steps >= 2 * |Encode(v) + suffix| + 1
    ensures Decode(Encode(v) + suffix, steps) == Parsed(v, |Encode(v)|)
  {
    hide Encode, ParseAt, WellFormed, Stands;
    PrefixStands(Encode(v), suffix);
    ValueIsRead(Encode(v) + suffix, 0, v);
    ReadingEndsUnlessItWraps(Encode(v) + suffix, 0, steps);
  }

  lemma PrefixStands(a: string, b: string)
    ensures Stands(a + b, 0, a)
  {
  }

  /** No encoding is a proper prefix of another, and different values have different encodings. */
  lemma EncodingIsPrefixFree(v: Value, w: Value, s: string, t: string)
    requires WellFormed(v) && WellFormed(w) && Encode(v) + s == Encode(w) + t && |Encode(v) + s| <= ULONG_MAX
    ensures v == w && s == t
  {
    hide Encode, Decode, WellFormed;
    var steps := 2 * |Encode(v) + s| + 1;
    DecodeUndoesEncode(v, s, steps);
    DecodeUndoesEncode(w, t, steps);
    assert s == (Encode(v) + s)[|Encode(v)|..] == t;
  }

  // ---------- What the parser returns ----------

  function AsMap(es: seq<Entry>): map<string, Value> {
    if es == [] then map[] else AsMap(es[1..])[es[0].key := es[0].value]
  }

  /** Inserted is the assignment dict[key] = value. */
  lemma {:induction false} InsertedIsMapUpdate(es: seq<Entry>, key: string, v: Value)
    ensures AsMap(Inserted(es, key, v)) == AsMap(es)[key := v]
  {
    hide Less;
    if es != [] {
      InsertedIsMapUpdate(es[1..], key, v);
      var rest := Inserted(es[1..], key, v);
      assert ([es[0]] + rest)[1..] == rest;
      assert ([Entry(key, v)] + es)[1..] == es;
      assert ([Entry(key, v)] + es[1..])[1..] == es[1..];
    } else {
      assert [Entry(key, v)][1..] == [];
    }
  }

  lemma {:induction false} LessIsTransitive(a: string, b: string, c: string)
    requires Less(a, b) && Less(b, c)
    ensures Less(a, c)
  {
    if a != [] && a[0] == b[0] && b[0] == c[0] { LessIsTransitive(a[1..], b[1..], c[1..]); }
  }

  lemma {:induction false} LessIsTotal(a: string, b: string)
    ensures a == b || Less(a, b) || Less(b, a)
  {
    if a != [] && b != [] && a[0] == b[0] {
      LessIsTotal(a[1..], b[1..]);
      assert a == [a[0]] + a[1..] && b == [b[0]] + b[1..];
    }
  }

  /** A property of the keys and values of a dictionary survives an insertion of such a pair. */
  lemma {:induction false} InsertedHasNothingElse(es: seq<Entry>, key: string, v: Value, e: Entry)
    requires e in Inserted(es, key, v)
    ensures e == Entry(key, v) || e in es
  {
    hide Less;
    if es != [] {
      assert forall x :: x in es <==> x == es[0] || x in es[1..];
      if e in Inserted(es[1..], key, v) { InsertedHasNothingElse(es[1..], key, v, e); }
    }
  }

  lemma {:induction false} InsertedStaysSorted(es: seq<Entry>, key: string, v: Value)
    requires Sorted(es)
    ensures Sorted(Inserted(es, key, v))
  {
    hide Less;
    var r := Inserted(es, key, v);
    if es != [] && es[0].key != key {
      LessIsTotal(key, es[0].key);
      if Less(key, es[0].key) {
        forall j | 0 < j < |es| ensures Less(key, es[j].key) { LessIsTransitive(key, es[0].key, es[j].key); }
      } else {
        InsertedStaysSorted(es[1..], key, v);
        var rest := Inserted(es[1..], key, v);
        assert r == [es[0]] + rest;
        forall j | 0 <= j < |rest| ensures Less(es[0].key, rest[j].key) {
          InsertedHasNothingElse(es[1..], key, v, rest[j]);
        }
      }
    }
  }

  /** Whatever the text, wrapping lengths included, a value it yields is one the printer can be given. */
  lemma {:induction false} ParsedIsWellFormed(d: string, pos: nat, steps: nat)
    requires pos <= |d| <= ULONG_MAX && Read(d, pos, steps).Parsed?
    ensures WellFormed(Read(d, pos, steps).value)
    decreases steps, 0
  {
    hide StringRead, IntegerAt;
    if d[pos] == 'i' {
      IntegerIsInRange(d, pos);
    } else if d[pos] == 'l' {
      ItemsAreWellFormed(d, pos + 1, [], steps - 1);
    } else if d[pos] == 'd' {
      EntriesAreWellFormed(d, pos + 1, [], steps - 1);
    } else {
      StringIsShort(d, pos);
    }
  }

  lemma IntegerIsInRange(d: string, pos: nat)
    requires pos < |d| && IntegerAt(d, pos).Parsed?
    ensures IntegerAt(d, pos).value.Int? && WellFormed(IntegerAt(d, pos).value)
  {
    hide Stoll, Find;
  }

  lemma StringIsShort(d: string, pos: nat)
    requires pos <= |d| <= ULONG_MAX && StringRead(d, pos).Parsed?
    ensures StringRead(d, pos).value.Str? && WellFormed(StringRead(d, pos).value)
  {
    hide Stoul, Find;
  }

  lemma {:induction false} ItemsAreWellFormed(d: string, pos: nat, items: seq<Value>, steps: nat)
    requires pos <= |d| <= ULONG_MAX && WellFormed(List(items)) && ReadItems(d, pos, items, steps).Parsed?
    ensures WellFormed(ReadItems(d, pos, items, steps).value)
    decreases steps, 1
  {
    hide Read;
    if d[pos] != 'e' {
      ParsedIsWellFormed(d, pos, steps - 1);
      var r := Read(d, pos, steps - 1);
      ItemsAreWellFormed(d, r.next, items + [r.value], steps - 1);
    }
  }

  lemma {:induction false} EntriesAreWellFormed(d: string, pos: nat, es: seq<Entry>, steps: nat)
    requires pos <= |d| <= ULONG_MAX && WellFormed(Dict(es)) && ReadEntries(d, pos, es, steps).Parsed?
    ensures WellFormed(ReadEntries(d, pos, es, steps).value)
    decreases steps, 1
  {
    hide Read, Less;
    if d[pos] != 'e' {
      ParsedIsWellFormed(d, pos, steps - 1);
      var k := Read(d, pos, steps - 1);
      ParsedIsWellFormed(d, k.next, steps - 1);
      var v := Read(d, k.next, steps - 1);
      DictStaysWellFormed(es, k.value.text, v.value);
      EntriesAreWellFormed(d, v.next, Inserted(es, k.value.text, v.value), steps - 1);
    }
  }

  lemma DictStaysWellFormed(es: seq<Entry>, key: string, v: Value)
    requires WellFormed(Dict(es)) && |key| <= ULONG_MAX && WellFormed(v)
    ensures WellFormed(Dict(Inserted(es, key, v)))
  {
    hide Less, Inserted;
    InsertedStaysSorted(es, key, v);
    var r := Inserted(es, key, v);
    forall i | 0 <= i < |r| ensures |r[i].key| <= ULONG_MAX && WellFormed(r[i].value) {
      InsertedHasNothingElse(es, key, v, r[i]);
    }
  }

  /** Printing what was parsed and parsing it again changes nothing: the printed form is canonical. */
  lemma PrintedFormIsCanonical(d: string, steps: nat, again: nat)
    requires |d| <= ULONG_MAX && Decode(d, steps).Parsed?
    requires |Encode(Decode(d, steps).value)| <= ULONG_MAX && again >= 2 * |Encode(Decode(d, steps).value)| + 1
    ensures Decode(Encode(Decode(d, steps).value), again) == Parsed(Decode(d, steps).value, |Encode(Decode(d, steps).value)|)
  {
    hide Encode, Read, WellFormed;
    ParsedIsWellFormed(d, 0, steps);
    var v := Decode(d, steps).value;
    assert Encode(v) + "" == Encode(v);
    DecodeUndoesEncode(v, "", again);
  }

  // ---------- The code ----------

  lemma JoinThree(s: string, a: string, b: string, c: string)
    ensures s + a + b + c == s + (a + b + c)
  {
  }

  class OutputStream {
    var text: string

    constructor ()
      ensures text == ""
    {
      text := "";
    }

    method Write(s: string)
      modifies this
      ensures text == old(text) + s
    {
      text := text + s;
    }

    method EncodeImpl(v: Value)
      modifies this
      ensures text == old(text) + Encode(v)
      decreases v, 1
    {
      hide EncodeString, EncodeItems, EncodeEntries, Signed;
      match v {
        case Str(s) =>
          WriteString(s);
        case Int(i) =>
          WriteBetween("i", Signed(i), "e");
        case List(items) =>
          Write("l");
          WriteItems(v, items);
          Write("e");
          JoinThree(old(text), "l", EncodeItems(v, items), "e");
        case Dict(es) =>
          Write("d");
          WriteEntries(v, es);
          Write("e");
          JoinThree(old(text), "d", EncodeEntries(v, es), "e");
      }
    }

    method WriteBetween(a: string, b: string, c: string)
      modifies this
      ensures text == old(text) + (a + b + c)
    {
      Write(a); Write(b); Write(c);
    }

    method WriteItems(v: Value, items: seq<Value>)
      requires v == List(items)
      modifies this
      ensures text == old(text) + EncodeItems(v, items)
      decreases v, 0
    {
      hide Encode;
      for n := 0 to |items|
        invariant text == old(text) + EncodeItems(v, items[..n])
      {
        assert items[..n + 1][..n] == items[..n];
        EncodeImpl(items[n]);
      }
      assert items[..|items|] == items;
    }

    method WriteEntries(v: Value, es: seq<Entry>)
      requires v == Dict(es)
      modifies this
      ensures text == old(text) + EncodeEntries(v, es)
      decreases v, 0
    {
      hide Encode, EncodeString;
      for n := 0 to |es|
        invariant text == old(text) + EncodeEntries(v, es[..n])
      {
        assert es[..n + 1][..n] == es[..n];
        WriteString(es[n].key);
        EncodeImpl(es[n].value);
      }
      assert es[..|es|] == es;
    }

    method WriteString(s: string)
      modifies this
      ensures text == old(text) + EncodeString(s)
    {
      Write(Decimal(|s|)); Write(":"); Write(s);
    }
  }

  /** What a parsing method gives its caller: a value, the exception that left it, or nothing within its steps. */
  datatype Outcome = Returned(value: Value) | Thrown(error: Error) | StillRunning

  /** steps bounds the calls and loop rounds of a run; the code has no such bound. */
  class BencodeParser {
    const data: string
    var pos: nat

    constructor (data: string)
      ensures this.data == data && pos == 0
    {
      this.data := data;
      pos := 0;
    }

    /** The outcome and, if a value is returned, the position are those of r. */
    ghost predicate Did(r: Result, o: Outcome)
      reads this
    {
      match r
      case Parsed(v, next) => o == Returned(v) && pos == next
      case Failed(e) => o == Thrown(e)
      case Wrapped => false
      case OutOfSteps => o == StillRunning
    }

    method Parse(steps: nat) returns (o: Outcome)
      requires pos <= |data| <= ULONG_MAX
      modifies this
      ensures Did(Read(data, old(pos), steps), o)
      decreases steps, 1
    {
      if steps == 0 {
        return StillRunning;
      }
      if pos >= |data| {
        return Thrown(Malformed);
      }
      var c := data[pos];
      if c == 'i' {
        o := ParseInteger();
      } else if c == 'l' {
        o := ParseList(steps - 1);
      } else if c == 'd' {
        o := ParseDict(steps - 1);
      } else if '0' <= c <= '9' {
        o := ParseString();
      } else {
        o := Thrown(Malformed);
      }
    }

    method ParseString() returns (o: Outcome)
      requires pos <= |data| <= ULONG_MAX
      modifies this
      ensures Did(StringRead(data, old(pos)), o)
    {
      var colonPos := Find(data, ':', pos);
      if colonPos == |data| {
        return Thrown(Malformed);
      }
      var len := Stoul(data[pos..colonPos]);
      if len.InvalidArgument? {
        return Thrown(BadNumber);
      } else if len.OutOfRange? {
        return Thrown(NumberRange);
      }
      pos := colonPos + 1;
      if (pos + len.value) % (ULONG_MAX + 1) > |data| {
        return Thrown(Malformed);
      }
      o := Returned(Str(Substr(data, pos, len.value)));
      pos := (pos + len.value) % (ULONG_MAX + 1);
    }

    method ParseInteger() returns (o: Outcome)
      requires pos < |data|
      modifies this
      ensures Did(IntegerAt(data, old(pos)), o)
    {
      pos := pos + 1;
      var endPos := Find(data, 'e', pos);
      if endPos == |data| {
        return Thrown(Malformed);
      }
      var num := Stoll(data[pos..endPos]);
      if num.InvalidArgument? {
        return Thrown(BadNumber);
      } else if num.OutOfRange? {
        return Thrown(NumberRange);
      }
      pos := endPos + 1;
      o := Returned(Int(num.value));
    }

    method ParseList(steps: nat) returns (o: Outcome)
      requires pos < |data| <= ULONG_MAX
      modifies this
      ensures Did(ReadItems(data, old(pos) + 1, [], steps), o)
      decreases steps, 2
    {
      hide Read;
      pos := pos + 1;
      var list: seq<Value> := [];
      var left: nat := steps;
      while pos < |data| && data[pos] != 'e'
        invariant pos <= |data| && left <= steps
        invariant ReadItems(data, old(pos) + 1, [], steps) == ReadItems(data, pos, list, left)
        decreases left
      {
        if left == 0 {
          return StillRunning;
        }
        left := left - 1;
        var item := Parse(left);
        if !item.Returned? {
          return item;
        }
        list := list + [item.value];
      }
      if pos >= |data| {
        return Thrown(Malformed);
      }
      pos := pos + 1;
      o := Returned(List(list));
    }

    method ParseDict(steps: nat) returns (o: Outcome)
      requires pos < |data| <= ULONG_MAX
      modifies this
      ensures Did(ReadEntries(data, old(pos) + 1, [], steps), o)
      decreases steps, 2
    {
      hide Read, Inserted;
      pos := pos + 1;
      var dict: seq<Entry> := [];
      var left: nat := steps;
      while pos < |data| && data[pos] != 'e'
        invariant pos <= |data| && left <= steps
        invariant ReadEntries(data, old(pos) + 1, [], steps) == ReadEntries(data, pos, dict, left)
        decreases left
      {
        if left == 0 {
          return StillRunning;
        }
        left := left - 1;
        var keyVal := Parse(left);
        if !keyVal.Returned? {
          return keyVal;
        }
        if !keyVal.value.Str? {
          return Thrown(Malformed);
        }
        var value := Parse(left);
        if !value.Returned? {
          return value;
        }
        dict := Inserted(dict, keyVal.value.text, value.value);
      }
      if pos >= |data| {
        return Thrown(Malformed);
      }
      pos := pos + 1;
      o := Returned(Dict(dict));
    }
  }

  method BencodeEncode(v: Value) returns (text: string)
    ensures text == Encode(v)
  {
    var out := new OutputStream();
    out.EncodeImpl(v);
    text := out.text;
  }

  method BencodeDecode(data: string, steps: nat) returns (o: Outcome)
    requires |data| <= ULONG_MAX
    ensures match Decode(data, steps)
            case Parsed(v, _) => o == Returned(v)
            case Failed(e) => o == Thrown(e)
            case Wrapped => false
            case OutOfSteps => o == StillRunning
  {
    var parser := new BencodeParser(data);
    o := parser.Parse(steps);
  }
}
