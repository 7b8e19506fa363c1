// Content-Length in concrete characters: which header lines give a length, and
// what a message without one is.

module TcpHeaders {
  import opened Options
  import opened NumberTexts
  import opened Numerals
  import opened TcpFraming
  import opened Texts

  /** Equal letter by letter, where b may have small letters for a's capitals. */
  predicate SameLetters(a: string, b: string) {
    |a| == |b| && forall i | 0 <= i < |a| :: a[i] == b[i] || ('A' <= a[i] <= 'Z' && a[i] as int + 32 == b[i] as int)
  }

  predicate NoSpaceIn(s: string) {
    forall c | c in s :: c != ' ' && !('\t' <= c <= '\r')
  }

  lemma LowerKeepsLetters(s: string, t: string)
    requires forall c | c in t :: !('A' <= c <= 'Z')
    ensures Lower(s) == t <==> SameLetters(s, t)
  {
    forall i | 0 <= i < |s| && |s| == |t| ensures LowerChar(s[i]) == t[i] <==> s[i] == t[i] || ('A' <= s[i] <= 'Z' && s[i] as int + 32 == t[i] as int) {
      assert t[i] in t;
    }
    if Lower(s) == t { assert forall i | 0 <= i < |s| :: Lower(s)[i] == t[i]; }
  }

  lemma NothingToTrim(s: string)
    requires NoSpaceIn(s)
    ensures Trim(s) == s
  {
    if s != [] { assert s[0] in s && s[|s| - 1] in s; }
  }

  /** A line is a Content-Length line exactly when its name is content-length or l in any case. */
  lemma NameDecides(name: string, value: string)
    requires ':' !in name && NoSpaceIn(name)
    ensures LineLength(name + ":" + value + "\r").Some? <==> SameLetters(name, "content-length") || SameLetters(name, "l")
  {
    hide Trim, Lower, LengthValue, NoSpaceIn;
    var line := name + ":" + value;
    assert WithoutReturn(line + "\r") == line;
    FindsAt(line, ':', 0, |name|);
    assert line[..|name|] == name;
    NothingToTrim(name);
    LowerKeepsLetters(name, "content-length");
    LowerKeepsLetters(name, "l");
  }

  lemma LinesWithoutColonGiveNone(line: string)
    requires ':' !in line
    ensures LineLength(line + "\r") == None
  {
    var l := WithoutReturn(line + "\r");
    assert l == line;
  }

  /** The compact line l: a number that fits 64 bits is the length, one that does not, and a value without digits, count as 0. */
  lemma ValueDecides(n: nat, text: string)
    requires forall c | c in text :: !('0' <= c <= '9')
    ensures LineLength("l:" + Decimal(n) + "\r") == Some(if n < 0x1_0000_0000_0000_0000 then n else 0)
    ensures LineLength("l:" + text + "\r") == Some(0)
  {
    hide Decimal, Stoul, Trim, LineLength;
    CompactLine(Decimal(n));
    CompactLine(text);
    NumberNeedsNoTrim(n);
    StoulReads("", "", n, "");
    assert "" + "" + Decimal(n) + "" == Decimal(n);
    TrimmedIsPart(text);
    NoDigitNoNumber(Trim(text));
  }

  lemma CompactLine(value: string)
    ensures LineLength("l:" + value + "\r") == Some(LengthValue(Trim(value)))
  {
    hide LengthValue, Trim, Lower;
    var line := "l:" + value;
    assert WithoutReturn(line + "\r") == line;
    FindsAt(line, ':', 0, 1);
    assert line[..1] == "l" && line[2..] == value;
    ShortTextsAreTrimmed();
  }

  lemma NumberNeedsNoTrim(n: nat)
    ensures Trim(Decimal(n)) == Decimal(n) != []
  {
    hide Decimal;
    var d := Decimal(n);
    assert d[0] in d && d[|d| - 1] in d;
  }

  lemma TrimmedIsPart(s: string)
    ensures forall c | c in Trim(s) :: c in s
  {
    SkippedIsPart(s);
    DroppedIsPart(SkipSpace(s));
  }

  lemma {:induction false} DroppedIsPart(s: string)
    ensures forall c | c in DropTrailingSpace(s) :: c in s
  {
    if s != [] && IsSpace(s[|s| - 1]) { DroppedIsPart(s[..|s| - 1]); }
  }

  /** A header without a Content-Length line gives the length 0. */
  lemma {:induction false} NoLengthLineNoBody(lines: seq<string>)
    requires forall i | 0 <= i < |lines| :: IsHeaderLine(lines[i])
    ensures ContentLength(Lines(lines) + "\r\n") == 0
  {
    hide LineLength, ContentLength;
    if lines == [] {
      assert Lines(lines) + "\r\n" == "" + "\r\n" + "";
      LineDecides("", "");
      LinesWithoutColonGiveNone("");
      assert "" + "\r" == "\r";
      NothingIsLeft();
    } else {
      var line, rest := lines[0], Lines(lines[1..]) + "\r\n";
      assert IsHeaderLine(line);
      assert Lines(lines) + "\r\n" == line + "\r\n" + rest;
      LineDecides(line, rest);
      NoLengthLineNoBody(lines[1..]);
    }
  }

  lemma NothingIsLeft()
    ensures ContentLength("") == 0
  {
  }

  /** So a message without one ends with its blank line, whatever follows. */
  lemma MessageWithoutLength(lines: seq<string>, more: string)
    requires lines != [] && forall i | 0 <= i < |lines| :: IsHeaderLine(lines[i])
    requires |Lines(lines) + "\r\n"| < 0x1_0000_0000_0000_0000
    ensures MessageLength(Lines(lines) + "\r\n" + more) == Some(|Lines(lines)| + 2)
  {
    hide LineLength, ContentLength, HeaderEnd, IsHeaderLine, Lines;
    var header := Lines(lines) + "\r\n";
    var b := header + more;
    LinesAreLong(lines);
    forall j: nat | j + 4 <= |header| ensures Terminates(b, j) <==> j + 4 == |header| { BlankLineEndsIt(lines, more, j); }
    HeaderEndIs(b, 0, |header| - 4);
    assert b[..|header|] == header;
    NoLengthLineNoBody(lines);
  }

  lemma LinesAreLong(lines: seq<string>)
    requires lines != [] && forall i | 0 <= i < |lines| :: IsHeaderLine(lines[i])
    ensures |Lines(lines)| > 2 && Lines(lines)[0] != '\r'
  {
    hide LineLength;
    assert IsHeaderLine(lines[0]) && lines[0][0] in lines[0];
  }

  lemma {:induction false} BlankLineEndsIt(lines: seq<string>, more: string, j: nat)
    requires lines != [] && forall i | 0 <= i < |lines| :: IsHeaderLine(lines[i])
    requires j + 4 <= |Lines(lines)| + 2
    ensures Terminates(Lines(lines) + "\r\n" + more, j) <==> j + 2 == |Lines(lines)|
  {
    hide LineLength;
    var line := lines[0];
    assert IsHeaderLine(line);
    var h := Lines(lines) + "\r\n" + more;
    if |lines| == 1 {
      assert lines[1..] == [] && Lines(lines) == line + "\r\n" && h == line + "\r\n\r\n" + more;
      if j < |line| { assert h[j] == line[j] && line[j] in line; }
    } else {
      var tail := Lines(lines[1..]) + "\r\n" + more;
      assert h == line + "\r\n" + tail;
      LinesAreLong(lines[1..]);
      if j < |line| + 2 {
        LineHidesNoTerminator(line, tail, j);
      } else {
        BlankLineEndsIt(lines[1..], more, j - |line| - 2);
        assert Terminates(h, j) <==> Terminates(tail, j - |line| - 2);
      }
    }
  }
}
