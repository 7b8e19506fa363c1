// SIP over TCP: cutting the byte stream into messages by the header
// terminator and Content-Length.

module TcpFraming {
  import opened Options
  import opened Numerals
  import opened Texts

  const TERMINATOR := "\r\n\r\n"

  // ---------- Content-Length ----------

  function LowerChar(c: char): char {
    if 'A' <= c <= 'Z' then 'a' + (c - 'A') else c
  }

  function Lower(s: string): (r: string)
    ensures |r| == |s| && forall i | 0 <= i < |s| :: r[i] == LowerChar(s[i])
  {
    seq(|s|, i requires 0 <= i < |s| => LowerChar(s[i]))
  }

  function WithoutReturn(line: string): string {
    if line != [] && line[|line| - 1] == '\r' then line[..|line| - 1] else line
  }

  /** A length that cannot be read counts as 0. */
  function LengthValue(value: string): nat {
    if value == [] then 0
    else
      match Stoul(value)
      case Value(n) => n
      case _ => 0
  }

  /** The length a header line gives, when it is a Content-Length line in either form. */
  function LineLength(raw: string): Option<nat> {
    var line := WithoutReturn(raw);
    var colon := Find(line, ':', 0);
    if colon == |line| then None
    else
      var name := Lower(Trim(line[..colon]));
      if name != "content-length" && name != "l" then None
      else Some(LengthValue(Trim(line[colon + 1..])))
  }

  /** The rest of the stream behind a line, as getline leaves it. */
  function AfterLine(s: string, end: nat): (r: string)
    requires end <= |s| && s != []
    ensures |r| < |s|
  {
    if end < |s| then s[end + 1..] else ""
  }

  /** The first Content-Length line decides; without one the body is empty. */
  function ContentLength(headers: string): nat
    decreases |headers|
  {
    if headers == [] then 0
    else
      var end := Find(headers, '\n', 0);
      var length := LineLength(headers[..end]);
      if length.Some? then length.value else ContentLength(AfterLine(headers, end))
  }

  method ParseContentLength(headers: string) returns (length: nat)
    ensures length == ContentLength(headers)
  {
    hide LineLength, Find;
    var stream := headers;
    while stream != []
      invariant ContentLength(headers) == ContentLength(stream)
      decreases |stream|
    {
      var end := Find(stream, '\n', 0);
      var found := ParseLine(stream[..end]);
      if found.Some? {
        return found.value;
      }
      stream := AfterLine(stream, end);
    }
    return 0;
  }

  /** The body of the loop above: None is its continue. */
  method ParseLine(raw: string) returns (length: Option<nat>)
    ensures length == LineLength(raw)
  {
    var line := raw;
    if line != [] && line[|line| - 1] == '\r' {
      line := line[..|line| - 1];
    }
    var colon := Find(line, ':', 0);
    if colon == |line| {
      return None;
    }
    var name := Lower(Trim(line[..colon]));
    if name != "content-length" && name != "l" {
      return None;
    }
    var value := Trim(line[colon + 1..]);
    if value == [] {
      return Some(0);
    }
    var number := Stoul(value);
    return Some(if number.Value? then number.value else 0);
  }

  // ---------- One message ----------

  predicate Terminates(b: string, i: nat) {
    i + 4 <= |b| && b[i] == '\r' && b[i + 1] == '\n' && b[i + 2] == '\r' && b[i + 3] == '\n'
  }

  /** Where the first header terminator begins; the length when there is none. */
  function HeaderEnd(b: string, pos: nat): (i: nat)
    requires pos <= |b|
    ensures pos <= i <= |b|
    ensures i < |b| ==> Terminates(b, i)
    ensures forall j | pos <= j < i :: !Terminates(b, j)
    decreases |b| - pos
  {
    if pos == |b| || Terminates(b, pos) then pos else HeaderEnd(b, pos + 1)
  }

  /** headers_len + content_length on 64 bits, for a buffer with a terminator. */
  function FullLength(b: string): (n: nat)
    requires HeaderEnd(b, 0) < |b|
    ensures n <= ULONG_MAX
  {
    var headersLen := HeaderEnd(b, 0) + 4;
    (headersLen + ContentLength(b[..headersLen])) % (ULONG_MAX + 1)
  }

  /** How much of the buffer is cut off as its first message, once so much of it is there; it can be nothing. */
  function MessageLength(b: string): (n: Option<nat>)
    ensures n.Some? ==> n.value <= |b|
  {
    if HeaderEnd(b, 0) == |b| || |b| < FullLength(b) then None else Some(FullLength(b))
  }

  /** A message reaches to the end of its header at least, and is as long as it says, exactly when the sum does not wrap. */
  lemma MessageIsWholeUnlessItWraps(b: string)
    requires MessageLength(b).Some? && |b| <= ULONG_MAX
    ensures var headersLen := HeaderEnd(b, 0) + 4; var length := ContentLength(b[..headersLen]);
            && (headersLen + length <= ULONG_MAX <==> MessageLength(b).value >= headersLen)
            && (headersLen + length <= ULONG_MAX <==> MessageLength(b).value == headersLen + length)
  {
    hide HeaderEnd, ContentLength;
    ContentLengthFits(b[..HeaderEnd(b, 0) + 4]);
  }

  lemma {:induction false} ContentLengthFits(headers: string)
    ensures ContentLength(headers) <= ULONG_MAX
    decreases |headers|
  {
    hide Find, LineLength;
    if headers != [] {
      var end := Find(headers, '\n', 0);
      LineLengthFits(headers[..end]);
      ContentLengthFits(AfterLine(headers, end));
    }
  }

  lemma LineLengthFits(raw: string)
    ensures LineLength(raw).Some? ==> LineLength(raw).value <= ULONG_MAX
  {
    hide Find, Trim, Lower, WithoutReturn;
  }

  lemma {:induction false} HeaderEndIs(b: string, pos: nat, i: nat)
    requires pos <= i && Terminates(b, i)
    requires forall j | pos <= j < i :: !Terminates(b, j)
    ensures HeaderEnd(b, pos) == i
    decreases i - pos
  {
    if pos < i { HeaderEndIs(b, pos + 1, i); }
  }

  lemma MoreBytesKeepTheMessage(b: string, more: string)
    requires MessageLength(b).Some?
    ensures MessageLength(b + more) == MessageLength(b)
  {
    hide ContentLength, HeaderEnd;
    var end := HeaderEnd(b, 0);
    var c := b + more;
    forall j | 0 <= j <= end ensures Terminates(c, j) <==> Terminates(b, j) { }
    HeaderEndIs(c, 0, end);
    assert c[..end + 4] == b[..end + 4];
  }

  // ---------- A stream ----------

  /** The next message is empty: it is handed up, nothing is erased, and the loop is where it was. */
  predicate Stalls(b: string) {
    MessageLength(b) == Some(0)
  }

  /** The messages handed up from a buffer until none is complete, or until the loop stalls, and what is left then. */
  function Drain(b: string): (r: (seq<string>, string))
    ensures MessageLength(r.1) == None || Stalls(r.1)
    decreases |b|
  {
    match MessageLength(b)
    case None => ([], b)
    case Some(n) =>
      if n == 0 then ([], b)
      else
        var (messages, rest) := Drain(b[n..]);
        ([b[..n]] + messages, rest)
  }

  /** No header that the loop gets to has a full length of 0. */
  predicate Progresses(b: string)
    decreases |b|
  {
    MessageLength(b) == None || (!Stalls(b) && Progresses(b[MessageLength(b).value..]))
  }

  lemma {:induction false} ProgressesIsNotStalling(b: string)
    ensures Progresses(b) <==> !Stalls(Drain(b).1)
    decreases |b|
  {
    hide MessageLength;
    if MessageLength(b).Some? && !Stalls(b) { ProgressesIsNotStalling(b[MessageLength(b).value..]); }
  }

  /** The buffer after n rounds of the loop; None when the loop has ended before. */
  function AfterRounds(b: string, n: nat): Option<string>
    decreases n
  {
    if n == 0 then Some(b)
    else
      match MessageLength(b)
      case None => None
      case Some(k) => AfterRounds(b[k..], n - 1)
  }

  ghost predicate Ends(b: string) {
    exists n: nat :: AfterRounds(b, n) == None
  }

  /** The loop of a read ends exactly when no header it gets to has a full length of 0. */
  lemma LoopEndsIffItProgresses(b: string)
    ensures Ends(b) <==> Progresses(b)
  {
    if Progresses(b) {
      ProgressEnds(b);
    } else {
      forall n: nat ensures AfterRounds(b, n).Some? { StallNeverEnds(b, n); }
    }
  }

  lemma {:induction false} ProgressEnds(b: string)
    requires Progresses(b)
    ensures AfterRounds(b, |b| + 1) == None
    decreases |b|
  {
    hide MessageLength;
    var n := MessageLength(b);
    if n.Some? {
      ProgressEnds(b[n.value..]);
      EndedStaysEnded(b[n.value..], |b| - n.value + 1, |b|);
    }
  }

  lemma {:induction false} EndedStaysEnded(b: string, m: nat, n: nat)
    requires m <= n && AfterRounds(b, m) == None
    ensures AfterRounds(b, n) == None
    decreases m
  {
    hide MessageLength;
    if MessageLength(b).Some? { EndedStaysEnded(b[MessageLength(b).value..], m - 1, n - 1); }
  }

  lemma {:induction false} StallNeverEnds(b: string, n: nat)
    requires !Progresses(b)
    ensures AfterRounds(b, n).Some?
    decreases n
  {
    hide MessageLength;
    if n > 0 {
      var k := MessageLength(b).value;
      if k == 0 { assert b[k..] == b; }
      StallNeverEnds(b[k..], n - 1);
    }
  }

  lemma ShortTextsAreTrimmed()
    ensures Lower(Trim("l")) == "l" && Trim("-8") == "-8"
  {
    assert SkipSpace("-8") == "-8" && SkipSpace("l") == "l";
  }

  lemma MinusEightIsANumber()
    ensures Stoul("-8") == Value(ULONG_MAX - 7)
  {
    assert Decimal(8) == "8";
    assert "-" + Decimal(8) == "-8";
    DecimalHasMagnitude(8);
  }

  lemma MinusEightIsRead()
    ensures LineLength("l:-8\r") == Some(ULONG_MAX - 7)
  {
    hide Trim, Lower, Stoul;
    var line := "l:-8";
    assert WithoutReturn("l:-8\r") == line;
    FindsAt(line, ':', 0, 1);
    assert line[..1] == "l" && line[2..] == "-8";
    ShortTextsAreTrimmed();
    MinusEightIsANumber();
  }

  /** A Content-Length of -8 behind a header of eight bytes: the loop never ends. */
  lemma NegativeLengthCanStall()
    ensures Stalls("l:-8\r\n\r\n") && !Ends("l:-8\r\n\r\n")
  {
    hide LineLength, ContentLength;
    var b := "l:-8\r\n\r\n";
    HeaderEndIs(b, 0, 4);
    assert b == "l:-8" + "\r\n" + "\r\n" && b[..8] == b;
    LineDecides("l:-8", "\r\n");
    assert "l:-8" + "\r" == "l:-8\r";
    MinusEightIsRead();
    assert FullLength(b) == 0;
    LoopEndsIffItProgresses(b);
  }

  /** Nothing is lost, added or reordered. */
  lemma {:induction false} DrainKeepsTheBytes(b: string)
    ensures Concat(Drain(b).0) + Drain(b).1 == b
    decreases |b|
  {
    hide MessageLength;
    var n := MessageLength(b);
    if n.Some? && n.value > 0 {
      DrainKeepsTheBytes(b[n.value..]);
      var (messages, rest) := Drain(b[n.value..]);
      assert ([b[..n.value]] + messages)[1..] == messages;
      assert b == b[..n.value] + b[n.value..];
    }
  }

  lemma {:induction false} DrainInTwoSteps(a: string, b: string)
    ensures var (messages, rest) := Drain(a);
            Drain(a + b) == (messages + Drain(rest + b).0, Drain(rest + b).1)
    decreases |a|
  {
    hide MessageLength;
    var n := MessageLength(a);
    if n.Some? && n.value > 0 {
      MoreBytesKeepTheMessage(a, b);
      assert (a + b)[..n.value] == a[..n.value] && (a + b)[n.value..] == a[n.value..] + b;
      DrainInTwoSteps(a[n.value..], b);
      var (messages, rest) := Drain(a[n.value..]);
      assert [a[..n.value]] + (messages + Drain(rest + b).0) == ([a[..n.value]] + messages) + Drain(rest + b).0;
    } else {
      assert [] + Drain(a + b).0 == Drain(a + b).0;
    }
  }

  /** What the connection has handed up and what it still holds after a sequence of reads. */
  function AfterReads(chunks: seq<string>): (seq<string>, string) {
    if chunks == [] then ([], "")
    else
      var (messages, buffer) := AfterReads(chunks[..|chunks| - 1]);
      var (others, rest) := Drain(buffer + chunks[|chunks| - 1]);
      (messages + others, rest)
  }

  /** The loop ends after every one of the reads. */
  predicate EveryReadEnds(chunks: seq<string>) {
    chunks == []
    || (EveryReadEnds(chunks[..|chunks| - 1]) && Progresses(AfterReads(chunks[..|chunks| - 1]).1 + chunks[|chunks| - 1]))
  }

  /**
   * However a stream is cut into reads, the messages and the leftover are those of one read of all of it;
   * and whether the loop ends after every read does not depend on the cutting either.
   */
  lemma {:induction false} FramingIgnoresChunking(chunks: seq<string>)
    ensures EveryReadEnds(chunks) <==> Progresses(Concat(chunks))
    ensures AfterReads(chunks) == Drain(Concat(chunks))
  {
    hide Drain, Progresses, Stalls, MessageLength;
    if chunks == [] {
      EmptyDrain();
    } else {
      var init := chunks[..|chunks| - 1];
      var last := chunks[|chunks| - 1];
      FramingIgnoresChunking(init);
      DrainInTwoSteps(Concat(init), last);
      assert chunks == init + [last];
      ConcatAppends(init, [last]);
      assert Concat([last]) == last by { assert [last][1..] == []; }
      var (_, rest) := Drain(Concat(init));
      ProgressesIsNotStalling(Concat(chunks));
      ProgressesIsNotStalling(rest + last);
      ProgressesIsNotStalling(Concat(init));
      if Stalls(rest) { StallStays(rest, last); }
    }
  }

  /** Once the loop stalls, more bytes do not help it. */
  lemma StallStays(b: string, more: string)
    requires Stalls(b)
    ensures Stalls(b + more) && Drain(b + more).1 == b + more
  {
    hide MessageLength;
    MoreBytesKeepTheMessage(b, more);
  }

  lemma EmptyDrain()
    ensures Drain("") == ([], "") && Progresses("")
  {
  }

  // ---------- Messages written by a peer ----------

  predicate NotALength(line: string) {
    LineLength(line + "\r") == None
  }

  /** A header line: not empty, without line ends, and not another Content-Length. */
  predicate IsHeaderLine(line: string) {
    line != [] && '\r' !in line && '\n' !in line && NotALength(line)
  }

  function Lines(lines: seq<string>): string {
    if lines == [] then "" else lines[0] + "\r\n" + Lines(lines[1..])
  }

  function LengthLine(n: nat): string {
    "Content-Length: " + Decimal(n)
  }

  function Header(lines: seq<string>, n: nat): string {
    Lines(lines) + (LengthLine(n) + TERMINATOR)
  }

  function Wire(lines: seq<string>, body: string): string {
    Header(lines, |body|) + body
  }

  lemma NumberIsTrimmed(n: nat)
    ensures Trim(" " + Decimal(n)) == Decimal(n) != []
  {
    hide Decimal;
    var d := Decimal(n);
    assert d[0] in d && d[|d| - 1] in d;
    assert (" " + d)[1..] == d;
    assert SkipSpace(" " + d) == d;
  }

  lemma LineLengthIsRead(n: nat)
    requires n <= ULONG_MAX
    ensures LineLength(LengthLine(n) + "\r") == Some(n)
  {
    hide Decimal, Stoul, Trim, Lower;
    var d := Decimal(n);
    var line := LengthLine(n);
    assert WithoutReturn(line + "\r") == line;
    var name := "Content-Length";
    assert line == name + ":" + (" " + d);
    FindsAt(line, ':', 0, 14);
    assert line[..14] == name && line[15..] == " " + d;
    NameIsLower();
    NumberIsTrimmed(n);
    StoulReadsDecimal(n);
  }

  lemma NameIsLower()
    ensures Lower(Trim("Content-Length")) == "content-length"
  {
  }

  lemma {:induction false} LineDecides(line: string, rest: string)
    requires '\n' !in line
    ensures ContentLength(line + "\r\n" + rest)
         == if LineLength(line + "\r").Some? then LineLength(line + "\r").value else ContentLength(rest)
  {
    hide LineLength;
    var h := line + "\r\n" + rest;
    var end := |line| + 1;
    forall j | 0 <= j < end ensures h[j] != '\n' { if j < |line| { assert h[j] == line[j]; assert line[j] in line; } }
    FindsAt(h, '\n', 0, end);
    assert h[..end] == line + "\r" && h[end + 1..] == rest;
  }

  lemma {:induction false} HeaderGivesLength(lines: seq<string>, n: nat)
    requires n <= ULONG_MAX && forall i | 0 <= i < |lines| :: IsHeaderLine(lines[i])
    ensures ContentLength(Header(lines, n)) == n
  {
    hide ContentLength, LineLength, LengthLine;
    if lines == [] {
      var line := LengthLine(n);
      assert Header(lines, n) == line + "\r\n" + "\r\n";
      NoNewlineInLengthLine(n);
      LineDecides(line, "\r\n");
      LineLengthIsRead(n);
    } else {
      assert IsHeaderLine(lines[0]);
      LineDecides(lines[0], Header(lines[1..], n));
      HeaderGivesLength(lines[1..], n);
      assert Header(lines, n) == lines[0] + "\r\n" + Header(lines[1..], n);
    }
  }

  lemma NoNewlineInLengthLine(n: nat)
    ensures '\n' !in LengthLine(n) && '\r' !in LengthLine(n) && LengthLine(n) != []
  {
    hide Decimal;
    assert forall c | c in Decimal(n) :: IsDigit(c);
  }

  /** A line without return characters in front of something that does not start with one hides no terminator. */
  lemma LineHidesNoTerminator(line: string, rest: string, j: nat)
    requires '\r' !in line && rest != [] && rest[0] != '\r' && j < |line| + 2
    ensures !Terminates(line + "\r\n" + rest, j)
  {
    var h := line + "\r\n" + rest;
    if j < |line| {
      assert h[j] == line[j] && line[j] in line;
    } else if j == |line| && j + 4 <= |h| {
      assert h[j + 2] == rest[0];
    } else if j == |line| + 1 {
      assert h[j] == '\n';
    }
  }

  lemma HeaderStarts(lines: seq<string>, n: nat)
    requires forall i | 0 <= i < |lines| :: IsHeaderLine(lines[i])
    ensures Header(lines, n) != [] && Header(lines, n)[0] != '\r'
  {
    hide LineLength, LengthLine;
    NoNewlineInLengthLine(n);
    var line := if lines == [] then LengthLine(n) else lines[0];
    assert lines != [] ==> IsHeaderLine(lines[0]);
    assert line != [] && line[0] in line && '\r' !in line;
    assert Header(lines, n)[0] == line[0];
  }

  /** The blank line that ends the header is the first one. */
  lemma {:induction false} HeaderEndsAtItsBlankLine(lines: seq<string>, n: nat, more: string, j: nat)
    requires forall i | 0 <= i < |lines| :: IsHeaderLine(lines[i])
    requires j + 4 <= |Header(lines, n)|
    ensures Terminates(Header(lines, n) + more, j) <==> j + 4 == |Header(lines, n)|
  {
    hide LineLength, LengthLine;
    var h := Header(lines, n) + more;
    if lines == [] {
      var line := LengthLine(n);
      NoNewlineInLengthLine(n);
      assert h == line + TERMINATOR + more;
      if j < |line| { assert h[j] == line[j] && line[j] in line; }
    } else {
      var line, tail := lines[0], Header(lines[1..], n);
      assert IsHeaderLine(line);
      assert Header(lines, n) == line + "\r\n" + tail;
      assert h == line + "\r\n" + (tail + more);
      HeaderStarts(lines[1..], n);
      if j < |line| + 2 {
        LineHidesNoTerminator(line, tail + more, j);
        HeaderIsLong(lines[1..], n);
      } else {
        var k := j - |line| - 2;
        HeaderEndsAtItsBlankLine(lines[1..], n, more, k);
        assert Terminates(h, j) <==> Terminates(tail + more, k);
      }
    }
  }

  lemma HeaderIsLong(lines: seq<string>, n: nat)
    ensures |Header(lines, n)| > 4
  {
    hide Lines, Decimal;
  }

  lemma WireIsOneMessage(lines: seq<string>, body: string, more: string)
    requires |Wire(lines, body)| <= ULONG_MAX && forall i | 0 <= i < |lines| :: IsHeaderLine(lines[i])
    ensures MessageLength(Wire(lines, body) + more) == Some(|Wire(lines, body)|)
  {
    hide ContentLength, HeaderEnd, Header, IsHeaderLine;
    var header := Header(lines, |body|);
    var b := Wire(lines, body) + more;
    assert b == header + (body + more);
    HeaderIsLong(lines, |body|);
    forall j: nat | j + 4 <= |header| ensures Terminates(b, j) <==> j + 4 == |header| {
      HeaderEndsAtItsBlankLine(lines, |body|, body + more, j);
    }
    HeaderEndIs(b, 0, |header| - 4);
    assert b[..|header|] == header;
    HeaderGivesLength(lines, |body|);
  }

  datatype Sent = Sent(lines: seq<string>, body: string)

  predicate WellWritten(m: Sent) {
    |Wire(m.lines, m.body)| <= ULONG_MAX && forall i | 0 <= i < |m.lines| :: IsHeaderLine(m.lines[i])
  }

  function Wires(ms: seq<Sent>): seq<string> {
    if ms == [] then [] else [Wire(ms[0].lines, ms[0].body)] + Wires(ms[1..])
  }

  lemma WireIsLong(lines: seq<string>, body: string)
    ensures |Wire(lines, body)| > 4
  {
    hide Header;
    HeaderIsLong(lines, |body|);
  }

  lemma {:induction false} DrainFindsWhatWasWritten(ms: seq<Sent>)
    requires forall i | 0 <= i < |ms| :: WellWritten(ms[i])
    ensures Drain(Concat(Wires(ms))) == (Wires(ms), "") && Progresses(Concat(Wires(ms)))
  {
    hide MessageLength, Wire;
    if ms == [] {
      EmptyDrain();
    } else {
      var m := ms[0];
      var w, more := Wire(m.lines, m.body), Concat(Wires(ms[1..]));
      assert WellWritten(m);
      WireIsOneMessage(m.lines, m.body, more);
      DrainFindsWhatWasWritten(ms[1..]);
      var ws := Wires(ms);
      assert ws == [w] + Wires(ms[1..]);
      assert ws[0] == w && ws[1..] == Wires(ms[1..]);
      var b := w + more;
      assert Concat(Wires(ms)) == b;
      assert b[..|w|] == w && b[|w|..] == more;
      WireIsLong(m.lines, m.body);
    }
  }

  /** Messages sent back to back come out one by one as they were sent, however TCP cuts the stream. */
  lemma SentMessagesArrive(ms: seq<Sent>, chunks: seq<string>)
    requires (forall i | 0 <= i < |ms| :: WellWritten(ms[i])) && Concat(chunks) == Concat(Wires(ms))
    ensures EveryReadEnds(chunks) && AfterReads(chunks) == (Wires(ms), "")
  {
    FramingIgnoresChunking(chunks);
    DrainFindsWhatWasWritten(ms);
  }

  // ---------- The code ----------

  class Connection {
    var readBuffer: string
    /** What has been handed to handleIncomingMessage. */
    var handled: seq<string>
    ghost var received: seq<string>

    constructor ()
      ensures Valid() && received == []
    {
      readBuffer, handled, received := "", [], [];
    }

    ghost predicate Valid()
      reads this
    {
      (handled, readBuffer) == AfterReads(received) && EveryReadEnds(received)
    }

    method TryExtractSipMessage() returns (message: Option<string>)
      modifies this`readBuffer
      ensures match MessageLength(old(readBuffer))
              case None => message == None && readBuffer == old(readBuffer)
              case Some(n) => message == Some(old(readBuffer)[..n]) && readBuffer == old(readBuffer)[n..]
    {
      var headerEnd := HeaderEnd(readBuffer, 0);
      if headerEnd == |readBuffer| {
        return None;
      }
      var headersLen := headerEnd + 4;
      var contentLength := ParseContentLength(readBuffer[..headersLen]);
      var fullLen := (headersLen + contentLength) % (ULONG_MAX + 1);
      if |readBuffer| < fullLen {
        return None;
      }
      message := Some(readBuffer[..fullLen]);
      readBuffer := readBuffer[fullLen..];
    }

    /**
     * The completion handler of one read, looked at for a number of rounds of its loop: it either has ended by
     * then, or is where that many rounds lead. LoopEndsIffItProgresses says when it ends at all.
     */
    method OnRead(bytes: string, rounds: nat) returns (ended: bool)
      requires Valid()
      modifies this
      ensures ended <==> AfterRounds(old(readBuffer) + bytes, rounds) == None
      ensures ended ==> Valid() && received == old(received) + [bytes]
      ensures !ended ==> AfterRounds(old(readBuffer) + bytes, rounds) == Some(readBuffer) && received == old(received)
    {
      hide MessageLength;
      readBuffer := readBuffer + bytes;
      ghost var start := handled;
      ghost var buffer := readBuffer;
      var left: nat := rounds;
      while left > 0
        invariant left <= rounds && received == old(received)
        invariant AfterRounds(buffer, rounds) == AfterRounds(readBuffer, left)
        invariant Progresses(buffer) ==> Progresses(readBuffer)
        invariant Progresses(buffer) ==> start + Drain(buffer).0 == handled + Drain(readBuffer).0 && Drain(buffer).1 == Drain(readBuffer).1
        decreases left
      {
        ghost var before := readBuffer;
        var raw := TryExtractSipMessage();
        if raw.None? {
          assert AfterRounds(readBuffer, left) == None;
          assert AfterRounds(buffer, rounds) == None;
          LoopEndsIffItProgresses(buffer);
          assert Drain(readBuffer) == ([], readBuffer);
          EndOfRead(start, buffer, old(received), bytes);
          assert handled + [] == handled;
          received := received + [bytes];
          return true;
        }
        assert Progresses(before) ==> handled + Drain(before).0 == (handled + [raw.value]) + Drain(readBuffer).0;
        handled := handled + [raw.value];
        left := left - 1;
      }
      return false;
    }
  }

  lemma EndOfRead(handled: seq<string>, buffer: string, received: seq<string>, bytes: string)
    requires EveryReadEnds(received) && AfterReads(received).0 == handled && AfterReads(received).1 + bytes == buffer
    requires Progresses(buffer)
    ensures EveryReadEnds(received + [bytes])
    ensures AfterReads(received + [bytes]) == (handled + Drain(buffer).0, Drain(buffer).1)
  {
    hide Drain, Progresses;
    var all := received + [bytes];
    assert all[..|all| - 1] == received && all[|all| - 1] == bytes;
  }
}
