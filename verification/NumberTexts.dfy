// Numbers in concrete characters: what std::stoul and std::stoll make of a text.

module NumberTexts {

  import opened Numerals
  import opened Texts

  /** Sign and digits as they are read after leading space, up to the first other character. */
  lemma MagnitudeOf(space: string, sign: string, n: nat, rest: string)
    requires (forall c | c in space :: c == ' ' || 9 <= c as int <= 13) && sign in {"", "+", "-"}
    requires rest == "" || !('0' <= rest[0] <= '9')
    ensures Magnitude(space + sign + Decimal(n) + rest) == Value((sign == "-", n))
  {
    hide Decimal, DigitRun, NumberOf;
    var d := Decimal(n);
    assert d[0] in d;
    assert space + sign + d + rest == space + (sign + d + rest);
    SpaceIsSkipped(space, sign + d + rest);
    var t := sign + d + rest;
    var u := if t[0] == '-' || t[0] == '+' then t[1..] else t;
    assert u == d + rest;
    forall j | 0 <= j < |d| ensures IsDigit(u[j]) { assert u[j] == d[j] && d[j] in d; }
    RunStopsAt(u, |d|);
    assert u[..|d|] == d;
    DecimalIsRead(n);
  }

  lemma {:induction false} SpaceIsSkipped(space: string, rest: string)
    requires (forall c | c in space :: c == ' ' || 9 <= c as int <= 13) && rest != [] && !IsSpace(rest[0])
    ensures SkipSpace(space + rest) == rest
  {
    if space == [] {
      assert space + rest == rest;
    } else {
      assert space[0] in space && (space + rest)[1..] == space[1..] + rest;
      assert forall c | c in space[1..] :: c in space;
      SpaceIsSkipped(space[1..], rest);
    }
  }

  /** Lengths are read modulo 2^64: a minus sign is accepted and negates. */
  lemma StoulReads(space: string, sign: string, n: nat, rest: string)
    requires (forall c | c in space :: c == ' ' || 9 <= c as int <= 13) && sign in {"", "+", "-"}
    requires rest == "" || !('0' <= rest[0] <= '9')
    ensures Stoul(space + sign + Decimal(n) + rest) ==
              if n >= 0x1_0000_0000_0000_0000 then OutOfRange
              else if sign == "-" && n > 0 then Value(0x1_0000_0000_0000_0000 - n)
              else Value(n)
  {
    hide Magnitude, Decimal;
    MagnitudeOf(space, sign, n, rest);
  }

  lemma StollReads(space: string, sign: string, n: nat, rest: string)
    requires (forall c | c in space :: c == ' ' || 9 <= c as int <= 13) && sign in {"", "+", "-"}
    requires rest == "" || !('0' <= rest[0] <= '9')
    ensures Stoll(space + sign + Decimal(n) + rest) ==
              var value: int := if sign == "-" then -(n as int) else n;
              if -0x8000_0000_0000_0000 <= value < 0x8000_0000_0000_0000 then Value(value) else OutOfRange
  {
    hide Magnitude, Decimal;
    MagnitudeOf(space, sign, n, rest);
  }

  /** Without a digit there is no number. */
  lemma NoDigitNoNumber(text: string)
    requires forall c | c in text :: !('0' <= c <= '9')
    ensures Stoul(text) == InvalidArgument && Stoll(text) == InvalidArgument
  {
    SkippedIsPart(text);
    var t := SkipSpace(text);
    var u := if t != [] && (t[0] == '-' || t[0] == '+') then t[1..] else t;
    if u != [] { assert u[0] in t; }
  }

  lemma {:induction false} SkippedIsPart(s: string)
    ensures forall c | c in SkipSpace(s) :: c in s
  {
    if s != [] && IsSpace(s[0]) { SkippedIsPart(s[1..]); }
  }

  lemma DecimalTexts()
    ensures Decimal(0) == "0" && Decimal(3) == "3" && Decimal(4) == "4" && Decimal(42) == "42" && Decimal(105) == "105"
    ensures Signed(-3) == "-3" && Signed(42) == "42"
  {
    assert Decimal(1) == "1" && Decimal(10) == "10";
  }
}
