// Decimal numerals: what operator<< writes for an integer, and what
// std::stoul and std::stoll read (leading space, sign, longest run of digits,
// anything after it ignored).

module Numerals {

  import opened Texts

  const ULONG_MAX: int := 0xFFFF_FFFF_FFFF_FFFF
  const LLONG_MAX: int := 0x7FFF_FFFF_FFFF_FFFF

  datatype NumberRead<T> = Value(value: T) | InvalidArgument | OutOfRange

  predicate IsDigit(c: char) { '0' <= c <= '9' }

  function Digit(n: nat): (c: char)
    requires n < 10
    ensures IsDigit(c) && ValueOf(c) == n
  {
    '0' + n as char
  }

  function ValueOf(c: char): nat
    requires IsDigit(c)
  {
    c as int - '0' as int
  }

  /** The decimal digits of n, without leading zeros. */
  function Decimal(n: nat): (s: string)
    ensures s != [] && forall c | c in s :: IsDigit(c)
  {
    if n < 10 then [Digit(n)] else Decimal(n / 10) + [Digit(n % 10)]
  }

  function Signed(i: int): string {
    if i < 0 then "-" + Decimal(-i) else Decimal(i)
  }

  /** How many digits s starts with. */
  function DigitRun(s: string): (n: nat)
    ensures n <= |s| && forall j | 0 <= j < n :: IsDigit(s[j])
  {
    if s == [] || !IsDigit(s[0]) then 0 else 1 + DigitRun(s[1..])
  }

  function NumberOf(s: string): nat
    requires forall j | 0 <= j < |s| :: IsDigit(s[j])
  {
    if s == [] then 0 else 10 * NumberOf(s[..|s| - 1]) + ValueOf(s[|s| - 1])
  }

  /** The magnitude and the sign; InvalidArgument when there is no digit. */
  function Magnitude(s: string): NumberRead<(bool, nat)> {
    var t := SkipSpace(s);
    var negative := t != [] && t[0] == '-';
    var u := if t != [] && (t[0] == '-' || t[0] == '+') then t[1..] else t;
    var n := DigitRun(u);
    if n == 0 then InvalidArgument else Value((negative, NumberOf(u[..n])))
  }

  /** A minus sign negates in the unsigned type. */
  function Stoul(s: string): (r: NumberRead<nat>)
    ensures r.Value? ==> r.value <= ULONG_MAX
  {
    match Magnitude(s)
    case Value((negative, n)) =>
      if n > ULONG_MAX then OutOfRange
      else if negative && n > 0 then Value(ULONG_MAX + 1 - n)
      else Value(n)
    case InvalidArgument => InvalidArgument
    case OutOfRange => OutOfRange
  }

  function Stoll(s: string): (r: NumberRead<int>)
    ensures r.Value? ==> -LLONG_MAX - 1 <= r.value <= LLONG_MAX
  {
    match Magnitude(s)
    case Value((negative, n)) =>
      var magnitude: int := n;
      var value := if negative then -magnitude else magnitude;
      if -LLONG_MAX - 1 <= value <= LLONG_MAX then Value(value) else OutOfRange
    case InvalidArgument => InvalidArgument
    case OutOfRange => OutOfRange
  }

  lemma {:induction false} DecimalIsRead(n: nat)
    ensures NumberOf(Decimal(n)) == n
  {
    if n < 10 {
      assert [Digit(n)][..0] == [];
    } else {
      DecimalIsRead(n / 10);
      assert Decimal(n)[..|Decimal(n)| - 1] == Decimal(n / 10);
    }
  }

  function Pow10(k: nat): nat {
    if k == 0 then 1 else 10 * Pow10(k - 1)
  }

  lemma {:induction false} DecimalLength(n: nat, k: nat)
    requires k >= 1 && (k == 1 || Pow10(k - 1) <= n) && n < Pow10(k)
    ensures |Decimal(n)| == k
  {
    if k > 1 { DecimalLength(n / 10, k - 1); }
  }

  lemma {:induction false} RunStopsAt(s: string, n: nat)
    requires n <= |s| && (forall j | 0 <= j < n :: IsDigit(s[j])) && (n < |s| ==> !IsDigit(s[n]))
    ensures DigitRun(s) == n
  {
    if n > 0 {
      RunStopsAt(s[1..], n - 1);
    }
  }

  lemma DecimalHasMagnitude(n: nat)
    ensures Magnitude(Decimal(n)) == Value((false, n))
    ensures Magnitude("-" + Decimal(n)) == Value((true, n))
  {
    hide Decimal, DigitRun, NumberOf;
    var d := Decimal(n);
    assert d[0] in d;
    RunStopsAt(d, |d|);
    DecimalIsRead(n);
    assert d[..|d|] == d;
    var m := "-" + d;
    assert m[0] == '-' && m[1..] == d;
    assert SkipSpace(m) == m && SkipSpace(d) == d;
  }

  lemma SignedHasNoOtherChar(i: int, c: char)
    requires c in Signed(i)
    ensures c == '-' || IsDigit(c)
  {
    hide Decimal;
  }

  lemma StoulReadsDecimal(n: nat)
    requires n <= ULONG_MAX
    ensures Stoul(Decimal(n)) == Value(n)
  {
    DecimalHasMagnitude(n);
  }

  lemma StollReadsSigned(i: int)
    requires -LLONG_MAX - 1 <= i <= LLONG_MAX
    ensures Stoll(Signed(i)) == Value(i)
  {
    DecimalHasMagnitude(if i < 0 then -i else i);
  }
}
