// The HSS side of a challenge: advanceSqn as a compare-and-swap retry loop over
// one stored number, run by any number of callers at once, and the text form in
// which its result reaches the vector builder.

module SqnAdvance {

  const TWO64: nat := 0x1_0000_0000_0000_0000
  const TWO48: nat := 0x1_0000_0000_0000
  const STEP: nat := 32
  const MAX_RETRIES: nat := 5
  /** How many steps bring the number back to itself: 2^48 / 32. */
  const PERIOD: nat := 0x800_0000_0000

  /** (old + step) & mask on unsigned 64-bit words, for the step and mask multimediaAuth passes. */
  function NextSqn(prev: nat): nat {
    ((prev + STEP) % TWO64) % TWO48
  }

  lemma NextSqnIsModular(prev: nat)
    ensures NextSqn(prev) < TWO48 && NextSqn(prev) % TWO48 == (prev + STEP) % TWO48
  {
    var x := prev + STEP;
    assert x % TWO64 == x - (x / TWO64) * TWO64;
    ModShift(x % TWO64, (x / TWO64) * 0x1_0000);
  }

  lemma ModShift(x: int, k: int)
    ensures (x + k * TWO48) % TWO48 == x % TWO48
  {}

  lemma ModStep(x: nat, y: nat)
    requires x % TWO48 == y % TWO48
    ensures (x + STEP) % TWO48 == (y + STEP) % TWO48
  {
    ModShift(x % TWO48 + STEP, x / TWO48);
    ModShift(y % TWO48 + STEP, y / TWO48);
  }

  // ---------- The protocol ----------

  /** Where a caller is in its loop. since is the number of commits when it was called,
      readAt the number of commits when it last read. */
  datatype Caller =
    | Reading(attempt: nat, since: nat)
    | Comparing(attempt: nat, since: nat, prev: nat, readAt: nat)
    | Returned(sqn: nat, index: nat)
    | Conflict(since: nat, until: nat)
    | Failed

  /** The stored number, the values successful calls returned in commit order, and the callers. */
  datatype State = State(sqn: nat, commits: seq<nat>, callers: map<nat, Caller>)

  datatype Event = Call(caller: nat) | Read(caller: nat) | CompareAndSet(caller: nat) | DatabaseError(caller: nat)

  predicate Enabled(s: State, e: Event) {
    match e
    case Call(c) => c in s.callers ==> !s.callers[c].Reading? && !s.callers[c].Comparing?
    case Read(c) => c in s.callers && s.callers[c].Reading?
    case CompareAndSet(c) => c in s.callers && s.callers[c].Comparing?
    case DatabaseError(c) => c in s.callers && (s.callers[c].Reading? || s.callers[c].Comparing?)
  }

  /** One atomic step; an event that is not enabled changes nothing. */
  function Next(s: State, e: Event): State {
    if !Enabled(s, e) then s else
    match e
    case Call(c) => s.(callers := s.callers[c := Reading(0, |s.commits|)])
    case Read(c) =>
      var r := s.callers[c];
      s.(callers := s.callers[c := Comparing(r.attempt, r.since, s.sqn, |s.commits|)])
    case CompareAndSet(c) =>
      var r := s.callers[c];
      if s.sqn == r.prev then
        State(NextSqn(r.prev), s.commits + [r.prev], s.callers[c := Returned(r.prev, |s.commits|)])
      else if r.attempt + 1 < MAX_RETRIES then
        s.(callers := s.callers[c := Reading(r.attempt + 1, r.since)])
      else
        s.(callers := s.callers[c := Conflict(r.since, |s.commits|)])
    case DatabaseError(c) => s.(callers := s.callers[c := Failed])
  }

  function Init(sqn0: nat): State { State(sqn0, [], map[]) }

  function Run(s: State, es: seq<Event>): State {
    if es == [] then s else Next(Run(s, es[..|es| - 1]), es[|es| - 1])
  }

  /** The i-th number of the progression, modulo 2^48. */
  function Term(sqn0: nat, i: nat): nat { (sqn0 + STEP * i) % TWO48 }

  ghost predicate CallerInv(s: State, c: Caller) {
    match c
    case Reading(attempt, since) => attempt < MAX_RETRIES && since + attempt <= |s.commits|
    case Comparing(attempt, since, prev, readAt) =>
      attempt < MAX_RETRIES && since + attempt <= readAt <= |s.commits| && (readAt == |s.commits| ==> prev == s.sqn)
    case Returned(sqn, index) => index < |s.commits| && s.commits[index] == sqn
    case Conflict(since, until) => since + MAX_RETRIES <= until <= |s.commits|
    case Failed => true
  }

  ghost predicate Inv(sqn0: nat, s: State) {
    && s.sqn % TWO48 == Term(sqn0, |s.commits|)
    && (forall i | 0 <= i < |s.commits| :: s.commits[i] % TWO48 == Term(sqn0, i))
    && (forall c | c in s.callers :: CallerInv(s, s.callers[c]))
    && (forall c, d | c in s.callers && d in s.callers && c != d && s.callers[c].Returned? && s.callers[d].Returned? ::
          s.callers[c].index != s.callers[d].index)
  }

  lemma NextKeepsInv(sqn0: nat, s: State, e: Event)
    requires Inv(sqn0, s)
    ensures Inv(sqn0, Next(s, e))
  {
    hide NextSqn;
    if Enabled(s, e) && e.CompareAndSet? && s.sqn == s.callers[e.caller].prev {
      var prev := s.callers[e.caller].prev;
      NextSqnIsModular(prev);
      ModStep(prev, sqn0 + STEP * |s.commits|);
      assert STEP * (|s.commits| + 1) == STEP * |s.commits| + STEP;
    }
  }

  lemma {:induction false} RunKeepsInv(sqn0: nat, es: seq<Event>)
    ensures Inv(sqn0, Run(Init(sqn0), es))
  {
    if es != [] {
      RunKeepsInv(sqn0, es[..|es| - 1]);
      NextKeepsInv(sqn0, Run(Init(sqn0), es[..|es| - 1]), es[|es| - 1]);
    }
  }

  lemma TermsDiffer(sqn0: nat, i: nat, j: nat)
    requires i < j < i + PERIOD
    ensures Term(sqn0, i) != Term(sqn0, j)
  {}

  /** Under every interleaving: the returned numbers are the progression of step 32 modulo 2^48,
      any 2^43 consecutive ones are distinct, and every caller that returned holds one of its own. */
  lemma ReturnedNumbersAreDistinct(sqn0: nat, es: seq<Event>)
    ensures var s := Run(Init(sqn0), es);
            && (forall i | 0 <= i < |s.commits| :: s.commits[i] % TWO48 == Term(sqn0, i))
            && (forall i, j | 0 <= i < j < |s.commits| && j < i + PERIOD :: s.commits[i] % TWO48 != s.commits[j] % TWO48)
            && (forall c | c in s.callers && s.callers[c].Returned? ::
                  s.callers[c].index < |s.commits| && s.commits[s.callers[c].index] == s.callers[c].sqn)
            && (forall c, d | c in s.callers && d in s.callers && c != d && s.callers[c].Returned? && s.callers[d].Returned? ::
                  s.callers[c].index != s.callers[d].index)
  {
    RunKeepsInv(sqn0, es);
    var s := Run(Init(sqn0), es);
    forall i, j | 0 <= i < j < |s.commits| && j < i + PERIOD ensures s.commits[i] % TWO48 != s.commits[j] % TWO48 {
      TermsDiffer(sqn0, i, j);
    }
  }

  /** A call gives up only after at least five advances of others committed during it. */
  lemma ConflictNeedsFiveCommits(sqn0: nat, es: seq<Event>, c: nat)
    ensures var s := Run(Init(sqn0), es);
            c in s.callers && s.callers[c].Conflict? ==> s.callers[c].since + 5 <= s.callers[c].until <= |s.commits|
  {
    RunKeepsInv(sqn0, es);
  }

  /** Each commit is 32 more than the one before, on 48 bits, and the first is the stored number itself. */
  lemma CommitsAreThirtyTwoApart(sqn0: nat, es: seq<Event>, i: nat)
    requires i < |Run(Init(sqn0), es).commits|
    ensures var commits := Run(Init(sqn0), es).commits;
            if i == 0 then commits[0] % 281_474_976_710_656 == sqn0 % 281_474_976_710_656
            else commits[i] % 281_474_976_710_656 == (commits[i - 1] + 32) % 281_474_976_710_656
  {
    RunKeepsInv(sqn0, es);
    var commits := Run(Init(sqn0), es).commits;
    if i > 0 {
      assert STEP * i == STEP * (i - 1) + STEP;
      ModStep(commits[i - 1], sqn0 + STEP * (i - 1));
    }
  }

  /** A call that nobody disturbs returns the stored number and leaves the next one. */
  lemma UndisturbedCallAdvances(s: State, c: nat)
    requires c !in s.callers
    ensures var t := Run(s, [Call(c), Read(c), CompareAndSet(c)]);
            && c in t.callers && t.callers[c] == Returned(s.sqn, |s.commits|) && t.commits == s.commits + [s.sqn]
            && t.sqn % 281_474_976_710_656 == (s.sqn + 32) % 281_474_976_710_656 && t.sqn < 281_474_976_710_656
  {
    hide NextSqn;
    var es := [Call(c), Read(c), CompareAndSet(c)];
    assert es[..2] == [Call(c), Read(c)] && es[..2][..1] == [Call(c)] && es[..2][..1][..0] == [];
    var s1 := Next(s, Call(c));
    assert Run(s, [Call(c)]) == s1;
    var s2 := Next(s1, Read(c));
    assert Run(s, es[..2]) == s2;
    NextSqnIsModular(s.sqn);
  }

  /** A commit of d between the read and the update of c. */
  function LosingRound(c: nat, d: nat): seq<Event> {
    [Read(c), Call(d), Read(d), CompareAndSet(d), CompareAndSet(c)]
  }

  function LosingRounds(c: nat, d: nat, n: nat): seq<Event> {
    if n == 0 then [Call(c)] else LosingRounds(c, d, n - 1) + LosingRound(c, d)
  }

  lemma {:induction false} RunsCompose(s: State, a: seq<Event>, b: seq<Event>)
    ensures Run(s, a + b) == Run(Run(s, a), b)
  {
    hide Next;
    if b == [] {
      assert a + b == a;
    } else {
      RunsCompose(s, a, b[..|b| - 1]);
      assert (a + b)[..|a + b| - 1] == a + b[..|b| - 1];
    }
  }

  lemma LosingRoundRetries(s: State, c: nat, d: nat, attempt: nat, since: nat)
    requires c != d && c in s.callers && s.callers[c] == Reading(attempt, since)
    requires d in s.callers ==> s.callers[d].Returned?
    ensures var t := Run(s, LosingRound(c, d));
            && c in t.callers && t.callers[c] == (if attempt < 4 then Reading(attempt + 1, since) else Conflict(since, |s.commits| + 1))
            && |t.commits| == |s.commits| + 1 && d in t.callers && t.callers[d].Returned?
  {
    hide NextSqn;
    var s1 := Next(s, Read(c));
    var s2 := Next(s1, Call(d));
    var s3 := Next(s2, Read(d));
    var s4 := Next(s3, CompareAndSet(d));
    NextSqnIsModular(s.sqn);
    assert s4.sqn == NextSqn(s.sqn) != s.sqn;
    FiveSteps(s, Read(c), Call(d), Read(d), CompareAndSet(d), CompareAndSet(c));
  }

  lemma FiveSteps(s: State, a: Event, b: Event, c: Event, d: Event, e: Event)
    ensures Run(s, [a, b, c, d, e]) == Next(Next(Next(Next(Next(s, a), b), c), d), e)
  {
    hide Next;
    assert [a, b, c, d, e] == [a] + [b] + [c] + [d] + [e];
    OneStep(s, a);
    OneStep(Next(s, a), b);
    RunsCompose(s, [a], [b]);
    var s2 := Next(Next(s, a), b);
    OneStep(s2, c);
    RunsCompose(s, [a] + [b], [c]);
    OneStep(Next(s2, c), d);
    RunsCompose(s, [a] + [b] + [c], [d]);
    OneStep(Next(Next(s2, c), d), e);
    RunsCompose(s, [a] + [b] + [c] + [d], [e]);
  }

  lemma OneStep(s: State, e: Event)
    ensures Run(s, [e]) == Next(s, e)
  {
    hide Next;
    assert [e][..0] == [];
  }

  /** A call that loses every round to another one tries four times more and gives up after the fifth commit. */
  lemma {:induction false} FiveLosingRoundsConflict(s: State, c: nat, d: nat, n: nat)
    requires c !in s.callers && d !in s.callers && c != d && n <= 5
    ensures var t := Run(s, LosingRounds(c, d, n));
            && c in t.callers && t.callers[c] == (if n < 5 then Reading(n, |s.commits|) else Conflict(|s.commits|, |s.commits| + 5))
            && |t.commits| == |s.commits| + n && (d in t.callers ==> t.callers[d].Returned?)
  {
    if n == 0 {
      OneStep(s, Call(c));
    } else {
      hide Next, LosingRound;
      FiveLosingRoundsConflict(s, c, d, n - 1);
      LosingRoundRetries(Run(s, LosingRounds(c, d, n - 1)), c, d, n - 1, |s.commits|);
      RunsCompose(s, LosingRounds(c, d, n - 1), LosingRound(c, d));
    }
  }

  // ---------- The loop itself ----------

  datatype AdvanceResult = Advanced(sqn: nat) | CasConflict | NotFound | DbError

  /** What the database does in one attempt: work, fail to read, find no subscriber, or fail to update. */
  datatype Fault = Working | ReadFails | Missing | UpdateFails

  /** The number after n advances of other callers. */
  function After(sqn: nat, n: nat): nat {
    if n == 0 then sqn else NextSqn(After(sqn, n - 1))
  }

  lemma {:induction false} AfterIsTerm(sqn: nat, n: nat)
    ensures n > 0 ==> After(sqn, n) == Term(sqn, n)
    ensures After(sqn, n) % TWO48 == Term(sqn, n)
  {
    hide NextSqn;
    if n > 0 {
      AfterIsTerm(sqn, n - 1);
      NextSqnIsModular(After(sqn, n - 1));
      ModStep(After(sqn, n - 1), sqn + STEP * (n - 1));
      assert STEP * n == STEP * (n - 1) + STEP;
    }
  }

  /** The sequence of terms returns to its start exactly at the multiples of the period. */
  lemma TermsReturn(sqn: nat, n: nat)
    requires sqn < TWO48
    ensures Term(sqn, n) == sqn <==> n % PERIOD == 0
  {
    var q, r := n / PERIOD, n % PERIOD;
    assert n == q * PERIOD + r;
    assert STEP * n == q * TWO48 + STEP * r;
    ModShift(sqn + STEP * r, q);
    assert (sqn + STEP * r) % TWO48 == if sqn + STEP * r < TWO48 then sqn + STEP * r else sqn + STEP * r - TWO48;
  }

  /** n advances bring the stored number back exactly when n is a multiple of the period; a stored
      number beyond the mask never comes back. */
  lemma AdvancesReturn(sqn: nat, n: nat)
    ensures After(sqn, n) == sqn <==> n == 0 || (sqn < TWO48 && n % PERIOD == 0)
    ensures n > 0 ==> After(sqn, n) < TWO48
  {
    hide After;
    AfterIsTerm(sqn, n);
    if n == 0 {
      AfterNone(sqn);
    } else if sqn < TWO48 {
      TermsReturn(sqn, n);
    }
  }

  lemma AfterNone(sqn: nat)
    ensures After(sqn, 0) == sqn
  {}

  /** Attempt i fails: advances came between its read and its update, and did not cancel out. */
  predicate Disturbed(first: nat, others: seq<nat>, i: nat)
    requires i < |others|
  {
    others[i] % PERIOD != 0 || (i == 0 && others[0] != 0 && first >= TWO48)
  }

  /** Attempt i leads to another one, or after the last to the conflict. */
  predicate Retries(first: nat, others: seq<nat>, faults: seq<Fault>, i: nat)
    requires i < |others| == |faults|
  {
    faults[i].Working? && Disturbed(first, others, i)
  }

  predicate Reaches(first: nat, others: seq<nat>, faults: seq<Fault>, attempt: nat)
    requires attempt <= |others| == |faults|
  {
    forall i | 0 <= i < attempt :: Retries(first, others, faults, i)
  }

  class Subscriber {
    var sqn: nat

    constructor (sqn0: nat)
      ensures sqn == sqn0
    {
      sqn := sqn0;
    }

    method CompareAndSetSqn(expected: nat, desired: nat) returns (matched: bool)
      modifies this
      ensures matched == (old(sqn) == expected)
      ensures sqn == if matched then desired else old(sqn)
    {
      matched := sqn == expected;
      if matched { sqn := desired; }
    }

    /** Other callers commit n advances. */
    method OthersAdvance(n: nat)
      modifies this
      ensures sqn == After(old(sqn), n)
    {
      for i := 0 to n
        invariant sqn == After(old(sqn), i)
      {
        sqn := NextSqn(sqn);
      }
    }

    /**
     * The retry loop; others[i] advances of other callers commit between the read and the update of attempt i,
     * and attempt i meets faults[i] in the database. It returns the number it read in the first attempt nobody
     * disturbed, fails in the first faulty attempt if that comes earlier, and conflicts exactly when every one
     * of the five attempts was disturbed and none faulty.
     */
    method AdvanceSqn(others: seq<nat>, faults: seq<Fault>) returns (r: AdvanceResult)
      requires |others| == |faults| == 5
      modifies this
      ensures r.CasConflict? <==> Reaches(old(sqn), others, faults, 5)
      ensures r.CasConflict? ==> sqn == After(old(sqn), Sum(others))
      ensures r.Advanced? ==> exists a: nat | a < 5 ::
        && faults[a].Working? && !Disturbed(old(sqn), others, a) && Reaches(old(sqn), others, faults, a)
        && r.sqn == After(old(sqn), Sum(others[..a])) && sqn == NextSqn(r.sqn)
      ensures r.NotFound? ==> exists a: nat | a < 5 ::
        && faults[a].Missing? && Reaches(old(sqn), others, faults, a) && sqn == After(old(sqn), Sum(others[..a]))
      ensures r.DbError? ==> exists a: nat | a < 5 ::
        && Reaches(old(sqn), others, faults, a)
        && ((faults[a].ReadFails? && sqn == After(old(sqn), Sum(others[..a])))
            || (faults[a].UpdateFails? && sqn == After(old(sqn), Sum(others[..a + 1]))))
    {
      hide NextSqn;
      for attempt := 0 to MAX_RETRIES
        invariant sqn == After(old(sqn), Sum(others[..attempt]))
        invariant attempt > 0 ==> Sum(others[..attempt]) > 0
        invariant Reaches(old(sqn), others, faults, attempt)
      {
        assert !faults[attempt].Working? ==> !Retries(old(sqn), others, faults, attempt);
        if faults[attempt].ReadFails? {
          return DbError;
        }
        if faults[attempt].Missing? {
          return NotFound;
        }
        var old_sqn := sqn;
        var new_sqn := NextSqn(old_sqn);
        OthersAdvance(others[attempt]);
        AdvancesReturn(old(sqn), Sum(others[..attempt]));
        AdvancesReturn(old_sqn, others[attempt]);
        SumSnoc(others, attempt);
        AfterAdds(old(sqn), Sum(others[..attempt]), others[attempt]);
        assert sqn == After(old(sqn), Sum(others[..attempt + 1]));
        if faults[attempt].UpdateFails? {
          return DbError;
        }
        var matched := CompareAndSetSqn(old_sqn, new_sqn);
        if matched {
          assert !Disturbed(old(sqn), others, attempt) && !Retries(old(sqn), others, faults, attempt);
          return Advanced(old_sqn);
        }
      }
      assert others[..5] == others;
      return CasConflict;
    }
  }

  function Sum(xs: seq<nat>): nat {
    if xs == [] then 0 else Sum(xs[..|xs| - 1]) + xs[|xs| - 1]
  }

  lemma SumSnoc(xs: seq<nat>, i: nat)
    requires i < |xs|
    ensures Sum(xs[..i + 1]) == Sum(xs[..i]) + xs[i]
  {
    assert xs[..i + 1][..i] == xs[..i];
  }

  lemma {:induction false} AfterAdds(sqn: nat, m: nat, n: nat)
    ensures After(After(sqn, m), n) == After(sqn, m + n)
  {
    hide NextSqn;
    if n > 0 { AfterAdds(sqn, m, n - 1); }
  }
}

/** The SQN as text and as bytes. */
module SqnText {
  import opened Options
  import opened SqnAdvance

  /** Lower-case digit of the zero-padded hexadecimal format. */
  function HexDigit(n: nat): char
    requires n < 16
  {
    "0123456789abcdef"[n]
  }

  /** The last digits of v in base 16, most significant first: format 012x for twelve digits. */
  function HexText(v: nat, digits: nat): (s: string)
    ensures |s| == digits
  {
    if digits == 0 then "" else HexText(v / 16, digits - 1) + [HexDigit(v % 16)]
  }

  /** The values of the digits, as bytes. */
  function Nibble(n: nat): bv8
    requires n < 16
  {
    [0, 1, 2, 3, 4, 5, 6, 7, 8, 9, 10, 11, 12, 13, 14, 15][n]
  }

  function HexValue(ch: char): Option<bv8> {
    if '0' <= ch <= '9' then Some(Nibble((ch - '0') as nat))
    else if 'a' <= ch <= 'f' then Some(Nibble((ch - 'a') as nat + 10))
    else if 'A' <= ch <= 'F' then Some(Nibble((ch - 'A') as nat + 10))
    else None
  }

  function ByteOf(hi: bv8, lo: bv8): bv8 { (hi << 4) | lo }

  /** The byte of a number below 256. */
  function ByteAt(v: nat): bv8 { ByteOf(Nibble(v / 16 % 16), Nibble(v % 16)) }

  /** The n low bytes of v, most significant first. */
  function BigEndian(v: nat, n: nat): (b: seq<bv8>)
    ensures |b| == n
  {
    if n == 0 then [] else BigEndian(v / 256, n - 1) + [ByteAt(v)]
  }

  /** Byte i is given by the digits 2 i and 2 i + 1. */
  predicate PairIs(value: string, i: nat, b: bv8)
    requires 2 * i + 1 < |value|
  {
    && HexValue(value[2 * i]).Some? && HexValue(value[2 * i + 1]).Some?
    && b == ByteOf(HexValue(value[2 * i]).value, HexValue(value[2 * i + 1]).value)
  }

  ghost predicate ParsesTo(value: string, b: seq<bv8>) {
    |value| == 2 * |b| && forall i | 0 <= i < |b| :: PairIs(value, i, b[i])
  }

  method ParseHexExact(value: string, n: nat) returns (r: Option<seq<bv8>>)
    ensures r.Some? ==> |r.value| == n && ParsesTo(value, r.value)
    ensures r.None? <==> |value| != 2 * n || exists i | 0 <= i < |value| :: HexValue(value[i]).None?
  {
    if |value| != n * 2 {
      return None;
    }
    var out: seq<bv8> := [];
    for i := 0 to n
      invariant |out| == i
      invariant forall j | 0 <= j < i :: PairIs(value, j, out[j])
    {
      var hi := HexValue(value[i * 2]);
      var lo := HexValue(value[i * 2 + 1]);
      if hi.None? || lo.None? {
        return None;
      }
      out := out + [ByteOf(hi.value, lo.value)];
    }
    forall i | 0 <= i < |value| ensures HexValue(value[i]).Some? {
      assert PairIs(value, i / 2, out[i / 2]);
      assert i == 2 * (i / 2) || i == 2 * (i / 2) + 1;
    }
    return Some(out);
  }

  lemma HexDigitRoundTrips(n: nat)
    requires n < 16
    ensures HexValue(HexDigit(n)) == Some(Nibble(n))
  {
    hide Nibble;
  }

  lemma {:induction false} HexTextParses(v: nat, n: nat)
    ensures ParsesTo(HexText(v, 2 * n), BigEndian(v, n))
  {
    hide HexDigit, HexValue, ByteOf, Nibble;
    if n > 0 {
      var init, b := HexText(v / 256, 2 * n - 2), BigEndian(v / 256, n - 1);
      HexTextParses(v / 256, n - 1);
      HexDigitRoundTrips(v % 16);
      HexDigitRoundTrips(v / 16 % 16);
      assert v / 16 / 16 == v / 256;
      assert HexText(v, 2 * n) == init + [HexDigit(v / 16 % 16)] + [HexDigit(v % 16)];
      forall i | 0 <= i < n ensures PairIs(HexText(v, 2 * n), i, BigEndian(v, n)[i]) {
        if i < n - 1 { assert PairIs(init, i, b[i]); }
      }
    }
  }

  lemma ParsesToIsFunctional(value: string, a: seq<bv8>, b: seq<bv8>)
    requires ParsesTo(value, a) && ParsesTo(value, b)
    ensures a == b
  {}

  function Power256(n: nat): nat {
    if n == 0 then 1 else 256 * Power256(n - 1)
  }

  lemma ByteOfIsInjective(h: bv8, l: bv8, h': bv8, l': bv8)
    requires h < 16 && l < 16 && h' < 16 && l' < 16
    ensures ByteOf(h, l) == ByteOf(h', l') <==> h == h' && l == l'
  {}

  lemma NibblesAreDistinct(x: nat, y: nat)
    requires x < 16 && y < 16
    ensures Nibble(x) < 16 && Nibble(y) < 16 && (Nibble(x) == Nibble(y) <==> x == y)
  {}

  lemma LowByte(v: nat)
    ensures v % 256 == 16 * (v / 16 % 16) + v % 16
  {}

  lemma ByteAtIsInjective(v: nat, w: nat)
    ensures ByteAt(v) == ByteAt(w) <==> v % 256 == w % 256
  {
    hide ByteOf, Nibble;
    NibblesAreDistinct(v % 16, w % 16);
    NibblesAreDistinct(v / 16 % 16, w / 16 % 16);
    ByteOfIsInjective(Nibble(v / 16 % 16), Nibble(v % 16), Nibble(w / 16 % 16), Nibble(w % 16));
    LowByte(v);
    LowByte(w);
  }

  lemma {:induction false} BigEndianIsInjective(v: nat, w: nat, n: nat)
    requires v < Power256(n) && w < Power256(n)
    ensures BigEndian(v, n) == BigEndian(w, n) <==> v == w
  {
    hide ByteAt;
    if n > 0 && BigEndian(v, n) == BigEndian(w, n) {
      assert BigEndian(v, n)[n - 1] == BigEndian(w, n)[n - 1];
      ByteAtIsInjective(v, w);
      assert BigEndian(v, n)[..n - 1] == BigEndian(v / 256, n - 1);
      assert BigEndian(w, n)[..n - 1] == BigEndian(w / 256, n - 1);
      BigEndianIsInjective(v / 256, w / 256, n - 1);
    }
  }

  /** The six SQN bytes a vector is built from: formatted under the 48-bit mask, then parsed. */
  function SqnBytes(sqn: nat): (b: seq<bv8>)
    ensures |b| == 6
  {
    BigEndian(sqn % TWO48, 6)
  }

  /** Formatting and parsing yield the six big-endian bytes, and keep numbers apart modulo 2^48. */
  lemma SqnTextRoundTrips(sqn: nat, sqn': nat, b: seq<bv8>)
    ensures ParsesTo(HexText(sqn % TWO48, 12), b) <==> b == SqnBytes(sqn)
    ensures SqnBytes(sqn) == SqnBytes(sqn') <==> sqn % TWO48 == sqn' % TWO48
  {
    HexTextParses(sqn % TWO48, 6);
    if ParsesTo(HexText(sqn % TWO48, 12), b) {
      ParsesToIsFunctional(HexText(sqn % TWO48, 12), b, SqnBytes(sqn));
    }
    assert Power256(6) == TWO48;
    BigEndianIsInjective(sqn % TWO48, sqn' % TWO48, 6);
  }

  /** Under every interleaving, two of any 2^43 consecutive advances reach the vector builder as different bytes. */
  lemma ReturnedBytesAreDistinct(sqn0: nat, es: seq<Event>, i: nat, j: nat)
    requires i < j < i + PERIOD && j < |Run(Init(sqn0), es).commits|
    ensures SqnBytes(Run(Init(sqn0), es).commits[i]) != SqnBytes(Run(Init(sqn0), es).commits[j])
  {
    hide Run, SqnBytes;
    ReturnedNumbersAreDistinct(sqn0, es);
    var c := Run(Init(sqn0), es).commits;
    SqnTextRoundTrips(c[i], c[j], []);
  }

  // ---------- What the digits and bytes stand for ----------

  /** Hexadecimal digits of either case, and nothing else, have a value. */
  lemma HexDigitsOfBothCases(n: nat)
    requires n < 16
    ensures HexValue("0123456789abcdef"[n]).Some? && HexValue("0123456789abcdef"[n]).value as int == n
    ensures HexValue("0123456789ABCDEF"[n]).Some? && HexValue("0123456789ABCDEF"[n]).value as int == n
  {
    NibbleIsTheNumber(n);
  }

  lemma OnlyHexDigitsHaveAValue(c: char)
    ensures HexValue(c).Some? <==> c in "0123456789abcdefABCDEF"
  {
    if '0' <= c <= '9' { assert c == "0123456789"[c as int - '0' as int]; }
    if 'a' <= c <= 'f' { assert c == "abcdef"[c as int - 'a' as int]; }
    if 'A' <= c <= 'F' { assert c == "ABCDEF"[c as int - 'A' as int]; }
  }

  lemma NibbleIsTheNumber(n: nat)
    requires n < 16
    ensures Nibble(n) as int == n && Nibble(n) < 16
  {
  }

  lemma ByteOfIsTheNumber(h: bv8, l: bv8)
    requires h < 16 && l < 16
    ensures ByteOf(h, l) as int == 16 * (h as int) + l as int
  {
  }

  lemma ByteAtIsTheNumber(v: nat)
    ensures ByteAt(v) as int == v % 256
  {
    hide Nibble, ByteOf;
    NibbleIsTheNumber(v / 16 % 16);
    NibbleIsTheNumber(v % 16);
    ByteOfIsTheNumber(Nibble(v / 16 % 16), Nibble(v % 16));
    LowByte(v);
  }

  /** The number that big-endian bytes stand for. */
  function Number(b: seq<bv8>): nat {
    if b == [] then 0 else 256 * Number(b[..|b| - 1]) + b[|b| - 1] as int
  }

  lemma {:induction false} BigEndianIsTheNumber(v: nat, n: nat)
    requires v < Power256(n)
    ensures Number(BigEndian(v, n)) == v
  {
    hide ByteAt;
    if n > 0 {
      var b := BigEndian(v, n);
      BigEndianIsTheNumber(v / 256, n - 1);
      ByteAtIsTheNumber(v);
      assert b[..n - 1] == BigEndian(v / 256, n - 1);
    }
  }

  /** The six bytes a vector is built from are the SQN on 48 bits, most significant byte first. */
  lemma SqnBytesAreTheNumber(sqn: nat)
    ensures Number(SqnBytes(sqn)) == sqn % 281_474_976_710_656
  {
    hide BigEndian, Number;
    assert Power256(3) == 0x100_0000 && Power256(6) == 256 * (256 * (256 * Power256(3)));
    BigEndianIsTheNumber(sqn % TWO48, 6);
  }
}
