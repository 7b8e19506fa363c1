// Searching and trimming, shared by the text formats.

module Texts {

  predicate IsSpace(c: char) { c == ' ' || '\t' <= c <= '\r' }

  /** The first c at or after pos, as std::string::find; the length when there is none. */
  function Find(d: string, c: char, pos: nat): (i: nat)
    requires pos <= |d|
    ensures pos <= i <= |d|
    ensures i < |d| ==> d[i] == c
    ensures forall j | pos <= j < i :: d[j] != c
    decreases |d| - pos
  {
    if pos == |d| || d[pos] == c then pos else Find(d, c, pos + 1)
  }

  lemma {:induction false} FindsAt(d: string, c: char, pos: nat, i: nat)
    requires pos <= i < |d| && d[i] == c && forall j | pos <= j < i :: d[j] != c
    ensures Find(d, c, pos) == i
    decreases i - pos
  {
    if pos < i { FindsAt(d, c, pos + 1, i); }
  }

  function SkipSpace(s: string): (r: string)
    ensures |r| <= |s|
  {
    if s != [] && IsSpace(s[0]) then SkipSpace(s[1..]) else s
  }

  function DropTrailingSpace(s: string): (r: string)
    ensures |r| <= |s|
  {
    if s != [] && IsSpace(s[|s| - 1]) then DropTrailingSpace(s[..|s| - 1]) else s
  }

  function Trim(s: string): string {
    DropTrailingSpace(SkipSpace(s))
  }

  function Concat(parts: seq<string>): string {
    if parts == [] then "" else parts[0] + Concat(parts[1..])
  }

  lemma {:induction false} ConcatAppends(a: seq<string>, b: seq<string>)
    ensures Concat(a + b) == Concat(a) + Concat(b)
  {
    if a == [] {
      assert a + b == b;
    } else {
      ConcatAppends(a[1..], b);
      assert (a + b)[1..] == a[1..] + b && (a + b)[0] == a[0];
    }
  }
}
