// The bencode parser, which a wrapping length can lead backwards, either ends
// within a number of steps linear in the text or does not end.

module BencodeBound {

  import opened Bencode

  /** What the parser can be at: a value, a round of the list loop, or a round of the dictionary loop. */
  datatype Kind = OfValue | OfItems | OfEntries

  datatype Node = Node(kind: Kind, pos: nat)

  function Outcome(d: string, x: Node, steps: nat): Result
    requires x.pos <= |d|
  {
    match x.kind
    case OfValue => Read(d, x.pos, steps)
    case OfItems => ReadItems(d, x.pos, [], steps)
    case OfEntries => ReadEntries(d, x.pos, [], steps)
  }

  predicate Done(d: string, x: Node, steps: nat) {
    x.pos <= |d| && !Outcome(d, x, steps).OutOfSteps?
  }

  /** m is the least number of steps that suffice. */
  predicate Least(d: string, x: Node, m: nat) {
    Done(d, x, m) && (m > 0 ==> !Done(d, x, m - 1))
  }

  predicate SameCourse(a: Result, b: Result) {
    a.OutOfSteps? == b.OutOfSteps? && a.Parsed? == b.Parsed? && (a.Parsed? ==> a.next == b.next)
  }

  /** Where the list loop goes does not depend on what it has collected. */
  lemma {:induction false} ItemsDoNotMatter(d: string, pos: nat, xs: seq<Value>, ys: seq<Value>, steps: nat)
    requires pos <= |d|
    ensures SameCourse(ReadItems(d, pos, xs, steps), ReadItems(d, pos, ys, steps))
    decreases steps
  {
    hide Read;
    if pos < |d| && d[pos] != 'e' && steps > 0 {
      var item := Read(d, pos, steps - 1);
      if item.Parsed? { ItemsDoNotMatter(d, item.next, xs + [item.value], ys + [item.value], steps - 1); }
    }
  }

  lemma {:induction false} EntriesDoNotMatter(d: string, pos: nat, xs: seq<Entry>, ys: seq<Entry>, steps: nat)
    requires pos <= |d|
    ensures SameCourse(ReadEntries(d, pos, xs, steps), ReadEntries(d, pos, ys, steps))
    decreases steps
  {
    hide Read, Inserted;
    if pos < |d| && d[pos] != 'e' && steps > 0 {
      var key := Read(d, pos, steps - 1);
      if key.Parsed? && key.value.Str? {
        var v := Read(d, key.next, steps - 1);
        if v.Parsed? {
          EntriesDoNotMatter(d, v.next, Inserted(xs, key.value.text, v.value), Inserted(ys, key.value.text, v.value), steps - 1);
        }
      }
    }
  }

  lemma DoneIsFinal(d: string, x: Node, steps: nat, more: nat)
    requires Done(d, x, steps) && steps <= more
    ensures Done(d, x, more) && Outcome(d, x, more) == Outcome(d, x, steps)
  {
    hide Read, ReadItems, ReadEntries;
    match x.kind
    case OfValue => OutcomeIsFinal(d, x.pos, steps, more);
    case OfItems => ItemsAreFinal(d, x.pos, [], steps, more);
    case OfEntries => EntriesAreFinal(d, x.pos, [], steps, more);
  }

  lemma LeastIsOne(d: string, x: Node, m: nat, n: nat)
    requires Least(d, x, m) && Least(d, x, n)
    ensures m == n
  {
    hide Outcome;
    if m < n { DoneIsFinal(d, x, m, n - 1); }
    if n < m { DoneIsFinal(d, x, n, m - 1); }
  }

  // ---------- What needs m steps contains what needs m - 1 ----------

  lemma ValueHasAChild(d: string, pos: nat, m: nat) returns (y: Node)
    requires Least(d, Node(OfValue, pos), m) && m >= 2
    ensures Least(d, y, m - 1)
  {
    hide ReadItems, ReadEntries, StringRead, IntegerAt;
    y := Node(if d[pos] == 'l' then OfItems else OfEntries, pos + 1);
    assert d[pos] == 'l' || d[pos] == 'd';
  }

  /** The list loop at pos, a round before it: the item at pos and the loop behind it. */
  lemma ItemsHaveAChild(d: string, pos: nat, m: nat) returns (y: Node)
    requires Least(d, Node(OfItems, pos), m) && m >= 2
    ensures Least(d, y, m - 1)
  {
    hide Read;
    y := Node(OfValue, pos);
    if !Least(d, y, m - 1) {
      DoneIsFinal(d, y, m - 2, m - 1);
      var item := Read(d, pos, m - 1);
      y := Node(OfItems, item.next);
      ItemsDoNotMatter(d, item.next, [item.value], [], m - 1);
      ItemsDoNotMatter(d, item.next, [item.value], [], m - 2);
      assert [] + [item.value] == [item.value];
    }
  }

  lemma EntriesHaveAChild(d: string, pos: nat, m: nat) returns (y: Node)
    requires Least(d, Node(OfEntries, pos), m) && m >= 2
    ensures Least(d, y, m - 1)
  {
    hide Read, Inserted;
    y := Node(OfValue, pos);
    if !Least(d, y, m - 1) {
      DoneIsFinal(d, y, m - 2, m - 1);
      var key := Read(d, pos, m - 1);
      y := Node(OfValue, key.next);
      if !Least(d, y, m - 1) {
        DoneIsFinal(d, y, m - 2, m - 1);
        var v := Read(d, key.next, m - 1);
        y := Node(OfEntries, v.next);
        var es := Inserted([], key.value.text, v.value);
        EntriesDoNotMatter(d, v.next, es, [], m - 1);
        EntriesDoNotMatter(d, v.next, es, [], m - 2);
      }
    }
  }

  lemma HasAChild(d: string, x: Node, m: nat) returns (y: Node)
    requires Least(d, x, m) && m >= 2
    ensures Least(d, y, m - 1)
  {
    hide Least;
    match x.kind
    case OfValue => y := ValueHasAChild(d, x.pos, m);
    case OfItems => y := ItemsHaveAChild(d, x.pos, m);
    case OfEntries => y := EntriesHaveAChild(d, x.pos, m);
  }

  // ---------- Counting ----------

  ghost predicate NeedAtMost(d: string, ns: set<Node>, m: nat) {
    forall y | y in ns :: y.pos <= |d| && exists j: nat :: j <= m && Least(d, y, j)
  }

  /** Something that needs m steps contains m things, all different because they need different numbers of steps. */
  lemma {:induction false} Descendants(d: string, x: Node, m: nat) returns (ns: set<Node>)
    requires Least(d, x, m) && m >= 1
    ensures |ns| == m && NeedAtMost(d, ns, m)
    decreases m
  {
    if m == 1 {
      ns := {x};
    } else {
      var y := HasAChild(d, x, m);
      var rest := Descendants(d, y, m - 1);
      if x in rest {
        var j: nat :| j <= m - 1 && Least(d, x, j);
        LeastIsOne(d, x, m, j);
      }
      ns := rest + {x};
      IncludingOneMore(d, rest, x, m);
    }
  }

  lemma IncludingOneMore(d: string, ns: set<Node>, x: Node, m: nat)
    requires m >= 1 && NeedAtMost(d, ns, m - 1) && Least(d, x, m)
    ensures NeedAtMost(d, ns + {x}, m)
  {
    hide Least;
    assert x.pos <= |d| by { LeastIsInRange(d, x, m); }
    forall y | y in ns + {x} ensures y.pos <= |d| && exists j: nat :: j <= m && Least(d, y, j) {
      if y in ns {
        var j: nat :| j <= m - 1 && Least(d, y, j);
      }
    }
  }

  lemma LeastIsInRange(d: string, x: Node, m: nat)
    requires Least(d, x, m)
    ensures x.pos <= |d|
  {
  }

  lemma {:induction false} NodesAreFew(ns: set<Node>, n: nat)
    requires forall y | y in ns :: y.pos < n
    ensures |ns| <= 3 * n
    decreases n
  {
    if n == 0 {
      assert ns == {};
    } else {
      var here := {Node(OfValue, n - 1), Node(OfItems, n - 1), Node(OfEntries, n - 1)};
      var rest := ns - here;
      forall y | y in rest ensures y.pos < n - 1 {
        match y.kind case OfValue => case OfItems => case OfEntries =>
      }
      NodesAreFew(rest, n - 1);
      assert ns <= rest + here;
      SubsetIsSmaller(ns, rest + here);
      assert |rest + here| <= |rest| + |here| && |here| <= 3;
    }
  }

  lemma {:induction false} SubsetIsSmaller(a: set<Node>, b: set<Node>)
    requires a <= b
    ensures |a| <= |b|
  {
    assert b == a + (b - a) && a !! (b - a);
  }

  lemma {:induction false} SomeNumberIsLeast(d: string, x: Node, steps: nat) returns (m: nat)
    requires Done(d, x, steps)
    ensures m <= steps && Least(d, x, m)
    decreases steps
  {
    hide Outcome;
    m := steps;
    if !Least(d, x, m) { m := SomeNumberIsLeast(d, x, steps - 1); }
  }

  ghost predicate Ends(d: string) {
    exists steps: nat :: !Decode(d, steps).OutOfSteps?
  }

  /** On every text, wrapping lengths included, the parser ends exactly when it ends within three steps for each position. */
  lemma ParserEndsSoonOrNever(d: string)
    ensures Ends(d) <==> !Decode(d, 3 * (|d| + 1)).OutOfSteps?
  {
    hide Read;
    var x := Node(OfValue, 0);
    if Ends(d) {
      var steps: nat :| !Decode(d, steps).OutOfSteps?;
      var m := SomeNumberIsLeast(d, x, steps);
      if m >= 1 {
        var ns := Descendants(d, x, m);
        NodesAreFew(ns, |d| + 1);
      }
      DoneIsFinal(d, x, m, 3 * (|d| + 1));
    }
  }
}
