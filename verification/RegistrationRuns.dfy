// Runs of the registration store: lazy expiry against timer-driven purging,
// batches that are all or nothing, and CSeq ordering.

module RegistrationRuns {
  import opened Options
  import opened RegistrationStore

  /** after is the entry the hash order puts behind an entry that the lookup erases. */
  datatype Op =
    | Lookup(impu: string, after: Option<string>)
    | IsRegistered(impu: string, after: Option<string>)
    | Upsert(impu: string, update: Update)
    | Remove(impu: string, selector: Selector)
    | UpsertMany(impus: seq<string>, update: Update)
    | RemoveMany(impus: seq<string>, removal: Removal)
    | RemoveBindings(impus: seq<string>)
    | Store(binding: Binding)
    | Purge

  datatype Event = Event(now: int, op: Op)

  datatype Answer = Found(found: Option<Binding>) | Flag(flag: bool) | Count(count: nat) | Unobserved

  function Step(m: Store, e: Event): Store {
    match e.op
    case Lookup(impu, _) => Prune(m, impu, e.now)
    case IsRegistered(impu, _) => Prune(m, impu, e.now)
    case Upsert(impu, u) => UpsertOne(m, impu, u, e.now).0
    case Remove(impu, s) => RemoveOne(m, impu, s, e.now).0
    case UpsertMany(impus, u) => UpsertBatch(m, impus, u, e.now).0
    case RemoveMany(impus, r) => RemoveBatch(m, impus, r, e.now).0
    case RemoveBindings(impus) => m - Members(impus)
    case Store(b) => m[b.impu := b]
    case Purge => Purged(m, e.now)
  }

  /** What the code answers. */
  function Given(m: Store, e: Event): Answer {
    match e.op
    case Lookup(impu, after) => Found(LookedUp(m, impu, e.now, after))
    case IsRegistered(impu, after) => Flag(CountsAsRegistered(LookedUp(m, impu, e.now, after)))
    case _ => Due(m, e)
  }

  /** What a store in which expired contacts do not exist would answer. */
  function Due(m: Store, e: Event): Answer {
    match e.op
    case Lookup(impu, _) => Found(Pruned(At(m, impu), e.now))
    case IsRegistered(impu, _) => Flag(CountsAsRegistered(Pruned(At(m, impu), e.now)))
    case Upsert(impu, u) => Flag(UpsertOne(m, impu, u, e.now).1)
    case Remove(impu, s) => Flag(RemoveOne(m, impu, s, e.now).1)
    case UpsertMany(impus, u) => Count(UpsertBatch(m, impus, u, e.now).1)
    case RemoveMany(impus, r) => Count(RemoveBatch(m, impus, r, e.now).1)
    case RemoveBindings(_) => Unobserved
    case Store(_) => Unobserved
    case Purge => Unobserved
  }

  /** The guard of the failing branch: the lookup erases an expired entry and another entry lies behind it. */
  predicate Strays(m: Store, impu: string, now: int, after: Option<string>) {
    impu in m && Unexpired(m[impu].contacts, now) == [] && after.Some? && after.value != impu && after.value in m
  }

  predicate EventStrays(m: Store, e: Event) {
    match e.op
    case Lookup(impu, after) => Strays(m, impu, e.now, after)
    case IsRegistered(impu, after) => Strays(m, impu, e.now, after) && CountsAsRegistered(At(m, after.value))
    case _ => false
  }

  // ---------- One answer ----------

  /**
   * Because erase answers with the next entry and not with end(), looking up an expired identity
   * can return the binding of another one. An answer is the due one exactly when that does not happen.
   */
  lemma AnswerIsDueUnlessItStrays(m: Store, e: Event)
    ensures Given(m, e) == Due(m, e) <==> !EventStrays(m, e)
  {
    if e.op.Lookup? || e.op.IsRegistered? {
      var impu := e.op.impu;
      var p := Prune(m, impu, e.now);
      forall k ensures At(p, k) == if k == impu then Pruned(At(m, k), e.now) else At(m, k) { }
      assert At(p, impu) == Pruned(At(m, impu), e.now);
      if e.op.after.Some? {
        var a := e.op.after.value;
        assert At(p, a) == if a == impu then Pruned(At(m, impu), e.now) else At(m, a);
      }
    }
  }

  function Alice(): Binding { Binding("alice", "a", "s", [Contact("x", "", "", "", 5, "c", 1)], Registered) }

  function Bob(): Binding { Binding("bob", "b", "s", [Contact("y", "", "", "", 50, "d", 1)], Registered) }

  /** At time 5 alice has expired; her lookup is answered with bob, and isRegistered says yes. */
  lemma ExpiredLookupCanAnswerAnother()
    ensures var m := map["alice" := Alice(), "bob" := Bob()];
            && LookedUp(m, "alice", 5, Some("bob")) == Some(Bob())
            && CountsAsRegistered(LookedUp(m, "alice", 5, Some("bob")))
            && LookedUp(Purged(m, 5), "alice", 5, Some("bob")) == None
  {
    var m := map["alice" := Alice(), "bob" := Bob()];
    assert At(m, "alice") == Some(Alice()) && At(m, "bob") == Some(Bob());
    assert Alice().contacts[1..] == [];
    assert Unexpired(Alice().contacts, 5) == [];
    assert Pruned(At(m, "alice"), 5) == None;
    var p := Prune(m, "alice", 5);
    assert At(p, "bob") == Some(Bob()) && At(p, "alice") == None;
    assert At(Purged(m, 5), "alice") == None;
  }

  // ---------- Whole runs ----------

  /** The same unexpired contents. */
  ghost predicate Equiv(m: Store, n: Store, t: int) {
    forall k :: Pruned(At(m, k), t) == Pruned(At(n, k), t)
  }

  lemma EquivLater(m: Store, n: Store, t: int, now: int)
    requires Equiv(m, n, t) && t <= now
    ensures Equiv(m, n, now)
  {
    forall k ensures Pruned(At(m, k), now) == Pruned(At(n, k), now) {
      PrunedTwice(At(m, k), t, now);
      PrunedTwice(At(n, k), t, now);
    }
  }

  lemma PurgeIsInvisible(m: Store, now: int)
    ensures Equiv(m, Purged(m, now), now)
  {
    forall k ensures Pruned(At(m, k), now) == Pruned(At(Purged(m, now), k), now) {
      PrunedTwice(At(m, k), now, now);
    }
  }

  /** Equivalent stores whose entries for the given identities are the same. */
  ghost predicate Aligned(m: Store, n: Store, impus: seq<string>, t: int) {
    Equiv(m, n, t) && forall k | k in impus :: At(m, k) == At(n, k)
  }

  lemma PruningAligns(m: Store, n: Store, impus: seq<string>, now: int)
    requires Equiv(m, n, now)
    ensures Aligned(PruneAll(m, impus, now), PruneAll(n, impus, now), impus, now)
  {
    var p, q := PruneAll(m, impus, now), PruneAll(n, impus, now);
    forall k ensures Pruned(At(p, k), now) == Pruned(At(q, k), now) {
      PrunedTwice(At(m, k), now, now);
      PrunedTwice(At(n, k), now, now);
    }
  }

  lemma {:induction false} UpsertAllAligned(m: Store, n: Store, impus: seq<string>, i: nat, u: Update, t: int)
    requires Aligned(m, n, impus, t) && i <= |impus|
    ensures Aligned(UpsertAll(m, impus[..i], u).0, UpsertAll(n, impus[..i], u).0, impus, t)
    ensures UpsertAll(m, impus[..i], u).1 == UpsertAll(n, impus[..i], u).1
  {
    if i > 0 {
      UpsertAllAligned(m, n, impus, i - 1, u, t);
      assert impus[..i][..i - 1] == impus[..i - 1];
    }
  }

  lemma {:induction false} RemoveAllAligned(m: Store, n: Store, impus: seq<string>, i: nat, r: Removal, t: int)
    requires Aligned(m, n, impus, t) && i <= |impus|
    ensures Aligned(RemoveAll(m, impus[..i], r).0, RemoveAll(n, impus[..i], r).0, impus, t)
    ensures RemoveAll(m, impus[..i], r).1 == RemoveAll(n, impus[..i], r).1
  {
    if i > 0 {
      RemoveAllAligned(m, n, impus, i - 1, r, t);
      assert impus[..i][..i - 1] == impus[..i - 1];
    }
  }

  lemma OneIsABatchOfOne(m: Store, impu: string, now: int)
    ensures Prune(m, impu, now) == PruneAll(m, [impu], now)
  {
    EqualEntries(Prune(m, impu, now), PruneAll(m, [impu], now));
  }

  lemma BatchRespectsEquiv(m: Store, n: Store, e: Event)
    requires Equiv(m, n, e.now) && (e.op.UpsertMany? || e.op.RemoveMany?)
    ensures Due(m, e) == Due(n, e) && Equiv(Step(m, e), Step(n, e), e.now)
  {
    var impus := e.op.impus;
    PruningAligns(m, n, impus, e.now);
    var p, q := PruneAll(m, impus, e.now), PruneAll(n, impus, e.now);
    assert impus[..|impus|] == impus;
    if e.op.UpsertMany? {
      UpsertAllAligned(p, q, impus, |impus|, e.op.update, e.now);
      assert AllMatch(p, impus, e.op.update.selector) <==> AllMatch(q, impus, e.op.update.selector);
    } else {
      RemoveAllAligned(p, q, impus, |impus|, e.op.removal, e.now);
    }
  }

  lemma StepRespectsEquiv(m: Store, n: Store, e: Event)
    requires Equiv(m, n, e.now)
    ensures Due(m, e) == Due(n, e) && Equiv(Step(m, e), Step(n, e), e.now)
  {
    if e.op.UpsertMany? || e.op.RemoveMany? {
      BatchRespectsEquiv(m, n, e);
    } else if e.op.Purge? {
      PurgeIsInvisible(m, e.now);
      PurgeIsInvisible(n, e.now);
    } else if e.op.RemoveBindings? || e.op.Store? {
      forall k ensures Pruned(At(Step(m, e), k), e.now) == Pruned(At(Step(n, e), k), e.now) {
        assert Pruned(At(m, k), e.now) == Pruned(At(n, k), e.now);
      }
    } else {
      var impu := e.op.impu;
      assert Pruned(At(m, impu), e.now) == Pruned(At(n, impu), e.now);
      PruningAligns(m, n, [impu], e.now);
      OneIsABatchOfOne(m, impu, e.now);
      OneIsABatchOfOne(n, impu, e.now);
      assert impu in [impu];
    }
  }

  predicate ClockOk(es: seq<Event>, t: int) {
    es == [] || (t <= es[0].now && ClockOk(es[1..], es[0].now))
  }

  function WithoutPurges(es: seq<Event>): seq<Event> {
    if es == [] then []
    else (if es[0].op.Purge? then [] else [es[0]]) + WithoutPurges(es[1..])
  }

  /** The answers of a run to everything but its purges. */
  function AnswersDue(m: Store, es: seq<Event>): seq<Answer>
    decreases es
  {
    if es == [] then []
    else (if es[0].op.Purge? then [] else [Due(m, es[0])]) + AnswersDue(Step(m, es[0]), es[1..])
  }

  function Answers(m: Store, es: seq<Event>): seq<Answer>
    decreases es
  {
    if es == [] then []
    else (if es[0].op.Purge? then [] else [Given(m, es[0])]) + Answers(Step(m, es[0]), es[1..])
  }

  predicate NoneStrays(m: Store, es: seq<Event>)
    decreases es
  {
    es == [] || (!EventStrays(m, es[0]) && NoneStrays(Step(m, es[0]), es[1..]))
  }

  /** The same operation at the same time; the entry behind an erased one, given by the hash order, may differ. */
  ghost predicate AlikeEvent(e: Event, f: Event) {
    && e.now == f.now
    && match e.op
       case Lookup(impu, _) => f.op.Lookup? && f.op.impu == impu
       case IsRegistered(impu, _) => f.op.IsRegistered? && f.op.impu == impu
       case _ => f.op == e.op
  }

  ghost predicate Alike(es: seq<Event>, fs: seq<Event>) {
    |es| == |fs| && forall i | 0 <= i < |es| :: AlikeEvent(es[i], fs[i])
  }

  lemma AlikeEventsStepAlike(m: Store, e: Event, f: Event)
    requires AlikeEvent(e, f)
    ensures Step(m, e) == Step(m, f) && Due(m, e) == Due(m, f) && e.op.Purge? == f.op.Purge?
  {
  }

  lemma {:induction false} DueAnswersIgnorePurges(m: Store, n: Store, es: seq<Event>, fs: seq<Event>, t: int)
    requires Equiv(m, n, t) && ClockOk(es, t) && Alike(WithoutPurges(es), fs)
    ensures AnswersDue(m, es) == AnswersDue(n, fs)
    decreases es
  {
    if es != [] {
      var e := es[0];
      EquivLater(m, n, t, e.now);
      if e.op.Purge? {
        PurgeIsInvisible(m, e.now);
        assert Equiv(Step(m, e), n, e.now);
        assert WithoutPurges(es) == WithoutPurges(es[1..]);
        DueAnswersIgnorePurges(Step(m, e), n, es[1..], fs, e.now);
        assert AnswersDue(m, es) == AnswersDue(Step(m, e), es[1..]);
      } else {
        StepRespectsEquiv(m, n, e);
        assert WithoutPurges(es)[0] == e && WithoutPurges(es)[1..] == WithoutPurges(es[1..]);
        AlikeEventsStepAlike(n, e, fs[0]);
        AlikeTails(WithoutPurges(es), fs);
        DueAnswersIgnorePurges(Step(m, e), Step(n, fs[0]), es[1..], fs[1..], e.now);
      }
    }
  }

  lemma AlikeTails(es: seq<Event>, fs: seq<Event>)
    requires Alike(es, fs) && es != []
    ensures AlikeEvent(es[0], fs[0]) && Alike(es[1..], fs[1..])
  {
    forall i | 0 <= i < |es| - 1 ensures AlikeEvent(es[1..][i], fs[1..][i]) {
      assert AlikeEvent(es[i + 1], fs[i + 1]);
    }
  }

  lemma {:induction false} RunAnswersAreDueUnlessOneStrays(m: Store, es: seq<Event>)
    ensures Answers(m, es) == AnswersDue(m, es) <==> NoneStrays(m, es)
    decreases es
  {
    if es != [] {
      var e := es[0];
      AnswerIsDueUnlessItStrays(m, e);
      RunAnswersAreDueUnlessOneStrays(Step(m, e), es[1..]);
      var a, d := Answers(Step(m, e), es[1..]), AnswersDue(Step(m, e), es[1..]);
      if e.op.Purge? {
        assert [] + a == a && [] + d == d;
      } else {
        assert ([Given(m, e)] + a)[0] == Given(m, e) && ([Given(m, e)] + a)[1..] == a;
        assert ([Due(m, e)] + d)[0] == Due(m, e) && ([Due(m, e)] + d)[1..] == d;
      }
    }
  }

  /** Two runs that differ only in purges and hash order answer alike exactly when, the first straying nowhere, the second does not either. */
  lemma RunsAnswerAlikeIffNeitherStrays(m: Store, es: seq<Event>, fs: seq<Event>, t: int)
    requires ClockOk(es, t) && Alike(WithoutPurges(es), fs) && NoneStrays(m, es)
    ensures Answers(m, es) == Answers(m, fs) <==> NoneStrays(m, fs)
  {
    DueAnswersIgnorePurges(m, m, es, fs, t);
    RunAnswersAreDueUnlessOneStrays(m, es);
    RunAnswersAreDueUnlessOneStrays(m, fs);
  }

  // ---------- Purging never makes a lookup stray ----------

  /** The entry a of the purged store against the entry b of the other: expired contacts may be missing. */
  predicate Sub(a: Option<Binding>, b: Option<Binding>) {
    a.Some? ==> b.Some? && a.value.state == b.value.state && forall c | c in a.value.contacts :: c in b.value.contacts
  }

  ghost predicate Thinner(m: Store, n: Store, t: int) {
    Equiv(m, n, t) && forall k :: Sub(At(m, k), At(n, k))
  }

  lemma {:induction false} UnexpiredIsSub(cs: seq<Contact>, now: int, c: Contact)
    ensures c in Unexpired(cs, now) <==> c in cs && now < c.expires
  {
    if cs != [] {
      UnexpiredIsSub(cs[1..], now, c);
      assert c in cs <==> c == cs[0] || c in cs[1..];
    }
  }

  lemma PrunedIsSub(e: Option<Binding>, now: int)
    ensures Sub(Pruned(e, now), e)
  {
    if e.Some? {
      forall c | c in Unexpired(e.value.contacts, now) ensures c in e.value.contacts { UnexpiredIsSub(e.value.contacts, now, c); }
    }
  }

  lemma PurgeThins(m: Store, n: Store, now: int)
    requires Thinner(m, n, now)
    ensures Thinner(Purged(m, now), n, now)
  {
    PurgeIsInvisible(m, now);
    forall k ensures Sub(At(Purged(m, now), k), At(n, k)) {
      PrunedIsSub(At(m, k), now);
      assert Sub(At(m, k), At(n, k));
    }
  }

  lemma {:induction false} UpsertAllFrames(m: Store, impus: seq<string>, u: Update, k: string)
    requires k !in impus
    ensures At(UpsertAll(m, impus, u).0, k) == At(m, k)
  {
    hide Upserted;
    if impus != [] { UpsertAllFrames(m, impus[..|impus| - 1], u, k); }
  }

  lemma {:induction false} RemoveAllFrames(m: Store, impus: seq<string>, r: Removal, k: string)
    requires k !in impus
    ensures At(RemoveAll(m, impus, r).0, k) == At(m, k)
  {
    hide Removed;
    if impus != [] { RemoveAllFrames(m, impus[..|impus| - 1], r, k); }
  }

  lemma BatchKeepsThinner(m: Store, n: Store, e: Event)
    requires Thinner(m, n, e.now) && (e.op.UpsertMany? || e.op.RemoveMany?)
    ensures Thinner(Step(m, e), Step(n, e), e.now)
  {
    hide UpsertAll, RemoveAll, AllMatch, Sub;
    BatchRespectsEquiv(m, n, e);
    var impus := e.op.impus;
    PruningAligns(m, n, impus, e.now);
    var p, q := PruneAll(m, impus, e.now), PruneAll(n, impus, e.now);
    assert impus[..|impus|] == impus;
    if e.op.UpsertMany? { UpsertAllAligned(p, q, impus, |impus|, e.op.update, e.now); }
    else { RemoveAllAligned(p, q, impus, |impus|, e.op.removal, e.now); }
    forall k ensures Sub(At(Step(m, e), k), At(Step(n, e), k)) {
      BatchLeavesOthers(m, e, k);
      BatchLeavesOthers(n, e, k);
      if k in impus {
        BatchIsAligned(m, n, e, k);
        SubItself(At(Step(m, e), k));
      }
    }
  }

  lemma SubItself(e: Option<Binding>)
    ensures Sub(e, e)
  {
  }

  lemma BatchLeavesOthers(m: Store, e: Event, k: string)
    requires e.op.UpsertMany? || e.op.RemoveMany?
    ensures k !in e.op.impus ==> At(Step(m, e), k) == At(m, k)
  {
    hide UpsertAll, RemoveAll, AllMatch;
    if k !in e.op.impus {
      var p := PruneAll(m, e.op.impus, e.now);
      if e.op.UpsertMany? { UpsertAllFrames(p, e.op.impus, e.op.update, k); }
      else { RemoveAllFrames(p, e.op.impus, e.op.removal, k); }
    }
  }

  lemma BatchIsAligned(m: Store, n: Store, e: Event, k: string)
    requires Equiv(m, n, e.now) && (e.op.UpsertMany? || e.op.RemoveMany?) && k in e.op.impus
    ensures At(Step(m, e), k) == At(Step(n, e), k)
  {
    var impus := e.op.impus;
    PruningAligns(m, n, impus, e.now);
    var p, q := PruneAll(m, impus, e.now), PruneAll(n, impus, e.now);
    assert impus[..|impus|] == impus;
    if e.op.UpsertMany? {
      UpsertAllAligned(p, q, impus, |impus|, e.op.update, e.now);
      assert AllMatch(p, impus, e.op.update.selector) <==> AllMatch(q, impus, e.op.update.selector);
    } else {
      RemoveAllAligned(p, q, impus, |impus|, e.op.removal, e.now);
    }
  }

  lemma StepKeepsThinner(m: Store, n: Store, e: Event)
    requires Thinner(m, n, e.now) && !e.op.Purge?
    ensures Thinner(Step(m, e), Step(n, e), e.now)
  {
    if e.op.UpsertMany? || e.op.RemoveMany? {
      BatchKeepsThinner(m, n, e);
    } else {
      StepRespectsEquiv(m, n, e);
      forall k ensures Sub(At(Step(m, e), k), At(Step(n, e), k)) {
        assert Sub(At(m, k), At(n, k));
        assert Pruned(At(m, k), e.now) == Pruned(At(n, k), e.now);
      }
    }
  }

  /** In the thinner store a lookup strays only where it strays in the other. */
  lemma ThinnerStraysLess(m: Store, n: Store, e: Event)
    requires Thinner(m, n, e.now) && EventStrays(m, e)
    ensures EventStrays(n, e)
  {
    var impu, after := e.op.impu, e.op.after.value;
    assert Sub(At(m, impu), At(n, impu)) && Sub(At(m, after), At(n, after));
    assert Pruned(At(m, impu), e.now) == Pruned(At(n, impu), e.now);
    if e.op.IsRegistered? { assert m[after].contacts[0] in n[after].contacts; }
  }

  lemma {:induction false} PurgesMakeNoneStray(m: Store, n: Store, es: seq<Event>, t: int)
    requires Thinner(m, n, t) && ClockOk(es, t) && NoneStrays(n, WithoutPurges(es))
    ensures NoneStrays(m, es)
    decreases es
  {
    hide Step, EventStrays, Sub;
    if es != [] {
      var e := es[0];
      EquivLater(m, n, t, e.now);
      if e.op.Purge? {
        PurgeThins(m, n, e.now);
        PurgeStep(m, e);
        assert WithoutPurges(es) == WithoutPurges(es[1..]);
        PurgesMakeNoneStray(Step(m, e), n, es[1..], e.now);
      } else {
        assert WithoutPurges(es)[0] == e && WithoutPurges(es)[1..] == WithoutPurges(es[1..]);
        StepKeepsThinner(m, n, e);
        if EventStrays(m, e) { ThinnerStraysLess(m, n, e); }
        PurgesMakeNoneStray(Step(m, e), Step(n, e), es[1..], e.now);
      }
    }
  }

  lemma PurgeStep(m: Store, e: Event)
    requires e.op.Purge?
    ensures Step(m, e) == Purged(m, e.now) && !EventStrays(m, e)
  {
  }

  lemma ThinnerItself(m: Store, t: int)
    ensures Thinner(m, m, t)
  {
  }

  /**
   * Lazy expiry refines eager expiry: if no lookup of a run strays, purges inserted at any points of it
   * change no answer, and make none of its lookups stray.
   */
  lemma PurgesChangeNoAnswer(m: Store, es: seq<Event>, t: int)
    requires ClockOk(es, t) && NoneStrays(m, WithoutPurges(es))
    ensures NoneStrays(m, es) && Answers(m, es) == Answers(m, WithoutPurges(es))
  {
    hide Thinner, NoneStrays;
    var fs := WithoutPurges(es);
    ThinnerItself(m, t);
    PurgesMakeNoneStray(m, m, es, t);
    assert Alike(fs, fs);
    RunsAnswerAlikeIffNeitherStrays(m, es, fs, t);
  }

  // ---------- The same under any hash order ----------

  /** The lookup would erase an expired entry while others are there, whichever of them lies behind it. */
  predicate CanStray(m: Store, e: Event) {
    && (e.op.Lookup? || e.op.IsRegistered?)
    && e.op.impu in m && Unexpired(m[e.op.impu].contacts, e.now) == [] && exists k | k in m :: k != e.op.impu
  }

  predicate NoneCanStray(m: Store, es: seq<Event>)
    decreases es
  {
    es == [] || (!CanStray(m, es[0]) && NoneCanStray(Step(m, es[0]), es[1..]))
  }

  lemma {:induction false} NoOrderStrays(m: Store, n: Store, es: seq<Event>, fs: seq<Event>, t: int)
    requires Thinner(m, n, t) && ClockOk(es, t) && Alike(WithoutPurges(es), fs) && NoneCanStray(n, fs)
    ensures NoneStrays(m, es)
    decreases es
  {
    hide Step, EventStrays, Sub, CanStray, AlikeEvent;
    if es != [] {
      var e := es[0];
      EquivLater(m, n, t, e.now);
      if e.op.Purge? {
        PurgeThins(m, n, e.now);
        PurgeStep(m, e);
        assert WithoutPurges(es) == WithoutPurges(es[1..]);
        NoOrderStrays(Step(m, e), n, es[1..], fs, e.now);
      } else {
        assert WithoutPurges(es)[0] == e && WithoutPurges(es)[1..] == WithoutPurges(es[1..]);
        AlikeTails(WithoutPurges(es), fs);
        StepKeepsThinner(m, n, e);
        AlikeEventsStepAlike(n, e, fs[0]);
        if EventStrays(m, e) { StrayingCouldStray(m, n, e, fs[0]); }
        NoOrderStrays(Step(m, e), Step(n, fs[0]), es[1..], fs[1..], e.now);
      }
    }
  }

  lemma StrayingCouldStray(m: Store, n: Store, e: Event, f: Event)
    requires Thinner(m, n, e.now) && AlikeEvent(e, f) && EventStrays(m, e)
    ensures CanStray(n, f)
  {
    var impu, after := e.op.impu, e.op.after.value;
    assert Sub(At(m, impu), At(n, impu)) && Sub(At(m, after), At(n, after));
    assert Pruned(At(m, impu), e.now) == Pruned(At(n, impu), e.now);
  }

  lemma {:induction false} NeverAbleNeverStrays(m: Store, es: seq<Event>)
    requires NoneCanStray(m, es)
    ensures NoneStrays(m, es)
    decreases es
  {
    hide Step;
    if es != [] { NeverAbleNeverStrays(Step(m, es[0]), es[1..]); }
  }

  /**
   * Purging reorders the hash table. If no lookup of a run meets its identity expired while another is in
   * the store, the run answers like any run with purges inserted and any order of the entries in both.
   */
  lemma PurgesAndHashOrderChangeNoAnswer(m: Store, es: seq<Event>, fs: seq<Event>, t: int)
    requires ClockOk(es, t) && Alike(WithoutPurges(es), fs) && NoneCanStray(m, fs)
    ensures Answers(m, es) == Answers(m, fs)
  {
    hide Thinner, NoneStrays, NoneCanStray;
    ThinnerItself(m, t);
    NoOrderStrays(m, m, es, fs, t);
    NeverAbleNeverStrays(m, fs);
    RunsAnswerAlikeIffNeitherStrays(m, es, fs, t);
  }

  /** A purge at the same instant leaves nothing for a lookup to erase. */
  lemma PurgedStoreNeverStrays(m: Store, e: Event)
    ensures !EventStrays(Purged(m, e.now), e)
  {
    var p := Purged(m, e.now);
    if (e.op.Lookup? || e.op.IsRegistered?) && e.op.impu in p {
      PrunedTwice(At(m, e.op.impu), e.now, e.now);
      assert At(p, e.op.impu) == Some(p[e.op.impu]);
    }
  }

  /** Every operation preceded by a purge at the same instant. */
  function PurgedFirst(es: seq<Event>): seq<Event> {
    if es == [] then [] else [Event(es[0].now, Purge), es[0]] + PurgedFirst(es[1..])
  }

  lemma {:induction false} PurgedFirstNeverStrays(m: Store, es: seq<Event>)
    ensures NoneStrays(m, PurgedFirst(es))
    decreases es
  {
    hide Step, EventStrays;
    if es != [] {
      var p, e, rest := Event(es[0].now, Purge), es[0], PurgedFirst(es[1..]);
      PurgeStep(m, p);
      PurgedStoreNeverStrays(m, e);
      PurgedFirstNeverStrays(Step(Step(m, p), e), es[1..]);
      assert PurgedFirst(es)[1..] == [e] + rest && ([e] + rest)[1..] == rest;
    }
  }

  lemma {:induction false} PurgedFirstAddsPurges(es: seq<Event>, t: int)
    requires ClockOk(es, t)
    ensures WithoutPurges(PurgedFirst(es)) == WithoutPurges(es) && ClockOk(PurgedFirst(es), t)
    decreases es
  {
    if es != [] {
      var p, e, rest := Event(es[0].now, Purge), es[0], PurgedFirst(es[1..]);
      PurgedFirstAddsPurges(es[1..], e.now);
      assert PurgedFirst(es)[1..] == [e] + rest && ([e] + rest)[1..] == rest;
      assert WithoutPurges([e] + rest) == (if e.op.Purge? then [] else [e]) + WithoutPurges(rest);
      assert WithoutPurges(PurgedFirst(es)) == [] + WithoutPurges([e] + rest);
    }
  }

  /** Purging first heals any run: it then answers what is due, and so does every operation in it. */
  lemma PurgingFirstGivesTheDueAnswers(m: Store, es: seq<Event>, t: int)
    requires ClockOk(es, t)
    ensures Answers(m, PurgedFirst(es)) == AnswersDue(m, es)
  {
    hide AnswersDue, Answers, NoneStrays, WithoutPurges;
    var fs := WithoutPurges(es);
    PurgedFirstNeverStrays(m, es);
    PurgedFirstAddsPurges(es, t);
    RunAnswersAreDueUnlessOneStrays(m, PurgedFirst(es));
    assert Alike(fs, fs);
    DueAnswersIgnorePurges(m, m, PurgedFirst(es), fs, t);
    DueAnswersIgnorePurges(m, m, es, fs, t);
  }

  // ---------- Batches ----------

  predicate Distinct(impus: seq<string>) {
    forall i, j | 0 <= i < j < |impus| :: impus[i] != impus[j]
  }

  lemma MatchIsAccepted(e: Option<Binding>, impu: string, u: Update)
    requires u.requireExistingMatch ==> HasMatch(e, u.selector)
    ensures Upserted(e, impu, u).1
  {
    if e.Some? { assert Rewritten(e, impu, u).contacts == e.value.contacts; }
  }

  lemma {:induction false} UpsertAllEntries(m: Store, impus: seq<string>, i: nat, u: Update)
    requires Distinct(impus) && i <= |impus|
    requires u.requireExistingMatch ==> AllMatch(m, impus, u.selector)
    ensures UpsertAll(m, impus[..i], u).1
    ensures forall j | 0 <= j < i :: At(UpsertAll(m, impus[..i], u).0, impus[j]) == Upserted(At(m, impus[j]), impus[j], u).0
    ensures forall k | k !in impus[..i] :: At(UpsertAll(m, impus[..i], u).0, k) == At(m, k)
  {
    hide Upserted, HasMatch;
    if i > 0 {
      UpsertAllEntries(m, impus, i - 1, u);
      assert impus[..i][..i - 1] == impus[..i - 1];
      assert impus[i - 1] !in impus[..i - 1];
      assert u.requireExistingMatch ==> HasMatch(At(m, impus[i - 1]), u.selector);
      MatchIsAccepted(At(m, impus[i - 1]), impus[i - 1], u);
      assert impus[i - 1] in impus[..i];
    }
  }

  /** The new contact is stored, or it lost to a newer one of the same dialog. */
  predicate Stored(e: Option<Binding>, u: Update) {
    e.Some? && exists c | c in e.value.contacts ::
      c == u.contact || (u.rejectOlderCseq && Matches(c, u.selector) && c.callId == u.contact.callId && u.contact.cseq < c.cseq)
  }

  lemma AcceptedIsStored(e: Option<Binding>, impu: string, u: Update)
    requires Upserted(e, impu, u).1
    ensures Stored(Upserted(e, impu, u).0, u)
  {
    var cs := Rewritten(e, impu, u).contacts;
    var i := FirstMatch(cs, u.selector);
    if i == |cs| {
      assert (cs + [u.contact])[i] == u.contact;
    } else {
      assert cs[i] in cs && cs[i := u.contact][i] == u.contact;
    }
  }

  /**
   * A batch either is refused, with nothing changed but the pruning, or reaches every identity;
   * a batch over a set of identities never stops in the middle.
   */
  lemma BatchIsAllOrNothing(m: Store, impus: seq<string>, u: Update, now: int)
    requires Distinct(impus)
    ensures var (n, changed) := UpsertBatch(m, impus, u, now); var pruned := PruneAll(m, impus, now);
            if u.requireExistingMatch && !AllMatch(pruned, impus, u.selector) then n == pruned && changed == 0
            else
              && changed == |impus|
              && (forall i | 0 <= i < |impus| :: Stored(At(n, impus[i]), u))
              && (forall k | k !in impus :: At(n, k) == At(m, k))
  {
    var pruned := PruneAll(m, impus, now);
    if !(u.requireExistingMatch && !AllMatch(pruned, impus, u.selector)) {
      UpsertAllEntries(pruned, impus, |impus|, u);
      assert impus[..|impus|] == impus;
      forall i | 0 <= i < |impus| ensures Stored(At(UpsertAll(pruned, impus, u).0, impus[i]), u) {
        if u.requireExistingMatch { assert HasMatch(At(pruned, impus[i]), u.selector); }
        AcceptedIsStored(At(pruned, impus[i]), impus[i], u);
      }
    }
  }

  predicate HasLiveMatch(e: Option<Binding>, s: Selector, now: int) {
    e.Some? && exists c | c in e.value.contacts :: Matches(c, s) && now < c.expires
  }

  lemma {:induction false} LiveMatch(cs: seq<Contact>, s: Selector, now: int)
    ensures FirstMatch(Unexpired(cs, now), s) < |Unexpired(cs, now)| <==> exists c | c in cs :: Matches(c, s) && now < c.expires
  {
    if cs != [] {
      LiveMatch(cs[1..], s, now);
      assert cs == [cs[0]] + cs[1..];
      var rest := Unexpired(cs[1..], now);
      if cs[0].expires > now { assert ([cs[0]] + rest)[1..] == rest; }
      else { assert [] + rest == rest; }
      assert forall c :: c in cs <==> c == cs[0] || c in cs[1..];
    }
  }

  lemma PrunedHasLiveMatch(e: Option<Binding>, s: Selector, now: int)
    ensures HasMatch(Pruned(e, now), s) <==> HasLiveMatch(e, s, now)
  {
    if e.Some? { LiveMatch(e.value.contacts, s, now); }
  }

  /** A refresh succeeds exactly when every identity still holds an unexpired matching contact: none revives an expired one. */
  lemma RefreshNeedsLiveContacts(m: Store, impus: seq<string>, u: Update, now: int)
    requires Distinct(impus) && impus != [] && u.requireExistingMatch
    ensures UpsertBatch(m, impus, u, now).1 > 0 <==> forall i | 0 <= i < |impus| :: HasLiveMatch(At(m, impus[i]), u.selector, now)
  {
    BatchIsAllOrNothing(m, impus, u, now);
    var pruned := PruneAll(m, impus, now);
    forall i | 0 <= i < |impus| ensures HasMatch(At(pruned, impus[i]), u.selector) <==> HasLiveMatch(At(m, impus[i]), u.selector, now) {
      PrunedHasLiveMatch(At(m, impus[i]), u.selector, now);
      assert At(pruned, impus[i]) == Pruned(At(m, impus[i]), now);
    }
  }

  /** The same for a single identity. */
  lemma SingleRefreshNeedsLiveContact(m: Store, impu: string, u: Update, now: int)
    requires u.requireExistingMatch
    ensures UpsertOne(m, impu, u, now).1 <==> HasLiveMatch(At(m, impu), u.selector, now)
  {
    PrunedHasLiveMatch(At(m, impu), u.selector, now);
    assert At(Prune(m, impu, now), impu) == Pruned(At(m, impu), now);
  }

  /** The entry has unexpired contacts, and the update brings it other fields of its own. */
  predicate Differs(e: Option<Binding>, u: Update, now: int) {
    && e.Some? && Unexpired(e.value.contacts, now) != []
    && (e.value.state != u.state || (u.impi != "" && u.impi != e.value.impi) || (u.scscfUri != "" && u.scscfUri != e.value.scscfUri))
  }

  /**
   * A single refresh without an unexpired matching contact is refused, but not without effect: it leaves the
   * store as pruning does exactly when the entry has expired or already has the fields of the update.
   */
  lemma RefusedUpsertStillRewrites(m: Store, impu: string, u: Update, now: int)
    requires u.requireExistingMatch && !HasLiveMatch(At(m, impu), u.selector, now)
    ensures !UpsertOne(m, impu, u, now).1
    ensures UpsertOne(m, impu, u, now).0 == Prune(m, impu, now) <==> !Differs(At(m, impu), u, now)
  {
    hide HasLiveMatch;
    SingleRefreshNeedsLiveContact(m, impu, u, now);
    var pruned := Prune(m, impu, now);
    var e := Pruned(At(m, impu), now);
    assert At(pruned, impu) == e;
    assert At(UpsertOne(m, impu, u, now).0, impu) == Upserted(e, impu, u).0;
    RefusedEntry(e, impu, u);
    if Upserted(e, impu, u).0 == e { EqualEntries(UpsertOne(m, impu, u, now).0, pruned); }
  }

  lemma RefusedEntry(e: Option<Binding>, impu: string, u: Update)
    requires u.requireExistingMatch && !Upserted(e, impu, u).1
    ensures Upserted(e, impu, u).0 == e <==>
            e.None? || (e.value.state == u.state && (u.impi == "" || u.impi == e.value.impi) && (u.scscfUri == "" || u.scscfUri == e.value.scscfUri))
  {
    if e.Some? { assert Rewritten(e, impu, u).contacts == e.value.contacts; }
  }

  /** A refresh of another contact of alice, under another private identity: refused, and yet her binding now has that identity. */
  lemma RefusedRefreshChangesItsBinding()
    ensures var m := map["alice" := Alice()];
            var u := Update(Selector(s => s, "z", "", ""), Contact("z", "", "", "", 9, "c", 2), "bob.priv", "", Registered, true, true);
            !UpsertOne(m, "alice", u, 0).1 && UpsertOne(m, "alice", u, 0).0 == map["alice" := Alice().(impi := "bob.priv")]
  {
    var m := map["alice" := Alice()];
    var u := Update(Selector(s => s, "z", "", ""), Contact("z", "", "", "", 9, "c", 2), "bob.priv", "", Registered, true, true);
    assert At(m, "alice") == Some(Alice());
    assert Alice().contacts[1..] == [];
    assert Unexpired(Alice().contacts, 0) == Alice().contacts;
    assert Pruned(At(m, "alice"), 0) == Some(Alice());
    EqualEntries(Prune(m, "alice", 0), m);
    assert FirstMatch(Alice().contacts, u.selector) == 1;
    EqualEntries(UpsertOne(m, "alice", u, 0).0, map["alice" := Alice().(impi := "bob.priv")]);
  }

  // ---------- CSeq ordering ----------

  lemma {:induction false} KeptIff(cs: seq<Contact>, r: Removal, c: Contact)
    ensures c in Kept(cs, r) <==> c in cs && !Removes(c, r)
  {
    if cs != [] {
      KeptIff(cs[1..], r, c);
      assert c in cs <==> c == cs[0] || c in cs[1..];
    }
  }

  /** A stale REGISTER displaces nothing: contacts of its Call-ID with a larger CSeq stay where they are. */
  lemma StaleUpsertDisplacesNothing(e: Option<Binding>, impu: string, u: Update, j: nat)
    requires u.rejectOlderCseq && e.Some? && j < |e.value.contacts|
    requires e.value.contacts[j].callId == u.contact.callId && u.contact.cseq < e.value.contacts[j].cseq
    ensures var r := Upserted(e, impu, u).0; r.Some? && j < |r.value.contacts| && r.value.contacts[j] == e.value.contacts[j]
  {
    assert Rewritten(e, impu, u).contacts == e.value.contacts;
  }

  /** A removal takes exactly the matching contacts that are not newer than it. */
  lemma RemovalTakesExactly(e: Option<Binding>, r: Removal, c: Contact)
    requires e.Some? && c in e.value.contacts
    ensures var after := Removed(e, r).0;
            (after.Some? && c in after.value.contacts)
            <==> !Matches(c, r.selector) || (r.rejectOlderCseq && c.callId == r.callId && r.cseq < c.cseq)
  {
    KeptIff(e.value.contacts, r, c);
    if |Kept(e.value.contacts, r)| == |e.value.contacts| { NothingKeptBack(e.value.contacts, r); }
  }

  lemma {:induction false} NothingKeptBack(cs: seq<Contact>, r: Removal)
    ensures |Kept(cs, r)| <= |cs|
    ensures |Kept(cs, r)| == |cs| ==> Kept(cs, r) == cs
  {
    if cs != [] {
      NothingKeptBack(cs[1..], r);
    }
  }

  // ---------- CSeq ordering over runs ----------

  predicate Holds(e: Option<Binding>, c: Contact) {
    e.Some? && c in e.value.contacts
  }

  /** A REGISTER that leaves c alone: it selects other contacts, or CSeq is checked and it is an older one of c's Call-ID. */
  predicate Spares(s: Selector, rejectOlderCseq: bool, callId: string, cseq: nat, c: Contact) {
    !Matches(c, s) || (rejectOlderCseq && callId == c.callId && cseq < c.cseq)
  }

  /** What can take contact c from the binding of impu: expiry, removal or replacement of the whole binding, or a REGISTER that does not spare it. */
  predicate CanDisplace(e: Event, impu: string, c: Contact) {
    || c.expires <= e.now
    || match e.op
       case Upsert(k, u) => k == impu && !Spares(u.selector, u.rejectOlderCseq, u.contact.callId, u.contact.cseq, c)
       case UpsertMany(ks, u) => impu in ks && !Spares(u.selector, u.rejectOlderCseq, u.contact.callId, u.contact.cseq, c)
       case Remove(k, s) => k == impu && Matches(c, s)
       case RemoveMany(ks, r) => impu in ks && !Spares(r.selector, r.rejectOlderCseq, r.callId, r.cseq, c)
       case RemoveBindings(ks) => impu in ks
       case Store(b) => b.impu == impu
       case _ => false
  }

  lemma PruningHolds(e: Option<Binding>, now: int, c: Contact)
    requires Holds(e, c) && now < c.expires
    ensures Holds(Pruned(e, now), c)
  {
    UnexpiredIsSub(e.value.contacts, now, c);
  }

  lemma UpsertHolds(e: Option<Binding>, impu: string, u: Update, c: Contact)
    requires Holds(e, c) && Spares(u.selector, u.rejectOlderCseq, u.contact.callId, u.contact.cseq, c)
    ensures Holds(Upserted(e, impu, u).0, c)
  {
    var j :| 0 <= j < |e.value.contacts| && e.value.contacts[j] == c;
    var r := Upserted(e, impu, u).0;
    assert Rewritten(e, impu, u).contacts == e.value.contacts;
    assert j < |r.value.contacts| && r.value.contacts[j] == c;
  }

  lemma RemovalHolds(e: Option<Binding>, r: Removal, c: Contact)
    requires Holds(e, c) && Spares(r.selector, r.rejectOlderCseq, r.callId, r.cseq, c)
    ensures Holds(Removed(e, r).0, c)
  {
    RemovalTakesExactly(e, r, c);
  }

  lemma {:induction false} UpsertAllHolds(m: Store, impus: seq<string>, u: Update, k: string, c: Contact)
    requires Holds(At(m, k), c) && (k in impus ==> Spares(u.selector, u.rejectOlderCseq, u.contact.callId, u.contact.cseq, c))
    ensures Holds(At(UpsertAll(m, impus, u).0, k), c)
  {
    hide Upserted, Holds, Spares;
    if impus != [] {
      var init, last := impus[..|impus| - 1], impus[|impus| - 1];
      UpsertAllHolds(m, init, u, k, c);
      if last == k { UpsertHolds(At(UpsertAll(m, init, u).0, k), k, u, c); }
    }
  }

  lemma {:induction false} RemoveAllHolds(m: Store, impus: seq<string>, r: Removal, k: string, c: Contact)
    requires Holds(At(m, k), c) && (k in impus ==> Spares(r.selector, r.rejectOlderCseq, r.callId, r.cseq, c))
    ensures Holds(At(RemoveAll(m, impus, r).0, k), c)
  {
    hide Removed, Holds, Spares;
    if impus != [] {
      var init, last := impus[..|impus| - 1], impus[|impus| - 1];
      RemoveAllHolds(m, init, r, k, c);
      if last == k { RemovalHolds(At(RemoveAll(m, init, r).0, k), r, c); }
    }
  }

  lemma StepHolds(m: Store, e: Event, k: string, c: Contact)
    requires Holds(At(m, k), c) && !CanDisplace(e, k, c)
    ensures Holds(At(Step(m, e), k), c)
  {
    hide Upserted, Removed, UpsertAll, RemoveAll, Holds, Spares, AllMatch, Pruned;
    PruningHolds(At(m, k), e.now, c);
    match e.op
    case Upsert(i, u) =>
      if i == k { UpsertHolds(Pruned(At(m, k), e.now), k, u, c); }
    case Remove(i, s) =>
      if i == k { RemovalHolds(Pruned(At(m, k), e.now), Removal(s, "", 0, false), c); }
    case UpsertMany(ks, u) => UpsertAllHolds(PruneAll(m, ks, e.now), ks, u, k, c);
    case RemoveMany(ks, r) => RemoveAllHolds(PruneAll(m, ks, e.now), ks, r, k, c);
    case _ =>
  }

  /**
   * Over whole runs: a contact stays in its binding until it expires, its binding is removed or replaced as a
   * whole, or a REGISTER selects it that is of another Call-ID, is not older, or comes without CSeq checking.
   */
  lemma {:induction false} ContactsLeaveOnlyForNewer(m: Store, es: seq<Event>, k: string, c: Contact)
    requires Holds(At(m, k), c) && forall i | 0 <= i < |es| :: !CanDisplace(es[i], k, c)
    ensures Holds(At(After(m, es), k), c)
    decreases es
  {
    hide Step, Holds, CanDisplace;
    if es != [] {
      StepHolds(m, es[0], k, c);
      ContactsLeaveOnlyForNewer(Step(m, es[0]), es[1..], k, c);
    }
  }

  function After(m: Store, es: seq<Event>): Store
    decreases es
  {
    if es == [] then m else After(Step(m, es[0]), es[1..])
  }
}
