// What one operation of the registration store leaves behind, in terms of the
// unexpired contacts it met, and what later lookups then answer.

module RegistrationEffects {
  import opened Options
  import opened RegistrationStore
  import opened RegistrationRuns

  /** The contact stands in the binding of impu and has not expired. */
  predicate LiveIn(m: Store, impu: string, c: Contact, now: int) {
    impu in m && c in m[impu].contacts && now < c.expires
  }

  // ---------- What is answered ----------

  /** Pruning keeps the order: it works contact by contact. */
  lemma {:induction false} UnexpiredSplits(a: seq<Contact>, b: seq<Contact>, now: int)
    ensures Unexpired(a + b, now) == Unexpired(a, now) + Unexpired(b, now)
  {
    if a == [] {
      assert a + b == b;
    } else {
      var head := if a[0].expires <= now then [] else [a[0]];
      assert (a + b)[0] == a[0] && (a + b)[1..] == a[1..] + b;
      assert Unexpired(a + b, now) == head + Unexpired(a[1..] + b, now);
      UnexpiredSplits(a[1..], b, now);
      assert Unexpired(a, now) == head + Unexpired(a[1..], now);
      assert head + (Unexpired(a[1..], now) + Unexpired(b, now)) == (head + Unexpired(a[1..], now)) + Unexpired(b, now);
    }
  }

  lemma UnexpiredOne(c: Contact, now: int)
    ensures Unexpired([c], now) == if c.expires <= now then [] else [c]
  {
    assert [c][1..] == [];
  }

  /** A lookup finds the binding as long as a contact of it is unexpired, with the unexpired ones and nothing else changed. */
  lemma LookupIsDueExactly(m: Store, impu: string, now: int, after: Option<string>)
    ensures var d := Due(m, Event(now, Lookup(impu, after)));
            && d.Found?
            && (d.found.Some? <==> exists c :: LiveIn(m, impu, c, now))
            && (d.found.Some? ==>
                  && d.found == Some(m[impu].(contacts := d.found.value.contacts))
                  && forall c :: c in d.found.value.contacts <==> LiveIn(m, impu, c, now))
  {
    if impu in m {
      forall c ensures c in Unexpired(m[impu].contacts, now) <==> LiveIn(m, impu, c, now) { UnexpiredIsSub(m[impu].contacts, now, c); }
      if Unexpired(m[impu].contacts, now) != [] { assert LiveIn(m, impu, Unexpired(m[impu].contacts, now)[0], now); }
    }
  }

  /** An identity counts as registered exactly when its binding is in that state and holds an unexpired contact. */
  lemma RegisteredExactly(m: Store, impu: string, now: int, after: Option<string>)
    ensures Due(m, Event(now, IsRegistered(impu, after)))
         == Flag((exists c :: LiveIn(m, impu, c, now)) && m[impu].state == Registered)
  {
    LookupIsDueExactly(m, impu, now, after);
  }

  /** With a contact left the code gives the due answer: nothing is erased that could lead it astray. */
  lemma LiveAnswersAreDue(m: Store, impu: string, c: Contact, now: int, after: Option<string>)
    requires LiveIn(m, impu, c, now)
    ensures Given(m, Event(now, IsRegistered(impu, after))) == Due(m, Event(now, IsRegistered(impu, after)))
    ensures Given(m, Event(now, Lookup(impu, after))) == Due(m, Event(now, Lookup(impu, after)))
  {
    hide Given, Due;
    UnexpiredIsSub(m[impu].contacts, now, c);
    AnswerIsDueUnlessItStrays(m, Event(now, IsRegistered(impu, after)));
    AnswerIsDueUnlessItStrays(m, Event(now, Lookup(impu, after)));
  }

  // ---------- Removal ----------

  /** So does a removal. */
  lemma {:induction false} KeptSplits(a: seq<Contact>, b: seq<Contact>, r: Removal)
    ensures Kept(a + b, r) == Kept(a, r) + Kept(b, r)
  {
    if a == [] {
      assert a + b == b;
    } else {
      var head := if Removes(a[0], r) then [] else [a[0]];
      assert (a + b)[0] == a[0] && (a + b)[1..] == a[1..] + b;
      assert Kept(a + b, r) == head + Kept(a[1..] + b, r);
      KeptSplits(a[1..], b, r);
      assert Kept(a, r) == head + Kept(a[1..], r);
      assert head + (Kept(a[1..], r) + Kept(b, r)) == (head + Kept(a[1..], r)) + Kept(b, r);
    }
  }

  lemma KeptOne(c: Contact, r: Removal)
    ensures Kept([c], r) == if Removes(c, r) then [] else [c]
  {
    assert [c][1..] == [];
  }

  /** A removal that takes a contact and leaves another leaves a registered binding under the same names. */
  lemma RemovalLeavesARegisteredBinding(e: Option<Binding>, r: Removal, x: Contact, y: Contact)
    requires e.Some? && x in e.value.contacts && y in e.value.contacts && Removes(x, r) && !Removes(y, r)
    ensures var (after, removed) := Removed(e, r);
            && removed && after.Some? && y in after.value.contacts && x !in after.value.contacts
            && after.value.state == Registered && CountsAsRegistered(after)
            && after.value.impu == e.value.impu && after.value.impi == e.value.impi && after.value.scscfUri == e.value.scscfUri
  {
    hide Removes;
    KeptIff(e.value.contacts, r, x);
    KeptIff(e.value.contacts, r, y);
    NothingKeptBack(e.value.contacts, r);
  }

  /** One that takes nothing leaves the entry as it is, and one that takes every contact takes the binding. */
  lemma RemovalOfNoneOrAll(e: Option<Binding>, r: Removal)
    requires e.Some? && e.value.contacts != []
    ensures (forall c | c in e.value.contacts :: !Removes(c, r)) <==> Removed(e, r) == (e, false)
    ensures (forall c | c in e.value.contacts :: Removes(c, r)) <==> Removed(e, r) == (None, true)
  {
    hide Removes;
    var cs := e.value.contacts;
    NothingKeptBack(cs, r);
    forall c ensures c in Kept(cs, r) <==> c in cs && !Removes(c, r) { KeptIff(cs, r, c); }
    if |Kept(cs, r)| != |cs| { SomeRemoved(cs, r); }
    if Kept(cs, r) != [] { assert Kept(cs, r)[0] in Kept(cs, r); }
    assert cs[0] in cs;
  }

  lemma {:induction false} SomeRemoved(cs: seq<Contact>, r: Removal)
    requires |Kept(cs, r)| != |cs|
    ensures exists c :: c in cs && Removes(c, r)
  {
    hide Removes;
    if Removes(cs[0], r) {
      assert cs[0] in cs;
    } else {
      SomeRemoved(cs[1..], r);
      var c :| c in cs[1..] && Removes(c, r);
      assert c in cs;
    }
  }

  /** A selector with an instance and a reg-id takes the contacts that have both, whatever their URI. */
  lemma RemovalByInstance(m: Store, impu: string, s: Selector, now: int, c: Contact)
    requires s.instanceId != "" && s.regId != ""
    ensures LiveIn(RemoveOne(m, impu, s, now).0, impu, c, now)
            <==> LiveIn(m, impu, c, now) && !(c.instanceId == s.instanceId && c.regId == s.regId)
  {
    RemoveOneTakes(m, impu, s, now, c);
  }

  /** Without one of them it takes those whose URI, extracted, is the selected one. */
  lemma RemovalByUri(m: Store, impu: string, s: Selector, now: int, c: Contact)
    requires s.instanceId == "" || s.regId == ""
    ensures LiveIn(RemoveOne(m, impu, s, now).0, impu, c, now) <==> LiveIn(m, impu, c, now) && s.normalize(c.uri) != s.uri
  {
    RemoveOneTakes(m, impu, s, now, c);
  }

  lemma RemoveOneTakes(m: Store, impu: string, s: Selector, now: int, c: Contact)
    ensures LiveIn(RemoveOne(m, impu, s, now).0, impu, c, now) <==> LiveIn(m, impu, c, now) && !Matches(c, s)
  {
    hide Matches, Removed, Pruned;
    var e, r := Pruned(At(m, impu), now), Removal(s, "", 0, false);
    assert At(Prune(m, impu, now), impu) == e;
    assert At(RemoveOne(m, impu, s, now).0, impu) == Removed(e, r).0;
    PrunedHolds(At(m, impu), now, c);
    RemovedHolds(e, r, c);
  }

  lemma PrunedHolds(e: Option<Binding>, now: int, c: Contact)
    ensures Holds(Pruned(e, now), c) <==> Holds(e, c) && now < c.expires
  {
    if e.Some? { UnexpiredIsSub(e.value.contacts, now, c); }
  }

  lemma RemovedHolds(e: Option<Binding>, r: Removal, c: Contact)
    ensures Holds(Removed(e, r).0, c) <==> Holds(e, c) && !Removes(c, r)
  {
    hide Removes;
    if e.Some? {
      KeptIff(e.value.contacts, r, c);
      NothingKeptBack(e.value.contacts, r);
    }
  }

  /** After a REGISTER that removes one contact an identity with another is registered, and is answered so, until that one expires. */
  lemma RemovalLeavesRegistered(m: Store, impu: string, s: Selector, now: int, x: Contact, y: Contact, later: int, after: Option<string>)
    requires LiveIn(m, impu, x, now) && Matches(x, s) && LiveIn(m, impu, y, later) && !Matches(y, s) && now <= later
    ensures var (n, removed) := RemoveOne(m, impu, s, now);
            && removed
            && Due(n, Event(later, IsRegistered(impu, after))) == Flag(true) == Given(n, Event(later, IsRegistered(impu, after)))
            && impu in n && n[impu].impu == m[impu].impu && n[impu].impi == m[impu].impi && n[impu].scscfUri == m[impu].scscfUri
  {
    hide Matches, Pruned;
    var e, r := Pruned(At(m, impu), now), Removal(s, "", 0, false);
    var n := RemoveOne(m, impu, s, now).0;
    assert At(Prune(m, impu, now), impu) == e;
    EntryAfterRemoval(m, impu, r, now, x, y);
    AnsweredAsRegistered(n, impu, y, later, after);
  }

  /** The entry that pruning leaves for a removal, and the removal then. */
  lemma EntryAfterRemoval(m: Store, impu: string, r: Removal, now: int, x: Contact, y: Contact)
    requires LiveIn(m, impu, x, now) && Removes(x, r) && LiveIn(m, impu, y, now) && !Removes(y, r)
    ensures var (after, removed) := Removed(Pruned(At(m, impu), now), r);
            && removed && after.Some? && y in after.value.contacts && after.value.state == Registered
            && after.value.impu == m[impu].impu && after.value.impi == m[impu].impi && after.value.scscfUri == m[impu].scscfUri
  {
    hide Removes, Removed;
    PrunedHolds(At(m, impu), now, x);
    PrunedHolds(At(m, impu), now, y);
    RemovalLeavesARegisteredBinding(Pruned(At(m, impu), now), r, x, y);
  }

  lemma AnsweredAsRegistered(n: Store, impu: string, y: Contact, later: int, after: Option<string>)
    requires LiveIn(n, impu, y, later) && n[impu].state == Registered
    ensures Due(n, Event(later, IsRegistered(impu, after))) == Flag(true) == Given(n, Event(later, IsRegistered(impu, after)))
  {
    hide Due, Given;
    RegisteredExactly(n, impu, later, after);
    LiveAnswersAreDue(n, impu, y, later, after);
  }

  /** The identities of a batch that a removal takes a contact from. */
  function Takers(m: Store, impus: seq<string>, r: Removal): set<int> {
    set i | 0 <= i < |impus| && Removed(At(m, impus[i]), r).1
  }

  /** A batch removal does to each of its identities what the removal does to it alone, and touches no other. */
  lemma {:induction false} RemoveAllEntries(m: Store, impus: seq<string>, r: Removal, k: string)
    requires Distinct(impus)
    ensures At(RemoveAll(m, impus, r).0, k) == if k in impus then Removed(At(m, k), r).0 else At(m, k)
  {
    hide Removed;
    if impus != [] {
      var init, last := impus[..|impus| - 1], impus[|impus| - 1];
      RemoveAllEntries(m, init, r, k);
      RemoveAllEntries(m, init, r, last);
      LastIsNew(impus, k);
    }
  }

  lemma LastIsNew(impus: seq<string>, k: string)
    requires Distinct(impus) && impus != []
    ensures var init, last := impus[..|impus| - 1], impus[|impus| - 1];
            Distinct(init) && last !in init && (k in impus <==> k in init || k == last)
  {
    assert impus == impus[..|impus| - 1] + [impus[|impus| - 1]];
  }

  lemma OneMoreTaker(m: Store, impus: seq<string>, r: Removal)
    requires impus != []
    ensures |Takers(m, impus, r)| == |Takers(m, impus[..|impus| - 1], r)| + if Removed(At(m, impus[|impus| - 1]), r).1 then 1 else 0
  {
    hide Removed, At;
    var init, last := impus[..|impus| - 1], |impus| - 1;
    if Removed(At(m, impus[last]), r).1 {
      assert Takers(m, impus, r) == Takers(m, init, r) + {last};
    } else {
      assert Takers(m, impus, r) == Takers(m, init, r);
    }
  }

  /** It counts the identities it took from. */
  lemma {:induction false} RemoveAllCounts(m: Store, impus: seq<string>, r: Removal)
    requires Distinct(impus)
    ensures RemoveAll(m, impus, r).1 == |Takers(m, impus, r)|
  {
    hide Removed, Takers, Distinct, At;
    if impus == [] {
      NoTakers(m, r);
    } else {
      var init, last := impus[..|impus| - 1], impus[|impus| - 1];
      LastIsNew(impus, last);
      RemoveAllCounts(m, init, r);
      OneMoreTaker(m, impus, r);
      RemoveAllEntries(m, init, r, last);
    }
  }

  lemma NoTakers(m: Store, r: Removal)
    ensures Takers(m, [], r) == {}
  {
  }

  lemma BatchRemovalLeavesRegistered(m: Store, impus: seq<string>, r: Removal, now: int, impu: string, x: Contact, y: Contact, later: int, after: Option<string>)
    requires Distinct(impus) && impu in impus && now <= later
    requires LiveIn(m, impu, x, now) && Removes(x, r) && LiveIn(m, impu, y, later) && !Removes(y, r)
    ensures var (n, removed) := RemoveBatch(m, impus, r, now);
            && removed > 0
            && Due(n, Event(later, IsRegistered(impu, after))) == Flag(true) == Given(n, Event(later, IsRegistered(impu, after)))
            && impu in n && n[impu].impu == m[impu].impu && n[impu].impi == m[impu].impi && n[impu].scscfUri == m[impu].scscfUri
  {
    hide Removes, Removed, Pruned, RemoveAll, Distinct;
    var p := PruneAll(m, impus, now);
    assert At(p, impu) == Pruned(At(m, impu), now);
    RemoveAllEntries(p, impus, r, impu);
    RemoveAllCounts(p, impus, r);
    EntryAfterRemoval(m, impu, r, now, x, y);
    var i :| 0 <= i < |impus| && impus[i] == impu;
    assert i in Takers(p, impus, r);
    var n := RemoveBatch(m, impus, r, now).0;
    assert At(n, impu) == Removed(At(p, impu), r).0;
    AnsweredAsRegistered(n, impu, y, later, after);
  }

  // ---------- Upserts ----------

  /** Some unexpired contact that the update selects is a newer one of the same dialog. */
  predicate IsStale(cs: seq<Contact>, u: Update) {
    u.rejectOlderCseq && exists c | c in cs :: Matches(c, u.selector) && c.callId == u.contact.callId && u.contact.cseq < c.cseq
  }

  /** A contact not selected before is added at the end. */
  lemma UpsertAdds(e: Option<Binding>, impu: string, u: Update)
    requires !u.requireExistingMatch && (e.Some? ==> forall c | c in e.value.contacts :: !Matches(c, u.selector))
    ensures var before := if e.Some? then e.value.contacts else [];
            Upserted(e, impu, u).1 && Upserted(e, impu, u).0.Some? && Upserted(e, impu, u).0.value.contacts == before + [u.contact]
  {
  }

  /** One selected takes the place of the first such contact, unless that is a newer one of its dialog, which then stays. */
  lemma UpsertReplaces(e: Option<Binding>, impu: string, u: Update, i: nat)
    requires e.Some? && i < |e.value.contacts| && Matches(e.value.contacts[i], u.selector)
    requires forall j | 0 <= j < i :: !Matches(e.value.contacts[j], u.selector)
    ensures var cs := e.value.contacts;
            var newer := u.rejectOlderCseq && cs[i].callId == u.contact.callId && u.contact.cseq < cs[i].cseq;
            Upserted(e, impu, u).1 && Upserted(e, impu, u).0.Some?
            && Upserted(e, impu, u).0.value.contacts == if newer then cs else cs[i := u.contact]
  {
    assert Rewritten(e, impu, u).contacts == e.value.contacts;
  }

  /** The binding's own fields after an upsert that is accepted: its name stays, the others are the update's unless that leaves them empty. */
  lemma UpsertWrites(e: Option<Binding>, impu: string, u: Update)
    requires Upserted(e, impu, u).1
    ensures var b := Upserted(e, impu, u).0;
            && b.Some? && b.value.state == u.state
            && b.value.impu == (if e.Some? then e.value.impu else impu)
            && b.value.impi == (if u.impi == "" && e.Some? then e.value.impi else u.impi)
            && b.value.scscfUri == (if u.scscfUri == "" && e.Some? then e.value.scscfUri else u.scscfUri)
  {
  }

  /** A REGISTER that is not overtaken: until its contact expires, lookups find it under the identity, and the state is the one registered. */
  lemma RegisteringShows(m: Store, impu: string, u: Update, now: int, later: int, after: Option<string>)
    requires !u.requireExistingMatch && now <= later < u.contact.expires
    requires !IsStale(Unexpired(if impu in m then m[impu].contacts else [], now), u)
    ensures var n := UpsertOne(m, impu, u, now).0;
            && LiveIn(n, impu, u.contact, later)
            && Given(n, Event(later, IsRegistered(impu, after))) == Flag(u.state == Registered)
  {
    hide Given, Due, Pruned, Upserted, Matches;
    var e := Pruned(At(m, impu), now);
    var n := UpsertOne(m, impu, u, now).0;
    assert At(Prune(m, impu, now), impu) == e;
    assert At(n, impu) == Upserted(e, impu, u).0;
    ContactIsStored(e, impu, u, if impu in m then m[impu].contacts else [], now, At(m, impu));
    UpsertWrites(e, impu, u);
    RegisteredExactly(n, impu, later, after);
    LiveAnswersAreDue(n, impu, u.contact, later, after);
  }

  lemma ContactIsStored(e: Option<Binding>, impu: string, u: Update, cs: seq<Contact>, now: int, before: Option<Binding>)
    requires !u.requireExistingMatch && e == Pruned(before, now) && cs == (if before.Some? then before.value.contacts else [])
    requires !IsStale(Unexpired(cs, now), u)
    ensures Upserted(e, impu, u).1 && Holds(Upserted(e, impu, u).0, u.contact)
  {
    MatchIsAccepted(e, impu, u);
    var ds := Rewritten(e, impu, u).contacts;
    assert ds == Unexpired(cs, now);
    var i := FirstMatch(ds, u.selector);
    if i == |ds| {
      assert (ds + [u.contact])[i] == u.contact;
    } else {
      assert ds[i] in ds && ds[i := u.contact][i] == u.contact;
    }
  }

  /** A batch that is accepted does to each of its identities what a single upsert does to it. */
  lemma BatchIsSingleUpserts(m: Store, impus: seq<string>, u: Update, now: int, i: nat)
    requires Distinct(impus) && i < |impus|
    requires u.requireExistingMatch ==> forall j | 0 <= j < |impus| :: HasLiveMatch(At(m, impus[j]), u.selector, now)
    ensures At(UpsertBatch(m, impus, u, now).0, impus[i]) == At(UpsertOne(m, impus[i], u, now).0, impus[i])
  {
    hide Upserted, HasMatch, HasLiveMatch, Pruned, UpsertAll;
    var p := PruneAll(m, impus, now);
    forall j | 0 <= j < |impus| ensures At(p, impus[j]) == Pruned(At(m, impus[j]), now) { assert impus[j] in impus; }
    if u.requireExistingMatch {
      forall j | 0 <= j < |impus| ensures HasMatch(At(p, impus[j]), u.selector) {
        PrunedHasLiveMatch(At(m, impus[j]), u.selector, now);
        assert HasLiveMatch(At(m, impus[j]), u.selector, now);
      }
    }
    UpsertAllEntries(p, impus, |impus|, u);
    assert impus[..|impus|] == impus;
    assert At(Prune(m, impus[i], now), impus[i]) == Pruned(At(m, impus[i]), now);
  }

  // ---------- Whole bindings ----------

  /** Storing puts a binding under its own name, removing bindings takes those named; a purge takes the bindings without an unexpired contact. */
  lemma WholeBindings(m: Store, b: Binding, impus: seq<string>, now: int, k: string)
    ensures At(Step(m, Event(now, Op.Store(b))), k) == if k == b.impu then Some(b) else At(m, k)
    ensures At(Step(m, Event(now, Op.RemoveBindings(impus))), k) == if k in impus then None else At(m, k)
    ensures k in Step(m, Event(now, Purge)) <==> exists c :: LiveIn(m, k, c, now)
  {
    LookupIsDueExactly(m, k, now, None);
  }
}
