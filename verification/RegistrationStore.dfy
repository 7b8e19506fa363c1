// The in-memory registration store: contact lists per public identity, lazy
// expiry against timer-driven purging, CSeq ordering and batches.

module RegistrationStore {
  import opened Options

  datatype Contact = Contact(uri: string, instanceId: string, regId: string, path: string, expires: int, callId: string, cseq: nat)

  datatype Registration = Registered | Unregistered | NotRegistered

  datatype Binding = Binding(impu: string, impi: string, scscfUri: string, contacts: seq<Contact>, state: Registration)

  /** normalize stands for the extraction of the URI from a Contact header. */
  datatype Selector = Selector(normalize: string -> string, uri: string, instanceId: string, regId: string)

  /** What an upsert writes and under which conditions. */
  datatype Update = Update(
    selector: Selector, contact: Contact, impi: string, scscfUri: string, state: Registration,
    requireExistingMatch: bool, rejectOlderCseq: bool)

  datatype Removal = Removal(selector: Selector, callId: string, cseq: nat, rejectOlderCseq: bool)

  type Store = map<string, Binding>

  predicate Matches(c: Contact, s: Selector) {
    if s.instanceId != "" && s.regId != "" then c.instanceId == s.instanceId && c.regId == s.regId
    else s.normalize(c.uri) == s.uri
  }

  // ---------- One entry ----------

  function Unexpired(cs: seq<Contact>, now: int): seq<Contact> {
    if cs == [] then []
    else (if cs[0].expires <= now then [] else [cs[0]]) + Unexpired(cs[1..], now)
  }

  /** Expired contacts go, and a binding without contacts goes with them. */
  function Pruned(e: Option<Binding>, now: int): Option<Binding> {
    if e.None? then None
    else
      var cs := Unexpired(e.value.contacts, now);
      if cs == [] then None else Some(e.value.(contacts := cs))
  }

  /** The index of the first match, or the length. */
  function FirstMatch(cs: seq<Contact>, s: Selector): (i: nat)
    ensures i <= |cs|
    ensures i < |cs| ==> Matches(cs[i], s)
    ensures forall j | 0 <= j < i :: !Matches(cs[j], s)
  {
    if cs == [] || Matches(cs[0], s) then 0 else 1 + FirstMatch(cs[1..], s)
  }

  predicate HasMatch(e: Option<Binding>, s: Selector) {
    e.Some? && FirstMatch(e.value.contacts, s) < |e.value.contacts|
  }

  /** The binding's own fields are written before the match is looked for. */
  function Rewritten(e: Option<Binding>, impu: string, u: Update): Binding {
    var b := if e.Some? then e.value else Binding(impu, u.impi, u.scscfUri, [], u.state);
    b.(impi := if u.impi != "" then u.impi else b.impi,
       scscfUri := if u.scscfUri != "" then u.scscfUri else b.scscfUri,
       state := u.state)
  }

  function Upserted(e: Option<Binding>, impu: string, u: Update): (Option<Binding>, bool) {
    if e.None? && u.requireExistingMatch then (e, false)
    else
      var b := Rewritten(e, impu, u);
      var i := FirstMatch(b.contacts, u.selector);
      if i == |b.contacts| then
        if u.requireExistingMatch then (Some(b), false) else (Some(b.(contacts := b.contacts + [u.contact])), true)
      else if u.rejectOlderCseq && b.contacts[i].callId == u.contact.callId && u.contact.cseq < b.contacts[i].cseq then (Some(b), true)
      else (Some(b.(contacts := b.contacts[i := u.contact])), true)
  }

  predicate Removes(c: Contact, r: Removal) {
    Matches(c, r.selector) && !(r.rejectOlderCseq && c.callId == r.callId && r.cseq < c.cseq)
  }

  function Kept(cs: seq<Contact>, r: Removal): seq<Contact> {
    if cs == [] then []
    else (if Removes(cs[0], r) then [] else [cs[0]]) + Kept(cs[1..], r)
  }

  function Removed(e: Option<Binding>, r: Removal): (Option<Binding>, bool) {
    if e.None? then (None, false)
    else
      var cs := Kept(e.value.contacts, r);
      if |cs| == |e.value.contacts| then (e, false)
      else if cs == [] then (None, true)
      else (Some(e.value.(contacts := cs, state := Registered)), true)
  }

  // ---------- The store ----------

  function At(m: Store, impu: string): Option<Binding> {
    if impu in m then Some(m[impu]) else None
  }

  function Put(m: Store, impu: string, e: Option<Binding>): (r: Store)
    ensures forall k :: At(r, k) == if k == impu then e else At(m, k)
  {
    if e.Some? then m[impu := e.value] else m - {impu}
  }

  function Prune(m: Store, impu: string, now: int): (r: Store)
    ensures forall k :: At(r, k) == if k == impu then Pruned(At(m, k), now) else At(m, k)
  {
    Put(m, impu, Pruned(At(m, impu), now))
  }

  function PruneAll(m: Store, impus: seq<string>, now: int): (r: Store)
    ensures forall k :: At(r, k) == if k in impus then Pruned(At(m, k), now) else At(m, k)
  {
    if impus == [] then m
    else
      PrunedTwice(At(m, impus[|impus| - 1]), now, now);
      Prune(PruneAll(m, impus[..|impus| - 1], now), impus[|impus| - 1], now)
  }

  function Purged(m: Store, now: int): (r: Store)
    ensures forall k :: At(r, k) == Pruned(At(m, k), now)
  {
    map k | k in m && Pruned(Some(m[k]), now).Some? :: Pruned(Some(m[k]), now).value
  }

  /** The loop of upsertContacts over the identities, in the order the set yields them; it stops at a refusal. */
  function UpsertAll(m: Store, impus: seq<string>, u: Update): (Store, bool)
  {
    if impus == [] then (m, true)
    else
      var (n, ok) := UpsertAll(m, impus[..|impus| - 1], u);
      if !ok then (n, false)
      else
        var impu := impus[|impus| - 1];
        var (e, done) := Upserted(At(n, impu), impu, u);
        (Put(n, impu, e), done)
  }

  predicate AllMatch(m: Store, impus: seq<string>, s: Selector) {
    forall i | 0 <= i < |impus| :: HasMatch(At(m, impus[i]), s)
  }

  function UpsertBatch(m: Store, impus: seq<string>, u: Update, now: int): (Store, nat) {
    var pruned := PruneAll(m, impus, now);
    if u.requireExistingMatch && !AllMatch(pruned, impus, u.selector) then (pruned, 0)
    else
      var (n, ok) := UpsertAll(pruned, impus, u);
      (n, if ok then |impus| else 0)
  }

  function RemoveAll(m: Store, impus: seq<string>, r: Removal): (Store, nat) {
    if impus == [] then (m, 0)
    else
      var (n, count) := RemoveAll(m, impus[..|impus| - 1], r);
      var impu := impus[|impus| - 1];
      var (e, removed) := Removed(At(n, impu), r);
      (Put(n, impu, e), if removed then count + 1 else count)
  }

  function RemoveBatch(m: Store, impus: seq<string>, r: Removal, now: int): (Store, nat) {
    RemoveAll(PruneAll(m, impus, now), impus, r)
  }

  /** An erase answers with the entry that the hash order puts behind the erased one, here any entry left or none. */
  function Behind(m: Store, after: Option<string>): Option<string> {
    if after.Some? && after.value in m then after else None
  }

  /** Where pruneExpiredLocked leaves its caller. */
  function Iterator(m: Store, impu: string, now: int, after: Option<string>): (it: Option<string>)
    ensures it.Some? ==> it.value in Prune(m, impu, now)
  {
    assert Pruned(At(m, impu), now) == At(Prune(m, impu, now), impu);
    if impu !in m then None
    else if Pruned(At(m, impu), now).Some? then Some(impu)
    else Behind(Prune(m, impu, now), after)
  }

  function LookedUp(m: Store, impu: string, now: int, after: Option<string>): Option<Binding> {
    var it := Iterator(m, impu, now, after);
    if it.None? then None else Some(Prune(m, impu, now)[it.value])
  }

  predicate CountsAsRegistered(e: Option<Binding>) {
    e.Some? && e.value.state.Registered? && e.value.contacts != []
  }

  function UpsertOne(m: Store, impu: string, u: Update, now: int): (Store, bool) {
    var pruned := Prune(m, impu, now);
    var (e, done) := Upserted(At(pruned, impu), impu, u);
    (Put(pruned, impu, e), done)
  }

  function RemoveOne(m: Store, impu: string, s: Selector, now: int): (Store, bool) {
    var pruned := Prune(m, impu, now);
    var (e, removed) := Removed(At(pruned, impu), Removal(s, "", 0, false));
    (Put(pruned, impu, e), removed)
  }

  // ---------- Expiry ----------

  lemma {:induction false} UnexpiredTwice(cs: seq<Contact>, t: int, now: int)
    requires t <= now
    ensures Unexpired(Unexpired(cs, t), now) == Unexpired(cs, now)
  {
    if cs != [] {
      UnexpiredTwice(cs[1..], t, now);
      var rest := Unexpired(cs[1..], t);
      if cs[0].expires > t { assert ([cs[0]] + rest)[1..] == rest; }
      else { assert [] + rest == rest; }
    }
  }

  /** Pruning early and again later is pruning later. */
  lemma PrunedTwice(e: Option<Binding>, t: int, now: int)
    requires t <= now
    ensures Pruned(Pruned(e, t), now) == Pruned(e, now)
  {
    if e.Some? { UnexpiredTwice(e.value.contacts, t, now); }
  }

  function ExpiredOf(b: Binding, now: int): int {
    |b.contacts| - |Unexpired(b.contacts, now)|
  }

  /** The number of expired contacts in the bindings of some identities. */
  ghost function ExpiredIn(m: Store, keys: set<string>, now: int): int
    requires keys <= m.Keys
    decreases |keys|
  {
    if keys == {} then 0
    else
      var k :| k in keys;
      ExpiredOf(m[k], now) + ExpiredIn(m, keys - {k}, now)
  }

  /** In whatever order they are counted. */
  lemma {:induction false} ExpiredSplits(m: Store, keys: set<string>, now: int, k: string)
    requires keys <= m.Keys && k in keys
    ensures ExpiredIn(m, keys, now) == ExpiredOf(m[k], now) + ExpiredIn(m, keys - {k}, now)
    decreases |keys|
  {
    hide ExpiredOf;
    var j :| j in keys && ExpiredIn(m, keys, now) == ExpiredOf(m[j], now) + ExpiredIn(m, keys - {j}, now);
    if j != k {
      ExpiredSplits(m, keys - {j}, now, k);
      ExpiredSplits(m, keys - {k}, now, j);
      assert keys - {j} - {k} == keys - {k} - {j};
    }
  }

  function Members(impus: seq<string>): set<string> {
    set k | k in impus
  }

  lemma NoMembers()
    ensures Members([]) == {}
  {
  }

  lemma OneMoreMember(keys: set<string>, impus: seq<string>, i: nat)
    requires i < |impus|
    ensures Members(impus[..i + 1]) == Members(impus[..i]) + {impus[i]}
    ensures keys * Members(impus[..i + 1])
         == (if impus[i] in keys && impus[i] !in Members(impus[..i]) then keys * Members(impus[..i]) + {impus[i]} else keys * Members(impus[..i]))
  {
    assert impus[..i + 1] == impus[..i] + [impus[i]];
  }

  // ---------- The class ----------

  class MemoryRegistrationStore {
    var bindings: Store

    constructor ()
      ensures bindings == map[]
    {
      bindings := map[];
    }

    /** The iterator is given by the key it stands on; None is end(). Erasing hands back the entry behind the erased one. */
    method PruneExpiredLocked(impu: string, now: int, after: Option<string>) returns (it: Option<string>)
      modifies this
      ensures bindings == Prune(old(bindings), impu, now)
      ensures it == Iterator(old(bindings), impu, now, after)
    {
      if impu !in bindings {
        assert bindings == Put(bindings, impu, None);
        return None;
      }
      var contacts := Unexpired(bindings[impu].contacts, now);
      bindings := bindings[impu := bindings[impu].(contacts := contacts)];
      if contacts == [] {
        bindings := bindings - {impu};
        return Behind(bindings, after);
      }
      return Some(impu);
    }

    method Lookup(impu: string, now: int, after: Option<string>) returns (found: Option<Binding>)
      modifies this
      ensures bindings == Prune(old(bindings), impu, now)
      ensures found == LookedUp(old(bindings), impu, now, after)
    {
      var it := PruneExpiredLocked(impu, now, after);
      return if it.None? then None else Some(bindings[it.value]);
    }

    method UpsertContactLocked(impu: string, u: Update) returns (done: bool)
      modifies this
      ensures (At(bindings, impu), done) == Upserted(At(old(bindings), impu), impu, u)
      ensures bindings == Put(old(bindings), impu, At(bindings, impu))
    {
      if impu !in bindings {
        if u.requireExistingMatch {
          assert bindings == Put(bindings, impu, None);
          return false;
        }
        bindings := bindings[impu := Binding(impu, u.impi, u.scscfUri, [], u.state)];
      }
      var binding := bindings[impu];
      if u.impi != "" { binding := binding.(impi := u.impi); }
      if u.scscfUri != "" { binding := binding.(scscfUri := u.scscfUri); }
      binding := binding.(state := u.state);

      var existing := FirstMatch(binding.contacts, u.selector);
      if existing == |binding.contacts| {
        if u.requireExistingMatch {
          bindings := bindings[impu := binding];
          return false;
        }
        bindings := bindings[impu := binding.(contacts := binding.contacts + [u.contact])];
        return true;
      }
      if u.rejectOlderCseq && binding.contacts[existing].callId == u.contact.callId && u.contact.cseq < binding.contacts[existing].cseq {
        bindings := bindings[impu := binding];
        return true;
      }
      bindings := bindings[impu := binding.(contacts := binding.contacts[existing := u.contact])];
      return true;
    }

    method RemoveContactLocked(impu: string, r: Removal) returns (removed: bool)
      modifies this
      ensures (At(bindings, impu), removed) == Removed(At(old(bindings), impu), r)
      ensures bindings == Put(old(bindings), impu, At(bindings, impu))
    {
      if impu !in bindings {
        assert bindings == Put(bindings, impu, None);
        return false;
      }
      var old_size := |bindings[impu].contacts|;
      var contacts := Kept(bindings[impu].contacts, r);
      if old_size == |contacts| {
        return false;
      }
      bindings := bindings[impu := bindings[impu].(contacts := contacts)];
      if contacts == [] {
        bindings := bindings - {impu};
      } else {
        bindings := bindings[impu := bindings[impu].(state := Registered)];
      }
      return true;
    }

    method PruneEach(impus: seq<string>, now: int)
      modifies this
      ensures bindings == PruneAll(old(bindings), impus, now)
    {
      for i := 0 to |impus|
        invariant bindings == PruneAll(old(bindings), impus[..i], now)
      {
        assert impus[..i + 1][..i] == impus[..i];
        var it := PruneExpiredLocked(impus[i], now, None);
      }
      assert impus[..|impus|] == impus;
    }

    /** The first loop of upsertContacts. */
    method EachHasMatch(impus: seq<string>, s: Selector) returns (all: bool)
      ensures all == AllMatch(bindings, impus, s)
    {
      for i := 0 to |impus|
        invariant forall j | 0 <= j < i :: HasMatch(At(bindings, impus[j]), s)
      {
        if impus[i] !in bindings {
          return false;
        }
        if FirstMatch(bindings[impus[i]].contacts, s) == |bindings[impus[i]].contacts| {
          return false;
        }
      }
      return true;
    }

    /** impus is the set of the batch in the order it is walked. */
    method UpsertContacts(impus: seq<string>, u: Update, now: int) returns (changed: nat)
      modifies this
      ensures (bindings, changed) == UpsertBatch(old(bindings), impus, u, now)
    {
      hide Upserted, AllMatch;
      PruneEach(impus, now);
      ghost var pruned := bindings;
      if u.requireExistingMatch {
        var all := EachHasMatch(impus, u.selector);
        if !all {
          return 0;
        }
      }
      changed := 0;
      for i := 0 to |impus|
        invariant changed == i && (bindings, true) == UpsertAll(pruned, impus[..i], u)
      {
        assert impus[..i + 1][..i] == impus[..i];
        var done := UpsertContactLocked(impus[i], u);
        if !done {
          RefusalStops(pruned, impus, i + 1, u);
          return 0;
        }
        changed := changed + 1;
      }
      assert impus[..|impus|] == impus;
    }

    method RemoveContacts(impus: seq<string>, r: Removal, now: int) returns (removed: nat)
      modifies this
      ensures (bindings, removed) == RemoveBatch(old(bindings), impus, r, now)
    {
      PruneEach(impus, now);
      ghost var pruned := bindings;
      removed := 0;
      for i := 0 to |impus|
        invariant (bindings, removed) == RemoveAll(pruned, impus[..i], r)
      {
        assert impus[..i + 1][..i] == impus[..i];
        var done := RemoveContactLocked(impus[i], r);
        if done { removed := removed + 1; }
      }
      assert impus[..|impus|] == impus;
    }

    /** Purge every binding while iterating. */
    method PurgeExpired(now: int) returns (removed: int)
      modifies this
      ensures bindings == Purged(old(bindings), now)
      ensures removed == ExpiredIn(old(bindings), old(bindings).Keys, now)
    {
      removed := 0;
      var rest := bindings.Keys;
      while rest != {}
        invariant rest <= bindings.Keys && rest <= old(bindings).Keys
        invariant removed + ExpiredIn(old(bindings), rest, now) == ExpiredIn(old(bindings), old(bindings).Keys, now)
        invariant forall k :: At(bindings, k) == if k in rest then At(old(bindings), k) else Pruned(At(old(bindings), k), now)
        decreases rest
      {
        var k :| k in rest;
        ExpiredSplits(old(bindings), rest, now, k);
        assert At(bindings, k) == At(old(bindings), k);
        rest := rest - {k};
        var contacts := Unexpired(bindings[k].contacts, now);
        removed := removed + |bindings[k].contacts| - |contacts|;
        if contacts == [] {
          bindings := bindings - {k};
        } else {
          bindings := bindings[k := bindings[k].(contacts := contacts)];
        }
      }
      EqualEntries(bindings, Purged(old(bindings), now));
    }

    method IsRegistered(impu: string, now: int, after: Option<string>) returns (registered: bool)
      modifies this
      ensures bindings == Prune(old(bindings), impu, now)
      ensures registered == CountsAsRegistered(LookedUp(old(bindings), impu, now, after))
    {
      var it := PruneExpiredLocked(impu, now, after);
      if it.None? {
        return false;
      }
      return bindings[it.value].state.Registered? && bindings[it.value].contacts != [];
    }

    method UpsertContact(impu: string, u: Update, now: int) returns (done: bool)
      modifies this
      ensures (bindings, done) == UpsertOne(old(bindings), impu, u, now)
    {
      var it := PruneExpiredLocked(impu, now, None);
      done := UpsertContactLocked(impu, u);
    }

    method RemoveContact(impu: string, s: Selector, now: int) returns (removed: bool)
      modifies this
      ensures (bindings, removed) == RemoveOne(old(bindings), impu, s, now)
    {
      var it := PruneExpiredLocked(impu, now, None);
      removed := RemoveContactLocked(impu, Removal(s, "", 0, false));
    }

    method RemoveBindings(impus: seq<string>) returns (removed: nat)
      modifies this
      ensures bindings == old(bindings) - Members(impus)
      ensures removed == |old(bindings).Keys * Members(impus)|
    {
      hide Members;
      removed := 0;
      NoMembers();
      for i := 0 to |impus|
        invariant bindings == old(bindings) - Members(impus[..i])
        invariant removed == |old(bindings).Keys * Members(impus[..i])|
      {
        OneMoreMember(old(bindings).Keys, impus, i);
        if impus[i] in bindings { removed := removed + 1; }
        bindings := bindings - {impus[i]};
      }
      assert impus[..|impus|] == impus;
    }

    method Store(binding: Binding)
      modifies this
      ensures bindings == old(bindings)[binding.impu := binding]
    {
      bindings := bindings[binding.impu := binding];
    }
  }

  lemma EqualEntries(m: Store, n: Store)
    requires forall k :: At(m, k) == At(n, k)
    ensures m == n
  {
    forall k ensures k in m <==> k in n { assert At(m, k) == At(n, k); }
    forall k | k in m ensures m[k] == n[k] { assert At(m, k) == At(n, k); }
  }

  lemma {:induction false} RefusalStops(m: Store, impus: seq<string>, i: nat, u: Update)
    requires i <= |impus| && !UpsertAll(m, impus[..i], u).1
    ensures UpsertAll(m, impus, u) == UpsertAll(m, impus[..i], u)
  {
    if i < |impus| {
      var init := impus[..|impus| - 1];
      assert init[..i] == impus[..i];
      RefusalStops(m, init, i, u);
    } else {
      assert impus[..i] == impus;
    }
  }
}
