// HSS and S-CSCF together: any number of callers advance the subscribers'
// SQNs, owners of challenges turn the number they were given into a vector,
// and verifiers consume challenges, all interleaved.

module AkaEndToEnd {
  import opened Aes
  import opened Milenage
  import opened SqnText
  import Sqn = SqnAdvance
  import AuthManager
  import T = AkaTables
  import P = AkaProvider

  /** The scheme createChallenge asks for, and the HSS answers with. */
  const AKA_SCHEME := "Digest-AKAv1-MD5"

  /** The record multimediaAuth finds: key, operator code, AMF and the stored SQN at the start of the run. */
  datatype Subscriber = Subscriber(k: Block, opc: Block, amf: seq<bv8>, sqn0: nat)

  /** The subscribers, the normalization of identities, and which subscriber is found for a private and a normalized public identity. */
  datatype Directory = Directory(subscribers: seq<Subscriber>, normalize: string -> string, find: (string, string) -> nat)

  /** multimediaAuth normalizes the public identity before it looks. */
  function OwnerOf(d: Directory, impi: string, impu: string): nat {
    d.find(impi, d.normalize(impu))
  }

  /** Identities without a subscriber end in a MAR error, and are no part of the directory. */
  ghost predicate ValidDirectory(d: Directory) {
    && (forall impi: string, impu: string :: d.find(impi, impu) < |d.subscribers|)
    && (forall i | 0 <= i < |d.subscribers| :: |d.subscribers[i].amf| == 2)
  }

  /** The vector multimediaAuth answers with for the SQN it was given. */
  function BuildVector(sub: Subscriber, sqn: nat, rand: Block): T.AuthVector
    requires |sub.amf| == 2
  {
    var v := VectorOf(KernelOf(sub.k), sub.opc, SqnBytes(sqn), sub.amf, rand);
    T.AuthVector(rand, v.autn, v.xres)
  }

  /** Where an issued vector came from: the subscriber, and the advance it was built from. */
  datatype Origin = Origin(sub: nat, index: nat)

  datatype System = System(provider: P.State, hss: seq<Sqn.State>, origins: seq<Origin>)

  datatype Event =
    | Hss(sub: nat, advance: Sqn.Event)
    | Mar(t: nat, rand: Block, now: int)
    | Provider(step: P.Event)

  predicate Enabled(d: Directory, s: System, e: Event)
    requires |s.hss| == |d.subscribers|
  {
    match e
    case Hss(sub, _) => sub < |s.hss|
    case Mar(t, _, _) =>
      && t in s.provider.threads && s.provider.threads[t].Owner?
      && var sub := OwnerOf(d, s.provider.threads[t].impi, s.provider.threads[t].impu);
         sub < |s.hss| && |d.subscribers[sub].amf| == 2 && t in s.hss[sub].callers && s.hss[sub].callers[t].Returned?
    case Provider(step) => !step.MarOk? && P.Enabled(s.provider, step)
  }

  /** The provider's step for the answer to t's MAR. */
  function MarStep(d: Directory, s: System, t: nat, rand: Block, now: int): P.Event
    requires |s.hss| == |d.subscribers| && Enabled(d, s, Mar(t, rand, now))
  {
    var sub := OwnerOf(d, s.provider.threads[t].impi, s.provider.threads[t].impu);
    P.MarOk(t, BuildVector(d.subscribers[sub], s.hss[sub].callers[t].sqn, rand), AKA_SCHEME, now)
  }

  function Next(d: Directory, s: System, e: Event): (r: System)
    requires |s.hss| == |d.subscribers| && Enabled(d, s, e)
    ensures |r.hss| == |d.subscribers|
  {
    match e
    case Hss(sub, step) => s.(hss := s.hss[sub := Sqn.Next(s.hss[sub], step)])
    case Mar(t, rand, now) =>
      var sub := OwnerOf(d, s.provider.threads[t].impi, s.provider.threads[t].impu);
      System(P.Next(s.provider, MarStep(d, s, t, rand, now)), s.hss, s.origins + [Origin(sub, s.hss[sub].callers[t].index)])
    case Provider(step) => s.(provider := P.Next(s.provider, step))
  }

  function Initial(d: Directory): System {
    System(P.Initial(d.normalize), seq(|d.subscribers|, i requires 0 <= i < |d.subscribers| => Sqn.Init(d.subscribers[i].sqn0)), [])
  }

  function Run(d: Directory, es: seq<Event>): (r: System)
    ensures |r.hss| == |d.subscribers|
  {
    if es == [] then Initial(d)
    else
      var p := Run(d, es[..|es| - 1]);
      var e := es[|es| - 1];
      if Enabled(d, p, e) then Next(d, p, e) else p
  }

  ghost predicate HssInv(d: Directory, s: System) {
    |s.hss| == |d.subscribers| && forall i | 0 <= i < |s.hss| :: Sqn.Inv(d.subscribers[i].sqn0, s.hss[i])
  }

  /** Issue i was built from the advance its origin names; only its owner was ever given that advance, and the owner is past its MAR. */
  ghost predicate OriginInv(d: Directory, s: System, i: nat)
    requires |s.hss| == |d.subscribers| && ValidDirectory(d)
    requires i < |s.origins| == |s.provider.issued|
  {
    var o, issue := s.origins[i], s.provider.issued[i];
    && o.sub == OwnerOf(d, issue.impi, issue.impu) && o.index < |s.hss[o.sub].commits|
    && |issue.vector.rand| == 16 && issue.scheme == AKA_SCHEME
    && issue.vector == BuildVector(d.subscribers[o.sub], s.hss[o.sub].commits[o.index], issue.vector.rand)
    && issue.owner in s.provider.threads
    && !s.provider.threads[issue.owner].Challenging? && !s.provider.threads[issue.owner].Owner?
    && (forall c | c in s.hss[o.sub].callers && s.hss[o.sub].callers[c].Returned? && s.hss[o.sub].callers[c].index == o.index :: c == issue.owner)
  }

  ghost predicate Inv(d: Directory, s: System)
    requires ValidDirectory(d)
  {
    && HssInv(d, s)
    && P.Inv(s.provider) && s.provider.normalize == d.normalize
    && |s.origins| == |s.provider.issued|
    && (forall i | 0 <= i < |s.origins| :: OriginInv(d, s, i))
    && (forall i, j | 0 <= i < j < |s.origins| && s.origins[i].sub == s.origins[j].sub :: s.origins[i].index != s.origins[j].index)
  }

  lemma HssKeepsInv(d: Directory, s: System, sub: nat, step: Sqn.Event)
    requires ValidDirectory(d) && Inv(d, s) && sub < |s.hss|
    ensures Inv(d, Next(d, s, Hss(sub, step)))
  {
    hide BuildVector, P.Inv, Sqn.Inv;
    var s' := Next(d, s, Hss(sub, step));
    Sqn.NextKeepsInv(d.subscribers[sub].sqn0, s.hss[sub], step);
    CommitsGrow(s.hss[sub], step);
    forall i | 0 <= i < |s'.origins| ensures OriginInv(d, s', i) {
      assert OriginInv(d, s, i);
    }
  }

  /** A step of the HSS leaves earlier commits in place, and hands a new number to nobody but its caller. */
  lemma CommitsGrow(h: Sqn.State, step: Sqn.Event)
    ensures var h' := Sqn.Next(h, step);
            && h.commits <= h'.commits
            && (forall c | c in h'.callers && h'.callers[c].Returned? :: h'.callers[c].index >= |h.commits| || (c in h.callers && h.callers[c] == h'.callers[c]))
  {
    hide Sqn.NextSqn;
  }

  lemma MarKeepsInv(d: Directory, s: System, t: nat, rand: Block, now: int)
    requires ValidDirectory(d) && Inv(d, s) && Enabled(d, s, Mar(t, rand, now))
    ensures Inv(d, Next(d, s, Mar(t, rand, now)))
  {
    hide VectorOf, KernelOf, SqnBytes, P.Inv;
    var s' := Next(d, s, Mar(t, rand, now));
    var step := MarStep(d, s, t, rand, now);
    ProviderStepKeepsInv(s.provider, step);
    var n, sub := |s.origins|, OwnerOf(d, s.provider.threads[t].impi, s.provider.threads[t].impu);
    assert Sqn.Inv(d.subscribers[sub].sqn0, s.hss[sub]);
    assert Sqn.CallerInv(s.hss[sub], s.hss[sub].callers[t]);
    forall i | 0 <= i < n ensures OriginInv(d, s', i) && (s.origins[i].sub == sub ==> s.origins[i].index != s'.origins[n].index) {
      assert OriginInv(d, s, i);
    }
    assert OriginInv(d, s', n);
  }

  lemma ProviderStepKeepsInv(p: P.State, step: P.Event)
    requires P.Inv(p) && P.Enabled(p, step)
    ensures P.Inv(P.Next(p, step)) && P.Next(p, step).normalize == p.normalize
  {
    hide P.NoncesInv, P.NamesInv, P.InFlightInv, P.FuturesInv, P.VectorsInv, P.Next;
    P.NextKeepsInFlight(p, step);
    P.NextKeepsFutures(p, step);
    P.NextKeepsVectors(p, step);
    P.NextKeepsNames(p, step);
    if step.CheckResponse? { P.CheckKeepsNonces(p, step); } else { P.OtherKeepsNonces(p, step); }
  }

  lemma ProviderKeepsInv(d: Directory, s: System, step: P.Event)
    requires ValidDirectory(d) && Inv(d, s) && Enabled(d, s, Provider(step))
    ensures Inv(d, Next(d, s, Provider(step)))
  {
    hide BuildVector, P.Inv, Sqn.Inv;
    var s' := Next(d, s, Provider(step));
    ProviderStepKeepsInv(s.provider, step);
    forall i | 0 <= i < |s'.origins| ensures OriginInv(d, s', i) {
      assert OriginInv(d, s, i);
    }
  }

  lemma {:induction false} RunKeepsInv(d: Directory, es: seq<Event>)
    requires ValidDirectory(d)
    ensures Inv(d, Run(d, es))
  {
    if es != [] {
      hide Inv, Next;
      var p, e := Run(d, es[..|es| - 1]), es[|es| - 1];
      RunKeepsInv(d, es[..|es| - 1]);
      if Enabled(d, p, e) {
        match e
        case Hss(sub, step) => HssKeepsInv(d, p, sub, step);
        case Mar(t, rand, now) => MarKeepsInv(d, p, t, rand, now);
        case Provider(step) => ProviderKeepsInv(d, p, step);
      }
    }
  }

  /** Two vectors of one subscriber that agree in RAND and AUTN were built from the same SQN. */
  lemma EqualVectorsEqualSqns(sub: Subscriber, x: nat, y: nat, rand: Block)
    requires |sub.amf| == 2
    ensures BuildVector(sub, x, rand).autn == BuildVector(sub, y, rand).autn <==> x % Sqn.TWO48 == y % Sqn.TWO48
  {
    hide VectorOf, KernelOf, SqnBytes;
    RandAndAutnDetermineSqn(KernelOf(sub.k), sub.opc, SqnBytes(x), sub.amf, SqnBytes(y), sub.amf, rand);
    SqnTextRoundTrips(x, y, []);
  }

  // ---------- Main results ----------

  /** The SQN of the subscriber has not gone round. */
  predicate WithinPeriod(s: System, sub: nat) {
    sub < |s.hss| && |s.hss[sub].commits| <= Sqn.PERIOD
  }

  predicate SameVector(s: System, i: nat, j: nat) {
    && i < |s.provider.issued| && j < |s.provider.issued|
    && s.provider.issued[i].vector.rand == s.provider.issued[j].vector.rand
    && s.provider.issued[i].vector.autn == s.provider.issued[j].vector.autn
  }

  /** Two challenges issued for one subscriber, under whatever keys, differ in RAND or AUTN. */
  lemma SubscribersChallengesDiffer(d: Directory, s: System, i: nat, j: nat)
    requires ValidDirectory(d) && Inv(d, s) && i < |s.origins| && j < |s.origins|
    requires s.origins[i].sub == s.origins[j].sub && WithinPeriod(s, s.origins[i].sub)
    ensures SameVector(s, i, j) <==> i == j
  {
    hide BuildVector, P.Inv;
    if i != j && SameVector(s, i, j) {
      assert OriginInv(d, s, i) && OriginInv(d, s, j);
      var issued := s.provider.issued;
      var sub, x, y := s.origins[i].sub, s.origins[i].index, s.origins[j].index;
      var h := s.hss[sub];
      assert x != y;
      assert Sqn.Inv(d.subscribers[sub].sqn0, h);
      Sqn.TermsDiffer(d.subscribers[sub].sqn0, if x < y then x else y, if x < y then y else x);
      EqualVectorsEqualSqns(d.subscribers[sub], h.commits[x], h.commits[y], issued[i].vector.rand);
    }
  }

  /** Use n verified and erased challenges of subscriber sub. */
  predicate UseOf(s: System, n: nat, sub: nat) {
    && n < |s.provider.uses| && s.provider.uses[n].verified < |s.origins| && s.provider.uses[n].erased < |s.origins|
    && s.origins[s.provider.uses[n].verified].sub == sub && s.origins[s.provider.uses[n].erased].sub == sub
  }

  /** A success within one subscriber erases the very challenge it verified. */
  lemma SubscribersUsesAreSound(d: Directory, s: System, n: nat, sub: nat)
    requires ValidDirectory(d) && Inv(d, s) && UseOf(s, n, sub) && WithinPeriod(s, sub)
    ensures s.provider.uses[n].verified == s.provider.uses[n].erased
  {
    hide OriginInv, HssInv;
    var u := s.provider.uses[n];
    assert P.UseInv(s.provider.issued, u);
    SubscribersChallengesDiffer(d, s, u.verified, u.erased);
  }

  lemma BytesDiffer(x: bv8, y: bv8)
    requires x as int == y as int
    ensures x == y
  {
    assert (x as int) as bv8 == x;
    assert (y as int) as bv8 == y;
  }

  lemma BytesAreInjective(a: seq<bv8>, b: seq<bv8>)
    ensures P.BytesOf(a) == P.BytesOf(b) <==> a == b
  {
    if P.BytesOf(a) == P.BytesOf(b) {
      forall i | 0 <= i < |a| ensures a[i] == b[i] {
        assert P.BytesOf(a)[i] == P.BytesOf(b)[i];
        BytesDiffer(a[i], b[i]);
      }
    }
  }

  lemma OneNonceOneVector(v: T.AuthVector, w: T.AuthVector, nonce: string)
    requires |v.rand| == |w.rand| == 16 && |v.autn| == |w.autn| == 16
    requires P.Accepts(v, AKA_SCHEME, nonce) && P.Accepts(w, AKA_SCHEME, nonce)
    ensures v.rand == w.rand && v.autn == w.autn
  {
    hide P.BytesOf, AuthManager.Encoded;
    AuthManager.AkaNonceNamesTheVector(P.Material(v), P.Material(w), AKA_SCHEME);
    BytesAreInjective(v.rand, w.rand);
    BytesAreInjective(v.autn, w.autn);
  }

  lemma AutnHasSixteenBytes(sub: Subscriber, sqn: nat, rand: Block)
    requires |sub.amf| == 2
    ensures |BuildVector(sub, sqn, rand).autn| == 16
  {
    hide KernelOf, SqnBytes;
  }

  /** No nonce is accepted in two successes of one subscriber, under whatever Call-IDs. */
  lemma NonceSucceedsOnce(d: Directory, s: System, m: nat, n: nat, sub: nat)
    requires ValidDirectory(d) && Inv(d, s) && UseOf(s, m, sub) && UseOf(s, n, sub) && m != n && WithinPeriod(s, sub)
    ensures s.provider.uses[m].nonce != s.provider.uses[n].nonce
  {
    hide BuildVector, P.UseInv, P.Accepts, P.Used;
    var u, v := s.provider.uses[m], s.provider.uses[n];
    SubscribersUsesAreSound(d, s, m, sub);
    SubscribersUsesAreSound(d, s, n, sub);
    assert u.erased != v.erased;
    assert OriginInv(d, s, u.verified) && OriginInv(d, s, v.verified);
    var a, b := s.provider.issued[u.verified], s.provider.issued[v.verified];
    AutnHasSixteenBytes(d.subscribers[sub], s.hss[sub].commits[s.origins[u.verified].index], a.vector.rand);
    AutnHasSixteenBytes(d.subscribers[sub], s.hss[sub].commits[s.origins[v.verified].index], b.vector.rand);
    if u.nonce == v.nonce {
      OneNonceOneVector(a.vector, b.vector, u.nonce);
      SubscribersChallengesDiffer(d, s, u.verified, v.verified);
    }
  }

  /**
   * End to end, for every interleaving and every normalization of identities: no challenge is erased twice; and
   * for a subscriber whose SQN has advanced at most 2^43 times, no two challenges share RAND and AUTN, a success
   * erases the very challenge it verified, and no nonce is accepted in two successes.
   */
  lemma ChallengesAreFreshAndUsedOnce(d: Directory, es: seq<Event>, sub: nat)
    requires ValidDirectory(d)
    ensures var s := Run(d, es);
            && |s.origins| == |s.provider.issued|
            && (forall m, n | 0 <= m < n < |s.provider.uses| :: s.provider.uses[m].erased != s.provider.uses[n].erased)
            && (WithinPeriod(s, sub) ==>
                  && (forall i, j | 0 <= i < j < |s.origins| && s.origins[i].sub == s.origins[j].sub == sub :: !SameVector(s, i, j))
                  && (forall n: nat | UseOf(s, n, sub) :: s.provider.uses[n].verified == s.provider.uses[n].erased)
                  && (forall m: nat, n: nat | UseOf(s, m, sub) && UseOf(s, n, sub) && m != n :: s.provider.uses[m].nonce != s.provider.uses[n].nonce))
  {
    RunKeepsInv(d, es);
    var s := Run(d, es);
    if WithinPeriod(s, sub) {
      hide SameVector, UseOf;
      forall i, j | 0 <= i < j < |s.origins| && s.origins[i].sub == s.origins[j].sub == sub ensures !SameVector(s, i, j) {
        SubscribersChallengesDiffer(d, s, i, j);
      }
      forall n: nat | UseOf(s, n, sub) ensures n < |s.provider.uses| && s.provider.uses[n].verified == s.provider.uses[n].erased {
        UseIsInRange(s, n, sub);
        SubscribersUsesAreSound(d, s, n, sub);
      }
      forall m: nat, n: nat | UseOf(s, m, sub) && UseOf(s, n, sub) && m != n
        ensures m < |s.provider.uses| && n < |s.provider.uses| && s.provider.uses[m].nonce != s.provider.uses[n].nonce
      {
        UseIsInRange(s, m, sub);
        UseIsInRange(s, n, sub);
        NonceSucceedsOnce(d, s, m, n, sub);
      }
    }
  }

  lemma UseIsInRange(s: System, n: nat, sub: nat)
    requires UseOf(s, n, sub)
    ensures n < |s.provider.uses|
  {
  }

  // ---------- Keys and subscribers ----------

  /** The private identity is in normal form, as createChallenge passes it, and no normalized identity contains the separator. */
  predicate Plain(d: Directory, issue: P.Issue) {
    d.normalize(issue.impi) == issue.impi && T.Free(issue.impi) && T.Free(d.normalize(issue.impu))
  }

  /** Plain challenges with one key concern one subscriber; others need not, see DifferentChallengesCanShareAKey. */
  lemma OneKeyOneSubscriber(d: Directory, s: System, i: nat, j: nat)
    requires ValidDirectory(d) && Inv(d, s) && i < |s.origins| && j < |s.origins|
    requires s.provider.issued[i].key == s.provider.issued[j].key
    requires Plain(d, s.provider.issued[i]) && Plain(d, s.provider.issued[j])
    ensures s.origins[i].sub == s.origins[j].sub
  {
    hide BuildVector, P.NoncesInv, P.InFlightInv, P.FuturesInv, P.VectorsInv;
    var a, b := s.provider.issued[i], s.provider.issued[j];
    assert OriginInv(d, s, i) && OriginInv(d, s, j);
    T.PendingKeyNames(d.normalize, a.callId, a.impi, a.impu, b.callId, b.impi, b.impu);
  }

  /** So a success on a key of plain challenges only erases the very challenge it verified. */
  lemma PlainUsesAreSound(d: Directory, s: System, n: nat)
    requires ValidDirectory(d) && Inv(d, s) && n < |s.provider.uses|
    requires s.provider.uses[n].verified < |s.origins| && s.provider.uses[n].erased < |s.origins|
    requires Plain(d, s.provider.issued[s.provider.uses[n].verified]) && Plain(d, s.provider.issued[s.provider.uses[n].erased])
    requires WithinPeriod(s, s.origins[s.provider.uses[n].verified].sub)
    ensures s.provider.uses[n].verified == s.provider.uses[n].erased
  {
    hide BuildVector, OriginInv, HssInv;
    var u := s.provider.uses[n];
    assert P.UseInv(s.provider.issued, u);
    OneKeyOneSubscriber(d, s, u.verified, u.erased);
    SubscribersUsesAreSound(d, s, n, s.origins[u.verified].sub);
  }
}
