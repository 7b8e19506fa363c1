// The S-CSCF's table of pending AKA challenges: the in-flight owner / waiters
// protocol of createChallenge and the check, verify, compare, erase protocol of
// verifyAuthorization, one atomic step per locked section.

/** The two maps and the locked sections that read and write them. */
module AkaTables {
  import opened Options

  /** 120 seconds, in the clock's unit of milliseconds. */
  const PENDING_TTL: int := 120_000
  const SEPARATOR: string := "\U{1f}"

  datatype AuthVector = AuthVector(rand: seq<bv8>, autn: seq<bv8>, xres: seq<bv8>)

  /** serial numbers the HSS answer the vector came in. The source has no such field and no step reads it:
      it lets properties say which vector was used. */
  datatype PendingAuth = PendingAuth(vector: AuthVector, impi: string, impu: string, scheme: string, expires: int, serial: nat)

  datatype Answer = Ok(auth: PendingAuth) | Err(code: nat)

  /** A shared future is named by the thread that owns its promise. */
  datatype Tables = Tables(pending: map<string, PendingAuth>, inFlight: map<string, nat>)

  datatype Claim = Found(auth: PendingAuth) | Joined(owner: nat) | Owned

  function KeyText(callId: string, impi: string, impu: string): string {
    callId + SEPARATOR + impi + SEPARATOR + impu
  }

  function PendingKey(normalize: string -> string, callId: string, impi: string, impu: string): string {
    KeyText(callId, normalize(impi), normalize(impu))
  }

  predicate Free(x: string) {
    SEPARATOR[0] !in x
  }

  /** x and its last field b, set apart by the separator. */
  lemma LastFieldIsGiven(x: string, b: string, y: string, d: string)
    requires x + SEPARATOR + b == y + SEPARATOR + d && Free(b) && Free(d)
    ensures x == y && b == d
  {
    var s := x + SEPARATOR + b;
    assert s[|x|] == SEPARATOR[0] && s[|y|] == SEPARATOR[0];
    forall i | |x| < i < |s| ensures s[i] != SEPARATOR[0] { assert s[i] == b[i - |x| - 1]; }
    forall i | |y| < i < |s| ensures s[i] != SEPARATOR[0] { assert s[i] == d[i - |y| - 1]; }
    assert x == s[..|x|] && y == s[..|y|];
    assert b == s[|x| + 1..] && d == s[|y| + 1..];
  }

  /** Keys whose normalized identities do not contain the separator name one Call-ID and one pair of normalized identities. */
  lemma PendingKeyNames(normalize: string -> string, callId: string, impi: string, impu: string, callId': string, impi': string, impu': string)
    requires Free(normalize(impi)) && Free(normalize(impu)) && Free(normalize(impi')) && Free(normalize(impu'))
    ensures PendingKey(normalize, callId, impi, impu) == PendingKey(normalize, callId', impi', impu')
            <==> callId == callId' && normalize(impi) == normalize(impi') && normalize(impu) == normalize(impu')
  {
    if PendingKey(normalize, callId, impi, impu) == PendingKey(normalize, callId', impi', impu') {
      LastFieldIsGiven(callId + SEPARATOR + normalize(impi), normalize(impu), callId' + SEPARATOR + normalize(impi'), normalize(impu'));
      LastFieldIsGiven(callId, normalize(impi), callId', normalize(impi'));
    }
  }

  /** No other three parts are joined to the same text. */
  ghost predicate Unambiguous(callId: string, impi: string, impu: string) {
    forall c: string, a: string, b: string :: KeyText(c, a, b) == KeyText(callId, impi, impu) ==> c == callId && a == impi && b == impu
  }

  /** Three parts are told from their join exactly when none of them contains the separator. */
  lemma JoinIsUnambiguousIfFree(callId: string, impi: string, impu: string)
    ensures Unambiguous(callId, impi, impu) <==> Free(callId) && Free(impi) && Free(impu)
  {
    if Free(callId) && Free(impi) && Free(impu) {
      forall c: string, a: string, b: string | KeyText(c, a, b) == KeyText(callId, impi, impu)
        ensures c == callId && a == impi && b == impu
      {
        FreePartsAreGiven(callId, impi, impu, c, a, b);
      }
    }
    if !Free(callId) { SplitAtSeparator(callId); ShiftRight(callId, impi, impu); }
    if !Free(impi) { ShiftLeft(callId, impi, impu); }
    if !Free(impu) { ShiftLast(callId, impi, impu); }
  }

  lemma FreePartsAreGiven(callId: string, impi: string, impu: string, c: string, a: string, b: string)
    requires Free(callId) && Free(impi) && Free(impu) && KeyText(c, a, b) == KeyText(callId, impi, impu)
    ensures c == callId && a == impi && b == impu
  {
    var s := KeyText(callId, impi, impu);
    forall i | 0 <= i < |s| ensures s[i] == SEPARATOR[0] <==> i == |callId| || i == |callId| + 1 + |impi| {
      if i < |callId| { assert s[i] == callId[i]; }
      else if |callId| < i < |callId| + 1 + |impi| { assert s[i] == impi[i - |callId| - 1]; }
      else if i > |callId| + 1 + |impi| { assert s[i] == impu[i - |callId| - |impi| - 2]; }
    }
    assert s[|c|] == SEPARATOR[0] && s[|c| + 1 + |a|] == SEPARATOR[0];
    assert c == s[..|c|] && callId == s[..|callId|];
    assert a == s[|c| + 1..|c| + 1 + |a|] && impi == s[|callId| + 1..|callId| + 1 + |impi|];
    assert b == s[|c| + |a| + 2..] && impu == s[|callId| + |impi| + 2..];
  }

  lemma SplitAtSeparator(x: string)
    requires !Free(x)
    ensures exists i: nat :: i < |x| && x == x[..i] + SEPARATOR + x[i + 1..]
  {
    var i :| 0 <= i < |x| && x[i] == SEPARATOR[0];
    assert x == x[..i] + SEPARATOR + x[i + 1..];
  }

  lemma ShiftRight(callId: string, impi: string, impu: string)
    requires !Free(callId)
    ensures !Unambiguous(callId, impi, impu)
  {
    SplitAtSeparator(callId);
    var i: nat :| i < |callId| && callId == callId[..i] + SEPARATOR + callId[i + 1..];
    var a := callId[i + 1..] + SEPARATOR + impi;
    assert KeyText(callId[..i], a, impu) == KeyText(callId, impi, impu);
    assert callId[..i] != callId;
  }

  lemma ShiftLeft(callId: string, impi: string, impu: string)
    requires !Free(impi)
    ensures !Unambiguous(callId, impi, impu)
  {
    SplitAtSeparator(impi);
    var i: nat :| i < |impi| && impi == impi[..i] + SEPARATOR + impi[i + 1..];
    assert KeyText(callId + SEPARATOR + impi[..i], impi[i + 1..], impu) == KeyText(callId, impi, impu);
    assert impi[i + 1..] != impi;
  }

  lemma ShiftLast(callId: string, impi: string, impu: string)
    requires !Free(impu)
    ensures !Unambiguous(callId, impi, impu)
  {
    SplitAtSeparator(impu);
    var i: nat :| i < |impu| && impu == impu[..i] + SEPARATOR + impu[i + 1..];
    assert KeyText(callId, impi + SEPARATOR + impu[..i], impu[i + 1..]) == KeyText(callId, impi, impu);
    assert impu[i + 1..] != impu;
  }

  /** Two challenges of different calls and users with one key, under a normalization that leaves these texts alone. */
  lemma DifferentChallengesCanShareAKey(normalize: string -> string)
    requires normalize("a\U{1f}sip:b") == "a\U{1f}sip:b" && normalize("sip:b") == "sip:b"
    ensures PendingKey(normalize, "c", "a\U{1f}sip:b", "sip:d@h") == PendingKey(normalize, "c\U{1f}a", "sip:b", "sip:d@h")
  {
    var rest := SEPARATOR + normalize("sip:d@h");
    assert "c" + SEPARATOR + "a\U{1f}sip:b" == "c\U{1f}a" + SEPARATOR + "sip:b";
  }

  /** The prefix test of the verifier's scan picks the keys of its own call, for Call-IDs without the separator. */
  lemma PrefixNamesTheCall(normalize: string -> string, callId: string, impi: string, impu: string, wanted: string)
    requires Free(callId) && Free(wanted)
    ensures wanted + SEPARATOR <= PendingKey(normalize, callId, impi, impu) <==> wanted == callId
  {
    var key := PendingKey(normalize, callId, impi, impu);
    assert key == callId + SEPARATOR + (normalize(impi) + SEPARATOR + normalize(impu));
    if wanted + SEPARATOR <= key {
      assert key[|wanted|] == (wanted + SEPARATOR)[|wanted|] == SEPARATOR[0];
      assert key[|callId|] == SEPARATOR[0];
      forall i | 0 <= i < |callId| ensures key[i] != SEPARATOR[0] { assert key[i] == callId[i]; }
      forall i | 0 <= i < |wanted| ensures key[i] != SEPARATOR[0] { assert key[i] == (wanted + SEPARATOR)[i] == wanted[i]; }
      assert wanted == key[..|wanted|] && callId == key[..|callId|];
    }
  }

  function Purged(pending: map<string, PendingAuth>, now: int): (r: map<string, PendingAuth>)
    ensures forall k :: k in r <==> k in pending && now < pending[k].expires
  {
    map k | k in pending && pending[k].expires > now :: pending[k]
  }

  /** First locked section of createChallenge. */
  function ClaimIn(t: Tables, key: string, now: int, me: nat): (Tables, Claim) {
    var pending := Purged(t.pending, now);
    if key in pending then (t.(pending := pending), Found(pending[key]))
    else if key in t.inFlight then (t.(pending := pending), Joined(t.inFlight[key]))
    else (Tables(pending, t.inFlight[key := me]), Owned)
  }

  /** Second locked section of createChallenge. */
  function CommitIn(t: Tables, key: string, answer: Answer): Tables {
    Tables(if answer.Ok? then t.pending[key := answer.auth] else t.pending, t.inFlight - {key})
  }

  /** The entries an Authorization header may be checked against. */
  predicate Matches(key: string, auth: PendingAuth, callId: string, impi: string) {
    auth.impi == impi && callId + SEPARATOR <= key
  }

  /** The unordered scan returns some match, if there is one. */
  predicate MayFind(pending: map<string, PendingAuth>, callId: string, impi: string, found: Option<string>) {
    match found
    case Some(k) => k in pending && Matches(k, pending[k], callId, impi)
    case None => forall k | k in pending :: !Matches(k, pending[k], callId, impi)
  }

  /** Second locked section of verifyAuthorization: erase only the very challenge that was verified. */
  predicate StillPending(t: Tables, key: string, snapshot: PendingAuth) {
    key in t.pending && t.pending[key].vector.rand == snapshot.vector.rand && t.pending[key].vector.autn == snapshot.vector.autn
  }

  function ConsumeIn(t: Tables, key: string, snapshot: PendingAuth): Tables {
    if StillPending(t, key, snapshot) then t.(pending := t.pending - {key}) else t
  }

  class ImsAkaAuthProvider {
    var pending: map<string, PendingAuth>
    var inFlight: map<string, nat>

    ghost function View(): Tables
      reads this
    {
      Tables(pending, inFlight)
    }

    constructor ()
      ensures View() == Tables(map[], map[])
    {
      pending, inFlight := map[], map[];
    }

    method PurgeExpiredLocked(now: int)
      modifies this
      ensures pending == Purged(old(pending), now) && inFlight == old(inFlight)
    {
      pending := map k | k in pending && !(pending[k].expires <= now) :: pending[k];
    }

    method ClaimChallenge(key: string, now: int, me: nat) returns (claim: Claim)
      modifies this
      ensures (View(), claim) == ClaimIn(old(View()), key, now, me)
    {
      PurgeExpiredLocked(now);
      if key in pending {
        claim := Found(pending[key]);
      } else if key in inFlight {
        claim := Joined(inFlight[key]);
      } else {
        inFlight := inFlight[key := me];
        claim := Owned;
      }
    }

    method CommitAnswer(key: string, answer: Answer)
      modifies this
      ensures View() == CommitIn(old(View()), key, answer)
    {
      if answer.Ok? {
        pending := pending[key := answer.auth];
      }
      inFlight := inFlight - {key};
    }

    method FindPendingForAuthorization(callId: string, impi: string, now: int) returns (found: Option<string>)
      modifies this
      ensures View() == old(View()).(pending := Purged(old(pending), now))
      ensures MayFind(pending, callId, impi, found)
      ensures found.Some? ==>
        && found.value in old(pending) && now < old(pending)[found.value].expires
        && old(pending)[found.value].impi == impi && callId + SEPARATOR <= found.value
      ensures found.None? ==>
        forall k | k in old(pending) && now < old(pending)[k].expires :: old(pending)[k].impi != impi || !(callId + SEPARATOR <= k)
    {
      PurgeExpiredLocked(now);
      var rest := pending.Keys;
      while rest != {}
        invariant rest <= pending.Keys
        invariant forall k | k in pending && k !in rest :: !Matches(k, pending[k], callId, impi)
        decreases rest
      {
        var k :| k in rest;
        if Matches(k, pending[k], callId, impi) {
          return Some(k);
        }
        rest := rest - {k};
      }
      return None;
    }

    method Consume(key: string, snapshot: PendingAuth) returns (consumed: bool)
      modifies this
      ensures consumed == StillPending(old(View()), key, snapshot)
      ensures View() == ConsumeIn(old(View()), key, snapshot)
    {
      if key !in pending || pending[key].vector.rand != snapshot.vector.rand || pending[key].vector.autn != snapshot.vector.autn {
        return false;
      }
      pending := pending - {key};
      return true;
    }
  }
}

/** Any number of createChallenge and verifyAuthorization calls, interleaved at the gaps between locked sections. */
module AkaProvider {
  import opened Options
  import AuthManager
  import opened AkaTables

  datatype Thread =
    // createChallenge
    | Challenging(key: string, callId: string, impi: string, impu: string)
    | Owner(key: string, callId: string, impi: string, impu: string)
    | Answered(key: string, answer: Answer)
    | Committed(answer: Answer)
    | Waiting(key: string, owner: nat)
    | Challenged(answer: Answer)
    // verifyAuthorization
    | Verifying(callId: string, impi: string)
    | Snapshot(key: string, auth: PendingAuth, lookedUp: int)
    | Verified(key: string, auth: PendingAuth, lookedUp: int, nonce: string)
    | Accepted(auth: PendingAuth)
    | Rejected

  /** One vector handed out by the HSS, the challenge it was asked for, and when the answer came. */
  datatype Issue = Issue(key: string, callId: string, impi: string, impu: string, vector: AuthVector, scheme: string, owner: nat, answered: int)

  /** A success of verifyAuthorization: the challenge it verified, the challenge it erased, the time of its lookup, and the nonce in its header. */
  datatype Use = Use(verified: nat, erased: nat, lookedUp: int, nonce: string)

  /** The bytes of a block, as the nonce is made of them. */
  function BytesOf(s: seq<bv8>): (r: seq<AuthManager.Byte>)
    ensures |r| == |s|
  {
    seq(|s|, i requires 0 <= i < |s| => s[i] as int)
  }

  function Material(v: AuthVector): AuthManager.Vector {
    AuthManager.Vector(BytesOf(v.rand), BytesOf(v.autn))
  }

  /** normalize stands for the normalization of identities, and never changes. */
  datatype State = State(
    normalize: string -> string,
    tables: Tables,
    threads: map<nat, Thread>,
    futures: map<nat, Answer>,
    issued: seq<Issue>,
    uses: seq<Use>)

  datatype Event =
    | StartChallenge(t: nat, callId: string, impi: string, impu: string)
    | ClaimStep(t: nat, now: int)
    | MarOk(t: nat, vector: AuthVector, scheme: string, now: int)
    | MarError(t: nat, code: nat)
    | CommitStep(t: nat)
    | SetFuture(t: nat)
    | GetFuture(t: nat)
    | StartVerify(t: nat, callId: string, impi: string)
    | LookupStep(t: nat, now: int, found: Option<string>)
    | CheckResponse(t: nat, nonce: string, digestMatches: bool)
    | ConsumeStep(t: nat)
    | PurgeStep(now: int)

  predicate Enabled(s: State, e: Event) {
    match e
    case StartChallenge(t, _, _, _) => t !in s.threads
    case ClaimStep(t, _) => t in s.threads && s.threads[t].Challenging?
    case MarOk(t, _, _, _) => t in s.threads && s.threads[t].Owner?
    case MarError(t, _) => t in s.threads && s.threads[t].Owner?
    case CommitStep(t) => t in s.threads && s.threads[t].Answered?
    case SetFuture(t) => t in s.threads && s.threads[t].Committed?
    case GetFuture(t) => t in s.threads && s.threads[t].Waiting? && s.threads[t].owner in s.futures
    case StartVerify(t, _, _) => t !in s.threads
    case LookupStep(t, now, found) =>
      t in s.threads && s.threads[t].Verifying?
      && MayFind(Purged(s.tables.pending, now), s.threads[t].callId, s.threads[t].impi, found)
    case CheckResponse(t, _, _) => t in s.threads && s.threads[t].Snapshot?
    case ConsumeStep(t) => t in s.threads && s.threads[t].Verified?
    case PurgeStep(_) => true
  }

  function Next(s: State, e: Event): State
    requires Enabled(s, e)
  {
    match e
    case StartChallenge(t, callId, impi, impu) =>
      s.(threads := s.threads[t := Challenging(PendingKey(s.normalize, callId, impi, impu), callId, impi, impu)])
    case ClaimStep(t, now) =>
      var c := s.threads[t];
      var (tables, claim) := ClaimIn(s.tables, c.key, now, t);
      s.(tables := tables, threads := s.threads[t :=
        match claim
        case Found(auth) => Challenged(Ok(auth))
        case Joined(owner) => Waiting(c.key, owner)
        case Owned => Owner(c.key, c.callId, c.impi, c.impu)])
    case MarOk(t, vector, scheme, now) =>
      var o := s.threads[t];
      var auth := PendingAuth(vector, o.impi, o.impu, scheme, now + PENDING_TTL, |s.issued|);
      s.(threads := s.threads[t := Answered(o.key, Ok(auth))], issued := s.issued + [Issue(o.key, o.callId, o.impi, o.impu, vector, scheme, t, now)])
    case MarError(t, code) => s.(threads := s.threads[t := Answered(s.threads[t].key, Err(code))])
    case CommitStep(t) =>
      var a := s.threads[t];
      s.(tables := CommitIn(s.tables, a.key, a.answer), threads := s.threads[t := Committed(a.answer)])
    case SetFuture(t) =>
      var answer := s.threads[t].answer;
      s.(futures := s.futures[t := answer], threads := s.threads[t := Challenged(answer)])
    case GetFuture(t) => s.(threads := s.threads[t := Challenged(s.futures[s.threads[t].owner])])
    case StartVerify(t, callId, impi) => s.(threads := s.threads[t := Verifying(callId, impi)])
    case LookupStep(t, now, found) =>
      var pending := Purged(s.tables.pending, now);
      s.(tables := s.tables.(pending := pending),
         threads := s.threads[t := if found.Some? then Snapshot(found.value, pending[found.value], now) else Rejected])
    case CheckResponse(t, nonce, digestMatches) =>
      var v := s.threads[t];
      var accepted := AuthManager.NonceAccepted(nonce, Material(v.auth.vector), v.auth.scheme) && digestMatches;
      s.(threads := s.threads[t := if accepted then Verified(v.key, v.auth, v.lookedUp, nonce) else Rejected])
    case ConsumeStep(t) =>
      var v := s.threads[t];
      if StillPending(s.tables, v.key, v.auth) then
        s.(tables := ConsumeIn(s.tables, v.key, v.auth), threads := s.threads[t := Accepted(v.auth)],
           uses := s.uses + [Use(v.auth.serial, s.tables.pending[v.key].serial, v.lookedUp, v.nonce)])
      else
        s.(threads := s.threads[t := Rejected])
    case PurgeStep(now) => s.(tables := s.tables.(pending := Purged(s.tables.pending, now)))
  }

  function Initial(normalize: string -> string): State {
    State(normalize, Tables(map[], map[]), map[], map[], [], [])
  }

  /** The events of es happen one after the other from s; those not enabled are skipped. */
  function Run(s: State, es: seq<Event>): State {
    if es == [] then s
    else
      var p := Run(s, es[..|es| - 1]);
      var e := es[|es| - 1];
      if Enabled(p, e) then Next(p, e) else p
  }

  // ---------- What every reachable state satisfies ----------

  /** A thread that still owes the other threads its answer for a key. */
  predicate OwesCommit(th: Thread) { th.Owner? || th.Answered? }

  predicate OwesFuture(th: Thread) { OwesCommit(th) || th.Committed? }

  /** The challenge is the one of its issue, and lives for two minutes from the answer. */
  predicate FromIssue(issued: seq<Issue>, key: string, auth: PendingAuth) {
    && auth.serial < |issued|
    && var i := issued[auth.serial];
       i.key == key && i.vector == auth.vector && i.scheme == auth.scheme && i.impi == auth.impi && i.impu == auth.impu
       && auth.expires == i.answered + 120_000
  }

  /** A key is never both pending and in flight; it is in flight exactly while one thread, the one its
      future is named by, owes a commit for it. */
  ghost predicate InFlightInv(s: State) {
    && s.tables.pending.Keys !! s.tables.inFlight.Keys
    && (forall k | k in s.tables.inFlight ::
          var t := s.tables.inFlight[k]; t in s.threads && OwesCommit(s.threads[t]) && s.threads[t].key == k)
    && (forall t | t in s.threads && OwesCommit(s.threads[t]) ::
          s.threads[t].key in s.tables.inFlight && s.tables.inFlight[s.threads[t].key] == t)
  }

  /** Every future a thread waits for is set or still has its owner due to set it, and only its owner's answer is ever put in it. */
  ghost predicate FuturesInv(s: State) {
    && (forall t | t in s.threads && s.threads[t].Waiting? ::
          var o := s.threads[t].owner;
          o in s.threads && (OwesFuture(s.threads[o]) || (o in s.futures && s.threads[o] == Challenged(s.futures[o]))))
    && (forall o | o in s.futures :: o in s.threads && s.threads[o] == Challenged(s.futures[o]))
  }

  predicate Used(uses: seq<Use>, serial: nat) {
    exists i | 0 <= i < |uses| :: uses[i].erased == serial
  }

  /** Every vector in the tables, in an answer or in a verifier's hands was issued for that key; no used vector is pending or about to be. */
  ghost predicate VectorsInv(s: State) {
    && (forall k | k in s.tables.pending :: FromIssue(s.issued, k, s.tables.pending[k]) && !Used(s.uses, s.tables.pending[k].serial))
    && (forall t | t in s.threads && s.threads[t].Answered? && s.threads[t].answer.Ok? ::
          FromIssue(s.issued, s.threads[t].key, s.threads[t].answer.auth) && !Used(s.uses, s.threads[t].answer.auth.serial))
    && (forall t | t in s.threads && (s.threads[t].Snapshot? || s.threads[t].Verified?) ::
          FromIssue(s.issued, s.threads[t].key, s.threads[t].auth) && s.threads[t].lookedUp < s.threads[t].auth.expires)
    && (forall i | 0 <= i < |s.uses| :: UseInv(s.issued, s.uses[i]))
    && (forall i, j | 0 <= i < j < |s.uses| :: s.uses[i].erased != s.uses[j].erased)
  }

  /** The two challenges of a use were issued for one key and agree in RAND and AUTN; the one verified had not expired. */
  predicate UseInv(issued: seq<Issue>, u: Use) {
    && u.verified < |issued| && u.erased < |issued|
    && u.lookedUp < issued[u.verified].answered + 120_000
    && issued[u.verified].key == issued[u.erased].key
    && issued[u.verified].vector.rand == issued[u.erased].vector.rand
    && issued[u.verified].vector.autn == issued[u.erased].vector.autn
  }

  // Only the two locked sections of createChallenge touch the in-flight table or change who owes a commit.

  lemma ClaimKeepsInFlight(s: State, e: Event)
    requires Enabled(s, e) && InFlightInv(s) && e.ClaimStep?
    ensures InFlightInv(Next(s, e))
  {}

  lemma CommitKeepsInFlight(s: State, e: Event)
    requires Enabled(s, e) && InFlightInv(s) && e.CommitStep?
    ensures InFlightInv(Next(s, e))
  {}

  lemma OtherKeepsInFlight(s: State, e: Event)
    requires Enabled(s, e) && InFlightInv(s) && !e.ClaimStep? && !e.CommitStep?
    ensures InFlightInv(Next(s, e))
  {}

  lemma NextKeepsInFlight(s: State, e: Event)
    requires Enabled(s, e) && InFlightInv(s)
    ensures InFlightInv(Next(s, e))
  {
    hide InFlightInv, Next;
    if e.ClaimStep? { ClaimKeepsInFlight(s, e); }
    else if e.CommitStep? { CommitKeepsInFlight(s, e); }
    else { OtherKeepsInFlight(s, e); }
  }

  lemma ClaimKeepsFutures(s: State, e: Event)
    requires Enabled(s, e) && InFlightInv(s) && FuturesInv(s) && e.ClaimStep?
    ensures FuturesInv(Next(s, e))
  {}

  lemma OtherKeepsFutures(s: State, e: Event)
    requires Enabled(s, e) && FuturesInv(s) && !e.ClaimStep?
    ensures FuturesInv(Next(s, e))
  {}

  lemma NextKeepsFutures(s: State, e: Event)
    requires Enabled(s, e) && InFlightInv(s) && FuturesInv(s)
    ensures FuturesInv(Next(s, e))
  {
    hide InFlightInv, FuturesInv, Next;
    if e.ClaimStep? { ClaimKeepsFutures(s, e); } else { OtherKeepsFutures(s, e); }
  }

  /** The serial of a fresh answer is new, so it was never used. */
  lemma MarKeepsVectors(s: State, e: Event)
    requires Enabled(s, e) && VectorsInv(s) && e.MarOk?
    ensures VectorsInv(Next(s, e))
  {
    forall i | 0 <= i < |s.uses| ensures s.uses[i].erased < |s.issued| {
      assert UseInv(s.issued, s.uses[i]);
    }
  }

  lemma CommitKeepsVectors(s: State, e: Event)
    requires Enabled(s, e) && VectorsInv(s) && e.CommitStep?
    ensures VectorsInv(Next(s, e))
  {}

  lemma NewUseIsSound(s: State, e: Event)
    requires Enabled(s, e) && VectorsInv(s) && e.ConsumeStep? && StillPending(s.tables, s.threads[e.t].key, s.threads[e.t].auth)
    ensures var s' := Next(s, e); |s'.uses| == |s.uses| + 1 && UseInv(s'.issued, s'.uses[|s.uses|])
  {
    hide Used;
  }

  /** The erased vector was pending under its own key; no other entry and no uncommitted answer holds it. */
  lemma ConsumeKeepsVectors(s: State, e: Event)
    requires Enabled(s, e) && InFlightInv(s) && VectorsInv(s) && e.ConsumeStep?
    ensures VectorsInv(Next(s, e))
  {
    hide UseInv;
    var v := s.threads[e.t];
    if StillPending(s.tables, v.key, v.auth) {
      var s', erased := Next(s, e), s.tables.pending[v.key].serial;
      assert s.issued[erased].key == v.key;
      forall serial | Used(s'.uses, serial) ensures serial == erased || Used(s.uses, serial) {
        var i :| 0 <= i < |s'.uses| && s'.uses[i].erased == serial;
      }
      NewUseIsSound(s, e);
      forall i | 0 <= i < |s.uses| ensures UseInv(s'.issued, s'.uses[i]) && s.uses[i].erased != erased {
        assert UseInv(s.issued, s.uses[i]);
        assert !Used(s.uses, erased);
      }
    }
  }

  lemma OtherKeepsVectors(s: State, e: Event)
    requires Enabled(s, e) && VectorsInv(s) && !e.MarOk? && !e.CommitStep? && !e.ConsumeStep?
    ensures VectorsInv(Next(s, e))
  {
    hide FromIssue, Used, UseInv;
  }

  lemma NextKeepsVectors(s: State, e: Event)
    requires Enabled(s, e) && InFlightInv(s) && VectorsInv(s)
    ensures VectorsInv(Next(s, e))
  {
    hide InFlightInv, VectorsInv, Next;
    if e.MarOk? { MarKeepsVectors(s, e); }
    else if e.CommitStep? { CommitKeepsVectors(s, e); }
    else if e.ConsumeStep? { ConsumeKeepsVectors(s, e); }
    else { OtherKeepsVectors(s, e); }
  }

  /** Every key is the pending key of the challenge it stands for. */
  ghost predicate NamesInv(s: State) {
    && (forall t | t in s.threads && (s.threads[t].Challenging? || s.threads[t].Owner?) ::
          s.threads[t].key == PendingKey(s.normalize, s.threads[t].callId, s.threads[t].impi, s.threads[t].impu))
    && (forall i | 0 <= i < |s.issued| ::
          s.issued[i].key == PendingKey(s.normalize, s.issued[i].callId, s.issued[i].impi, s.issued[i].impu))
  }

  lemma NextKeepsNames(s: State, e: Event)
    requires Enabled(s, e) && NamesInv(s)
    ensures NamesInv(Next(s, e)) && Next(s, e).normalize == s.normalize
  {
    hide PendingKey;
  }

  /** A nonce that was accepted is accepted against the vector it was checked with. */
  predicate Accepts(vector: AuthVector, scheme: string, nonce: string) {
    AuthManager.NonceAccepted(nonce, Material(vector), scheme)
  }

  ghost predicate NoncesInv(s: State) {
    && (forall t | t in s.threads && s.threads[t].Verified? ::
          Accepts(s.threads[t].auth.vector, s.threads[t].auth.scheme, s.threads[t].nonce))
    && (forall i | 0 <= i < |s.uses| ::
          && s.uses[i].verified < |s.issued|
          && Accepts(s.issued[s.uses[i].verified].vector, s.issued[s.uses[i].verified].scheme, s.uses[i].nonce))
  }

  lemma CheckKeepsNonces(s: State, e: Event)
    requires Enabled(s, e) && NoncesInv(s) && e.CheckResponse?
    ensures NoncesInv(Next(s, e))
  {
    hide AuthManager.NonceAccepted, Material;
  }

  lemma OtherKeepsNonces(s: State, e: Event)
    requires Enabled(s, e) && NoncesInv(s) && VectorsInv(s) && !e.CheckResponse?
    ensures NoncesInv(Next(s, e))
  {
    hide Accepts, Used, UseInv;
    if e.ConsumeStep? {
      assert FromIssue(s.issued, s.threads[e.t].key, s.threads[e.t].auth);
    }
  }

  ghost predicate Inv(s: State) {
    NoncesInv(s) && NamesInv(s) && InFlightInv(s) && FuturesInv(s) && VectorsInv(s)
  }

  lemma {:induction false} RunKeepsInv(normalize: string -> string, es: seq<Event>)
    ensures Inv(Run(Initial(normalize), es))
  {
    hide Next;
    if es != [] {
      var p, e := Run(Initial(normalize), es[..|es| - 1]), es[|es| - 1];
      RunKeepsInv(normalize, es[..|es| - 1]);
      if Enabled(p, e) {
        hide NoncesInv, NamesInv, InFlightInv, FuturesInv, VectorsInv;
        NextKeepsInFlight(p, e);
        NextKeepsFutures(p, e);
        NextKeepsVectors(p, e);
        NextKeepsNames(p, e);
        if e.CheckResponse? { CheckKeepsNonces(p, e); } else { OtherKeepsNonces(p, e); }
      }
    }
  }

  // ---------- Main results ----------

  /** In every reachable state: no key is both pending and in flight, and a key in flight has exactly one
      thread that owes its commit, so exactly one outstanding MAR. */
  lemma OneOwnerPerKey(normalize: string -> string, es: seq<Event>, key: string)
    ensures var s := Run(Initial(normalize), es);
            && (key in s.tables.inFlight ==> key !in s.tables.pending)
            && (key in s.tables.inFlight <==> exists t :: t in s.threads && OwesCommit(s.threads[t]) && s.threads[t].key == key)
            && (forall t, u | t in s.threads && u in s.threads && OwesCommit(s.threads[t]) && OwesCommit(s.threads[u])
                  && s.threads[t].key == s.threads[u].key :: t == u)
  {
    RunKeepsInv(normalize, es);
  }

  /** A commit never overwrites a pending challenge. */
  lemma CommitOverwritesNothing(normalize: string -> string, es: seq<Event>, t: nat)
    ensures var s := Run(Initial(normalize), es);
            Enabled(s, CommitStep(t)) ==> s.threads[t].key !in s.tables.pending
  {
    RunKeepsInv(normalize, es);
  }

  /** A waiting thread's future is set, or its owner is still due to set it; when the thread gets its answer,
      the answer is the one its owner returned. */
  lemma WaitersGetTheirOwnersAnswer(normalize: string -> string, es: seq<Event>, t: nat)
    ensures var s := Run(Initial(normalize), es);
            t in s.threads && s.threads[t].Waiting? ==>
              var o := s.threads[t].owner;
              && o in s.threads
              && (o !in s.futures ==> OwesFuture(s.threads[o]))
              && (Enabled(s, GetFuture(t)) <==> o in s.futures)
              && (Enabled(s, GetFuture(t)) ==> Next(s, GetFuture(t)).threads[t] == s.threads[o])
  {
    RunKeepsInv(normalize, es);
  }

  /** A key that fits the header's call and private identity stands for a challenge that has not expired. */
  predicate Fits(s: State, t: nat, key: string, now: int) {
    && t in s.threads && s.threads[t].Verifying?
    && key in s.tables.pending && s.tables.pending[key].serial < |s.issued|
    && var issue := s.issued[s.tables.pending[key].serial];
       now < issue.answered + 120_000 && issue.impi == s.threads[t].impi && s.threads[t].callId + SEPARATOR <= issue.key == key
  }

  /**
   * In every run a verifier finds only challenges made for its private identity whose answer came less than two
   * minutes before, and finds one whenever there is one.
   */
  lemma VerifierFindsExactlyWhatFits(normalize: string -> string, es: seq<Event>, t: nat, now: int)
    ensures var s := Run(Initial(normalize), es);
            && (forall key :: Enabled(s, LookupStep(t, now, Some(key))) <==> Fits(s, t, key, now))
            && (Enabled(s, LookupStep(t, now, None)) <==> t in s.threads && s.threads[t].Verifying? && forall key :: !Fits(s, t, key, now))
  {
    hide Used, UseInv, PendingKey, Run, Fits, Matches;
    RunKeepsInv(normalize, es);
    var s := Run(Initial(normalize), es);
    if t in s.threads && s.threads[t].Verifying? {
      var pending := Purged(s.tables.pending, now);
      forall key ensures Fits(s, t, key, now) <==> key in pending && Matches(key, pending[key], s.threads[t].callId, s.threads[t].impi) {
        FitsIsAnUnexpiredMatch(s, t, key, now);
      }
    } else {
      forall key ensures !Fits(s, t, key, now) { NothingFitsWithoutAVerifier(s, t, key, now); }
    }
  }

  lemma FitsIsAnUnexpiredMatch(s: State, t: nat, key: string, now: int)
    requires t in s.threads && s.threads[t].Verifying?
    requires key in s.tables.pending ==> FromIssue(s.issued, key, s.tables.pending[key])
    ensures var pending := Purged(s.tables.pending, now);
            Fits(s, t, key, now) <==> key in pending && Matches(key, pending[key], s.threads[t].callId, s.threads[t].impi)
  {
    hide PendingKey;
  }

  lemma NothingFitsWithoutAVerifier(s: State, t: nat, key: string, now: int)
    requires !(t in s.threads && s.threads[t].Verifying?)
    ensures !Fits(s, t, key, now)
  {
  }

  /** No success rests on a challenge whose answer came two minutes or more before it was looked up. */
  lemma NoSuccessOnAnExpiredChallenge(normalize: string -> string, es: seq<Event>, n: nat)
    ensures var s := Run(Initial(normalize), es);
            n < |s.uses| ==> s.uses[n].verified < |s.issued| && s.uses[n].lookedUp < s.issued[s.uses[n].verified].answered + 120_000
  {
    RunKeepsInv(normalize, es);
    var s := Run(Initial(normalize), es);
    if n < |s.uses| { assert UseInv(s.issued, s.uses[n]); }
  }

  /** With Call-IDs free of the separator, the challenge a verifier finds was made for its own call. */
  lemma VerifierFindsItsOwnCall(normalize: string -> string, es: seq<Event>, t: nat, now: int, key: string)
    ensures var s := Run(Initial(normalize), es);
            Fits(s, t, key, now) ==>
              var callId := s.issued[s.tables.pending[key].serial].callId;
              (Free(s.threads[t].callId) && Free(callId) ==> callId == s.threads[t].callId)
  {
    hide Used, UseInv, PendingKey;
    RunKeepsInv(normalize, es);
    var s := Run(Initial(normalize), es);
    if Fits(s, t, key, now) {
      var issue := s.issued[s.tables.pending[key].serial];
      if Free(s.threads[t].callId) && Free(issue.callId) {
        PrefixNamesTheCall(normalize, issue.callId, issue.impi, issue.impu, s.threads[t].callId);
        InitialNormalize(normalize, es);
      }
    }
  }

  /**
   * A claim in any run: a challenge that is less than two minutes old is given out again; failing that a
   * challenge in flight is waited for; and failing that the caller asks the HSS.
   */
  lemma ClaimGivesOutLiveChallenges(normalize: string -> string, es: seq<Event>, t: nat, now: int)
    ensures var s := Run(Initial(normalize), es);
            Enabled(s, ClaimStep(t, now)) ==>
              var key, pending := s.threads[t].key, s.tables.pending;
              var after := Next(s, ClaimStep(t, now)).threads[t];
              && (key in pending ==> pending[key].serial < |s.issued|)
              && (if key in pending && now < s.issued[pending[key].serial].answered + 120_000 then after == Challenged(Ok(pending[key]))
                  else if key in s.tables.inFlight then after == Waiting(key, s.tables.inFlight[key])
                  else after == Owner(key, s.threads[t].callId, s.threads[t].impi, s.threads[t].impu))
  {
    hide Used, UseInv, PendingKey;
    RunKeepsInv(normalize, es);
    var s := Run(Initial(normalize), es);
    forall key | key in s.tables.pending ensures FromIssue(s.issued, key, s.tables.pending[key]) { }
  }

  // ---------- One exchange ----------

  /** A thread that owns a key answers with the vector of the HSS, and leaves it pending for two minutes. */
  lemma AnswerBecomesPending(s: State, t: nat, vector: AuthVector, scheme: string, now: int)
    requires Enabled(s, MarOk(t, vector, scheme, now)) && s.threads[t].key !in s.tables.pending
    ensures var o, s1 := s.threads[t], Next(s, MarOk(t, vector, scheme, now));
            Enabled(s1, CommitStep(t)) &&
            var s2 := Next(s1, CommitStep(t));
            Enabled(s2, SetFuture(t)) &&
            var s3 := Next(s2, SetFuture(t)); var auth := PendingAuth(vector, o.impi, o.impu, scheme, now + 120_000, |s.issued|);
            && s3.tables.pending == s.tables.pending[o.key := auth] && s3.tables.inFlight == s.tables.inFlight - {o.key}
            && t in s3.threads && s3.threads[t] == Challenged(Ok(auth)) && t in s3.futures && s3.futures[t] == Ok(auth)
  {
    hide Material;
  }

  /** An error of the HSS leaves nothing pending and nothing in flight. */
  lemma ErrorLeavesNothing(s: State, t: nat, code: nat)
    requires Enabled(s, MarError(t, code)) && s.threads[t].key !in s.tables.pending
    ensures var o, s1 := s.threads[t], Next(s, MarError(t, code));
            Enabled(s1, CommitStep(t)) &&
            var s2 := Next(s1, CommitStep(t));
            s2.tables.pending == s.tables.pending && s2.tables.inFlight == s.tables.inFlight - {o.key}
            && Enabled(s2, SetFuture(t)) && Next(s2, SetFuture(t)).threads[t] == Challenged(Err(code))
  {
    hide Material;
  }

  /**
   * A header with the nonce of the pending challenge and the right digest, undisturbed, succeeds exactly when the
   * nonce is accepted against the vector, and then takes the challenge out of the table.
   */
  lemma RightAnswerIsAccepted(s: State, u: nat, callId: string, key: string, nonce: string, now: int)
    requires u !in s.threads && key in s.tables.pending && now < s.tables.pending[key].expires && callId + SEPARATOR <= key
    ensures var auth := s.tables.pending[key];
            var s1 := Next(s, StartVerify(u, callId, auth.impi));
            Enabled(s1, LookupStep(u, now, Some(key))) &&
            var s2 := Next(s1, LookupStep(u, now, Some(key)));
            Enabled(s2, CheckResponse(u, nonce, true)) &&
            var s3 := Next(s2, CheckResponse(u, nonce, true));
            if AuthManager.NonceAccepted(nonce, Material(auth.vector), auth.scheme) then
              Enabled(s3, ConsumeStep(u)) && var s4 := Next(s3, ConsumeStep(u));
              u in s4.threads && s4.threads[u] == Accepted(auth) && key !in s4.tables.pending
              && (forall k | k in s2.tables.pending && k != key :: k in s4.tables.pending && s4.tables.pending[k] == s2.tables.pending[k])
            else u in s3.threads && s3.threads[u] == Rejected && s3.tables == s2.tables
  {
    hide Material, AuthManager.NonceAccepted;
  }

  /** A wrong digest is rejected whatever the nonce, and leaves the tables alone. */
  lemma WrongDigestIsRejected(s: State, u: nat, nonce: string)
    requires Enabled(s, CheckResponse(u, nonce, false))
    ensures var s1 := Next(s, CheckResponse(u, nonce, false)); s1.threads[u] == Rejected && s1.tables == s.tables
  {
  }

  /** What was verified but is no longer pending is rejected, and leaves the tables alone. */
  lemma ReplacedChallengeIsRejected(s: State, u: nat)
    requires Enabled(s, ConsumeStep(u))
    requires var v := s.threads[u];
             v.key !in s.tables.pending || s.tables.pending[v.key].vector.rand != v.auth.vector.rand || s.tables.pending[v.key].vector.autn != v.auth.vector.autn
    ensures Next(s, ConsumeStep(u)).threads[u] == Rejected && Next(s, ConsumeStep(u)).tables == s.tables && Next(s, ConsumeStep(u)).uses == s.uses
  {
    hide Material;
  }

  lemma {:induction false} InitialNormalize(normalize: string -> string, es: seq<Event>)
    ensures Run(Initial(normalize), es).normalize == normalize
  {
    if es != [] { InitialNormalize(normalize, es[..|es| - 1]); }
  }

  /** The HSS never hands out the same RAND and AUTN twice for one key. */
  ghost predicate DistinctIssues(issued: seq<Issue>) {
    forall i, j | 0 <= i < j < |issued| && issued[i].key == issued[j].key ::
      issued[i].vector.rand != issued[j].vector.rand || issued[i].vector.autn != issued[j].vector.autn
  }

  lemma UsesAreSound(s: State)
    requires Inv(s) && DistinctIssues(s.issued)
    ensures forall i | 0 <= i < |s.uses| :: s.uses[i].verified == s.uses[i].erased
    ensures forall i, j | 0 <= i < j < |s.uses| :: s.uses[i].erased != s.uses[j].erased
  {
    forall i | 0 <= i < |s.uses| ensures s.uses[i].verified == s.uses[i].erased {
      assert UseInv(s.issued, s.uses[i]);
    }
  }

  /** Under every interleaving of challenges, verifiers and purges, a vector is used by at most one successful
      verification; and with distinct vectors per key the challenge erased is the very one verified. */
  lemma SingleUse(normalize: string -> string, es: seq<Event>)
    ensures var s := Run(Initial(normalize), es);
            && (forall i, j | 0 <= i < j < |s.uses| :: s.uses[i].erased != s.uses[j].erased)
            && (DistinctIssues(s.issued) ==> forall i | 0 <= i < |s.uses| :: s.uses[i].verified == s.uses[i].erased)
  {
    RunKeepsInv(normalize, es);
    var s := Run(Initial(normalize), es);
    if DistinctIssues(s.issued) { UsesAreSound(s); }
  }
}
