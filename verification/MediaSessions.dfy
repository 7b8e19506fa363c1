// The P-CSCF's table of media sessions: what each locked section of
// MediaSessionManager does, and what every interleaving of INVITEs, forked and
// late responses, BYEs, CANCELs and terminations keeps.

module MediaSessions {
  import opened Options

  datatype Key = Key(callId: string, fromTag: string, toTag: string)

  datatype Lifecycle = Early | Established | Terminating

  /** What rtpengine is told to delete. */
  datatype Media = Media(callId: string, fromTag: string, toTag: string)

  /** incarnation numbers the creation of an entry; the source has no such field and no step reads it. */
  datatype Session = Session(
    media: Media, rxSessionId: string, callerSdp: string, calleeSdp: string, qosActive: bool, lifecycle: Lifecycle,
    incarnation: nat)

  datatype Plan = Plan(key: Key, media: Media, rxSessionId: string, qosActive: bool, incarnation: nat)

  /** created counts the entries made so far. */
  datatype Table = Table(sessions: map<Key, Session>, created: nat)

  function MediaOf(k: Key): Media { Media(k.callId, k.fromTag, k.toTag) }

  predicate SamePair(k: Key, callId: string, fromTag: string) { k.callId == callId && k.fromTag == fromTag }

  function PlanFor(k: Key, s: Session): Plan { Plan(k, s.media, s.rxSessionId, s.qosActive, s.incarnation) }

  predicate Live(t: Table, k: Key) { k in t.sessions && !t.sessions[k].lifecycle.Terminating? }

  function SetLifecycle(t: Table, k: Key, l: Lifecycle): Table
    requires k in t.sessions
  {
    t.(sessions := t.sessions[k := t.sessions[k].(lifecycle := l)])
  }

  function Create(t: Table, k: Key): Table {
    Table(t.sessions[k := Session(MediaOf(k), "", "", "", false, Early, t.created)], t.created + 1)
  }

  /** The entry a response is for: its own, or a branch copied from the initial entry while that one lives. */
  function Ensure(t: Table, k: Key): Table {
    var initial := k.(toTag := "");
    if k in t.sessions || k.toTag == "" || !Live(t, initial) then t
    else
      var branch := t.sessions[initial].(lifecycle := Early, incarnation := t.created);
      Table(t.sessions[k := branch.(media := branch.media.(toTag := k.toTag))], t.created + 1)
  }

  function CommitResponse(t: Table, k: Key, sdp: string, established: bool): Table {
    if !Live(t, k) then t
    else
      var s := t.sessions[k].(calleeSdp := sdp);
      t.(sessions := t.sessions[k := if established then s.(lifecycle := Established) else s])
  }

  function SetCallerSdp(t: Table, k: Key, sdp: string): Table {
    if k in t.sessions then t.(sessions := t.sessions[k := t.sessions[k].(callerSdp := sdp)]) else t
  }

  function WinnerIn(t: Table, k: Key): Option<Key> { if k in t.sessions then Some(k) else None }

  /** The winner is established, unless it is already being terminated. */
  function Establish(t: Table, k: Key): Table {
    if Live(t, k) then SetLifecycle(t, k, Established) else t
  }

  /** The entries a final response leaves alone: the winner, other calls, established branches, entries already terminating. */
  predicate Spared(winner: Option<Key>, callId: string, fromTag: string, k: Key, s: Session) {
    || winner == Some(k) || !SamePair(k, callId, fromTag)
    || (k.toTag != "" && s.lifecycle.Established?) || s.lifecycle.Terminating?
  }

  predicate Doomed(t: Table, callId: string, fromTag: string, winner: Option<Key>, k: Key) {
    k in t.sessions && !Spared(winner, callId, fromTag, k, t.sessions[k])
  }

  function DoomedKeys(t: Table, callId: string, fromTag: string, winner: Option<Key>): set<Key> {
    set k | k in t.sessions && Doomed(t, callId, fromTag, winner, k)
  }

  function Terminate(t: Table, ks: set<Key>): Table {
    t.(sessions := map k | k in t.sessions :: if k in ks then t.sessions[k].(lifecycle := Terminating) else t.sessions[k])
  }

  lemma TerminateOneMore(t: Table, ks: set<Key>, k: Key)
    requires k in t.sessions
    ensures SetLifecycle(Terminate(t, ks), k, Terminating) == Terminate(t, ks + {k})
  {}

  lemma TerminateNone(t: Table)
    ensures Terminate(t, {}) == t
  {
    assert Terminate(t, {}).sessions == t.sessions;
  }

  /** order lists the members of ks, each once: the unordered scan meets them in some order. */
  predicate Enumerates(order: seq<Key>, ks: set<Key>) {
    && (forall i | 0 <= i < |order| :: order[i] in ks)
    && (forall k | k in ks :: k in order)
    && (forall i, j | 0 <= i < j < |order| :: order[i] != order[j])
  }

  lemma EnumeratesNothing()
    ensures Enumerates([], {})
  {}

  lemma EnumeratesOneMore(order: seq<Key>, ks: set<Key>, k: Key)
    requires Enumerates(order, ks) && k !in ks
    ensures Enumerates(order + [k], ks + {k})
  {
    forall x | x in ks + {k} ensures x in order + [k] {
      if x == k { assert (order + [k])[|order|] == k; } else { assert x in order; }
    }
  }

  function Plans(t: Table, order: seq<Key>): (plans: seq<Plan>)
    requires forall i | 0 <= i < |order| :: order[i] in t.sessions
    ensures |plans| == |order|
  {
    seq(|order|, i requires 0 <= i < |order| => PlanFor(order[i], t.sessions[order[i]]))
  }

  /** The entry a BYE or CANCEL is for: as given, without the To-tag, reversed, reversed without the tag. */
  function Target(t: Table, k: Key): Option<Key> {
    var fallback := k.(toTag := "");
    var reversed := Key(k.callId, k.toTag, k.fromTag);
    var reversedFallback := reversed.(toTag := "");
    if k in t.sessions then Some(k)
    else if k.toTag == "" then None
    else if fallback in t.sessions then Some(fallback)
    else if reversed in t.sessions then Some(reversed)
    else if reversedFallback in t.sessions then Some(reversedFallback)
    else None
  }

  function Complete(t: Table, k: Key): Table {
    if k in t.sessions && t.sessions[k].lifecycle.Terminating? then t.(sessions := t.sessions - {k}) else t
  }

  class MediaSessionManager {
    var sessions: map<Key, Session>
    var created: nat

    ghost function View(): Table
      reads this
    {
      Table(sessions, created)
    }

    constructor ()
      ensures View() == Table(map[], 0)
    {
      sessions, created := map[], 0;
    }

    method CreateSession(key: Key) returns (media: Media)
      modifies this
      ensures media == MediaOf(key)
      ensures View() == Create(old(View()), key)
    {
      media := Media(key.callId, key.fromTag, key.toTag);
      sessions := sessions[key := Session(media, "", "", "", false, Early, created)];
      created := created + 1;
    }

    method UpdateCallerSdp(key: Key, sdp: string)
      modifies this
      ensures View() == SetCallerSdp(old(View()), key, sdp)
    {
      if key in sessions {
        sessions := sessions[key := sessions[key].(callerSdp := sdp)];
      }
    }

    /** found: the entry for the response exists afterwards. */
    method EnsureInviteResponseSession(key: Key) returns (found: bool)
      modifies this
      ensures View() == Ensure(old(View()), key)
      ensures found == (key in sessions)
    {
      if key in sessions || key.toTag == "" {
        return key in sessions;
      }
      var initial := key.(toTag := "");
      if initial !in sessions || sessions[initial].lifecycle.Terminating? {
        return false;
      }
      var branch := sessions[initial];
      branch := branch.(media := branch.media.(toTag := key.toTag));
      branch := branch.(lifecycle := Early, incarnation := created);
      sessions := sessions[key := branch];
      created := created + 1;
      return true;
    }

    method BeginInviteResponse(key: Key) returns (update: Option<Media>)
      modifies this
      ensures View() == Ensure(old(View()), key)
      ensures update == if Live(View(), key) then Some(sessions[key].media) else None
    {
      var found := EnsureInviteResponseSession(key);
      if !found || sessions[key].lifecycle.Terminating? {
        return None;
      }
      return Some(sessions[key].media);
    }

    method CommitInviteResponse(key: Key, sdp: string, established: bool)
      modifies this
      ensures View() == CommitResponse(old(View()), key, sdp, established)
    {
      if key !in sessions || sessions[key].lifecycle.Terminating? {
        return;
      }
      sessions := sessions[key := sessions[key].(calleeSdp := sdp)];
      if established {
        sessions := sessions[key := sessions[key].(lifecycle := Established)];
      }
    }

    /** The loop of both final-response methods: mark every doomed entry and collect its plan. */
    method MarkDoomed(callId: string, fromTag: string, winner: Option<Key>) returns (plans: seq<Plan>, ghost order: seq<Key>)
      modifies this
      ensures Enumerates(order, DoomedKeys(old(View()), callId, fromTag, winner))
      ensures plans == Plans(old(View()), order)
      ensures View() == Terminate(old(View()), DoomedKeys(old(View()), callId, fromTag, winner))
    {
      hide PlanFor, Terminate, Enumerates, Spared;
      plans, order := [], [];
      ghost var before, doomed := View(), DoomedKeys(View(), callId, fromTag, winner);
      TerminateNone(before);
      EnumeratesNothing();
      var rest := sessions.Keys;
      assert doomed - rest == {};
      while rest != {}
        invariant rest <= before.sessions.Keys
        invariant forall k | k in rest :: k in sessions && sessions[k] == before.sessions[k]
        invariant View() == Terminate(before, doomed - rest)
        invariant forall i | 0 <= i < |order| :: order[i] in before.sessions
        invariant Enumerates(order, doomed - rest) && plans == Plans(before, order)
        decreases rest
      {
        var k :| k in rest;
        ghost var done := doomed - rest;
        rest := rest - {k};
        if Spared(winner, callId, fromTag, k, sessions[k]) {
          assert doomed - rest == done;
          continue;
        }
        assert doomed - rest == done + {k};
        TerminateOneMore(before, done, k);
        EnumeratesOneMore(order, done, k);
        plans := plans + [PlanFor(k, sessions[k])];
        sessions := sessions[k := sessions[k].(lifecycle := Terminating)];
        order := order + [k];
      }
      assert doomed - rest == doomed;
    }

    method MarkInviteFinalSuccess(key: Key) returns (plans: seq<Plan>, ghost order: seq<Key>)
      modifies this
      ensures var t := Establish(Ensure(old(View()), key), key);
              && Enumerates(order, DoomedKeys(t, key.callId, key.fromTag, WinnerIn(t, key)))
              && plans == Plans(t, order)
              && View() == Terminate(t, DoomedKeys(t, key.callId, key.fromTag, WinnerIn(t, key)))
    {
      var found := EnsureInviteResponseSession(key);
      if found && !sessions[key].lifecycle.Terminating? {
        sessions := sessions[key := sessions[key].(lifecycle := Established)];
      }
      plans, order := MarkDoomed(key.callId, key.fromTag, if found then Some(key) else None);
    }

    method MarkInviteFinalFailure(key: Key) returns (plans: seq<Plan>, ghost order: seq<Key>)
      modifies this
      ensures Enumerates(order, DoomedKeys(old(View()), key.callId, key.fromTag, None))
      ensures plans == Plans(old(View()), order)
      ensures View() == Terminate(old(View()), DoomedKeys(old(View()), key.callId, key.fromTag, None))
    {
      plans, order := MarkDoomed(key.callId, key.fromTag, None);
    }

    method MarkTerminating(key: Key) returns (plan: Option<Plan>)
      modifies this
      ensures var target := Target(old(View()), key);
              if target.Some? && Live(old(View()), target.value)
              then plan == Some(PlanFor(target.value, old(sessions)[target.value])) && View() == SetLifecycle(old(View()), target.value, Terminating)
              else plan == None && View() == old(View())
    {
      var it := key;
      if it !in sessions && key.toTag != "" {
        it := key.(toTag := "");
      }
      if it !in sessions && key.toTag != "" {
        it := Key(key.callId, key.toTag, key.fromTag);
        if it !in sessions {
          it := it.(toTag := "");
        }
      }
      if it !in sessions || sessions[it].lifecycle.Terminating? {
        return None;
      }
      plan := Some(PlanFor(it, sessions[it]));
      sessions := sessions[it := sessions[it].(lifecycle := Terminating)];
    }

    method CompleteTermination(key: Key)
      modifies this
      ensures View() == Complete(old(View()), key)
    {
      if key in sessions && sessions[key].lifecycle.Terminating? {
        sessions := sessions - {key};
      }
    }
  }
}

/** The P-CSCF's threads over that table. */
module PcscfMedia {
  import opened Options
  import opened MediaSessions

  datatype Thread =
    /** onInviteResponse between beginInviteResponse and commitInviteResponse, while rtpengine answers. */
    | Answering(key: Key, established: bool)
    /** ... between commitInviteResponse and markInviteFinalSuccess. */
    | Settling(key: Key)
    /** completeMediaTerminations with the plans still to be carried out. */
    | Completing(plans: seq<Plan>)

  /** planned records the incarnation of every plan ever made. */
  datatype State = State(table: Table, threads: map<nat, Thread>, planned: seq<nat>)

  datatype Event =
    | Invite(key: Key)
    | CallerSdp(key: Key, sdp: string)
    | BeginResponse(t: nat, key: Key, established: bool)
    | AnswerFailed(t: nat)
    | CommitAnswer(t: nat, sdp: string)
    | SettleAnswer(t: nat, order: seq<Key>)
    | FinalSuccess(t: nat, key: Key, order: seq<Key>)
    | FinalFailure(t: nat, key: Key, order: seq<Key>)
    | TerminateRequest(t: nat, key: Key)
    | CompleteOne(t: nat)

  /** The table after a success response has established its own entry, and the entries that dooms. */
  function Won(t: Table, key: Key): Table { Establish(Ensure(t, key), key) }

  function DoomedBySuccess(t: Table, key: Key): set<Key> {
    DoomedKeys(Won(t, key), key.callId, key.fromTag, WinnerIn(Won(t, key), key))
  }

  function DoomedByFailure(t: Table, key: Key): set<Key> {
    DoomedKeys(t, key.callId, key.fromTag, None)
  }

  predicate Enabled(s: State, e: Event) {
    match e
    case Invite(_) => true
    case CallerSdp(_, _) => true
    case BeginResponse(t, _, _) => t !in s.threads
    case AnswerFailed(t) => t in s.threads && s.threads[t].Answering?
    case CommitAnswer(t, _) => t in s.threads && s.threads[t].Answering?
    case SettleAnswer(t, order) => t in s.threads && s.threads[t].Settling? && Enumerates(order, DoomedBySuccess(s.table, s.threads[t].key))
    case FinalSuccess(t, key, order) => t !in s.threads && Enumerates(order, DoomedBySuccess(s.table, key))
    case FinalFailure(t, key, order) => t !in s.threads && Enumerates(order, DoomedByFailure(s.table, key))
    case TerminateRequest(t, _) => t !in s.threads
    case CompleteOne(t) => t in s.threads && s.threads[t].Completing? && s.threads[t].plans != []
  }

  function Incarnations(plans: seq<Plan>): (r: seq<nat>)
    ensures |r| == |plans|
  {
    seq(|plans|, i requires 0 <= i < |plans| => plans[i].incarnation)
  }

  /** Entries ks of table t become Terminating, and thread n goes on to carry out their plans. */
  function MarkAndPlan(s: State, n: nat, t: Table, order: seq<Key>): State
    requires forall i | 0 <= i < |order| :: order[i] in t.sessions
  {
    var plans := Plans(t, order);
    State(Terminate(t, set k | k in order), s.threads[n := Completing(plans)], s.planned + Incarnations(plans))
  }

  function Next(s: State, e: Event): State
    requires Enabled(s, e)
  {
    match e
    case Invite(key) => s.(table := Create(s.table, key))
    case CallerSdp(key, sdp) => s.(table := SetCallerSdp(s.table, key, sdp))
    case BeginResponse(t, key, established) =>
      var table := Ensure(s.table, key);
      if Live(table, key) then State(table, s.threads[t := Answering(key, established)], s.planned) else s.(table := table)
    case AnswerFailed(t) => s.(threads := s.threads - {t})
    case CommitAnswer(t, sdp) =>
      var a := s.threads[t];
      State(CommitResponse(s.table, a.key, sdp, a.established),
            if a.established then s.threads[t := Settling(a.key)] else s.threads - {t}, s.planned)
    case SettleAnswer(t, order) => MarkAndPlan(s, t, Won(s.table, s.threads[t].key), order)
    case FinalSuccess(t, key, order) => MarkAndPlan(s, t, Won(s.table, key), order)
    case FinalFailure(t, key, order) => MarkAndPlan(s, t, s.table, order)
    case TerminateRequest(t, key) =>
      var target := Target(s.table, key);
      if target.Some? && Live(s.table, target.value) then MarkAndPlan(s, t, s.table, [target.value]) else s
    case CompleteOne(t) =>
      var plans := s.threads[t].plans;
      State(Complete(s.table, plans[0].key), s.threads[t := Completing(plans[1..])], s.planned)
  }

  function Run(s: State, es: seq<Event>): State {
    if es == [] then s
    else
      var p := Run(s, es[..|es| - 1]);
      var e := es[|es| - 1];
      if Enabled(p, e) then Next(p, e) else p
  }

  const INITIAL := State(Table(map[], 0), map[], [])

  // ---------- Settled calls ----------

  /** Every entry of the pair is being terminated, or is an established branch with a To-tag. */
  ghost predicate Settled(t: Table, callId: string, fromTag: string) {
    forall k | k in t.sessions && SamePair(k, callId, fromTag) ::
      t.sessions[k].lifecycle.Terminating? || (t.sessions[k].lifecycle.Established? && k.toTag != "")
  }

  /** The last step of handling a 2xx: marking, with or without having waited for rtpengine, or one of the two early returns. */
  predicate EndsSuccess(s: State, e: Event, key: Key) {
    match e
    case FinalSuccess(_, k, _) => k == key
    case SettleAnswer(t, _) => t in s.threads && s.threads[t] == Settling(key)
    case AnswerFailed(t) => t in s.threads && s.threads[t] == Answering(key, true)
    case BeginResponse(_, k, established) => k == key && established && !Live(Ensure(s.table, key), key)
    case _ => false
  }

  /**
   * In every interleaving: when the handling of a 2xx ends, its pair is settled exactly when, if it ends by
   * marking, it carries a To-tag or names no live entry, and, if it returns early, the pair was settled already.
   */
  lemma SuccessEndsSettled(s: State, e: Event, key: Key)
    requires Enabled(s, e) && EndsSuccess(s, e, key)
    ensures Settled(Next(s, e).table, key.callId, key.fromTag)
            <==> if e.FinalSuccess? || e.SettleAnswer? then key.toTag != "" || !Live(s.table, key)
                 else Settled(s.table, key.callId, key.fromTag)
  {
    match e
    case FinalSuccess(t, k, order) => MarkingSettles(s, t, key, order);
    case SettleAnswer(t, order) => MarkingSettles(s, t, key, order);
    case _ => EnsureKeepsSettled(s.table, key);
  }

  lemma MarkingSettles(s: State, t: nat, key: Key, order: seq<Key>)
    requires Enumerates(order, DoomedBySuccess(s.table, key))
    ensures Settled(MarkAndPlan(s, t, Won(s.table, key), order).table, key.callId, key.fromTag) <==> key.toTag != "" || !Live(s.table, key)
  {
    var w := Won(s.table, key);
    var r := MarkAndPlan(s, t, w, order).table;
    assert forall k :: k in order <==> k in DoomedBySuccess(s.table, key);
    if key.toTag == "" && Live(s.table, key) {
      assert key in r.sessions && r.sessions[key] == w.sessions[key];
    }
  }

  /** An early branch is copied only from an entry that is live and untagged itself. */
  lemma EnsureKeepsSettled(t: Table, key: Key)
    ensures Settled(Ensure(t, key), key.callId, key.fromTag) <==> Settled(t, key.callId, key.fromTag)
  {
    var e, initial := Ensure(t, key), key.(toTag := "");
    if e != t {
      assert SamePair(initial, key.callId, key.fromTag) && initial in t.sessions && initial in e.sessions;
      assert e.sessions[initial] == t.sessions[initial];
    }
  }

  /** The table after onInviteResponse has handled, undisturbed, a 2xx with SDP while rtpengine is configured. */
  function AfterAnsweredSuccess(t: Table, key: Key, sdp: string, answered: bool): Table {
    var began := Ensure(t, key);
    if !Live(began, key) || !answered then began
    else
      var committed := CommitResponse(began, key, sdp, true);
      Terminate(Won(committed, key), DoomedBySuccess(committed, key))
  }

  /** Such a response settles its pair only when the session is live and rtpengine answers; the early returns mark nothing. */
  lemma AnsweredSuccessSettles(t: Table, key: Key, sdp: string, answered: bool)
    ensures Settled(AfterAnsweredSuccess(t, key, sdp, answered), key.callId, key.fromTag)
            <==> if Live(Ensure(t, key), key) && answered then key.toTag != "" else Settled(t, key.callId, key.fromTag)
  {
    EnsureKeepsSettled(t, key);
    var began := Ensure(t, key);
    if Live(began, key) && answered {
      var committed := CommitResponse(began, key, sdp, true);
      var w := Won(committed, key);
      assert Live(committed, key) && key in w.sessions && w.sessions[key].lifecycle.Established?;
      assert key !in DoomedBySuccess(committed, key);
      assert key in AfterAnsweredSuccess(t, key, sdp, answered).sessions;
    }
  }

  /** A call whose 200 OK rtpengine fails to answer keeps an early session after that final response. */
  lemma FailedAnswerDoesNotSettle()
    ensures var call := Key("c", "a", ""); var key := Key("c", "a", "b");
            var s := Run(INITIAL, [Invite(call), BeginResponse(0, key, true), AnswerFailed(0)]);
            s.threads == map[] && !Settled(s.table, "c", "a")
  {
    var call, key := Key("c", "a", ""), Key("c", "a", "b");
    var es := [Invite(call), BeginResponse(0, key, true), AnswerFailed(0)];
    assert es[..2] == [Invite(call), BeginResponse(0, key, true)] && es[..2][..1] == [Invite(call)] && es[..2][..1][..0] == [];
    var s1 := Next(INITIAL, Invite(call));
    assert Run(INITIAL, [Invite(call)]) == s1;
    var s2 := Next(s1, BeginResponse(0, key, true));
    assert Run(INITIAL, es[..2]) == s2;
    assert Live(Ensure(s1.table, key), key) && key in s2.table.sessions;
    assert s2.threads == map[0 := Answering(key, true)];
  }

  /** The initial session of a call and the early session of one fork, whose 183 rtpengine has answered. */
  predicate OneFork(s: State, call: Key, x: Key) {
    && s.threads == map[] && s.table.sessions.Keys == {call, x} && call != x
    && Live(s.table, call) && s.table.sessions[x].lifecycle.Early?
  }

  lemma OneForkIsReachable(call: Key, x: Key)
    requires call == Key("c", "a", "") && x == Key("c", "a", "x")
    ensures OneFork(Run(INITIAL, [Invite(call), BeginResponse(0, x, false), CommitAnswer(0, "sdp")]), call, x)
  {
    var es := [Invite(call), BeginResponse(0, x, false), CommitAnswer(0, "sdp")];
    var s1 := Next(INITIAL, es[0]);
    assert es[..2][..1] == [es[0]] && es[..2][..1][..0] == [] && es[..2][1] == es[1];
    assert Run(INITIAL, [es[0]]) == s1;
    var s2 := Next(s1, es[1]);
    assert Run(INITIAL, es[..2]) == s2;
    assert s2.threads == map[0 := Answering(x, false)] && s2.table.sessions.Keys == {call, x};
  }

  /** A CANCEL of the call, and then a 2xx from another fork: its session is not live, and the first fork's stays early. */
  lemma CancelledCallRefuses(s: State, call: Key, x: Key, y: Key)
    requires OneFork(s, call, x) && y.(toTag := "") == call && y != x && y != call && SamePair(x, y.callId, y.fromTag)
    ensures var c := Next(s, TerminateRequest(1, call));
            && Enabled(c, BeginResponse(2, y, true)) && EndsSuccess(c, BeginResponse(2, y, true), y)
            && !Settled(Next(c, BeginResponse(2, y, true)).table, y.callId, y.fromTag)
  {
    var c := Next(s, TerminateRequest(1, call));
    assert Target(s.table, call) == Some(call);
    assert call in [call] && x !in [call];
    assert x in c.table.sessions && c.table.sessions[x] == s.table.sessions[x];
    assert Ensure(c.table, y) == c.table;
  }

  /** Neither does a 200 OK from one fork after a CANCEL that met another fork's early session. */
  lemma RefusedBeginDoesNotSettle()
    ensures var call, x, y := Key("c", "a", ""), Key("c", "a", "x"), Key("c", "a", "y");
            var s := Run(INITIAL, [Invite(call), BeginResponse(0, x, false), CommitAnswer(0, "sdp"), TerminateRequest(1, call)]);
            && Enabled(s, BeginResponse(2, y, true)) && EndsSuccess(s, BeginResponse(2, y, true), y)
            && !Settled(Next(s, BeginResponse(2, y, true)).table, "c", "a")
  {
    hide Next, Settled, EndsSuccess;
    var call, x, y := Key("c", "a", ""), Key("c", "a", "x"), Key("c", "a", "y");
    OneForkIsReachable(call, x);
    var es := [Invite(call), BeginResponse(0, x, false), CommitAnswer(0, "sdp"), TerminateRequest(1, call)];
    assert es[..3] == [Invite(call), BeginResponse(0, x, false), CommitAnswer(0, "sdp")];
    CancelledCallRefuses(Run(INITIAL, es[..3]), call, x, y);
    assert Run(INITIAL, es) == Next(Run(INITIAL, es[..3]), es[3]);
  }

  lemma FailureSettles(s: State, t: nat, key: Key, order: seq<Key>)
    requires Enabled(s, FinalFailure(t, key, order))
    ensures Settled(Next(s, FinalFailure(t, key, order)).table, key.callId, key.fromTag)
  {
    assert forall k :: k in order <==> k in DoomedByFailure(s.table, key);
  }

  lemma NextKeepsSettled(s: State, e: Event, callId: string, fromTag: string)
    requires Enabled(s, e) && Settled(s.table, callId, fromTag)
    requires e.Invite? ==> !SamePair(e.key, callId, fromTag)
    ensures Settled(Next(s, e).table, callId, fromTag)
  {}

  /** A settled pair stays settled whatever late, forked or failed responses, BYEs and CANCELs follow, until its next INVITE. */
  lemma {:induction false} RunKeepsSettled(s: State, es: seq<Event>, callId: string, fromTag: string)
    requires Settled(s.table, callId, fromTag)
    requires forall i | 0 <= i < |es| && es[i].Invite? :: !SamePair(es[i].key, callId, fromTag)
    ensures Settled(Run(s, es).table, callId, fromTag)
  {
    if es != [] {
      hide Settled, Next;
      var p, e := Run(s, es[..|es| - 1]), es[|es| - 1];
      RunKeepsSettled(s, es[..|es| - 1], callId, fromTag);
      if Enabled(p, e) { NextKeepsSettled(p, e, callId, fromTag); }
    }
  }

  // ---------- Plans ----------

  ghost predicate Outstanding(threads: map<nat, Thread>, p: Plan) {
    exists n :: n in threads && threads[n].Completing? && p in threads[n].plans
  }

  /** Every entry is filed under the names rtpengine knows it by, and has a number of its own. */
  ghost predicate EntriesInv(t: Table) {
    && (forall k | k in t.sessions :: t.sessions[k].media == MediaOf(k) && t.sessions[k].incarnation < t.created)
    && (forall j, k | j in t.sessions && k in t.sessions && j != k :: t.sessions[j].incarnation != t.sessions[k].incarnation)
  }

  /** No incarnation is planned twice, live ones not at all; a terminating entry's own plan is outstanding. */
  ghost predicate PlansInv(s: State) {
    && (forall i, j | 0 <= i < j < |s.planned| :: s.planned[i] != s.planned[j])
    && (forall i | 0 <= i < |s.planned| :: s.planned[i] < s.table.created)
    && (forall k | Live(s.table, k) :: s.table.sessions[k].incarnation !in s.planned)
    && (forall k | k in s.table.sessions && s.table.sessions[k].lifecycle.Terminating? ::
          Outstanding(s.threads, PlanFor(k, s.table.sessions[k])))
  }

  /** Outstanding plans name the media of their own key. */
  ghost predicate MediaInv(s: State) {
    forall n, i | n in s.threads && s.threads[n].Completing? && 0 <= i < |s.threads[n].plans| ::
      s.threads[n].plans[i].media == MediaOf(s.threads[n].plans[i].key)
  }

  ghost predicate Inv(s: State) { EntriesInv(s.table) && PlansInv(s) && MediaInv(s) }

  /** The table steps that terminate nothing: entries keep their number or get a fresh one, and never come back from Terminating. */
  ghost predicate Quiet(t: Table, t': Table) {
    && t.created <= t'.created
    && (forall k | Live(t', k) :: t'.sessions[k].incarnation >= t.created || (Live(t, k) && t.sessions[k].incarnation == t'.sessions[k].incarnation))
    && (forall k | k in t'.sessions && t'.sessions[k].lifecycle.Terminating? ::
          k in t.sessions && t.sessions[k].lifecycle.Terminating? && PlanFor(k, t.sessions[k]) == PlanFor(k, t'.sessions[k]))
  }

  lemma CreateIsQuiet(t: Table, k: Key)
    requires EntriesInv(t)
    ensures EntriesInv(Create(t, k)) && Quiet(t, Create(t, k))
  {}

  lemma SetCallerSdpIsQuiet(t: Table, k: Key, sdp: string)
    requires EntriesInv(t)
    ensures EntriesInv(SetCallerSdp(t, k, sdp)) && Quiet(t, SetCallerSdp(t, k, sdp))
  {
    hide MediaOf;
  }

  lemma EnsureIsQuiet(t: Table, k: Key)
    requires EntriesInv(t)
    ensures EntriesInv(Ensure(t, k)) && Quiet(t, Ensure(t, k))
  {}

  lemma CommitIsQuiet(t: Table, k: Key, sdp: string, established: bool)
    requires EntriesInv(t)
    ensures EntriesInv(CommitResponse(t, k, sdp, established)) && Quiet(t, CommitResponse(t, k, sdp, established))
  {}

  lemma EstablishIsQuiet(t: Table, k: Key)
    requires EntriesInv(t)
    ensures EntriesInv(Establish(t, k)) && Quiet(t, Establish(t, k))
  {}

  lemma WonIsQuiet(t: Table, k: Key)
    requires EntriesInv(t)
    ensures EntriesInv(Won(t, k)) && Quiet(t, Won(t, k))
  {
    hide Ensure, Establish, EntriesInv, PlanFor;
    EnsureIsQuiet(t, k);
    EstablishIsQuiet(Ensure(t, k), k);
  }

  /** A quiet step by a thread that is not carrying out plans. */
  lemma QuietKeepsPlans(s: State, t': Table, threads': map<nat, Thread>)
    requires PlansInv(s) && Quiet(s.table, t')
    requires forall n | n in s.threads && s.threads[n].Completing? :: n in threads' && threads'[n] == s.threads[n]
    ensures PlansInv(State(t', threads', s.planned))
  {
    hide PlanFor;
    forall k | k in t'.sessions && t'.sessions[k].lifecycle.Terminating? ensures Outstanding(threads', PlanFor(k, t'.sessions[k])) {
      var p := PlanFor(k, t'.sessions[k]);
      assert Outstanding(s.threads, p);
      var n :| n in s.threads && s.threads[n].Completing? && p in s.threads[n].plans;
      assert threads'[n] == s.threads[n];
    }
  }

  lemma MarkKeepsPlans(s: State, n: nat, order: seq<Key>)
    requires EntriesInv(s.table) && PlansInv(s) && MediaInv(s)
    requires n in s.threads ==> !s.threads[n].Completing?
    requires forall i | 0 <= i < |order| :: Live(s.table, order[i])
    requires forall i, j | 0 <= i < j < |order| :: order[i] != order[j]
    ensures Inv(MarkAndPlan(s, n, s.table, order))
  {
    hide PlanFor, EntriesInv, MediaInv;
    var s' := MarkAndPlan(s, n, s.table, order);
    var plans := Plans(s.table, order);
    MarkKeepsEntries(s, n, order);
    forall k | k in s'.table.sessions && s'.table.sessions[k].lifecycle.Terminating?
      ensures Outstanding(s'.threads, PlanFor(k, s'.table.sessions[k]))
    {
      MarkingKeepsPlan(k, s.table.sessions[k]);
      var p := PlanFor(k, s.table.sessions[k]);
      if k in order {
        var i :| 0 <= i < |order| && order[i] == k;
        assert plans[i] == p && s'.threads[n].plans[i] == p;
      } else {
        assert Outstanding(s.threads, p);
        var m :| m in s.threads && s.threads[m].Completing? && p in s.threads[m].plans;
        assert s'.threads[m] == s.threads[m];
      }
    }
    NewPlansAreNew(s, order);
  }

  lemma MarkKeepsEntries(s: State, n: nat, order: seq<Key>)
    requires EntriesInv(s.table) && MediaInv(s)
    requires forall i | 0 <= i < |order| :: order[i] in s.table.sessions
    ensures EntriesInv(MarkAndPlan(s, n, s.table, order).table) && MediaInv(MarkAndPlan(s, n, s.table, order))
  {
    hide PlanFor;
    forall i | 0 <= i < |order| ensures Plans(s.table, order)[i].media == MediaOf(Plans(s.table, order)[i].key) {
      PlanNames(order[i], s.table.sessions[order[i]]);
    }
  }

  lemma PlanNames(k: Key, s: Session)
    ensures PlanFor(k, s).incarnation == s.incarnation && PlanFor(k, s).media == s.media && PlanFor(k, s).key == k
  {}

  lemma MarkingKeepsPlan(k: Key, s: Session)
    ensures PlanFor(k, s.(lifecycle := Terminating)) == PlanFor(k, s)
  {}

  lemma NewPlansAreNew(s: State, order: seq<Key>)
    requires EntriesInv(s.table) && PlansInv(s)
    requires forall i | 0 <= i < |order| :: Live(s.table, order[i])
    requires forall i, j | 0 <= i < j < |order| :: order[i] != order[j]
    ensures var planned := s.planned + Incarnations(Plans(s.table, order));
            && (forall i, j | 0 <= i < j < |planned| :: planned[i] != planned[j])
            && (forall i | 0 <= i < |planned| :: planned[i] < s.table.created)
            && (forall k | Live(s.table, k) && k !in order :: s.table.sessions[k].incarnation !in planned)
  {
    var added := Incarnations(Plans(s.table, order));
    forall i | 0 <= i < |added| ensures added[i] == s.table.sessions[order[i]].incarnation && added[i] !in s.planned {}
  }

  lemma CompleteKeepsInv(s: State, n: nat)
    requires Inv(s) && Enabled(s, CompleteOne(n))
    ensures Inv(Next(s, CompleteOne(n)))
  {
    hide PlanFor;
    var s' := Next(s, CompleteOne(n));
    var plans := s.threads[n].plans;
    forall k | k in s'.table.sessions && s'.table.sessions[k].lifecycle.Terminating?
      ensures Outstanding(s'.threads, PlanFor(k, s'.table.sessions[k]))
    {
      var p := PlanFor(k, s.table.sessions[k]);
      PlanNames(k, s.table.sessions[k]);
      assert Outstanding(s.threads, p);
      var m :| m in s.threads && s.threads[m].Completing? && p in s.threads[m].plans;
      if m == n {
        var i :| 0 <= i < |plans| && plans[i] == p;
        assert i > 0;
        assert plans[1..][i - 1] == p;
      }
      assert p in s'.threads[m].plans;
    }
  }

  lemma {:induction false} NextKeepsInv(s: State, e: Event)
    requires Enabled(s, e) && Inv(s)
    ensures Inv(Next(s, e))
  {
    hide EntriesInv, PlansInv, Quiet, Ensure, Create, SetCallerSdp, CommitResponse, Won, PlanFor, Plans, Terminate;
    match e
    case Invite(key) =>
      CreateIsQuiet(s.table, key);
      QuietKeepsPlans(s, Create(s.table, key), s.threads);
    case CallerSdp(key, sdp) =>
      SetCallerSdpIsQuiet(s.table, key, sdp);
      QuietKeepsPlans(s, SetCallerSdp(s.table, key, sdp), s.threads);
    case BeginResponse(t, key, established) =>
      EnsureIsQuiet(s.table, key);
      QuietKeepsPlans(s, Ensure(s.table, key), Next(s, e).threads);
    case AnswerFailed(t) =>
      QuietStutter(s.table);
      QuietKeepsPlans(s, s.table, s.threads - {t});
    case CommitAnswer(t, sdp) =>
      CommitIsQuiet(s.table, s.threads[t].key, sdp, s.threads[t].established);
      QuietKeepsPlans(s, CommitResponse(s.table, s.threads[t].key, sdp, s.threads[t].established), Next(s, e).threads);
    case SettleAnswer(t, order) =>
      SuccessKeepsInv(s, t, s.threads[t].key, order);
    case FinalSuccess(t, key, order) =>
      SuccessKeepsInv(s, t, key, order);
    case FinalFailure(t, key, order) =>
      MarkKeepsPlans(s, t, order);
    case TerminateRequest(t, key) =>
      var target := Target(s.table, key);
      if target.Some? && Live(s.table, target.value) { MarkKeepsPlans(s, t, [target.value]); }
    case CompleteOne(t) =>
      CompleteKeepsInv(s, t);
  }

  lemma QuietStutter(t: Table)
    ensures Quiet(t, t)
  {}

  lemma SuccessKeepsInv(s: State, n: nat, key: Key, order: seq<Key>)
    requires Inv(s) && (n in s.threads ==> !s.threads[n].Completing?)
    requires Enumerates(order, DoomedBySuccess(s.table, key))
    ensures Inv(MarkAndPlan(s, n, Won(s.table, key), order))
  {
    hide EntriesInv, PlansInv, Quiet, Won, PlanFor, Plans, Terminate;
    var won := s.(table := Won(s.table, key));
    WonIsQuiet(s.table, key);
    QuietKeepsPlans(s, won.table, s.threads);
    MarkKeepsPlans(won, n, order);
  }

  lemma {:induction false} RunKeepsInv(es: seq<Event>)
    ensures Inv(Run(INITIAL, es))
  {
    if es != [] {
      hide Inv, Next;
      var p, e := Run(INITIAL, es[..|es| - 1]), es[|es| - 1];
      RunKeepsInv(es[..|es| - 1]);
      if Enabled(p, e) { NextKeepsInv(p, e); }
    }
  }

  /** Over every run: a plan to be carried out names the media of its own key, every terminating entry's plan is
      still to be carried out, and no incarnation of an entry is ever planned twice. */
  lemma PlansAreSound(es: seq<Event>)
    ensures var s := Run(INITIAL, es);
            && (forall k | k in s.table.sessions :: s.table.sessions[k].media == Media(k.callId, k.fromTag, k.toTag))
            && (forall n, i | n in s.threads && s.threads[n].Completing? && 0 <= i < |s.threads[n].plans| ::
                  var p := s.threads[n].plans[i]; p.media == Media(p.key.callId, p.key.fromTag, p.key.toTag))
            && (forall k | k in s.table.sessions && s.table.sessions[k].lifecycle.Terminating? ::
                  var x := s.table.sessions[k];
                  Outstanding(s.threads, Plan(k, x.media, x.rxSessionId, x.qosActive, x.incarnation)))
            && (forall i, j | 0 <= i < j < |s.planned| :: s.planned[i] != s.planned[j])
  {
    RunKeepsInv(es);
  }

  // ---------- Whose media a plan deletes ----------

  predicate HasPlan(s: State, n: nat, i: nat) {
    n in s.threads && s.threads[n].Completing? && i < |s.threads[n].plans|
  }

  /** Plans to be carried out were recorded, and the entry at a plan's key is none older than the plan; a terminating entry was planned. */
  ghost predicate AgeInv(s: State) {
    && (forall n, i: nat | HasPlan(s, n, i) ::
          var p := s.threads[n].plans[i];
          p.incarnation in s.planned && p.incarnation < s.table.created
          && (p.key in s.table.sessions ==> s.table.sessions[p.key].incarnation >= p.incarnation))
    && (forall k | k in s.table.sessions && s.table.sessions[k].lifecycle.Terminating? :: s.table.sessions[k].incarnation in s.planned)
  }

  /** Entries are kept or replaced by younger ones, and none becomes terminating. */
  ghost predicate Renewed(t: Table, t': Table) {
    && t.created <= t'.created
    && (forall k | k in t'.sessions ::
          t'.sessions[k].incarnation >= t.created || (k in t.sessions && t.sessions[k].incarnation == t'.sessions[k].incarnation))
    && (forall k | k in t'.sessions && t'.sessions[k].lifecycle.Terminating? ::
          k in t.sessions && t.sessions[k].lifecycle.Terminating? && t.sessions[k].incarnation == t'.sessions[k].incarnation)
  }

  lemma QuietIsRenewed(t: Table, t': Table)
    requires Quiet(t, t')
    ensures Renewed(t, t')
  {
  }

  lemma RenewedKeepsAge(s: State, t': Table, threads': map<nat, Thread>)
    requires AgeInv(s) && Renewed(s.table, t')
    requires forall n | n in threads' && threads'[n].Completing? :: n in s.threads && s.threads[n] == threads'[n]
    ensures AgeInv(State(t', threads', s.planned))
  {
    forall n, i: nat | HasPlan(State(t', threads', s.planned), n, i) ensures HasPlan(s, n, i) { }
  }

  lemma MarkKeepsAge(s: State, n: nat, order: seq<Key>)
    requires AgeInv(s) && EntriesInv(s.table)
    requires forall i | 0 <= i < |order| :: order[i] in s.table.sessions
    ensures AgeInv(MarkAndPlan(s, n, s.table, order))
  {
    var s' := MarkAndPlan(s, n, s.table, order);
    var added := Incarnations(Plans(s.table, order));
    forall i | 0 <= i < |order| ensures s.table.sessions[order[i]].incarnation in s'.planned {
      assert s'.planned[|s.planned| + i] == added[i] == s.table.sessions[order[i]].incarnation;
    }
    forall m, i: nat | HasPlan(s', m, i) && m != n ensures HasPlan(s, m, i) { }
  }

  lemma CompleteKeepsAge(s: State, n: nat)
    requires AgeInv(s) && Enabled(s, CompleteOne(n))
    ensures AgeInv(Next(s, CompleteOne(n)))
  {
    var s' := Next(s, CompleteOne(n));
    forall m, i: nat | HasPlan(s', m, i)
      ensures HasPlan(s, m, if m == n then i + 1 else i) && s'.threads[m].plans[i] == s.threads[m].plans[if m == n then i + 1 else i] { }
  }

  lemma SuccessKeepsAge(s: State, n: nat, key: Key, order: seq<Key>)
    requires AgeInv(s) && EntriesInv(s.table) && (n in s.threads ==> !s.threads[n].Completing?)
    requires Enumerates(order, DoomedBySuccess(s.table, key))
    ensures AgeInv(MarkAndPlan(s, n, Won(s.table, key), order))
  {
    hide AgeInv, EntriesInv, Quiet, Renewed, Won, MarkAndPlan;
    WonIsQuiet(s.table, key);
    QuietIsRenewed(s.table, Won(s.table, key));
    RenewedKeepsAge(s, Won(s.table, key), s.threads);
    MarkKeepsAge(s.(table := Won(s.table, key)), n, order);
    MarkIgnoresTable(s, n, Won(s.table, key), order);
  }

  lemma MarkIgnoresTable(s: State, n: nat, t: Table, order: seq<Key>)
    requires forall i | 0 <= i < |order| :: order[i] in t.sessions
    ensures MarkAndPlan(s.(table := t), n, t, order) == MarkAndPlan(s, n, t, order)
  {
  }

  lemma NextKeepsAge(s: State, e: Event)
    requires Enabled(s, e) && Inv(s) && AgeInv(s)
    ensures AgeInv(Next(s, e))
  {
    hide AgeInv, EntriesInv, PlansInv, MediaInv, Quiet, Renewed, Ensure, Create, SetCallerSdp, CommitResponse, Won, PlanFor, Plans, Terminate;
    match e
    case Invite(key) =>
      CreateIsQuiet(s.table, key);
      QuietIsRenewed(s.table, Create(s.table, key));
      RenewedKeepsAge(s, Create(s.table, key), s.threads);
    case CallerSdp(key, sdp) =>
      SetCallerSdpIsQuiet(s.table, key, sdp);
      QuietIsRenewed(s.table, SetCallerSdp(s.table, key, sdp));
      RenewedKeepsAge(s, SetCallerSdp(s.table, key, sdp), s.threads);
    case BeginResponse(t, key, established) =>
      EnsureIsQuiet(s.table, key);
      QuietIsRenewed(s.table, Ensure(s.table, key));
      RenewedKeepsAge(s, Ensure(s.table, key), Next(s, e).threads);
    case AnswerFailed(t) =>
      QuietStutter(s.table);
      QuietIsRenewed(s.table, s.table);
      RenewedKeepsAge(s, s.table, s.threads - {t});
    case CommitAnswer(t, sdp) =>
      var a := s.threads[t];
      CommitIsQuiet(s.table, a.key, sdp, a.established);
      QuietIsRenewed(s.table, CommitResponse(s.table, a.key, sdp, a.established));
      RenewedKeepsAge(s, CommitResponse(s.table, a.key, sdp, a.established), Next(s, e).threads);
    case SettleAnswer(t, order) =>
      SuccessKeepsAge(s, t, s.threads[t].key, order);
    case FinalSuccess(t, key, order) =>
      SuccessKeepsAge(s, t, key, order);
    case FinalFailure(t, key, order) =>
      MarkKeepsAge(s, t, order);
    case TerminateRequest(t, key) =>
      var target := Target(s.table, key);
      if target.Some? && Live(s.table, target.value) { MarkKeepsAge(s, t, [target.value]); }
    case CompleteOne(t) =>
      CompleteKeepsAge(s, t);
  }

  lemma {:induction false} RunKeepsAge(es: seq<Event>)
    ensures AgeInv(Run(INITIAL, es))
  {
    if es != [] {
      hide Inv, AgeInv, Next;
      var p, e := Run(INITIAL, es[..|es| - 1]), es[|es| - 1];
      RunKeepsAge(es[..|es| - 1]);
      RunKeepsInv(es[..|es| - 1]);
      if Enabled(p, e) { NextKeepsAge(p, e); }
    }
  }

  /**
   * Plans name their media by call and tags, so a plan deletes the media of whatever session bears its key by
   * then. In every reachable state that is a live one exactly when a later incarnation, not planned itself, stands there.
   */
  lemma PlanMeetsALaterIncarnation(es: seq<Event>, n: nat, i: nat)
    requires HasPlan(Run(INITIAL, es), n, i)
    ensures var s := Run(INITIAL, es); var p := s.threads[n].plans[i];
            Live(s.table, p.key) <==>
              p.key in s.table.sessions && s.table.sessions[p.key].incarnation > p.incarnation
              && s.table.sessions[p.key].incarnation !in s.planned
  {
    hide MediaInv, EntriesInv, Outstanding, Run;
    RunKeepsInv(es);
    RunKeepsAge(es);
    var s := Run(INITIAL, es);
    var p := s.threads[n].plans[i];
    assert p.incarnation in s.planned && (p.key in s.table.sessions ==> s.table.sessions[p.key].incarnation >= p.incarnation);
  }

  /** A call that is set up again before its old session's plan is carried out loses its new media. */
  lemma PlanCanDeleteANewCall()
    ensures var call := Key("c", "a", "");
            var s := Run(INITIAL, [Invite(call), TerminateRequest(0, call), Invite(call)]);
            HasPlan(s, 0, 0) && s.threads[0].plans[0].key == call && Enabled(s, CompleteOne(0)) && Live(s.table, call)
  {
    var call := Key("c", "a", "");
    var es := [Invite(call), TerminateRequest(0, call), Invite(call)];
    assert es[..2] == [Invite(call), TerminateRequest(0, call)] && es[..2][..1] == [Invite(call)] && es[..2][..1][..0] == [];
    var s1 := Next(INITIAL, Invite(call));
    assert Run(INITIAL, [Invite(call)]) == s1;
    assert Target(s1.table, call) == Some(call) && Live(s1.table, call);
    var s2 := Next(s1, TerminateRequest(0, call));
    assert Run(INITIAL, es[..2]) == s2;
    assert s2.threads[0] == Completing(Plans(s1.table, [call]));
  }

  /** A branch of its own is made for the key. */
  predicate Copies(t: Table, k: Key) {
    k !in t.sessions && k.toTag != "" && Live(t, k.(toTag := ""))
  }

  /** A session is created at the key, or a branch is copied to it. */
  predicate Renews(s: State, e: Event, k: Key) {
    match e
    case Invite(key) => key == k
    case BeginResponse(_, key, _) => key == k && Copies(s.table, k)
    case FinalSuccess(_, key, _) => key == k && Copies(s.table, k)
    case SettleAnswer(t, _) => t in s.threads && s.threads[t] == Settling(k) && Copies(s.table, k)
    case _ => false
  }

  lemma OnlyRenewalRevives(s: State, e: Event, k: Key)
    requires Enabled(s, e) && !Live(s.table, k)
    ensures Live(Next(s, e).table, k) <==> Renews(s, e, k)
  {
    match e
    case SettleAnswer(t, order) => SuccessRevives(s, t, s.threads[t].key, order, k);
    case FinalSuccess(t, key, order) => SuccessRevives(s, t, key, order, k);
    case _ =>
  }

  lemma SuccessRevives(s: State, t: nat, key: Key, order: seq<Key>, k: Key)
    requires Enumerates(order, DoomedBySuccess(s.table, key)) && !Live(s.table, k)
    ensures Live(MarkAndPlan(s, t, Won(s.table, key), order).table, k) <==> key == k && Copies(s.table, k)
  {
    if k == key { assert k !in DoomedBySuccess(s.table, key); }
  }

  ghost predicate NeverRenewed(s: State, es: seq<Event>, k: Key) {
    forall i | 0 <= i < |es| && Enabled(Run(s, es[..i]), es[i]) :: !Renews(Run(s, es[..i]), es[i], k)
  }

  lemma {:induction false} StaysDead(s: State, es: seq<Event>, k: Key)
    requires !Live(s.table, k) && NeverRenewed(s, es, k)
    ensures !Live(Run(s, es).table, k)
  {
    if es != [] {
      hide Next, Renews, Live;
      var init := es[..|es| - 1];
      forall i | 0 <= i < |init| && Enabled(Run(s, init[..i]), init[i]) ensures !Renews(Run(s, init[..i]), init[i], k) {
        assert init[..i] == es[..i];
      }
      StaysDead(s, init, k);
      if Enabled(Run(s, init), es[|es| - 1]) { OnlyRenewalRevives(Run(s, init), es[|es| - 1], k); }
    }
  }

  predicate Marks(e: Event, t: nat) {
    match e
    case SettleAnswer(u, _) => u == t
    case FinalSuccess(u, _, _) => u == t
    case FinalFailure(u, _, _) => u == t
    case TerminateRequest(u, _) => u == t
    case _ => false
  }

  /** Plans made by a thread in one step, whatever other threads do then: as long as their keys are not renewed, they delete no live session. */
  lemma PlansDeleteNoLiveSession(s: State, e: Event, t: nat, i: nat, es: seq<Event>)
    requires Enabled(s, e) && Marks(e, t)
    requires HasPlan(Next(s, e), t, i) && NeverRenewed(Next(s, e), es, Next(s, e).threads[t].plans[i].key)
    ensures !Live(Run(Next(s, e), es).table, Next(s, e).threads[t].plans[i].key)
  {
    StaysDead(Next(s, e), es, Next(s, e).threads[t].plans[i].key);
  }

  // ---------- Lifecycles ----------

  function Rank(l: Lifecycle): nat {
    match l case Early => 0 case Established => 1 case Terminating => 2
  }

  /** Entries made before now either are gone, replaced by younger ones, or have moved forward only. */
  ghost predicate Advances(t: Table, t': Table) {
    && t.created <= t'.created
    && forall k | k in t'.sessions ::
      || t'.sessions[k].incarnation >= t.created
      || (k in t.sessions && t.sessions[k].incarnation == t'.sessions[k].incarnation
          && Rank(t.sessions[k].lifecycle) <= Rank(t'.sessions[k].lifecycle))
  }

  lemma WonAdvances(t: Table, key: Key)
    ensures Advances(t, Won(t, key))
  {}

  lemma MarkAdvances(s: State, n: nat, t: Table, t': Table, order: seq<Key>)
    requires Advances(t, t') && forall i | 0 <= i < |order| :: order[i] in t'.sessions
    ensures Advances(t, MarkAndPlan(s, n, t', order).table)
  {}

  lemma NextAdvances(s: State, e: Event)
    requires Enabled(s, e)
    ensures Advances(s.table, Next(s, e).table)
  {
    hide Won, MarkAndPlan;
    match e
    case SettleAnswer(t, order) =>
      WonAdvances(s.table, s.threads[t].key);
      MarkAdvances(s, t, s.table, Won(s.table, s.threads[t].key), order);
    case FinalSuccess(t, key, order) =>
      WonAdvances(s.table, key);
      MarkAdvances(s, t, s.table, Won(s.table, key), order);
    case FinalFailure(t, key, order) =>
      MarkAdvances(s, t, s.table, s.table, order);
    case TerminateRequest(t, key) =>
      var target := Target(s.table, key);
      if target.Some? && Live(s.table, target.value) { MarkAdvances(s, t, s.table, s.table, [target.value]); }
    case _ =>
  }

  /** Over every run, the lifecycle of an incarnation only moves from Early to Established to Terminating. */
  lemma {:induction false} LifecyclesOnlyAdvance(s: State, es: seq<Event>)
    ensures Advances(s.table, Run(s, es).table)
  {
    if es != [] {
      hide Next;
      var p, e := Run(s, es[..|es| - 1]), es[|es| - 1];
      LifecyclesOnlyAdvance(s, es[..|es| - 1]);
      if Enabled(p, e) { NextAdvances(p, e); }
    }
  }

  // ---------- Which session a request ends ----------

  /** The one effect of a BYE or CANCEL that finds the live session at the key: it is terminating, and thread t holds its plan. */
  ghost predicate EndsSessionAt(s: State, s': State, t: nat, at: Key) {
    && at in s.table.sessions
    && var x := s.table.sessions[at];
      && x.lifecycle != Terminating
      && s'.table.sessions == s.table.sessions[at := x.(lifecycle := Terminating)]
      && s'.threads == s.threads[t := Completing([Plan(at, x.media, x.rxSessionId, x.qosActive, x.incarnation)])]
  }

  /** A BYE of the caller, and a CANCEL, end the session under the request's own names. */
  lemma OwnSessionEnds(s: State, t: nat, c: string, a: string, b: string)
    requires t !in s.threads && Live(s.table, Key(c, a, b))
    ensures EndsSessionAt(s, Next(s, TerminateRequest(t, Key(c, a, b))), t, Key(c, a, b))
  {
    OnePlan(s, t, Key(c, a, b), Key(c, a, b));
  }

  /** Before its branch exists, the session of the INVITE. */
  lemma InitialSessionEnds(s: State, t: nat, c: string, a: string, b: string)
    requires t !in s.threads && b != "" && Key(c, a, b) !in s.table.sessions && Live(s.table, Key(c, a, ""))
    ensures EndsSessionAt(s, Next(s, TerminateRequest(t, Key(c, a, b))), t, Key(c, a, ""))
  {
    OnePlan(s, t, Key(c, a, b), Key(c, a, ""));
  }

  /** A BYE of the callee carries the tags exchanged and ends the caller's session. */
  lemma ReversedSessionEnds(s: State, t: nat, c: string, a: string, b: string)
    requires t !in s.threads && b != "" && Key(c, a, b) !in s.table.sessions && Key(c, a, "") !in s.table.sessions
    requires Live(s.table, Key(c, b, a))
    ensures EndsSessionAt(s, Next(s, TerminateRequest(t, Key(c, a, b))), t, Key(c, b, a))
  {
    OnePlan(s, t, Key(c, a, b), Key(c, b, a));
  }

  lemma ReversedInitialSessionEnds(s: State, t: nat, c: string, a: string, b: string)
    requires t !in s.threads && b != "" && Key(c, a, b) !in s.table.sessions && Key(c, a, "") !in s.table.sessions
    requires Key(c, b, a) !in s.table.sessions && Live(s.table, Key(c, b, ""))
    ensures EndsSessionAt(s, Next(s, TerminateRequest(t, Key(c, a, b))), t, Key(c, b, ""))
  {
    OnePlan(s, t, Key(c, a, b), Key(c, b, ""));
  }

  lemma OnePlan(s: State, t: nat, key: Key, at: Key)
    requires t !in s.threads && Target(s.table, key) == Some(at) && Live(s.table, at)
    ensures EndsSessionAt(s, Next(s, TerminateRequest(t, key)), t, at)
  {
    var s' := Next(s, TerminateRequest(t, key));
    assert s'.table.sessions == s.table.sessions[at := s.table.sessions[at].(lifecycle := Terminating)];
    assert Plans(s.table, [at]) == [PlanFor(at, s.table.sessions[at])];
  }

  /** A request changes nothing exactly when the first of those four sessions that exists is terminating already, or none exists. */
  lemma RequestIsInVainExactly(s: State, t: nat, c: string, a: string, b: string)
    requires t !in s.threads
    ensures var m := s.table.sessions;
            Next(s, TerminateRequest(t, Key(c, a, b))) == s
            <==> if Key(c, a, b) in m then m[Key(c, a, b)].lifecycle == Terminating
                 else if b == "" then true
                 else if Key(c, a, "") in m then m[Key(c, a, "")].lifecycle == Terminating
                 else if Key(c, b, a) in m then m[Key(c, b, a)].lifecycle == Terminating
                 else Key(c, b, "") in m ==> m[Key(c, b, "")].lifecycle == Terminating
  {
    hide MarkAndPlan;
    var target := Target(s.table, Key(c, a, b));
    if target.Some? && Live(s.table, target.value) { OnePlan(s, t, Key(c, a, b), target.value); }
  }

  /** A call hung up: its session goes once its plan is carried out, and no other is touched. */
  lemma HangingUpRemovesTheSession(s: State, t: nat, k: Key)
    requires t !in s.threads && Live(s.table, k)
    ensures var s' := Run(s, [TerminateRequest(t, k), CompleteOne(t)]);
            s'.table.sessions == s.table.sessions - {k} && s'.threads == s.threads[t := Completing([])]
  {
    var es, first := [TerminateRequest(t, k), CompleteOne(t)], [TerminateRequest(t, k)];
    assert es[..1] == first && first[..0] == [];
    var s1 := Next(s, es[0]);
    assert Run(s, first) == s1;
    OwnSessionEnds(s, t, k.callId, k.fromTag, k.toTag);
    var s2 := Next(s1, es[1]);
    assert Run(s, es) == s2;
    assert s1.threads[t].plans[1..] == [];
    assert s2.threads == s.threads[t := Completing([])];
    assert s2.table.sessions == s.table.sessions - {k};
  }

  // ---------- What a call's own steps leave ----------

  /** Whose call a step concerns: that of its message, or of the plan carried out. */
  function CallOf(s: State, e: Event): string
    requires Enabled(s, e)
  {
    match e
    case Invite(k) => k.callId
    case CallerSdp(k, _) => k.callId
    case BeginResponse(_, k, _) => k.callId
    case AnswerFailed(t) => s.threads[t].key.callId
    case CommitAnswer(t, _) => s.threads[t].key.callId
    case SettleAnswer(t, _) => s.threads[t].key.callId
    case FinalSuccess(_, k, _) => k.callId
    case FinalFailure(_, k, _) => k.callId
    case TerminateRequest(_, k) => k.callId
    case CompleteOne(t) => s.threads[t].plans[0].key.callId
  }

  predicate SameEntry(t: Table, t': Table, k: Key) {
    (k in t.sessions <==> k in t'.sessions) && (k in t.sessions ==> t.sessions[k] == t'.sessions[k])
  }

  lemma OtherCallsAreUntouched(s: State, e: Event, k: Key)
    requires Enabled(s, e) && k.callId != CallOf(s, e)
    ensures SameEntry(s.table, Next(s, e).table, k)
  {
    match e
    case SettleAnswer(t, order) => assert k !in order;
    case FinalSuccess(_, _, order) => assert k !in order;
    case FinalFailure(_, _, order) => assert k !in order;
    case _ =>
  }

  /** A final failure ends every session of its INVITE but the established branches. */
  lemma FailureEndsTheUnestablished(s: State, t: nat, key: Key, order: seq<Key>)
    requires Enabled(s, FinalFailure(t, key, order))
    ensures var m, m' := s.table.sessions, Next(s, FinalFailure(t, key, order)).table.sessions;
            && m'.Keys == m.Keys
            && forall k | k in m ::
              m'[k] == if k.callId == key.callId && k.fromTag == key.fromTag && !(k.toTag != "" && m[k].lifecycle == Established)
                       then m[k].(lifecycle := Terminating) else m[k]
  {
    assert forall k :: k in order <==> k in DoomedByFailure(s.table, key);
  }

  /** A final success does the same around the session that has won, and establishes that one. */
  lemma SuccessEstablishesTheWinner(s: State, t: nat, key: Key, order: seq<Key>)
    requires Enabled(s, FinalSuccess(t, key, order)) && Live(s.table, key)
    ensures var m, m' := s.table.sessions, Next(s, FinalSuccess(t, key, order)).table.sessions;
            && m'.Keys == m.Keys && m'[key] == m[key].(lifecycle := Established)
            && forall k | k in m && k != key ::
              m'[k] == if k.callId == key.callId && k.fromTag == key.fromTag && !(k.toTag != "" && m[k].lifecycle == Established)
                       then m[k].(lifecycle := Terminating) else m[k]
  {
    assert forall k :: k in order <==> k in DoomedBySuccess(s.table, key);
  }

  /** Marking hands the thread one plan for each session it ends, as that session stands. */
  lemma MarkingPlansWhatItEnds(s: State, e: Event, t: nat, k: Key)
    requires Enabled(s, e) && (e.FinalFailure? || e.FinalSuccess?) && e.t == t && Live(s.table, k) && e.key != k
    ensures var s', x := Next(s, e), s.table.sessions[k];
            s'.threads[t].Completing?
            && (s'.table.sessions[k].lifecycle == Terminating
                <==> Plan(k, x.media, x.rxSessionId, x.qosActive, x.incarnation) in s'.threads[t].plans)
  {
    var w := if e.FinalFailure? then s.table else Won(s.table, e.key);
    var plans := Plans(w, e.order);
    assert w.sessions[k] == s.table.sessions[k];
    if k in e.order {
      var i :| 0 <= i < |e.order| && e.order[i] == k;
      assert plans[i] == PlanFor(k, w.sessions[k]);
    }
  }

  /** A call set up undisturbed: the session of the dialog bears its tags, both SDP bodies and no Rx session, and is established. */
  lemma AnsweredCallIsEstablished(s: State, t: nat, c: string, a: string, b: string, offer: string, answer: string, order: seq<Key>)
    requires t !in s.threads && b != "" && Key(c, a, b) !in s.table.sessions
    requires var es := [Invite(Key(c, a, "")), CallerSdp(Key(c, a, ""), offer), BeginResponse(t, Key(c, a, b), true), CommitAnswer(t, answer)];
             Enabled(Run(s, es), SettleAnswer(t, order))
    ensures var es := [Invite(Key(c, a, "")), CallerSdp(Key(c, a, ""), offer), BeginResponse(t, Key(c, a, b), true), CommitAnswer(t, answer)];
            var m := Next(Run(s, es), SettleAnswer(t, order)).table.sessions;
            && Key(c, a, b) in m && Key(c, a, "") in m
            && m[Key(c, a, b)] == Session(Media(c, a, b), "", offer, answer, false, Established, s.table.created + 1)
            && m[Key(c, a, "")] == Session(Media(c, a, ""), "", offer, "", false, Terminating, s.table.created)
  {
    var call, key := Key(c, a, ""), Key(c, a, b);
    var es := [Invite(call), CallerSdp(call, offer), BeginResponse(t, key, true), CommitAnswer(t, answer)];
    var s4 := Run(s, es);
    CallIsAnswered(s, t, call, key, offer, answer);
    assert forall k :: k in order <==> k in DoomedBySuccess(s4.table, key);
    assert call in order && key !in order;
  }

  lemma CallIsAnswered(s: State, t: nat, call: Key, key: Key, offer: string, answer: string)
    requires t !in s.threads && key.toTag != "" && call == key.(toTag := "") && key !in s.table.sessions
    ensures var s4 := Run(s, [Invite(call), CallerSdp(call, offer), BeginResponse(t, key, true), CommitAnswer(t, answer)]);
            && key in s4.table.sessions && call in s4.table.sessions && t in s4.threads && s4.threads[t] == Settling(key)
            && s4.table.sessions[key] == Session(Media(key.callId, key.fromTag, key.toTag), "", offer, answer, false, Established, s.table.created + 1)
            && s4.table.sessions[call] == Session(Media(key.callId, key.fromTag, ""), "", offer, "", false, Early, s.table.created)
  {
    hide Next, Enabled;
    var es := [Invite(call), CallerSdp(call, offer), BeginResponse(t, key, true), CommitAnswer(t, answer)];
    assert es[..3] == [es[0], es[1], es[2]] && es[..3][..2] == [es[0], es[1]] && es[..3][..2][..1] == [es[0]] && es[..3][..2][..1][..0] == [];
    OfferIsKept(s, call, offer);
    var s1 := Next(s, es[0]);
    assert Run(s, [es[0]]) == s1;
    var s2 := Next(s1, es[1]);
    assert Run(s, [es[0], es[1]]) == s2;
    BranchCopiesTheCall(s2, t, call, key, true, answer);
    var s3 := Next(s2, es[2]);
    assert Run(s, es[..3]) == s3;
    assert Run(s, es) == Next(s3, es[3]);
  }

  lemma OfferIsKept(s: State, call: Key, offer: string)
    ensures Enabled(s, Invite(call)) && Enabled(Next(s, Invite(call)), CallerSdp(call, offer))
    ensures var s2 := Next(Next(s, Invite(call)), CallerSdp(call, offer));
            && s2.threads == s.threads && s2.table.created == s.table.created + 1
            && s2.table.sessions == s.table.sessions[call := Session(Media(call.callId, call.fromTag, call.toTag), "", offer, "", false, Early, s.table.created)]
  {
    var s1 := Next(s, Invite(call));
    assert call in s1.table.sessions;
  }

  /** A response with a new tag makes a branch of the call, which its answer completes; the call's own entry stays as it is. */
  lemma BranchCopiesTheCall(s: State, t: nat, call: Key, key: Key, established: bool, answer: string)
    requires t !in s.threads && key.toTag != "" && call == key.(toTag := "") && key !in s.table.sessions && Live(s.table, call)
    ensures Enabled(s, BeginResponse(t, key, established)) && Enabled(Next(s, BeginResponse(t, key, established)), CommitAnswer(t, answer))
    ensures var s4, x := Next(Next(s, BeginResponse(t, key, established)), CommitAnswer(t, answer)), s.table.sessions[call];
            && key in s4.table.sessions && call in s4.table.sessions
            && (if established then t in s4.threads && s4.threads[t] == Settling(key) else t !in s4.threads)
            && s4.table.sessions[call] == x
            && s4.table.sessions[key] == Session(Media(x.media.callId, x.media.fromTag, key.toTag), x.rxSessionId, x.callerSdp, answer,
                                                 x.qosActive, if established then Established else Early, s.table.created)
  {
    var s3 := Next(s, BeginResponse(t, key, established));
    assert Live(s3.table, key) && s3.threads[t] == Answering(key, established);
  }

  /** Further responses with that tag find the session there: the answer replaces the callee's SDP and, for a 2xx, establishes it. */
  lemma LaterAnswersUpdate(s: State, t: nat, key: Key, established: bool, answer: string)
    requires t !in s.threads && Live(s.table, key)
    ensures Enabled(s, BeginResponse(t, key, established)) && Enabled(Next(s, BeginResponse(t, key, established)), CommitAnswer(t, answer))
    ensures var s4, x := Next(Next(s, BeginResponse(t, key, established)), CommitAnswer(t, answer)), s.table.sessions[key];
            s4.table.sessions == s.table.sessions[key := x.(calleeSdp := answer, lifecycle := if established then Established else x.lifecycle)]
  {
    var s3 := Next(s, BeginResponse(t, key, established));
    assert s3.table == s.table && s3.threads[t] == Answering(key, established);
  }

  /** An answer for a session that is gone or has been ended meanwhile changes no session. */
  lemma LateAnswersAreDropped(s: State, t: nat, answer: string)
    requires Enabled(s, CommitAnswer(t, answer)) && !Live(s.table, s.threads[t].key)
    ensures Next(s, CommitAnswer(t, answer)).table == s.table
  {
  }
}
