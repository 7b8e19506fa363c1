// The S-CSCF's dialog table: every locked section of SessionRouter, and what
// holds over every order of INVITEs, forked responses, CANCELs, ACKs, BYEs and timeouts.

module DialogTable {
  import opened Options

  /** Three minutes, in milliseconds. */
  const INVITE_SESSION_TTL: int := 180_000

  datatype Endpoint = Endpoint(address: string, port: nat, transport: string)

  datatype Key = Key(callId: string, callerTag: string, calleeTag: string)

  datatype Session = Session(
    callId: string, callerTag: string, calleeTag: string, callerEndpoint: Endpoint, calleeEndpoint: Endpoint,
    inviteBranch: string, lastUpdated: int, established: bool, byeSeen: bool, cancelSeen: bool)

  datatype Request = Request(callId: string, fromTag: string, toTag: string)

  type Table = map<Key, Session>

  function InitialKey(callId: string, callerTag: string): Key { Key(callId, callerTag, "") }

  predicate Expired(s: Session, now: int) { !s.established && now - s.lastUpdated >= INVITE_SESSION_TTL }

  function Purged(t: Table, now: int): Table {
    map k | k in t && !Expired(t[k], now) :: t[k]
  }

  /** The locked part of handleInvite outside a dialog. An entry already there is overwritten field by field: all but cancelSeen. */
  function Invited(t: Table, callId: string, fromTag: string, source: Endpoint, dest: Endpoint, branch: string, now: int): Table {
    var purged, key := Purged(t, now), InitialKey(callId, fromTag);
    purged[key := Session(callId, fromTag, "", source, dest, branch, now, false, false, key in purged && purged[key].cancelSeen)]
  }

  function Recorded(t: Table, callId: string, callerTag: string, calleeTag: string, established: bool, now: int): Table {
    var key, initial := Key(callId, callerTag, calleeTag), InitialKey(callId, callerTag);
    if key in t then
      t[key := t[key].(established := t[key].established || established, lastUpdated := now)]
    else if initial in t then
      t[key := t[initial].(calleeTag := calleeTag, lastUpdated := now, established := established)]
    else t
  }

  predicate OfFailedInvite(k: Key, s: Session, callId: string, callerTag: string) {
    k.callId == callId && k.callerTag == callerTag && (k.calleeTag == "" || !s.established)
  }

  function InviteErased(t: Table, callId: string, callerTag: string): Table {
    map k | k in t && !OfFailedInvite(k, t[k], callId, callerTag) :: t[k]
  }

  /** The locked part of handleInviteResponseState. */
  function Responded(t: Table, callId: string, callerTag: string, status: int, calleeTag: string, now: int): Table {
    var purged := Purged(t, now);
    if status == 100 then purged
    else if 100 < status < 200 && calleeTag != "" then Recorded(purged, callId, callerTag, calleeTag, false, now)
    else if 200 <= status < 300 then
      (if calleeTag != "" then Recorded(purged, callId, callerTag, calleeTag, true, now) else purged) - {InitialKey(callId, callerTag)}
    else if 300 <= status <= 699 then InviteErased(purged, callId, callerTag)
    else purged
  }

  /** An in-dialog request names its dialog in either direction. */
  function FindSession(t: Table, r: Request): Option<Key> {
    var direct, reverse := Key(r.callId, r.fromTag, r.toTag), Key(r.callId, r.toTag, r.fromTag);
    if direct in t then Some(direct) else if reverse in t then Some(reverse) else None
  }

  function FindCancelSession(t: Table, r: Request): Option<Key> {
    var initial := InitialKey(r.callId, r.fromTag);
    if initial in t then Some(initial) else FindSession(t, r)
  }

  function ResolveDestination(r: Request, s: Session): Option<Endpoint> {
    if s.cancelSeen && s.calleeTag == "" && r.fromTag == s.callerTag && r.toTag == "" then Some(s.calleeEndpoint)
    else if s.calleeTag != "" && r.fromTag == s.callerTag && r.toTag == s.calleeTag then Some(s.calleeEndpoint)
    else if s.calleeTag != "" && r.fromTag == s.calleeTag && r.toTag == s.callerTag then Some(s.callerEndpoint)
    else None
  }

  /** Where an in-dialog request goes: none stands for a 481. */
  function Lookup(t: Table, r: Request): Option<(Key, Endpoint)> {
    var found := FindSession(t, r);
    if found.None? then None
    else
      var dest := ResolveDestination(r, t[found.value]);
      if dest.None? then None else Some((found.value, dest.value))
  }

  function ByeSeen(t: Table, r: Request): Table {
    var found := Lookup(t, r);
    if found.None? then t else t[found.value.0 := t[found.value.0].(byeSeen := true)]
  }

  function ByeAnswered(t: Table, key: Key): Table {
    if key in t && t[key].byeSeen then t - {key} else t
  }

  function CanceledErased(t: Table, key: Key): Table {
    var callerTag := if key.callerTag == "" then key.calleeTag else key.callerTag;
    var rest := t - {InitialKey(key.callId, callerTag)};
    if key.calleeTag != "" then rest - {key} else rest
  }

  /** The locked part of handleAck: the destination, and the table once a canceled call is forgotten. */
  function Acked(t: Table, r: Request): (Table, Option<Endpoint>) {
    var found := FindSession(t, r);
    if found.None? then
      var initial := InitialKey(r.callId, r.fromTag);
      if initial !in t || !t[initial].cancelSeen then (t, None)
      else (CanceledErased(t, initial), Some(t[initial].calleeEndpoint))
    else
      var s := t[found.value];
      var dest := ResolveDestination(r, s);
      if dest.None? then (t, None)
      else (if s.cancelSeen then CanceledErased(t, found.value) else t, dest)
  }

  function Canceled(t: Table, r: Request): Table {
    var found := FindCancelSession(t, r);
    if found.None? then t else t[found.value := t[found.value].(cancelSeen := true)]
  }

  class SessionRouter {
    var sessions: Table

    constructor ()
      ensures sessions == map[]
    {
      sessions := map[];
    }

    method EraseSession(key: Key)
      modifies this
      ensures sessions == old(sessions) - {key}
    {
      sessions := sessions - {key};
    }

    /** Erase while iterating. */
    method PurgeExpiredSessions(now: int)
      modifies this
      ensures sessions == Purged(old(sessions), now)
    {
      var rest := sessions.Keys;
      while rest != {}
        invariant rest <= sessions.Keys <= old(sessions).Keys
        invariant forall k | k in sessions :: sessions[k] == old(sessions)[k]
        invariant forall k | k in old(sessions) :: k in sessions <==> k in rest || !Expired(old(sessions)[k], now)
        decreases rest
      {
        var k :| k in rest;
        rest := rest - {k};
        if !sessions[k].established && now - sessions[k].lastUpdated >= INVITE_SESSION_TTL {
          EraseSession(k);
        }
      }
    }

    method EraseInviteSessions(callId: string, callerTag: string)
      modifies this
      ensures sessions == InviteErased(old(sessions), callId, callerTag)
    {
      var rest := sessions.Keys;
      while rest != {}
        invariant rest <= sessions.Keys <= old(sessions).Keys
        invariant forall k | k in sessions :: sessions[k] == old(sessions)[k]
        invariant forall k | k in old(sessions) :: k in sessions <==> k in rest || !OfFailedInvite(k, old(sessions)[k], callId, callerTag)
        decreases rest
      {
        var k :| k in rest;
        rest := rest - {k};
        if k.callId == callId && k.callerTag == callerTag && (k.calleeTag == "" || !sessions[k].established) {
          EraseSession(k);
        }
      }
    }

    method RecordInvite(callId: string, fromTag: string, source: Endpoint, dest: Endpoint, branch: string, now: int)
      modifies this
      ensures sessions == Invited(old(sessions), callId, fromTag, source, dest, branch, now)
    {
      PurgeExpiredSessions(now);
      var key := InitialKey(callId, fromTag);
      var cancelSeen := false;
      if key in sessions {
        cancelSeen := sessions[key].cancelSeen;
      }
      sessions := sessions[key := Session(callId, fromTag, "", source, dest, branch, now, false, false, cancelSeen)];
    }

    method RecordInviteResponseDialog(callId: string, callerTag: string, calleeTag: string, established: bool, now: int)
      modifies this
      ensures sessions == Recorded(old(sessions), callId, callerTag, calleeTag, established, now)
    {
      var key := Key(callId, callerTag, calleeTag);
      if key in sessions {
        sessions := sessions[key := sessions[key].(established := sessions[key].established || established)];
        sessions := sessions[key := sessions[key].(lastUpdated := now)];
        return;
      }
      var initial := InitialKey(callId, callerTag);
      if initial !in sessions {
        return;
      }
      var dialog := sessions[initial].(calleeTag := calleeTag);
      dialog := dialog.(lastUpdated := now, established := established);
      sessions := sessions[key := dialog];
    }

    method HandleInviteResponseState(callId: string, callerTag: string, status: int, calleeTag: string, now: int)
      modifies this
      ensures sessions == Responded(old(sessions), callId, callerTag, status, calleeTag, now)
    {
      PurgeExpiredSessions(now);
      if status == 100 {
        return;
      }
      if status > 100 && status < 200 && calleeTag != "" {
        RecordInviteResponseDialog(callId, callerTag, calleeTag, false, now);
        return;
      }
      if status >= 200 && status < 300 {
        if calleeTag != "" {
          RecordInviteResponseDialog(callId, callerTag, calleeTag, true, now);
        }
        EraseSession(InitialKey(callId, callerTag));
        return;
      }
      if status >= 300 && status <= 699 {
        EraseInviteSessions(callId, callerTag);
      }
    }

    method HandleBye(r: Request) returns (found: Option<(Key, Endpoint)>)
      modifies this
      ensures found == Lookup(old(sessions), r)
      ensures sessions == ByeSeen(old(sessions), r)
    {
      var session := FindSession(sessions, r);
      if session.None? {
        return None;
      }
      var dest := ResolveDestination(r, sessions[session.value]);
      if dest.None? {
        return None;
      }
      sessions := sessions[session.value := sessions[session.value].(byeSeen := true)];
      return Some((session.value, dest.value));
    }

    method HandleByeSuccess(key: Key)
      modifies this
      ensures sessions == ByeAnswered(old(sessions), key)
    {
      if key in sessions && sessions[key].byeSeen {
        EraseSession(key);
      }
    }

    method EraseCanceledSessions(key: Key)
      modifies this
      ensures sessions == CanceledErased(old(sessions), key)
    {
      var callerTag := key.callerTag;
      if callerTag == "" {
        callerTag := key.calleeTag;
      }
      EraseSession(InitialKey(key.callId, callerTag));
      if key.calleeTag != "" {
        EraseSession(key);
      }
    }

    method HandleAck(r: Request) returns (dest: Option<Endpoint>)
      modifies this
      ensures (sessions, dest) == Acked(old(sessions), r)
    {
      var session := FindSession(sessions, r);
      if session.None? {
        var initial := InitialKey(r.callId, r.fromTag);
        if initial !in sessions || !sessions[initial].cancelSeen {
          return None;
        }
        dest := Some(sessions[initial].calleeEndpoint);
        EraseCanceledSessions(initial);
      } else {
        dest := ResolveDestination(r, sessions[session.value]);
        if dest.None? {
          return;
        }
        if sessions[session.value].cancelSeen {
          EraseCanceledSessions(session.value);
        }
      }
    }

    method HandleCancel(r: Request) returns (session: Option<Session>)
      modifies this
      ensures sessions == Canceled(old(sessions), r)
      ensures session.Some? <==> FindCancelSession(old(sessions), r).Some?
      ensures session.Some? ==> session.value == sessions[FindCancelSession(old(sessions), r).value]
    {
      var found := FindCancelSession(sessions, r);
      if found.None? {
        return None;
      }
      sessions := sessions[found.value := sessions[found.value].(cancelSeen := true)];
      return Some(sessions[found.value]);
    }
  }
}

module RouterRuns {
  import opened Options
  import opened DialogTable

  /** byes holds, for each forwarded BYE still unanswered, the dialog it ends. */
  datatype State = State(table: Table, byes: map<nat, Key>)

  datatype Event =
    | Invite(callId: string, fromTag: string, source: Endpoint, dest: Endpoint, branch: string, now: int)
    | Response(callId: string, callerTag: string, status: int, calleeTag: string, now: int)
    | Bye(t: nat, r: Request)
    | ByeResponse(t: nat, status: int)
    | Ack(r: Request)
    | Cancel(r: Request)

  function Next(s: State, e: Event): State {
    match e
    case Invite(callId, fromTag, source, dest, branch, now) => s.(table := Invited(s.table, callId, fromTag, source, dest, branch, now))
    case Response(callId, callerTag, status, calleeTag, now) => s.(table := Responded(s.table, callId, callerTag, status, calleeTag, now))
    case Bye(t, r) =>
      var found := Lookup(s.table, r);
      if t in s.byes || found.None? then s else State(ByeSeen(s.table, r), s.byes[t := found.value.0])
    case ByeResponse(t, status) =>
      if t in s.byes && 200 <= status < 300 then State(ByeAnswered(s.table, s.byes[t]), s.byes - {t}) else s
    case Ack(r) => s.(table := Acked(s.table, r).0)
    case Cancel(r) => s.(table := Canceled(s.table, r))
  }

  function Run(s: State, es: seq<Event>): State {
    if es == [] then s else Next(Run(s, es[..|es| - 1]), es[|es| - 1])
  }

  const INITIAL := State(map[], map[])

  /** An entry's tags are its key's, and only entries with a callee tag are established. */
  ghost predicate Inv(t: Table) {
    forall k | k in t ::
      && t[k].callId == k.callId && t[k].callerTag == k.callerTag && t[k].calleeTag == k.calleeTag
      && (t[k].established ==> k.calleeTag != "")
  }

  lemma RespondedKeepsInv(t: Table, callId: string, callerTag: string, status: int, calleeTag: string, now: int)
    requires Inv(t)
    ensures Inv(Responded(t, callId, callerTag, status, calleeTag, now))
  {}

  lemma RequestsKeepInv(t: Table, r: Request, key: Key)
    requires Inv(t)
    ensures Inv(ByeSeen(t, r)) && Inv(ByeAnswered(t, key)) && Inv(Acked(t, r).0) && Inv(Canceled(t, r))
  {}

  lemma InvitedKeepsInv(t: Table, callId: string, fromTag: string, source: Endpoint, dest: Endpoint, branch: string, now: int)
    requires Inv(t)
    ensures Inv(Invited(t, callId, fromTag, source, dest, branch, now))
  {}

  lemma NextKeepsInv(s: State, e: Event)
    requires Inv(s.table)
    ensures Inv(Next(s, e).table)
  {
    hide Inv, Responded, Invited, ByeSeen, ByeAnswered, Acked, Canceled, Lookup;
    match e
    case Invite(callId, fromTag, source, dest, branch, now) =>
      InvitedKeepsInv(s.table, callId, fromTag, source, dest, branch, now);
    case Response(callId, callerTag, status, calleeTag, now) =>
      RespondedKeepsInv(s.table, callId, callerTag, status, calleeTag, now);
    case ByeResponse(t, _) =>
      if t in s.byes { RequestsKeepInv(s.table, Request("", "", ""), s.byes[t]); }
    case Bye(_, r) => RequestsKeepInv(s.table, r, InitialKey("", ""));
    case Ack(r) => RequestsKeepInv(s.table, r, InitialKey("", ""));
    case Cancel(r) => RequestsKeepInv(s.table, r, InitialKey("", ""));
  }

  lemma {:induction false} RunKeepsInv(es: seq<Event>)
    ensures Inv(Run(INITIAL, es).table)
  {
    if es != [] {
      hide Next;
      RunKeepsInv(es[..|es| - 1]);
      NextKeepsInv(Run(INITIAL, es[..|es| - 1]), es[|es| - 1]);
    }
  }

  // ---------- Routing ----------

  /** With two tags, a lookup that finds a session resolves: to the callee in the direct direction, to the caller in the reverse one. */
  lemma LookupsResolve(es: seq<Event>, r: Request)
    requires r.fromTag != "" && r.toTag != ""
    ensures var t := Run(INITIAL, es).table;
            var direct, reverse := Key(r.callId, r.fromTag, r.toTag), Key(r.callId, r.toTag, r.fromTag);
            Lookup(t, r) ==
              if direct in t then Some((direct, t[direct].calleeEndpoint))
              else if reverse in t then Some((reverse, t[reverse].callerEndpoint))
              else None
  {
    RunKeepsInv(es);
  }

  // ---------- Established dialogs ----------

  /** The event is a success of a BYE of dialog k, or a CANCEL that finds k. */
  predicate Ends(s: State, e: Event, k: Key) {
    || (e.ByeResponse? && 200 <= e.status < 300 && e.t in s.byes && s.byes[e.t] == k)
    || (e.Cancel? && FindCancelSession(s.table, e.r) == Some(k))
  }

  ghost predicate EstablishedWith(t: Table, k: Key, caller: Endpoint, callee: Endpoint) {
    k in t && t[k].established && !t[k].cancelSeen && t[k].callerEndpoint == caller && t[k].calleeEndpoint == callee
  }

  lemma NextKeepsDialog(s: State, e: Event, k: Key, caller: Endpoint, callee: Endpoint)
    requires Inv(s.table) && EstablishedWith(s.table, k, caller, callee) && !Ends(s, e, k)
    ensures EstablishedWith(Next(s, e).table, k, caller, callee)
  {}

  ghost predicate NeverEnds(s: State, es: seq<Event>, k: Key) {
    forall i | 0 <= i < |es| :: !Ends(Run(s, es[..i]), es[i], k)
  }

  /** An established dialog survives every run, both endpoints unchanged, until its own BYE succeeds or a CANCEL finds it. */
  lemma {:induction false} EstablishedDialogsSurvive(before: seq<Event>, es: seq<Event>, k: Key, caller: Endpoint, callee: Endpoint)
    requires EstablishedWith(Run(INITIAL, before).table, k, caller, callee)
    requires NeverEnds(Run(INITIAL, before), es, k)
    ensures Inv(Run(Run(INITIAL, before), es).table)
    ensures EstablishedWith(Run(Run(INITIAL, before), es).table, k, caller, callee)
  {
    hide Next, Inv, EstablishedWith, Ends;
    var s := Run(INITIAL, before);
    if es == [] {
      RunKeepsInv(before);
    } else {
      var init := es[..|es| - 1];
      forall i | 0 <= i < |init| ensures !Ends(Run(s, init[..i]), init[i], k) {
        assert init[..i] == es[..i];
      }
      EstablishedDialogsSurvive(before, init, k, caller, callee);
      NextKeepsInv(Run(s, init), es[|es| - 1]);
      NextKeepsDialog(Run(s, init), es[|es| - 1], k, caller, callee);
    }
  }

  // ---------- Failed INVITEs ----------

  /** No entry of the INVITE is left that is not an established dialog. */
  ghost predicate Forgotten(t: Table, callId: string, callerTag: string) {
    forall k | k in t :: !OfFailedInvite(k, t[k], callId, callerTag)
  }

  lemma FailureForgets(s: State, callId: string, callerTag: string, status: int, calleeTag: string, now: int)
    requires 300 <= status <= 699
    ensures Forgotten(Next(s, Response(callId, callerTag, status, calleeTag, now)).table, callId, callerTag)
  {}

  lemma NextKeepsForgotten(s: State, e: Event, callId: string, callerTag: string)
    requires Forgotten(s.table, callId, callerTag)
    requires e.Invite? ==> e.callId != callId || e.fromTag != callerTag
    ensures Forgotten(Next(s, e).table, callId, callerTag)
  {}

  /** After a 3xx to 6xx nothing unestablished of that INVITE reappears, in any run, before it is sent anew. */
  lemma {:induction false} FailedInvitesStayForgotten(s: State, es: seq<Event>, callId: string, callerTag: string)
    requires Forgotten(s.table, callId, callerTag)
    requires forall i | 0 <= i < |es| && es[i].Invite? :: es[i].callId != callId || es[i].fromTag != callerTag
    ensures Forgotten(Run(s, es).table, callId, callerTag)
  {
    if es != [] {
      hide Next, Forgotten;
      FailedInvitesStayForgotten(s, es[..|es| - 1], callId, callerTag);
      NextKeepsForgotten(Run(s, es[..|es| - 1]), es[|es| - 1], callId, callerTag);
    }
  }

  /** Entries that the purge before an INVITE or a response keeps: established ones, and others for three minutes. */
  predicate Alive(t: Table, k: Key, now: int) {
    k in t && (t[k].established || now - t[k].lastUpdated < 180_000)
  }

  /** A fork's 2xx establishes its dialog exactly when that fork had been heard of before or the initial entry is
      still there, which it no longer is once another fork answered. */
  lemma SuccessEstablishes(s: State, callId: string, callerTag: string, status: int, calleeTag: string, now: int)
    requires 200 <= status < 300 && calleeTag != ""
    ensures var k, initial := Key(callId, callerTag, calleeTag), Key(callId, callerTag, "");
            var t := Next(s, Response(callId, callerTag, status, calleeTag, now)).table;
            && (k in t <==> Alive(s.table, k, now) || Alive(s.table, initial, now))
            && (k in t ==> t[k] == if Alive(s.table, k, now) then s.table[k].(lastUpdated := now, established := true)
                                   else s.table[initial].(calleeTag := calleeTag, lastUpdated := now, established := true))
            && initial !in t
  {
  }

  // ---------- A dialog and its INVITE ----------

  lemma TwoSteps(s: State, d: Event, e: Event)
    ensures Run(s, [d, e]) == Next(Next(s, d), e)
  {
    hide Next;
    var es := [d, e];
    assert es[..1] == [d] && [d][..0] == [];
    assert Run(s, [d]) == Next(s, d);
  }

  /**
   * A call answered with the tag b less than three minutes after its INVITE: the caller's requests in the dialog go
   * where the INVITE went, the callee's to where it came from. A later answer records nothing.
   */
  lemma DialogLeadsWhereItsInviteDid(s: State, c: string, a: string, b: string, source: Endpoint, dest: Endpoint, branch: string,
                                     status: int, invited: int, answered: int)
    requires 200 <= status < 300 && b != "" && Key(c, a, b) !in s.table && Key(c, b, a) !in s.table
    ensures var t := Run(s, [Invite(c, a, source, dest, branch, invited), Response(c, a, status, b, answered)]).table;
            && (Key(c, a, b) in t <==> answered - invited < 180_000)
            && (Key(c, a, b) in t ==>
                  && t[Key(c, a, b)].established
                  && Lookup(t, Request(c, a, b)) == Some((Key(c, a, b), dest))
                  && (a != b ==> Lookup(t, Request(c, b, a)) == Some((Key(c, a, b), source))))
  {
    hide Next;
    var d, e := Invite(c, a, source, dest, branch, invited), Response(c, a, status, b, answered);
    TwoSteps(s, d, e);
    InviteRecords(s, c, a, source, dest, branch, invited);
    AnswerRecords(Next(s, d), c, a, b, status, answered);
  }

  /** Whatever stood there, an INVITE outside a dialog leaves the endpoints it was sent between, unanswered; a CANCEL seen earlier stays seen. */
  lemma InviteRecords(s: State, c: string, a: string, source: Endpoint, dest: Endpoint, branch: string, now: int)
    ensures var t' := Next(s, Invite(c, a, source, dest, branch, now)).table;
            && Key(c, a, "") in t'
            && t'[Key(c, a, "")] == Session(c, a, "", source, dest, branch, now, false, false,
                                            Alive(s.table, Key(c, a, ""), now) && s.table[Key(c, a, "")].cancelSeen)
            && forall k | k != Key(c, a, "") :: (k in t' <==> Alive(s.table, k, now)) && (k in t' ==> t'[k] == s.table[k])
  {
  }

  lemma AnswerRecords(s: State, c: string, a: string, b: string, status: int, now: int)
    requires 200 <= status < 300 && b != "" && Key(c, a, b) !in s.table && Key(c, b, a) !in s.table
    requires Key(c, a, "") in s.table && s.table[Key(c, a, "")].callerTag == a && !s.table[Key(c, a, "")].established
    ensures var t, x := Next(s, Response(c, a, status, b, now)).table, s.table[Key(c, a, "")];
            && (Key(c, a, b) in t <==> now - x.lastUpdated < 180_000)
            && (Key(c, a, b) in t ==>
                  && t[Key(c, a, b)].established
                  && Lookup(t, Request(c, a, b)) == Some((Key(c, a, b), x.calleeEndpoint))
                  && (a != b ==> Lookup(t, Request(c, b, a)) == Some((Key(c, a, b), x.callerEndpoint))))
  {
  }

  /** es[i] is the last INVITE of the caller's leg in es. */
  ghost predicate LastInviteAt(es: seq<Event>, i: nat, c: string, a: string) {
    && i < |es| && es[i].Invite? && es[i].callId == c && es[i].fromTag == a
    && forall j | i < j < |es| && es[j].Invite? :: es[j].callId != c || es[j].fromTag != a
  }

  /** The response es[n] recorded dialog k, which has been there ever since. */
  ghost predicate RecordedAt(es: seq<Event>, n: nat, k: Key) {
    && n < |es| && es[n].Response? && Key(es[n].callId, es[n].callerTag, es[n].calleeTag) == k
    && !Alive(Run(INITIAL, es[..n]).table, k, es[n].now)
    && forall m | n < m <= |es| :: k in Run(INITIAL, es[..m]).table
  }

  /** ... and es[i] was the last INVITE of its leg by then. */
  ghost predicate BornOf(es: seq<Event>, n: nat, i: nat, k: Key) {
    RecordedAt(es, n, k) && LastInviteAt(es[..n], i, k.callId, k.callerTag)
  }

  /** The endpoints and the branch of an entry are those of an INVITE. */
  predicate Between(s: Session, e: Event) {
    e.Invite? && s.callerEndpoint == e.source && s.calleeEndpoint == e.dest && s.inviteBranch == e.branch
  }

  predicate SameInvite(s: Session, t: Session) {
    s.callerEndpoint == t.callerEndpoint && s.calleeEndpoint == t.calleeEndpoint && s.inviteBranch == t.inviteBranch
  }

  /** Where an entry comes from: it stood there before, or its INVITE or its response has just made it. */
  lemma EntriesComeFrom(s: State, e: Event, k: Key)
    requires k in Next(s, e).table
    ensures var x := Next(s, e).table[k];
            || (k in s.table && SameInvite(x, s.table[k]) && !(e.Invite? && k == Key(e.callId, e.fromTag, "")))
            || (e.Invite? && k == Key(e.callId, e.fromTag, "") && Between(x, e))
            || (e.Response? && k == Key(e.callId, e.callerTag, e.calleeTag) && k.calleeTag != "" && !Alive(s.table, k, e.now)
                && Key(k.callId, k.callerTag, "") in s.table && SameInvite(x, s.table[Key(k.callId, k.callerTag, "")]))
  {
  }

  /** In every run an unanswered entry has the endpoints of the last INVITE of its leg. */
  lemma {:induction false} InitialEntriesFollowTheInvite(es: seq<Event>, k: Key) returns (i: nat)
    requires k in Run(INITIAL, es).table && k.calleeTag == ""
    ensures LastInviteAt(es, i, k.callId, k.callerTag) && Between(Run(INITIAL, es).table[k], es[i])
  {
    hide Next, Alive;
    assert es != [];
    var init, e := es[..|es| - 1], es[|es| - 1];
    EntriesComeFrom(Run(INITIAL, init), e, k);
    if e.Invite? && k == Key(e.callId, e.fromTag, "") {
      i := |es| - 1;
    } else {
      i := InitialEntriesFollowTheInvite(init, k);
    }
  }

  lemma {:induction false} DialogsAreBorn(es: seq<Event>, k: Key) returns (n: nat, i: nat)
    requires k in Run(INITIAL, es).table && k.calleeTag != ""
    ensures BornOf(es, n, i, k) && Between(Run(INITIAL, es).table[k], es[i])
  {
    hide Next, Alive, LastInviteAt, RecordedAt;
    assert es != [];
    var init, e := es[..|es| - 1], es[|es| - 1];
    var p := Run(INITIAL, init);
    EntriesComeFrom(p, e, k);
    if e.Response? && k == Key(e.callId, e.callerTag, e.calleeTag) && !Alive(p.table, k, e.now) && Key(k.callId, k.callerTag, "") in p.table
      && SameInvite(Run(INITIAL, es).table[k], p.table[Key(k.callId, k.callerTag, "")])
    {
      n := |init|;
      i := InitialEntriesFollowTheInvite(init, Key(k.callId, k.callerTag, ""));
      RecordedNow(es, k);
      InviteIsEarlier(init, i, k);
    } else {
      n, i := DialogsAreBorn(init, k);
      StillRecorded(es, n, k);
      assert init[..n] == es[..n] by { RecordedBefore(init, n, k); }
      InviteIsEarlier(es[..n], i, k);
    }
  }

  lemma InviteIsEarlier(es: seq<Event>, i: nat, k: Key)
    requires LastInviteAt(es, i, k.callId, k.callerTag)
    ensures i < |es|
  {
  }

  lemma RecordedBefore(es: seq<Event>, n: nat, k: Key)
    requires RecordedAt(es, n, k)
    ensures n < |es|
  {
  }

  lemma RecordedNow(es: seq<Event>, k: Key)
    requires es != [] && k in Run(INITIAL, es).table
    requires var e := es[|es| - 1];
             e.Response? && k == Key(e.callId, e.callerTag, e.calleeTag) && !Alive(Run(INITIAL, es[..|es| - 1]).table, k, e.now)
    ensures RecordedAt(es, |es| - 1, k)
  {
    hide Next, Alive;
    assert es[..|es|] == es;
  }

  lemma StillRecorded(es: seq<Event>, n: nat, k: Key)
    requires es != [] && k in Run(INITIAL, es).table && RecordedAt(es[..|es| - 1], n, k)
    ensures RecordedAt(es, n, k)
  {
    hide Next, Alive;
    var init := es[..|es| - 1];
    assert es[..n] == init[..n] && es[..|es|] == es;
    forall m | n < m < |es| ensures k in Run(INITIAL, es[..m]).table { assert es[..m] == init[..m]; }
  }

  /** In every run a dialog has the endpoints of the last INVITE of its leg before it was recorded. */
  lemma DialogsFollowTheInvite(es: seq<Event>, k: Key)
    requires k in Run(INITIAL, es).table && k.calleeTag != ""
    ensures exists n: nat, i: nat :: BornOf(es, n, i, k) && i < |es| && Between(Run(INITIAL, es).table[k], es[i])
  {
    hide Next, Run;
    var n, i := DialogsAreBorn(es, k);
  }

  /**
   * In every run a request with two tags goes, when its dialog is found in the direct direction, where the last
   * INVITE of that leg before the dialog was recorded was sent, in the reverse one where it came from.
   */
  lemma RequestsFollowTheInvite(es: seq<Event>, r: Request)
    requires r.fromTag != "" && r.toTag != ""
    ensures var found := Lookup(Run(INITIAL, es).table, r);
            found.Some? ==>
              exists n: nat, i: nat :: (
                && BornOf(es, n, i, found.value.0) && i < |es| && es[i].Invite?
                && (|| found == Some((Key(r.callId, r.fromTag, r.toTag), es[i].dest))
                    || found == Some((Key(r.callId, r.toTag, r.fromTag), es[i].source))))
  {
    hide Next, Run, BornOf, Lookup;
    LookupsResolve(es, r);
    var found := Lookup(Run(INITIAL, es).table, r);
    if found.Some? { DialogsFollowTheInvite(es, found.value.0); }
  }

  // ---------- How an entry ends, and what else steps leave ----------

  /** A dialog whose BYE succeeds is forgotten, and nothing else; under any other answer it stays. */
  lemma ByeEndsItsDialog(s: State, n: nat, r: Request, status: int)
    requires n !in s.byes && Lookup(s.table, r).Some?
    ensures var k := Lookup(s.table, r).value.0; var s' := Run(s, [Bye(n, r), ByeResponse(n, status)]);
            k in s.table && s'.table == if 200 <= status < 300 then s.table - {k} else s.table[k := s.table[k].(byeSeen := true)]
  {
    hide Next;
    TwoSteps(s, Bye(n, r), ByeResponse(n, status));
    ByeIsRemembered(s, n, r);
    ByeIsAnswered(Next(s, Bye(n, r)), n, status);
    var k := Lookup(s.table, r).value.0;
    assert s.table[k := s.table[k].(byeSeen := true)] - {k} == s.table - {k};
  }

  lemma ByeIsRemembered(s: State, n: nat, r: Request)
    requires n !in s.byes && Lookup(s.table, r).Some?
    ensures var k := Lookup(s.table, r).value.0;
            k in s.table && Next(s, Bye(n, r)) == State(s.table[k := s.table[k].(byeSeen := true)], s.byes[n := k])
  {
  }

  lemma ByeIsAnswered(s: State, n: nat, status: int)
    requires n in s.byes && s.byes[n] in s.table && s.table[s.byes[n]].byeSeen
    ensures Next(s, ByeResponse(n, status)).table == if 200 <= status < 300 then s.table - {s.byes[n]} else s.table
  {
  }

  /** A provisional response with a tag makes the dialog known, unestablished, under the same condition as a success, and keeps the initial entry. */
  lemma ProvisionalRecords(s: State, c: string, a: string, b: string, status: int, now: int)
    requires 100 < status < 200 && b != ""
    ensures var k, initial, t' := Key(c, a, b), Key(c, a, ""), Next(s, Response(c, a, status, b, now)).table;
            && (k in t' <==> Alive(s.table, k, now) || Alive(s.table, initial, now))
            && (k in t' ==> t'[k] == if Alive(s.table, k, now) then s.table[k].(lastUpdated := now)
                                     else s.table[initial].(calleeTag := b, lastUpdated := now, established := false))
            && (initial in t' <==> Alive(s.table, initial, now)) && (initial in t' ==> t'[initial] == s.table[initial])
  {
  }

  /** A response below 300 concerns the initial entry and the dialog of its tags, a failure those of its leg, 100 and other numbers none. */
  lemma ResponsesKeepOtherLegs(s: State, c: string, a: string, b: string, status: int, now: int, k: Key)
    requires k.callId != c || k.callerTag != a || (status < 300 && k.calleeTag !in {b, ""}) || status <= 100 || status > 699
    ensures var t' := Next(s, Response(c, a, status, b, now)).table;
            (k in t' <==> Alive(s.table, k, now)) && (k in t' ==> t'[k] == s.table[k])
  {
  }

  /** A failure erases the unestablished entries of its leg, and those only. */
  lemma FailureErasesExactly(s: State, c: string, a: string, b: string, status: int, now: int, k: Key)
    requires 300 <= status <= 699
    ensures var t' := Next(s, Response(c, a, status, b, now)).table;
            && (k in t' <==> Alive(s.table, k, now) && !(k.callId == c && k.callerTag == a && (k.calleeTag == "" || !s.table[k].established)))
            && (k in t' ==> t'[k] == s.table[k])
  {
  }

  /** A CANCEL before the answer, and the ACK of the failure it brings: the ACK follows the INVITE, and the call is forgotten. */
  lemma CanceledCallIsForgotten(s: State, c: string, a: string, b: string)
    requires Inv(s.table) && Key(c, a, "") in s.table
    requires b == "" || (Key(c, a, b) !in s.table && Key(c, b, a) !in s.table)
    ensures var canceled, ack := Next(s, Cancel(Request(c, a, ""))), Request(c, a, b);
            && Acked(canceled.table, ack).1 == Some(s.table[Key(c, a, "")].calleeEndpoint)
            && Next(canceled, Ack(ack)).table == s.table - {Key(c, a, "")}
  {
    var canceled := Next(s, Cancel(Request(c, a, "")));
    assert canceled.table == s.table[Key(c, a, "") := s.table[Key(c, a, "")].(cancelSeen := true)];
  }

  /** A CANCEL meets the call's initial entry or, without one, the dialog it names. */
  lemma CancelIsSeen(s: State, r: Request)
    ensures var initial, direct, reverse := Key(r.callId, r.fromTag, ""), Key(r.callId, r.fromTag, r.toTag), Key(r.callId, r.toTag, r.fromTag);
            var t' := Next(s, Cancel(r)).table;
            && t'.Keys == s.table.Keys
            && forall k | k in s.table ::
              t'[k] == if k == initial || (initial !in s.table && (k == direct || (k == reverse && direct !in s.table)))
                       then s.table[k].(cancelSeen := true) else s.table[k]
  {
  }

  /** The ACK of a success goes where its dialog leads; it changes nothing unless the dialog has been canceled, which it then ends. */
  lemma AckFollowsItsDialog(s: State, r: Request)
    requires Lookup(s.table, r).Some?
    ensures var k := Lookup(s.table, r).value.0;
            && Acked(s.table, r).1 == Some(Lookup(s.table, r).value.1) && k in s.table
            && (!s.table[k].cancelSeen ==> Next(s, Ack(r)) == s)
            && (s.table[k].cancelSeen && k.callerTag != "" ==> Next(s, Ack(r)).table == s.table - {k, Key(k.callId, k.callerTag, "")})
  {
  }

  /** A request without a To-tag follows the INVITE only once that has been canceled. */
  lemma UntaggedRequestsNeedACancel(es: seq<Event>, c: string, a: string)
    requires a != ""
    ensures var t := Run(INITIAL, es).table; var found := Lookup(t, Request(c, a, ""));
            Key(c, a, "") in t ==> found == if t[Key(c, a, "")].cancelSeen then Some((Key(c, a, ""), t[Key(c, a, "")].calleeEndpoint)) else None
  {
    RunKeepsInv(es);
  }
}
