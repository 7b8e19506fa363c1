// The rtpengine client: cookies, the pending table, and the interleaving of
// senders, the receiver thread, time-outs and shutdown.

module RtpengineProtocol {
  import opened Options
  import opened Bencode
  import opened Texts
  import opened Numerals

  datatype Reply = Reply(cookie: string, dict: seq<Entry>)

  /** std::to_string(++cookie_counter_) on a 64-bit counter; n counts the calls so far. */
  function Cookie(n: nat): string {
    Decimal(n % (ULONG_MAX + 1))
  }

  function Payload(cookie: string, dict: seq<Entry>): string {
    cookie + " " + Encode(Dict(dict))
  }

  /** One received text, with the number of steps the parser may take over it. */
  datatype Datagram = Datagram(text: string, steps: nat)

  /** The parser gets through the text: it need not, where a length wraps (Bencode.ParserNeedNotEnd). */
  predicate IsRead(d: Datagram) {
    var space := Find(d.text, ' ', 0);
    space < |d.text| ==> !Decode(d.text[space + 1..], d.steps).OutOfSteps?
  }

  function ReplyIn(d: Datagram): Option<Reply> {
    var space := Find(d.text, ' ', 0);
    if space == |d.text| then None
    else
      var decoded := Decode(d.text[space + 1..], d.steps);
      if decoded.Parsed? && decoded.value.Dict? then Some(Reply(d.text[..space], decoded.value.entries)) else None
  }

  method ParseResponsePayload(response: string, steps: nat) returns (reply: Option<Reply>)
    requires |response| <= ULONG_MAX
    ensures reply == ReplyIn(Datagram(response, steps))
  {
    var spacePos := Find(response, ' ', 0);
    if spacePos == |response| {
      return None;
    }
    var cookie := response[..spacePos];
    var decoded := BencodeDecode(response[spacePos + 1..], steps);
    if !decoded.Returned? || !decoded.value.Dict? {
      return None;
    }
    return Some(Reply(cookie, decoded.value.entries));
  }

  lemma {:induction false} DecimalsDiffer(m: nat, n: nat)
    requires Decimal(m) == Decimal(n)
    ensures m == n
  {
    DecimalIsRead(m);
    DecimalIsRead(n);
  }

  /** A peer that answers in the client's own format is understood, whatever bytes follow its dictionary. */
  lemma PayloadIsUnderstood(cookie: string, dict: seq<Entry>, suffix: string, steps: nat)
    requires ' ' !in cookie && WellFormed(Dict(dict))
    requires |Payload(cookie, dict) + suffix| <= ULONG_MAX && steps >= 2 * |Payload(cookie, dict) + suffix|
    ensures IsRead(Datagram(Payload(cookie, dict) + suffix, steps))
    ensures ReplyIn(Datagram(Payload(cookie, dict) + suffix, steps)) == Some(Reply(cookie, dict))
  {
    hide Encode, Decode, WellFormed;
    var rest := Encode(Dict(dict)) + suffix;
    var text := Payload(cookie, dict) + suffix;
    assert text == cookie + " " + rest;
    FindsAt(text, ' ', 0, |cookie|);
    assert text[..|cookie|] == cookie && text[|cookie| + 1..] == rest;
    DecodeUndoesEncode(Dict(dict), suffix, steps);
  }

  lemma CookiesHaveNoSpace(n: nat)
    ensures ' ' !in Cookie(n)
  {
    hide Decimal;
    assert forall c | c in Decimal(n % (ULONG_MAX + 1)) :: IsDigit(c);
  }

  /** A peer that echoes the client's n-th cookie with a dictionary of its own is understood, whatever bytes follow. */
  lemma EchoedCookieIsUnderstood(n: nat, dict: seq<Entry>, suffix: string, steps: nat)
    requires WellFormed(Dict(dict))
    requires |Payload(Cookie(n), dict) + suffix| <= ULONG_MAX && steps >= 2 * |Payload(Cookie(n), dict) + suffix|
    ensures IsRead(Datagram(Payload(Cookie(n), dict) + suffix, steps))
    ensures ReplyIn(Datagram(Payload(Cookie(n), dict) + suffix, steps)) == Some(Reply(Cookie(n), dict))
  {
    hide Cookie, WellFormed, Payload, IsRead, ReplyIn;
    CookiesHaveNoSpace(n);
    PayloadIsUnderstood(Cookie(n), dict, suffix, steps);
  }

  // ---------- The pending table ----------

  /** emplace keeps an entry that is already there. */
  function Emplaced<R>(m: map<string, R>, cookie: string, r: R): map<string, R> {
    if cookie in m then m else m[cookie := r]
  }

  datatype Result = Response(dict: seq<Entry>) | Error(message: string)

  class PendingRequest {
    var completed: bool
    var result: Result

    constructor ()
      ensures !completed && result == Error("rtpengine request not completed")
    {
      completed, result := false, Error("rtpengine request not completed");
    }

    method Complete(result: Result)
      modifies this
      ensures completed && this.result == result
    {
      this.result := result;
      completed := true;
    }
  }

  class RtpengineClientImpl {
    var cookieCounter: nat
    var pendingRequests: map<string, PendingRequest>

    constructor ()
      ensures cookieCounter == 0 && pendingRequests == map[]
    {
      cookieCounter, pendingRequests := 0, map[];
    }

    method GenerateCookie() returns (cookie: string)
      requires cookieCounter <= ULONG_MAX
      modifies this`cookieCounter
      ensures cookieCounter == (old(cookieCounter) + 1) % (ULONG_MAX + 1) && cookie == Cookie(old(cookieCounter) + 1)
    {
      cookieCounter := if cookieCounter == ULONG_MAX then 0 else cookieCounter + 1;
      cookie := Decimal(cookieCounter);
    }

    method Register(cookie: string) returns (pending: PendingRequest)
      modifies this`pendingRequests
      ensures fresh(pending) && !pending.completed
      ensures pendingRequests == Emplaced(old(pendingRequests), cookie, pending)
    {
      pending := new PendingRequest();
      if cookie !in pendingRequests {
        pendingRequests := pendingRequests[cookie := pending];
      }
    }

    method CompletePendingRequest(cookie: string, result: Result)
      modifies this`pendingRequests, if cookie in pendingRequests then {pendingRequests[cookie]} else {}
      ensures pendingRequests == old(pendingRequests) - {cookie}
      ensures cookie in old(pendingRequests) ==>
                old(pendingRequests)[cookie].completed && old(pendingRequests)[cookie].result == result
    {
      if cookie !in pendingRequests {
        assert pendingRequests == pendingRequests - {cookie};
        return;
      }
      var pending := pendingRequests[cookie];
      pendingRequests := pendingRequests - {cookie};
      pending.Complete(result);
    }

    method FailAllPendingRequests(error: string)
      modifies this`pendingRequests, set c | c in pendingRequests :: pendingRequests[c]
      ensures pendingRequests == map[]
      ensures forall c | c in old(pendingRequests) ::
                old(pendingRequests)[c].completed && old(pendingRequests)[c].result == Error(error)
    {
      var swapped := pendingRequests;
      pendingRequests := map[];
      var rest := swapped.Keys;
      while rest != {}
        invariant rest <= swapped.Keys
        invariant pendingRequests == map[]
        invariant forall c | c in swapped && c !in rest :: swapped[c].completed && swapped[c].result == Error(error)
        decreases rest
      {
        var c :| c in rest;
        rest := rest - {c};
        swapped[c].Complete(Error(error));
      }
    }
  }
}

module RtpengineRuns {
  import opened Options
  import opened Bencode
  import opened Numerals
  import opened RtpengineProtocol

  /** from is history: the position of the datagram among those received. */
  datatype Outcome = Got(dict: seq<Entry>, from: nat) | Failure(message: string)

  datatype Stage =
    | Started
    | Numbered
    | Registered
    | Waiting
    | SendFailed
    | TimedOut
    | Done(outcome: Outcome)

  /** One call of sendCommand with its PendingRequest; writes counts the completions, as history. */
  datatype Call = Call(stage: Stage, number: nat, completed: bool, result: Outcome, writes: nat)

  /** inHand holds the requests taken from the table by the receiver or by shutdown and not yet completed. */
  datatype Client = Client(
    calls: map<nat, Call>, generated: nat, pending: map<string, nat>, inHand: map<nat, Outcome>,
    received: seq<Datagram>, shuttingDown: bool)

  datatype Event =
    | Begin(call: nat, receiverReady: bool)
    | TakeCookie(call: nat)
    | Register(call: nat)
    | Send(call: nat, delivered: bool)
    | TimeOut(call: nat)
    | Forget(call: nat)
    | Wake(call: nat)
    | Receive(datagram: Datagram)
    | FailAll(error: string)
    | Write(call: nat)
    | Shutdown

  predicate At(s: Client, i: nat, stage: Stage) {
    i in s.calls && s.calls[i].stage == stage
  }

  function Set(s: Client, i: nat, c: Call): Client {
    s.(calls := s.calls[i := c])
  }

  predicate Enabled(s: Client, e: Event) {
    match e
    case Begin(i, _) => i !in s.calls
    case TakeCookie(i) => At(s, i, Started)
    case Register(i) => At(s, i, Numbered)
    case Send(i, _) => At(s, i, Registered)
    case TimeOut(i) => At(s, i, Waiting) && !s.calls[i].completed
    case Forget(i) => At(s, i, TimedOut) || At(s, i, SendFailed)
    case Wake(i) => At(s, i, Waiting) && s.calls[i].completed
    case Receive(d) => IsRead(d)
    case FailAll(_) => true
    case Write(i) => i in s.inHand && i in s.calls
    case Shutdown => true
  }

  function NewCall(stage: Stage): Call {
    Call(stage, 0, false, Failure("rtpengine request not completed"), 0)
  }

  function Received(s: Client, d: Datagram): Client {
    var t := s.(received := s.received + [d]);
    var reply := ReplyIn(d);
    if reply.None? || reply.value.cookie !in s.pending then t
    else
      t.(pending := s.pending - {reply.value.cookie},
         inHand := s.inHand[s.pending[reply.value.cookie] := Got(reply.value.dict, |s.received|)])
  }

  function Swapped(s: Client, error: string): Client {
    s.(pending := map[],
       inHand := map i | i in s.inHand.Keys + s.pending.Values :: if i in s.pending.Values then Failure(error) else s.inHand[i])
  }

  function Step(s: Client, e: Event): Client
    requires Enabled(s, e)
  {
    match e
    case Begin(i, ready) =>
      Set(s, i, NewCall(if s.shuttingDown || !ready then Done(Failure("not started")) else Started))
    case TakeCookie(i) => Set(s, i, s.calls[i].(stage := Numbered, number := s.generated + 1)).(generated := s.generated + 1)
    case Register(i) =>
      Set(s, i, s.calls[i].(stage := Registered)).(pending := Emplaced(s.pending, Cookie(s.calls[i].number), i))
    case Send(i, delivered) => Set(s, i, s.calls[i].(stage := if delivered then Waiting else SendFailed))
    case TimeOut(i) => Set(s, i, s.calls[i].(stage := TimedOut))
    case Forget(i) =>
      Set(s, i, s.calls[i].(stage := Done(Failure("not answered")))).(pending := s.pending - {Cookie(s.calls[i].number)})
    case Wake(i) => Set(s, i, s.calls[i].(stage := Done(s.calls[i].result)))
    case Receive(d) => Received(s, d)
    case FailAll(error) => Swapped(s, error)
    case Write(i) =>
      Set(s, i, s.calls[i].(completed := true, result := s.inHand[i], writes := s.calls[i].writes + 1)).(inHand := s.inHand - {i})
    case Shutdown => s.(shuttingDown := true)
  }

  predicate Next(s: Client, e: Event, t: Client) {
    Enabled(s, e) && t == Step(s, e)
  }

  function Init(): Client {
    Client(map[], 0, map[], map[], [], false)
  }

  ghost predicate Run(states: seq<Client>, events: seq<Event>)
    decreases events
  {
    && |states| == |events| + 1
    && (if events == [] then states[0] == Init()
        else
          && Run(states[..|events|], events[..|events| - 1])
          && Next(states[|events| - 1], events[|events| - 1], states[|events|]))
  }

  // ---------- Invariants ----------

  predicate Open(c: Call) {
    c.stage.Registered? || c.stage.Waiting? || c.stage.SendFailed? || c.stage.TimedOut?
  }

  ghost predicate NumbersDiffer(s: Client) {
    && (forall i | i in s.calls :: s.calls[i].number <= s.generated)
    && (forall i | i in s.calls && (Open(s.calls[i]) || s.calls[i].stage.Numbered?) :: s.calls[i].number > 0)
    && (forall i, j | i in s.calls && j in s.calls && i != j && s.calls[i].number > 0 :: s.calls[i].number != s.calls[j].number)
  }

  /** An entry of the table belongs to an open call that nobody has completed or is about to complete. */
  ghost predicate TableInv(s: Client) {
    forall c | c in s.pending ::
      var i := s.pending[c];
      i in s.calls && c == Cookie(s.calls[i].number) && Open(s.calls[i]) && s.calls[i].writes == 0 && i !in s.inHand
  }

  /** A response comes from a datagram that carries the call's own cookie. */
  predicate OwnResponse(received: seq<Datagram>, number: nat, o: Outcome) {
    o.Got? ==> o.from < |received| && ReplyIn(received[o.from]) == Some(Reply(Cookie(number), o.dict))
  }

  ghost predicate HandInv(s: Client) {
    forall i | i in s.inHand ::
      i in s.calls && s.calls[i].writes == 0 && s.calls[i].number > 0
      && (Open(s.calls[i]) || s.calls[i].stage.Done?)
      && OwnResponse(s.received, s.calls[i].number, s.inHand[i])
  }

  ghost predicate CallInv(s: Client) {
    forall i | i in s.calls ::
      var c := s.calls[i];
      && c.writes <= 1
      && (c.completed <==> c.writes == 1)
      && (c.writes == 1 ==> c.number > 0 && (Open(c) || c.stage.Done?))
      && OwnResponse(s.received, c.number, c.result)
      && (c.stage.Done? ==> OwnResponse(s.received, c.number, c.stage.outcome) && (c.stage.outcome.Got? ==> c.number > 0))
      && (!c.completed ==> c.result.Failure?)
  }

  /** Datagram k went to call i: it is in hand for it, is its result, or was returned. */
  predicate Took(s: Client, i: nat, k: nat) {
    || (i in s.inHand && s.inHand[i].Got? && s.inHand[i].from == k)
    || (i in s.calls && s.calls[i].result.Got? && s.calls[i].result.from == k)
    || (i in s.calls && s.calls[i].stage.Done? && s.calls[i].stage.outcome.Got? && s.calls[i].stage.outcome.from == k)
  }

  ghost predicate TakenOnce(s: Client) {
    && (forall i: nat, k: nat | Took(s, i, k) :: k < |s.received|)
    && (forall i: nat, j: nat, k: nat | Took(s, i, k) && Took(s, j, k) :: i == j)
  }

  ghost predicate Inv(s: Client) {
    NumbersDiffer(s) && TableInv(s) && HandInv(s) && CallInv(s) && TakenOnce(s)
  }

  lemma InitInv()
    ensures Inv(Init())
  {
  }

  lemma NewNumbersDiffer(s: Client, e: Event, t: Client)
    requires NumbersDiffer(s) && Next(s, e, t) && (e.Begin? || e.TakeCookie?)
    ensures NumbersDiffer(t)
  {
  }

  lemma OldNumbersDiffer(s: Client, e: Event, t: Client)
    requires NumbersDiffer(s) && Next(s, e, t) && !e.Begin? && !e.TakeCookie?
    ensures NumbersDiffer(t)
  {
    hide ReplyIn, IsRead, Cookie, Emplaced, NumbersDiffer;
    assert t.generated == s.generated && t.calls.Keys == s.calls.Keys;
    forall i | i in s.calls ensures
      && t.calls[i].number == s.calls[i].number
      && (Open(t.calls[i]) || t.calls[i].stage.Numbered? ==> Open(s.calls[i]) || s.calls[i].stage.Numbered?) { }
    SameNumbersDiffer(s, t);
  }

  lemma SameNumbersDiffer(s: Client, t: Client)
    requires NumbersDiffer(s) && t.generated == s.generated && t.calls.Keys == s.calls.Keys
    requires forall i | i in s.calls ::
      && t.calls[i].number == s.calls[i].number
      && (Open(t.calls[i]) || t.calls[i].stage.Numbered? ==> Open(s.calls[i]) || s.calls[i].stage.Numbered?)
    ensures NumbersDiffer(t)
  {
  }

  lemma TableKept(s: Client, e: Event, t: Client)
    requires NumbersDiffer(s) && TableInv(s) && HandInv(s) && CallInv(s) && Next(s, e, t) && !e.Register? && !e.Forget?
    ensures TableInv(t)
  {
    hide ReplyIn, IsRead, Cookie, NumbersDiffer, OwnResponse;
  }

  lemma RegisterKeepsTable(s: Client, e: Event, t: Client)
    requires NumbersDiffer(s) && TableInv(s) && HandInv(s) && CallInv(s) && Next(s, e, t) && e.Register?
    ensures TableInv(t)
  {
    hide Cookie, NumbersDiffer, HandInv, CallInv;
    NumberedIsNew(s, e.call);
  }

  lemma ForgetKeepsTable(s: Client, e: Event, t: Client)
    requires TableInv(s) && Next(s, e, t) && e.Forget?
    ensures TableInv(t)
  {
    hide Cookie;
  }

  lemma NumberedIsNew(s: Client, i: nat)
    requires NumbersDiffer(s) && TableInv(s) && HandInv(s) && CallInv(s) && i in s.calls && s.calls[i].stage.Numbered?
    ensures s.calls[i].number > 0 && s.calls[i].writes == 0 && i !in s.inHand && i !in s.pending.Values
  {
    hide ReplyIn, IsRead, Cookie, OwnResponse;
  }

  lemma StillOwn(received: seq<Datagram>, d: Datagram, number: nat, o: Outcome)
    requires OwnResponse(received, number, o)
    ensures OwnResponse(received + [d], number, o)
  {
    hide ReplyIn, IsRead, Cookie;
  }

  lemma HandKept(s: Client, e: Event, t: Client)
    requires NumbersDiffer(s) && TableInv(s) && HandInv(s) && CallInv(s) && Next(s, e, t) && !e.Receive?
    ensures HandInv(t)
  {
    hide ReplyIn, IsRead, Cookie, OwnResponse;
    if e.FailAll? {
      forall i | i in s.pending.Values ensures s.calls[i].number > 0 { }
      forall i | i in s.calls ensures OwnResponse(s.received, s.calls[i].number, Failure(e.error)) {
        ErrorsAreOwn(s.received, s.calls[i].number, e.error);
      }
    }
  }

  lemma ErrorsAreOwn(received: seq<Datagram>, number: nat, message: string)
    ensures OwnResponse(received, number, Failure(message))
  {
  }

  lemma CallsKept(s: Client, e: Event, t: Client)
    requires NumbersDiffer(s) && TableInv(s) && HandInv(s) && CallInv(s) && Next(s, e, t) && !e.Receive?
    ensures CallInv(t)
  {
    hide ReplyIn, IsRead, Cookie, OwnResponse, TableInv;
    if e.TakeCookie? {
      ErrorsAreOwn(s.received, s.generated + 1, s.calls[e.call].result.message);
    }
    if e.Begin? {
      ErrorsAreOwn(s.received, 0, "rtpengine request not completed");
      ErrorsAreOwn(s.received, 0, "not started");
    }
    if e.Forget? {
      ErrorsAreOwn(s.received, s.calls[e.call].number, "not answered");
    }
  }

  /** What was a call's own stays its own when another datagram comes. */
  ghost predicate AllOwn(s: Client, received: seq<Datagram>) {
    forall i | i in s.calls ::
      && OwnResponse(received, s.calls[i].number, s.calls[i].result)
      && (s.calls[i].stage.Done? ==> OwnResponse(received, s.calls[i].number, s.calls[i].stage.outcome))
      && (i in s.inHand ==> OwnResponse(received, s.calls[i].number, s.inHand[i]))
  }

  lemma AllStillOwn(s: Client, d: Datagram)
    requires HandInv(s) && CallInv(s)
    ensures AllOwn(s, s.received + [d])
  {
    hide OwnResponse, Cookie;
    forall i | i in s.calls ensures
      && OwnResponse(s.received + [d], s.calls[i].number, s.calls[i].result)
      && (s.calls[i].stage.Done? ==> OwnResponse(s.received + [d], s.calls[i].number, s.calls[i].stage.outcome))
      && (i in s.inHand ==> OwnResponse(s.received + [d], s.calls[i].number, s.inHand[i]))
    {
      StillOwn(s.received, d, s.calls[i].number, s.calls[i].result);
      if s.calls[i].stage.Done? { StillOwn(s.received, d, s.calls[i].number, s.calls[i].stage.outcome); }
      if i in s.inHand { StillOwn(s.received, d, s.calls[i].number, s.inHand[i]); }
    }
  }

  lemma DatagramKeepsCalls(s: Client, e: Event, t: Client)
    requires HandInv(s) && CallInv(s) && Next(s, e, t) && e.Receive?
    ensures CallInv(t)
  {
    hide ReplyIn, IsRead, Cookie, OwnResponse;
    AllStillOwn(s, e.datagram);
  }

  lemma DatagramKeepsHands(s: Client, e: Event, t: Client)
    requires NumbersDiffer(s) && TableInv(s) && HandInv(s) && CallInv(s) && Next(s, e, t) && e.Receive?
    ensures HandInv(t)
  {
    hide ReplyIn, IsRead, Cookie, OwnResponse, CallInv;
    AllStillOwn(s, e.datagram);
    var reply := ReplyIn(e.datagram);
    if reply.Some? && reply.value.cookie in s.pending {
      NewestIsOwn(s, e.datagram, s.pending[reply.value.cookie]);
    }
  }

  lemma NewestIsOwn(s: Client, d: Datagram, i: nat)
    requires i in s.calls && ReplyIn(d).Some? && ReplyIn(d).value.cookie == Cookie(s.calls[i].number)
    ensures OwnResponse(s.received + [d], s.calls[i].number, Got(ReplyIn(d).value.dict, |s.received|))
  {
    hide ReplyIn, IsRead, Cookie;
  }

  lemma TakingComesFromBefore(s: Client, e: Event, t: Client, i: nat, k: nat)
    requires Next(s, e, t) && !e.Receive? && Took(t, i, k)
    ensures Took(s, i, k)
  {
    hide ReplyIn, IsRead, Cookie, Emplaced;
  }

  lemma ReceivingTakesOnce(s: Client, e: Event, t: Client, i: nat, k: nat)
    requires Next(s, e, t) && e.Receive? && Took(t, i, k)
    ensures Took(s, i, k) || (k == |s.received| && ReplyIn(e.datagram).Some? && ReplyIn(e.datagram).value.cookie in s.pending
                              && i == s.pending[ReplyIn(e.datagram).value.cookie])
  {
    hide ReplyIn, IsRead;
  }

  lemma TakenOnceKept(s: Client, e: Event, t: Client)
    requires TakenOnce(s) && Next(s, e, t)
    ensures TakenOnce(t)
  {
    hide Took, ReplyIn, IsRead;
    assert |t.received| >= |s.received| && (e.Receive? ==> |t.received| == |s.received| + 1) by { ReceivedGrows(s, e, t); }
    forall i: nat, k: nat | Took(t, i, k) ensures k < |t.received| {
      if e.Receive? { ReceivingTakesOnce(s, e, t, i, k); } else { TakingComesFromBefore(s, e, t, i, k); }
    }
    forall i: nat, j: nat, k: nat | Took(t, i, k) && Took(t, j, k) ensures i == j {
      if e.Receive? {
        ReceivingTakesOnce(s, e, t, i, k);
        ReceivingTakesOnce(s, e, t, j, k);
      } else {
        TakingComesFromBefore(s, e, t, i, k);
        TakingComesFromBefore(s, e, t, j, k);
      }
    }
  }

  lemma ReceivedGrows(s: Client, e: Event, t: Client)
    requires Next(s, e, t)
    ensures if e.Receive? then |t.received| == |s.received| + 1 else t.received == s.received
  {
    hide ReplyIn, IsRead, Cookie;
  }

  lemma NextKeepsInv(s: Client, e: Event, t: Client)
    requires Inv(s) && Next(s, e, t)
    ensures Inv(t)
  {
    hide Next, NumbersDiffer, TableInv, HandInv, CallInv, TakenOnce;
    if e.Begin? || e.TakeCookie? { NewNumbersDiffer(s, e, t); } else { OldNumbersDiffer(s, e, t); }
    if e.Register? { RegisterKeepsTable(s, e, t); }
    else if e.Forget? { ForgetKeepsTable(s, e, t); }
    else { TableKept(s, e, t); }
    if e.Receive? {
      DatagramKeepsHands(s, e, t);
      DatagramKeepsCalls(s, e, t);
    } else {
      HandKept(s, e, t);
      CallsKept(s, e, t);
    }
    TakenOnceKept(s, e, t);
  }

  lemma {:induction false} RunKeepsInv(states: seq<Client>, events: seq<Event>, k: nat)
    requires Run(states, events) && k < |states|
    ensures Inv(states[k])
    decreases events
  {
    hide Inv, Next;
    var n := |events|;
    if n == 0 {
      InitInv();
    } else if k < n {
      RunKeepsInv(states[..n], events[..n - 1], k);
    } else {
      RunKeepsInv(states[..n], events[..n - 1], n - 1);
      NextKeepsInv(states[n - 1], events[n - 1], states[n]);
    }
  }

  // ---------- Main results ----------

  /** However senders, receiver, time-outs and shutdown interleave, no request is completed twice. */
  lemma CompletedAtMostOnce(states: seq<Client>, events: seq<Event>, k: nat, i: nat)
    requires Run(states, events) && k < |states| && i in states[k].calls
    ensures states[k].calls[i].writes <= 1
    ensures states[k].calls[i].completed <==> states[k].calls[i].writes == 1
  {
    RunKeepsInv(states, events, k);
  }

  /** A call that returns a response returns the dictionary of a received datagram with its own cookie. */
  lemma ResponsesAreOwn(states: seq<Client>, events: seq<Event>, k: nat, i: nat)
    requires Run(states, events) && k < |states| && i in states[k].calls
    requires states[k].calls[i].stage.Done? && states[k].calls[i].stage.outcome.Got?
    ensures var o := states[k].calls[i].stage.outcome;
            && o.from < |states[k].received|
            && ReplyIn(states[k].received[o.from]) == Some(Reply(Cookie(states[k].calls[i].number), o.dict))
  {
    RunKeepsInv(states, events, k);
  }

  /** One datagram answers one call. */
  lemma DatagramsAnswerOneCall(states: seq<Client>, events: seq<Event>, k: nat, i: nat, j: nat)
    requires Run(states, events) && k < |states| && i in states[k].calls && j in states[k].calls && i != j
    requires states[k].calls[i].stage.Done? && states[k].calls[i].stage.outcome.Got?
    requires states[k].calls[j].stage.Done? && states[k].calls[j].stage.outcome.Got?
    ensures states[k].calls[i].stage.outcome.from != states[k].calls[j].stage.outcome.from
  {
    RunKeepsInv(states, events, k);
    assert Took(states[k], i, states[k].calls[i].stage.outcome.from);
    assert Took(states[k], j, states[k].calls[j].stage.outcome.from);
  }

  /** The table leaks nothing: each of its entries belongs to a call that has registered and not returned. */
  lemma TableHoldsOpenCallsOnly(states: seq<Client>, events: seq<Event>, k: nat, c: string)
    requires Run(states, events) && k < |states| && c in states[k].pending
    ensures var i := states[k].pending[c];
            i in states[k].calls && Open(states[k].calls[i]) && !states[k].calls[i].completed && c == Cookie(states[k].calls[i].number)
  {
    RunKeepsInv(states, events, k);
  }

  // ---------- No call is stranded ----------

  /** A call registers under the cookie of another open call. */
  predicate Collides(s: Client, e: Event) {
    e.Register? && e.call in s.calls
    && exists j | j in s.calls :: j != e.call && Open(s.calls[j]) && Cookie(s.calls[j].number) == Cookie(s.calls[e.call].number)
  }

  lemma {:induction false} DecimalOfRemainders(m: nat, n: nat)
    requires Cookie(m) == Cookie(n)
    ensures m % (ULONG_MAX + 1) == n % (ULONG_MAX + 1)
  {
    hide Decimal;
    DecimalsDiffer(m % (ULONG_MAX + 1), n % (ULONG_MAX + 1));
  }

  /** It takes a full turn of the 64-bit counter while the other call is open. */
  lemma CollisionTakesAFullTurn(s: Client, e: Event, j: nat)
    requires NumbersDiffer(s) && Enabled(s, e) && e.Register? && j in s.calls && j != e.call && Open(s.calls[j])
    requires Cookie(s.calls[j].number) == Cookie(s.calls[e.call].number)
    ensures s.generated > ULONG_MAX
    ensures s.calls[j].number >= s.calls[e.call].number + ULONG_MAX + 1 || s.calls[e.call].number >= s.calls[j].number + ULONG_MAX + 1
  {
    hide Cookie;
    DecimalOfRemainders(s.calls[j].number, s.calls[e.call].number);
  }

  predicate NeverCollides(states: seq<Client>, events: seq<Event>)
    requires |states| == |events| + 1
  {
    forall i | 0 <= i < |events| :: !Collides(states[i], events[i])
  }

  ghost predicate OpenApart(s: Client) {
    forall i, j | i in s.calls && j in s.calls && i != j && Open(s.calls[i]) && Open(s.calls[j]) ::
      Cookie(s.calls[i].number) != Cookie(s.calls[j].number)
  }

  /** No open call waits for something nobody will do. */
  ghost predicate NoneStranded(s: Client) {
    forall i | i in s.calls && Open(s.calls[i]) ::
      s.calls[i].completed || i in s.inHand || (Cookie(s.calls[i].number) in s.pending && s.pending[Cookie(s.calls[i].number)] == i)
  }

  lemma OpenApartKept(s: Client, e: Event, t: Client)
    requires OpenApart(s) && Next(s, e, t) && !Collides(s, e)
    ensures OpenApart(t)
  {
    hide ReplyIn, IsRead, Cookie;
    forall i | i in t.calls && Open(t.calls[i]) ensures
      i in s.calls && s.calls[i].number == t.calls[i].number && (Open(s.calls[i]) || (e.Register? && e.call == i)) { }
  }

  lemma StrandedKept(s: Client, e: Event, t: Client)
    requires TableInv(s) && NoneStranded(s) && Next(s, e, t) && !e.Forget? && !e.Register?
    ensures NoneStranded(t)
  {
    hide ReplyIn, IsRead, Cookie, OwnResponse;
  }

  lemma TableEditsStrandNone(s: Client, e: Event, t: Client)
    requires TableInv(s) && NoneStranded(s) && OpenApart(s) && Next(s, e, t) && !Collides(s, e) && (e.Forget? || e.Register?)
    ensures NoneStranded(t)
  {
    hide ReplyIn, IsRead, Cookie;
  }

  lemma {:induction false} RunStrandsNone(states: seq<Client>, events: seq<Event>, k: nat)
    requires Run(states, events) && NeverCollides(states, events) && k < |states|
    ensures OpenApart(states[k]) && NoneStranded(states[k])
    decreases events
  {
    hide Inv, Next, OpenApart, NoneStranded, Collides;
    var n := |events|;
    if n == 0 {
      InitStrandsNone();
    } else if k < n {
      RunStrandsNone(states[..n], events[..n - 1], k);
    } else {
      RunStrandsNone(states[..n], events[..n - 1], n - 1);
      RunKeepsInv(states, events, n - 1);
      TableOf(states[n - 1]);
      OpenApartKept(states[n - 1], events[n - 1], states[n]);
      if events[n - 1].Forget? || events[n - 1].Register? { TableEditsStrandNone(states[n - 1], events[n - 1], states[n]); }
      else { StrandedKept(states[n - 1], events[n - 1], states[n]); }
    }
  }

  lemma InitStrandsNone()
    ensures OpenApart(Init()) && NoneStranded(Init())
  {
  }

  lemma TableOf(s: Client)
    requires Inv(s)
    ensures TableInv(s)
  {
  }

  /** Without a collision every open call is completed, about to be completed, or in the table for a datagram to find. */
  lemma OpenCallsCanBeAnswered(states: seq<Client>, events: seq<Event>, k: nat, i: nat)
    requires Run(states, events) && NeverCollides(states, events) && k < |states| && i in states[k].calls && Open(states[k].calls[i])
    ensures var s := states[k];
            s.calls[i].completed || i in s.inHand || (Cookie(s.calls[i].number) in s.pending && s.pending[Cookie(s.calls[i].number)] == i)
  {
    RunStrandsNone(states, events, k);
  }
}
