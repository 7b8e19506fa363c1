// Single exchanges with rtpengine from beginning to end: the texts on the
// wire, and what a command gives its caller.

module RtpengineExchanges {
  import opened Options
  import opened Bencode
  import opened NumberTexts
  import opened Numerals
  import opened Texts
  import opened RtpengineProtocol
  import opened RtpengineRuns

  // ---------- Texts ----------

  lemma CookieTexts()
    ensures Cookie(1) == "1" && Cookie(42) == "42" && Cookie(0x1_0000_0000_0000_0000) == "0"
  {
    hide Decimal;
    DecimalTexts();
    assert Decimal(1) == "1" by { FirstDecimal(); }
  }

  lemma FirstDecimal()
    ensures Decimal(1) == "1"
  {
  }

  lemma PingText()
    ensures Payload(Cookie(1), [Entry("command", Str("ping"))]) == "1 d7:command4:pinge"
  {
    hide Cookie, EncodeEntries;
    CookieTexts();
    PingEntry();
  }

  lemma PingEntry()
    ensures var es := [Entry("command", Str("ping"))]; EncodeEntries(Dict(es), es) == "7:command4:ping"
  {
    hide Decimal;
    DecimalTexts();
    Sevenths();
    var es := [Entry("command", Str("ping"))];
    assert EncodeString("command") == "7:command" && EncodeString("ping") == "4:ping";
    assert EncodeEntries(Dict(es), es[..0]) == "";
  }

  lemma Sevenths()
    ensures Decimal(7) == "7"
  {
  }

  /** A text without a space, and one with anything but a dictionary behind it, are no replies. */
  lemma OtherTextsAreNoReplies(cookie: string, v: Value, steps: nat)
    requires ' ' !in cookie
    ensures ReplyIn(Datagram(cookie, steps)) == None
    ensures WellFormed(v) && !v.Dict? && |cookie + " " + Encode(v)| <= ULONG_MAX && steps >= 2 * |cookie + " " + Encode(v)| ==>
              ReplyIn(Datagram(cookie + " " + Encode(v), steps)) == None
  {
    hide Encode, Decode, WellFormed;
    assert Find(cookie, ' ', 0) == |cookie|;
    var text := cookie + " " + Encode(v);
    FindsAt(text, ' ', 0, |cookie|);
    assert text[|cookie| + 1..] == Encode(v) + "";
    if WellFormed(v) && !v.Dict? && |text| <= ULONG_MAX && steps >= 2 * |text| { DecodeUndoesEncode(v, "", steps); }
  }

  // ---------- Exchanges ----------

  /** The state after some steps, each of which must be possible. */
  function Play(s: Client, es: seq<Event>): Option<Client>
    decreases es
  {
    if es == [] then Some(s)
    else if Enabled(s, es[0]) then Play(Step(s, es[0]), es[1..])
    else None
  }

  lemma {:induction false} PlayOn(s: Client, es: seq<Event>, fs: seq<Event>)
    ensures Play(s, es + fs) == if Play(s, es).None? then None else Play(Play(s, es).value, fs)
    decreases es
  {
    hide Enabled, Step;
    if es == [] {
      assert es + fs == fs;
    } else {
      assert (es + fs)[0] == es[0] && (es + fs)[1..] == es[1..] + fs;
      if Enabled(s, es[0]) { PlayOn(Step(s, es[0]), es[1..], fs); }
    }
  }

  lemma PlayOne(s: Client, e: Event)
    ensures Play(s, [e]) == if Enabled(s, e) then Some(Step(s, e)) else None
  {
    hide Enabled, Step;
    assert [e][1..] == [];
  }

  lemma PlayTwo(s: Client, d: Event, e: Event)
    requires Enabled(s, d) && Enabled(Step(s, d), e)
    ensures Play(s, [d, e]) == Some(Step(Step(s, d), e))
  {
    hide Enabled, Step;
    assert [d, e][1..] == [e];
    PlayOne(Step(s, d), e);
  }

  /** A command of a running client takes the next number and is filed under it while it waits. */
  lemma CommandIsFiled(s: Client, i: nat)
    requires !s.shuttingDown && i !in s.calls && Cookie(s.generated + 1) !in s.pending
    ensures Play(s, [Begin(i, true), TakeCookie(i), Register(i), Send(i, true)])
         == Some(s.(calls := s.calls[i := Call(Waiting, s.generated + 1, false, Failure("rtpengine request not completed"), 0)],
                    generated := s.generated + 1,
                    pending := s.pending[Cookie(s.generated + 1) := i]))
  {
    hide Cookie;
    var s1 := Step(s, Begin(i, true));
    var s2 := Step(s1, TakeCookie(i));
    PlayTwo(s, Begin(i, true), TakeCookie(i));
    var s3 := Step(s2, Register(i));
    PlayTwo(s2, Register(i), Send(i, true));
    PlayOn(s, [Begin(i, true), TakeCookie(i)], [Register(i), Send(i, true)]);
    assert [Begin(i, true), TakeCookie(i)] + [Register(i), Send(i, true)] == [Begin(i, true), TakeCookie(i), Register(i), Send(i, true)];
    var t := Step(s3, Send(i, true));
    assert t.calls == s.calls[i := Call(Waiting, s.generated + 1, false, Failure("rtpengine request not completed"), 0)];
    assert t.pending == s.pending[Cookie(s.generated + 1) := i];
    assert t.generated == s.generated + 1;
    assert t == s.(calls := t.calls, generated := t.generated, pending := t.pending);
    assert Play(s, [Begin(i, true), TakeCookie(i), Register(i), Send(i, true)]) == Some(t);
  }

  /** A result in hand for a waiting command is written once and returned. */
  lemma ResultIsReturned(s: Client, i: nat)
    requires At(s, i, Waiting) && i in s.inHand
    ensures var t := Play(s, [Write(i), Wake(i)]);
            && t.Some? && At(t.value, i, Done(s.inHand[i]))
            && t.value.pending == s.pending && t.value.inHand == s.inHand - {i} && t.value.received == s.received
            && forall j | j in s.calls && j != i :: j in t.value.calls && t.value.calls[j] == s.calls[j]
  {
    PlayTwo(s, Write(i), Wake(i));
  }

  /** A waiting command whose cookie comes back with a dictionary returns that dictionary, and its entry is gone. */
  lemma AnswerIsReturned(s: Client, i: nat, d: Datagram, dict: seq<Entry>)
    requires At(s, i, Waiting) && !s.calls[i].completed && i !in s.inHand
    requires Cookie(s.calls[i].number) in s.pending && s.pending[Cookie(s.calls[i].number)] == i
    requires IsRead(d) && ReplyIn(d) == Some(Reply(Cookie(s.calls[i].number), dict))
    ensures var t := Play(s, [Receive(d), Write(i), Wake(i)]);
            && t.Some? && At(t.value, i, Done(Got(dict, |s.received|)))
            && t.value.pending == s.pending - {Cookie(s.calls[i].number)} && t.value.inHand == s.inHand
            && t.value.received == s.received + [d]
            && forall j | j in s.calls && j != i :: j in t.value.calls && t.value.calls[j] == s.calls[j]
  {
    hide Cookie, IsRead, ReplyIn, Play;
    var s1 := Step(s, Receive(d));
    PlayOne(s, Receive(d));
    assert s1.inHand == s.inHand[i := Got(dict, |s.received|)];
    ResultIsReturned(s1, i);
    assert s1.inHand - {i} == s.inHand;
    assert [Receive(d)] + [Write(i), Wake(i)] == [Receive(d), Write(i), Wake(i)];
    PlayOn(s, [Receive(d)], [Write(i), Wake(i)]);
  }

  /**
   * A whole command: rtpengine echoes the cookie and answers with a dictionary, in its own text and with anything
   * behind it. The caller gets that dictionary, and the table is what it was.
   */
  lemma CommandIsAnswered(s: Client, i: nat, dict: seq<Entry>, suffix: string, steps: nat)
    requires !s.shuttingDown && i !in s.calls && i !in s.inHand && Cookie(s.generated + 1) !in s.pending
    requires WellFormed(Dict(dict))
    requires var text := Cookie(s.generated + 1) + " " + Encode(Dict(dict)) + suffix; |text| <= ULONG_MAX && steps >= 2 * |text|
    ensures var d := Datagram(Cookie(s.generated + 1) + " " + Encode(Dict(dict)) + suffix, steps);
            var t := Play(s, [Begin(i, true), TakeCookie(i), Register(i), Send(i, true)] + [Receive(d), Write(i), Wake(i)]);
            t.Some? && At(t.value, i, Done(Got(dict, |s.received|))) && t.value.pending == s.pending
  {
    hide Cookie, IsRead, ReplyIn, Encode, WellFormed, Play;
    var c := Cookie(s.generated + 1);
    var d := Datagram(c + " " + Encode(Dict(dict)) + suffix, steps);
    EchoedCookieIsUnderstood(s.generated + 1, dict, suffix, steps);
    CommandIsFiled(s, i);
    var es := [Begin(i, true), TakeCookie(i), Register(i), Send(i, true)];
    var m := Play(s, es).value;
    AnswerIsReturned(m, i, d, dict);
    PlayOn(s, es, [Receive(d), Write(i), Wake(i)]);
    assert m.pending - {c} == s.pending;
  }

  /** A text under no cookie of the table changes nothing but the record of texts received. */
  lemma ForeignReplyIsIgnored(s: Client, d: Datagram)
    requires IsRead(d) && (ReplyIn(d).Some? ==> ReplyIn(d).value.cookie !in s.pending)
    ensures Step(s, Receive(d)) == s.(received := s.received + [d])
  {
    hide ReplyIn, IsRead;
  }

  /** A command that is not sent, or not answered in time, fails and leaves no entry. */
  lemma UnansweredCommandFails(s: Client, i: nat)
    requires At(s, i, Waiting) && !s.calls[i].completed
    ensures var t := Play(s, [TimeOut(i), Forget(i)]);
            t.Some? && At(t.value, i, Done(Failure("not answered"))) && t.value.pending == s.pending - {Cookie(s.calls[i].number)}
  {
    hide Cookie;
    PlayTwo(s, TimeOut(i), Forget(i));
  }

  lemma UnsentCommandFails(s: Client, i: nat)
    requires At(s, i, Registered)
    ensures var t := Play(s, [Send(i, false), Forget(i)]);
            t.Some? && At(t.value, i, Done(Failure("not answered"))) && t.value.pending == s.pending - {Cookie(s.calls[i].number)}
  {
    hide Cookie;
    PlayTwo(s, Send(i, false), Forget(i));
  }

  /** Shutdown fails every command that waits, with its error, and refuses new ones. */
  lemma ShutdownFailsTheWaiting(s: Client, i: nat, error: string)
    requires At(s, i, Waiting) && i in s.pending.Values
    ensures var t := Play(s, [FailAll(error), Write(i), Wake(i)]);
            t.Some? && At(t.value, i, Done(Failure(error))) && t.value.pending == map[]
  {
    hide Play;
    var s1 := Step(s, FailAll(error));
    PlayOne(s, FailAll(error));
    ResultIsReturned(s1, i);
    assert [FailAll(error)] + [Write(i), Wake(i)] == [FailAll(error), Write(i), Wake(i)];
    PlayOn(s, [FailAll(error)], [Write(i), Wake(i)]);
  }

  lemma NoCommandAfterShutdown(s: Client, i: nat, ready: bool)
    requires i !in s.calls
    ensures var t := Play(s, [Shutdown, Begin(i, ready)]);
            t.Some? && i in t.value.calls && t.value.calls[i].stage.Done? && t.value.calls[i].stage.outcome.Failure? && t.value.pending == s.pending
  {
    PlayTwo(s, Shutdown, Begin(i, ready));
  }

  /** Nor does a command whose receiver thread cannot be started begin. */
  lemma NoCommandWithoutReceiver(s: Client, i: nat)
    requires i !in s.calls
    ensures var t := Play(s, [Begin(i, false)]);
            t.Some? && i in t.value.calls && t.value.calls[i].stage.Done? && t.value.calls[i].stage.outcome.Failure? && t.value.pending == s.pending
  {
    PlayOne(s, Begin(i, false));
  }

  /** A command that meets its own cookie in the table leaves the entry with the other command. */
  lemma EarlierEntryStays(s: Client, i: nat)
    requires At(s, i, Numbered) && Cookie(s.calls[i].number) in s.pending
    ensures Step(s, Register(i)).pending == s.pending && At(Step(s, Register(i)), i, Registered)
  {
    hide Cookie;
  }
}
