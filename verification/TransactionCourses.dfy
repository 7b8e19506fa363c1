// Whole courses of a client transaction: against a peer that stays silent,
// over a reliable transport, and what each kind of response does.

module TransactionCourses {

  import opened TransactionTimers
  import opened TransactionRuns

  // ---------- A silent peer ----------

  /** The request is sent, no response is processed, and the transaction is not shut down. */
  predicate IsSilent(e: Event) {
    !e.Process? && !e.Shutdown? && (e.SendFirst? ==> e.delivered)
  }

  predicate SilentRun(es: seq<Event>) {
    forall i | 0 <= i < |es| :: IsSilent(es[i])
  }

  ghost predicate OnSchedule(c: Course) {
    forall k | 0 <= k < |c.sent| :: c.sent[k] == c.armedAt + Earliest(k)
  }

  /** Timer A goes on, one way or another, to the next point of the schedule, and Timer B to its end. */
  ghost predicate Pending(c: Course) {
    && c.core.phase.Trying? && !c.expired && |c.sent| == c.core.count + 1 && c.armedAt + Earliest(c.core.count) <= c.now
    && (|| (c.inFlight && c.core.a.Off? && c.now == c.armedAt + Earliest(c.core.count))
        || (!c.inFlight && c.core.a == Armed(c.armedAt + Earliest(c.core.count + 1)) && c.now <= c.armedAt + Earliest(c.core.count + 1))
        || (!c.inFlight && c.core.a.Queued? && c.now == c.armedAt + Earliest(c.core.count + 1)))
    && (|| (c.core.b == Armed(c.armedAt + 32_000) && c.now <= c.armedAt + 32_000)
        || (c.core.b.Queued? && c.now == c.armedAt + 32_000))
  }

  predicate TimedOutAfterEleven(c: Course) {
    c.core.phase.Terminated? && c.expired && c.core.count == 10 && |c.sent| == 11 && c.now >= c.armedAt + 32_000
    && c.core.a.Off? && !c.inFlight && c.core.b.Off?
  }

  ghost predicate SilentInv(c: Course) {
    match c.stage
    case New => c == Course(Core(Trying, Off, Off, 0), New, false, c.now, [], 0, false)
    case FirstSent => c == Course(Core(Trying, Off, Off, 0), FirstSent, false, c.now, [c.now], 0, false)
    case Started => OnSchedule(c) && (Pending(c) || TimedOutAfterEleven(c))
    case Failed => false
  }

  lemma ArmingIsOnSchedule(c: Course)
    requires SilentInv(c) && c.stage.FirstSent?
    ensures SilentInv(TimersStarted(c, true))
  {
    hide Interval;
    EarlyIntervals();
    assert Earliest(0) == 0 && Earliest(1) == 500;
    var d := TimersStarted(c, true);
    assert Pending(d);
  }

  lemma RetransmissionIsOnSchedule(c: Course)
    requires SilentInv(c) && c.core.a.Queued?
    ensures SilentInv(Retransmitted(c))
  {
    hide Interval, Earliest;
    assert Pending(Retransmitted(c));
  }

  lemma RearmingIsOnSchedule(c: Course)
    requires SilentInv(c) && c.inFlight
    ensures SilentInv(Resumed(c))
  {
    hide Interval;
    assert Earliest(c.core.count + 1) == Earliest(c.core.count) + Interval(c.core.count);
    assert Pending(Resumed(c));
  }

  lemma ExpiryIsOnSchedule(c: Course)
    requires SilentInv(c)
    ensures c.core.a.Armed? && c.core.a.due <= c.now ==> SilentInv(WithCore(c, c.core.(a := Queued)))
    ensures c.core.b.Armed? && c.core.b.due <= c.now ==> SilentInv(WithCore(c, c.core.(b := Queued)))
  {
    hide Earliest;
    if c.core.a.Armed? && c.core.a.due <= c.now { assert Pending(WithCore(c, c.core.(a := Queued))); }
    if c.core.b.Armed? && c.core.b.due <= c.now { assert Pending(WithCore(c, c.core.(b := Queued))); }
  }

  /** 32 seconds lie after the tenth point of the schedule and before the eleventh. */
  lemma TenBefore32Seconds(n: nat)
    ensures Earliest(n) != 32_000
    ensures Earliest(n) > 32_000 <==> n >= 11
  {
    if n >= 3 {
      EarliestFromThree(n);
    } else {
      EarlyIntervals();
      assert Earliest(0) == 0 && Earliest(1) == 500 && Earliest(2) == 1500;
    }
  }

  lemma TimeoutIsOnSchedule(c: Course)
    requires SilentInv(c) && c.core.b.Queued?
    ensures SilentInv(BServed(c))
  {
    hide Earliest;
    TenBefore32Seconds(c.core.count);
    TenBefore32Seconds(c.core.count + 1);
    assert TimedOutAfterEleven(BServed(c));
  }

  lemma WaitingIsOnSchedule(s: Txn, d: nat)
    requires SilentInv(s.course) && Enabled(s, Tick(d)) && Prompt(s, Tick(d))
    ensures SilentInv(s.course.(now := s.course.now + d))
  {
    hide Earliest;
    var c := s.course.(now := s.course.now + d);
    if s.course.stage.Started? && Pending(s.course) { assert Pending(c); }
  }

  lemma StepKeepsSilentInv(s: Txn, e: Event)
    requires s.udp && SilentInv(s.course) && Enabled(s, e) && IsSilent(e) && Prompt(s, e)
    ensures SilentInv(Step(s, e).course)
  {
    hide TimersStarted, Retransmitted, Resumed, BServed, WithCore, Pending, OnSchedule, TimedOutAfterEleven, Prompt;
    var c := s.course;
    match e
    case ArmTimers => ArmingIsOnSchedule(c);
    case ExpireA => ExpiryIsOnSchedule(c);
    case Retransmit => RetransmissionIsOnSchedule(c);
    case Rearm => RearmingIsOnSchedule(c);
    case ExpireB => ExpiryIsOnSchedule(c);
    case TimerB => TimeoutIsOnSchedule(c);
    case Tick(d) => WaitingIsOnSchedule(s, d);
    case _ =>
  }

  lemma {:induction false} SilentRunsKeepInv(s: Txn, es: seq<Event>)
    requires s.udp && SilentInv(s.course) && Valid(s, es) && SilentRun(es) && PromptRun(s, es)
    ensures SilentInv(Final(s, es).course)
    decreases es
  {
    hide SilentInv, Step, Enabled, Prompt, IsSilent;
    if es != [] {
      assert IsSilent(es[0]);
      StepKeepsSilentInv(s, es[0]);
      assert forall i | 0 <= i < |es| - 1 :: es[1..][i] == es[i + 1];
      TransportIsFixed(s, es[0]);
      SilentRunsKeepInv(Step(s, es[0]), es[1..]);
    }
  }

  lemma TransportIsFixed(s: Txn, e: Event)
    requires Enabled(s, e)
    ensures Step(s, e).udp == s.udp
  {
  }

  /** When the k-th retransmission is due, from the first sending on. */
  function DueAfter(k: nat): nat {
    if k == 0 then 0 else if k == 1 then 500 else if k == 2 then 1500 else 3500 + 4000 * (k - 3)
  }

  lemma ScheduleIs(k: nat)
    ensures Earliest(k) == DueAfter(k)
  {
    hide Interval;
    EarlyIntervals();
    assert Earliest(0) == 0 && Earliest(1) == 500 && Earliest(2) == 1500;
    if k >= 3 { EarliestFromThree(k); }
  }

  /**
   * Against a silent peer over UDP, with timers served when due: the request goes out at 0, 0.5, 1.5 and 3.5
   * seconds and every 4 seconds from then on, eleven times in all; and 32 seconds after the first the transaction
   * times out, not earlier and not later.
   */
  lemma SilentPeerTimesOut(invite: bool, es: seq<Event>, k: nat)
    requires Valid(Init(invite, true), es) && SilentRun(es) && PromptRun(Init(invite, true), es)
    requires Final(Init(invite, true), es).course.stage.Started?
    ensures var c := Final(Init(invite, true), es).course;
            && (c.expired ==> c.core.phase == Terminated && |c.sent| == 11 && c.now >= c.sent[0] + 32_000)
            && (!c.expired ==> c.core.phase == Trying && 1 <= |c.sent| <= 11 && c.now <= c.sent[0] + 32_000 && c.now <= c.sent[0] + DueAfter(|c.sent|))
            && (k < |c.sent| ==> c.sent[k] == c.sent[0] + DueAfter(k))
  {
    hide Earliest;
    SilentRunsKeepInv(Init(invite, true), es);
    var c := Final(Init(invite, true), es).course;
    ScheduleIs(0);
    ScheduleIs(k);
    ScheduleIs(c.core.count);
    ScheduleIs(c.core.count + 1);
    TenBefore32Seconds(c.core.count);
    assert c.sent[0] == c.armedAt;
  }

  // ---------- A reliable transport ----------

  predicate NeverRetransmits(c: Course) {
    c.core.a.Off? && !c.inFlight && c.core.count == 0 && |c.sent| <= 1 && (c.stage.New? ==> c.sent == [])
  }

  lemma StepNeverRetransmits(s: Txn, e: Event)
    requires !s.udp && NeverRetransmits(s.course) && Enabled(s, e)
    ensures NeverRetransmits(Step(s, e).course)
  {
  }

  lemma {:induction false} RunsNeverRetransmit(s: Txn, es: seq<Event>)
    requires !s.udp && NeverRetransmits(s.course) && Valid(s, es)
    ensures NeverRetransmits(Final(s, es).course)
    decreases es
  {
    hide NeverRetransmits, Step, Enabled;
    if es != [] {
      StepNeverRetransmits(s, es[0]);
      TransportIsFixed(s, es[0]);
      RunsNeverRetransmit(Step(s, es[0]), es[1..]);
    }
  }

  /** Over a reliable transport the request is sent once, in every run. */
  lemma ReliableTransportSendsOnce(invite: bool, es: seq<Event>)
    requires Valid(Init(invite, false), es)
    ensures |Final(Init(invite, false), es).course.sent| <= 1
  {
    RunsNeverRetransmit(Init(invite, false), es);
  }

  // ---------- Responses ----------

  /** A provisional response leads to Proceeding and stops Timer A alone; a final one ends the transaction and stops both timers. */
  lemma ResponsesLeadTo(s: Txn, r: nat)
    requires Enabled(s, Process(r))
    ensures var code, c, d := s.held[r].code, s.course.core, Step(s, Process(r)).course.core;
            && (100 <= code < 200 ==> d.phase == Proceeding && !d.a.Armed? && d.b == c.b)
            && (code >= 200 ==> !d.a.Armed? && !d.b.Armed? && d.phase == if s.invite && code < 300 then Completed else Terminated)
            && (code < 100 ==> d == c)
            && d.count == c.count && Step(s, Process(r)).course.sent == s.course.sent
  {
  }

  /** Nothing of Timer A is left that could send again. */
  predicate IsQuiet(c: Course) {
    (c.stage.Started? || c.stage.Failed?) && c.core.a.Off? && !c.inFlight
  }

  lemma StepStaysQuiet(s: Txn, e: Event)
    requires IsQuiet(s.course) && Enabled(s, e)
    ensures IsQuiet(Step(s, e).course) && Step(s, e).course.sent == s.course.sent
  {
  }

  /** From then on nothing is sent, whatever follows. */
  lemma {:induction false} QuietRunsSendNothing(s: Txn, es: seq<Event>)
    requires IsQuiet(s.course) && Valid(s, es)
    ensures Final(s, es).course.sent == s.course.sent
    decreases es
  {
    hide IsQuiet, Step, Enabled;
    if es != [] {
      StepStaysQuiet(s, es[0]);
      QuietRunsSendNothing(Step(s, es[0]), es[1..]);
    }
  }

  /** Any response from 100 on that meets no retransmission under way is the end of retransmission. */
  lemma ResponseStopsRetransmission(s: Txn, r: nat, es: seq<Event>)
    requires Enabled(s, Process(r)) && s.held[r].code >= 100 && s.course.stage.Started?
    requires !s.course.inFlight && !s.course.core.a.Queued? && Valid(Step(s, Process(r)), es)
    ensures Final(Step(s, Process(r)), es).course.sent == s.course.sent
  {
    QuietRunsSendNothing(Step(s, Process(r)), es);
  }

  /** The two halves of a retransmission that find the transaction ended: nothing is sent, and Timer A is not set again. */
  lemma EndedTransactionsSendNothing(s: Txn, e: Event)
    requires Enabled(s, e) && (s.course.core.phase == Completed || s.course.core.phase == Terminated) && (e.Retransmit? || e.Rearm?)
    ensures var c := Step(s, e).course;
            && c.sent == s.course.sent && c.core.count == s.course.core.count
            && c.core.a == (if e.Retransmit? then Off else s.course.core.a)
            && c.inFlight == (e.Retransmit? && s.course.inFlight)
  {
  }

  /** The entry of an answered or timed-out transaction is due to be erased, by the receiver or by the callback, and erasing it takes it out. */
  lemma EndedTransactionsAreErased(s: Txn, r: nat)
    requires Enabled(s, Process(r)) && s.held[r].code >= 200 && !s.closing
    ensures var t := Step(s, Process(r)); Enabled(t, EraseAnswered(r)) && !Step(t, EraseAnswered(r)).listed
  {
  }

  lemma TimeoutErases(s: Txn)
    requires Enabled(s, TimerB) && s.course.core.phase in {Trying, Proceeding}
    ensures var t := Step(s, TimerB);
            && t.course.core.phase == Terminated && !t.course.core.a.Armed?
            && Enabled(t, EraseSelf) && !Step(t, EraseSelf).listed
  {
  }

  /** A request that cannot be sent ends its transaction at once. */
  lemma UnsentRequestEnds(s: Txn)
    requires Enabled(s, SendFirst(false))
    ensures var t := Step(s, SendFirst(false));
            && t.course.core.phase == Terminated && t.course.stage.Failed? && t.course.sent == s.course.sent
            && !t.course.core.a.Armed? && !t.course.core.b.Armed? && Enabled(t, EraseSelf)
  {
  }

  /** A response can come before the timers are set: after a provisional one Timer B is set alone, after a final one neither. */
  lemma EarlyResponsesKeepTimersOff(s: Txn)
    requires Enabled(s, ArmTimers) && s.course.core.a.Off? && s.course.core.b.Off?
    ensures var c, now := Step(s, ArmTimers).course.core, s.course.now;
            && c.phase == s.course.core.phase
            && c.a == (if s.udp && s.course.core.phase == Trying then Armed(now + 500) else Off)
            && c.b == (if s.course.core.phase in {Trying, Proceeding} then Armed(now + 32_000) else Off)
  {
  }
}
