// The SIP client transaction: Timer A back-off against Timer B, with
// responses arriving in any order and at any time. Times are milliseconds.

module TransactionTimers {
  import opened Options

  const T1: nat := 500
  const T2: nat := 4000
  const TIMER_B: nat := 32000

  datatype Phase = Trying | Proceeding | Completed | Terminated

  /** An expired timer whose handler is queued is out of reach of cancel(). */
  datatype Timer = Off | Armed(due: nat) | Queued

  datatype Core = Core(phase: Phase, a: Timer, b: Timer, count: nat)

  predicate Ended(p: Phase) { p.Completed? || p.Terminated? }

  function Canceled(t: Timer): Timer {
    if t.Armed? then Off else t
  }

  /** 1 << n */
  function Shifted(n: nat): (r: nat)
    ensures r >= 1
  {
    if n == 0 then 1 else 2 * Shifted(n - 1)
  }

  function Interval(n: nat): nat {
    if T1 * Shifted(n) > T2 then T2 else T1 * Shifted(n)
  }

  // ---------- The locked sections ----------

  function StartFailed(c: Core): Core {
    Core(Terminated, Canceled(c.a), Canceled(c.b), c.count)
  }

  function TimersArmed(c: Core, udp: bool, now: nat): Core {
    Core(
      c.phase,
      if udp && c.phase.Trying? then Armed(now + T1) else c.a,
      if Ended(c.phase) then c.b else Armed(now + TIMER_B),
      if c.phase.Trying? then 0 else c.count)
  }

  function Counted(c: Core): Core {
    if Ended(c.phase) then c else c.(count := c.count + 1)
  }

  function Rearmed(c: Core, n: nat, now: nat): Core {
    if Ended(c.phase) then c else c.(a := Armed(now + Interval(n)))
  }

  function Responded(c: Core, code: nat, invite: bool): Core {
    if 100 <= code < 200 then c.(phase := Proceeding, a := Canceled(c.a))
    else if code >= 200 then
      Core(if !invite || code >= 300 then Terminated else Completed, Canceled(c.a), Canceled(c.b), c.count)
    else c
  }

  function TimedOut(c: Core): Core {
    if Ended(c.phase) then c else c.(phase := Terminated, a := Canceled(c.a))
  }

  class ClientTransaction {
    const invite: bool
    const udp: bool
    var phase: Phase
    var timerA: Timer
    var timerB: Timer
    var retransmitCount: nat

    constructor (invite: bool, udp: bool)
      ensures View() == Core(Trying, Off, Off, 0) && this.invite == invite && this.udp == udp
    {
      this.invite, this.udp := invite, udp;
      phase, timerA, timerB, retransmitCount := Trying, Off, Off, 0;
    }

    ghost function View(): Core
      reads this
    {
      Core(phase, timerA, timerB, retransmitCount)
    }

    method CancelA()
      modifies this`timerA
      ensures timerA == Canceled(old(timerA))
    {
      if timerA.Armed? { timerA := Off; }
    }

    method CancelB()
      modifies this`timerB
      ensures timerB == Canceled(old(timerB))
    {
      if timerB.Armed? { timerB := Off; }
    }

    /** start after its send: sent says whether that succeeded. */
    method Start(sent: bool, now: nat)
      modifies this
      ensures View() == if sent then TimersArmed(old(View()), udp, now) else StartFailed(old(View()))
    {
      if !sent {
        phase := Terminated;
        CancelA();
        CancelB();
        return;
      }
      if phase.Trying? {
        retransmitCount := 0;
      }
      if udp && phase.Trying? {
        timerA := Armed(now + T1);
      }
      if !phase.Completed? && !phase.Terminated? {
        timerB := Armed(now + TIMER_B);
      }
    }

    /** retransmit before its send: nothing is sent unless a count comes back. */
    method CountRetransmit() returns (n: Option<nat>)
      modifies this`retransmitCount
      ensures View() == Counted(old(View()))
      ensures n == if Ended(phase) then None else Some(retransmitCount)
    {
      if phase.Completed? || phase.Terminated? {
        return None;
      }
      retransmitCount := retransmitCount + 1;
      return Some(retransmitCount);
    }

    /** retransmit after its send. */
    method Rearm(n: nat, now: nat)
      modifies this`timerA
      ensures View() == Rearmed(old(View()), n, now)
    {
      var interval := T1 * Shifted(n);
      if interval > T2 {
        interval := T2;
      }
      if phase.Completed? || phase.Terminated? {
        return;
      }
      timerA := Armed(now + interval);
    }

    method ProcessResponse(code: nat)
      modifies this
      ensures View() == Responded(old(View()), code, invite)
    {
      if 100 <= code < 200 {
        phase := Proceeding;
        CancelA();
      } else if code >= 200 {
        phase := Completed;
        CancelA();
        CancelB();
        if !invite || code >= 300 {
          phase := Terminated;
        }
      }
    }

    method TimerBHandler() returns (timedOut: bool)
      modifies this
      ensures View() == TimedOut(old(View())) && timedOut == !Ended(old(phase))
    {
      if !phase.Completed? && !phase.Terminated? {
        phase := Terminated;
        CancelA();
        return true;
      }
      return false;
    }

    method Shutdown()
      modifies this
      ensures View() == StartFailed(old(View()))
    {
      phase := Terminated;
      CancelA();
      CancelB();
    }
  }
}

module TransactionRuns {

  import opened TransactionTimers

  datatype Stage = New | FirstSent | Started | Failed

  /** A response in a receiver's hands: looked up and not processed, or processed and its entry not yet erased. */
  datatype Held = Looked(code: nat) | Answered

  /**
   * inFlight: a retransmission between its two locked sections. sent (the times of all sends), armedAt (when
   * start armed its timers) and expired (Timer B ended the transaction) are history.
   */
  datatype Course = Course(core: Core, stage: Stage, inFlight: bool, now: nat, sent: seq<nat>, armedAt: nat, expired: bool)

  /**
   * The course of the transaction, its entry in the transaction table (listed), and the receivers that found
   * it there. leaving: a callback is due to erase the entry; closing: the layer has shut down.
   */
  datatype Txn = Txn(course: Course, listed: bool, leaving: bool, closing: bool, held: map<nat, Held>, invite: bool, udp: bool)

  datatype Event =
    | SendFirst(delivered: bool)
    | ArmTimers
    | ExpireA
    | Retransmit
    | Rearm
    | ExpireB
    | TimerB
    | Lookup(receiver: nat, code: nat)
    | Process(receiver: nat)
    | EraseAnswered(receiver: nat)
    | EraseSelf
    | Close
    | Shutdown
    | Tick(d: nat)

  function Init(invite: bool, udp: bool): Txn {
    Txn(Course(Core(Trying, Off, Off, 0), New, false, 0, [], 0, false), true, false, false, map[], invite, udp)
  }

  /** Timer A may be served late, never early; Timer B is served when it is due. */
  predicate Enabled(s: Txn, e: Event) {
    match e
    case SendFirst(_) => s.course.stage.New?
    case ArmTimers => s.course.stage.FirstSent?
    case ExpireA => s.course.core.a.Armed? && s.course.core.a.due <= s.course.now
    case Retransmit => s.course.core.a.Queued?
    case Rearm => s.course.inFlight
    case ExpireB => s.course.core.b.Armed? && s.course.core.b.due <= s.course.now
    case TimerB => s.course.core.b.Queued?
    case Lookup(r, _) => s.listed && r !in s.held
    case Process(r) => r in s.held && s.held[r].Looked?
    case EraseAnswered(r) => r in s.held && s.held[r].Answered?
    case EraseSelf => s.leaving
    case Close => true
    case Shutdown => s.closing
    case Tick(d) => (s.course.core.b.Armed? ==> s.course.now + d <= s.course.core.b.due) && (s.course.core.b.Queued? ==> d == 0)
  }

  function Step(s: Txn, e: Event): Txn
    requires Enabled(s, e)
  {
    match e
    case SendFirst(delivered) => s.(course := FirstSend(s.course, delivered), leaving := s.leaving || !delivered)
    case ArmTimers => s.(course := TimersStarted(s.course, s.udp))
    case ExpireA => s.(course := WithCore(s.course, s.course.core.(a := Queued)))
    case Retransmit => s.(course := Retransmitted(s.course))
    case Rearm => s.(course := Resumed(s.course))
    case ExpireB => s.(course := WithCore(s.course, s.course.core.(b := Queued)))
    case TimerB => s.(course := BServed(s.course), leaving := s.leaving || !Ended(s.course.core.phase))
    case Lookup(r, code) => s.(held := s.held[r := Looked(code)])
    case Process(r) =>
      var code := s.held[r].code;
      s.(course := WithCore(s.course, Responded(s.course.core, code, s.invite)),
         held := if code >= 200 && !s.closing then s.held[r := Answered] else s.held - {r})
    case EraseAnswered(r) => s.(listed := false, held := s.held - {r})
    case EraseSelf => s.(listed := false, leaving := false)
    case Close => s.(listed := false, closing := true)
    case Shutdown => s.(course := WithCore(s.course, StartFailed(s.course.core)))
    case Tick(d) => s.(course := s.course.(now := s.course.now + d))
  }

  function WithCore(c: Course, core: Core): Course {
    c.(core := core)
  }

  function FirstSend(c: Course, delivered: bool): Course {
    if delivered then c.(stage := FirstSent, sent := [c.now]) else c.(stage := Failed, core := StartFailed(c.core))
  }

  function TimersStarted(c: Course, udp: bool): Course {
    c.(stage := Started, core := TimersArmed(c.core, udp, c.now), armedAt := c.now)
  }

  function Retransmitted(c: Course): Course {
    var core := Counted(c.core.(a := Off));
    if Ended(c.core.phase) then c.(core := core) else c.(core := core, inFlight := true, sent := c.sent + [c.now])
  }

  function Resumed(c: Course): Course {
    c.(core := Rearmed(c.core, c.core.count, c.now), inFlight := false)
  }

  function BServed(c: Course): Course {
    c.(core := TimedOut(c.core.(b := Off)), expired := c.expired || !Ended(c.core.phase))
  }

  predicate Valid(s: Txn, es: seq<Event>)
    decreases es
  {
    es == [] || (Enabled(s, es[0]) && Valid(Step(s, es[0]), es[1..]))
  }

  function Final(s: Txn, es: seq<Event>): Txn
    requires Valid(s, es)
    decreases es
  {
    if es == [] then s else Final(Step(s, es[0]), es[1..])
  }

  /**
   * The unguarded branch of processResponse: a provisional response, looked up while the transaction was in
   * the table, is processed after it has ended and lost its Timer B, while a retransmission is under way.
   */
  predicate Revives(s: Txn, e: Event) {
    && e.Process? && e.receiver in s.held && s.held[e.receiver].Looked? && 100 <= s.held[e.receiver].code < 200
    && s.course.stage.Started? && Ended(s.course.core.phase) && s.course.core.b.Off?
    && (s.course.inFlight || s.course.core.a.Queued?)
  }

  predicate NeverRevives(s: Txn, es: seq<Event>)
    requires Valid(s, es)
    decreases es
  {
    es == [] || (!Revives(s, es[0]) && NeverRevives(Step(s, es[0]), es[1..]))
  }

  // ---------- Back-off ----------

  /** The earliest time of the n-th retransmission after start. */
  function Earliest(n: nat): nat {
    if n == 0 then 0 else Earliest(n - 1) + Interval(n - 1)
  }

  lemma EarlyIntervals()
    ensures Interval(0) == 500 && Interval(1) == 1000 && Interval(2) == 2000 && Interval(3) == 4000
  {
    assert Shifted(0) == 1 && Shifted(1) == 2 && Shifted(2) == 4 && Shifted(3) == 8;
  }

  lemma {:induction false} LateIntervals(n: nat)
    requires n >= 3
    ensures Interval(n) == T2 && Shifted(n) >= 8
  {
    if n == 3 { EarlyIntervals(); assert Shifted(0) == 1 && Shifted(1) == 2 && Shifted(2) == 4; } else { LateIntervals(n - 1); }
  }

  lemma {:induction false} EarliestFromThree(n: nat)
    requires n >= 3
    ensures Earliest(n) == 3500 + 4000 * (n - 3)
  {
    if n == 3 {
      EarlyIntervals();
      assert Earliest(1) == 500 && Earliest(2) == 1500;
    } else {
      EarliestFromThree(n - 1);
      LateIntervals(n - 1);
    }
  }

  lemma TenFit(n: nat)
    requires Earliest(n) <= TIMER_B
    ensures n <= 10
  {
    if n > 10 { EarliestFromThree(n); }
  }

  // ---------- Invariants ----------

  /** Spacing: it holds in every run. */
  ghost predicate Spaced(c: Course) {
    && (c.stage.New? ==> c.sent == [] && c.core.count == 0)
    && (!c.stage.Started? ==> c.core.a.Off? && !c.inFlight && c.core.count == 0)
    && (c.core.count > 0 || c.inFlight || !c.core.a.Off? || c.stage.FirstSent? ==> |c.sent| == c.core.count + 1)
    && (c.inFlight ==> c.core.a.Off?)
    && |c.sent| <= c.core.count + 1
    && (forall k | 0 <= k < |c.sent| :: c.sent[k] <= c.now)
    && (forall k | 0 <= k < |c.sent| - 1 :: c.sent[k] + Interval(k) <= c.sent[k + 1])
    && (c.core.a.Armed? ==> c.sent[|c.sent| - 1] + Interval(c.core.count) <= c.core.a.due)
    && (c.core.a.Queued? ==> c.sent[|c.sent| - 1] + Interval(c.core.count) <= c.now)
  }

  /** Timer B is there as long as anything can still be retransmitted. */
  ghost predicate Guarded(c: Course) {
    && (c.core.b.Armed? ==> c.stage.Started? && !Ended(c.core.phase) && c.core.b.due == c.armedAt + TIMER_B && c.now <= c.core.b.due)
    && (c.core.b.Queued? ==> c.stage.Started? && c.now <= c.armedAt + TIMER_B)
    && (c.stage.Started? && c.core.b.Off? ==> Ended(c.core.phase) || (c.core.a.Off? && !c.inFlight))
    && (c.core.a.Armed? ==> !Ended(c.core.phase) && c.armedAt + Earliest(c.core.count + 1) <= c.core.a.due)
    && (c.core.a.Queued? ==> c.armedAt + Earliest(c.core.count + 1) <= c.now)
    && (c.inFlight ==> c.armedAt + Earliest(c.core.count) <= c.now)
    && Earliest(c.core.count) <= TIMER_B
  }

  /** What responses, time-outs and shutdown can do to the core: Timer A is kept, cancelled or found expired. */
  predicate Follows(c: Course, core: Core) {
    && core.count == c.core.count
    && (core.a == c.core.a || core.a.Off? || (core.a.Queued? && c.core.a.Armed? && c.core.a.due <= c.now))
  }

  lemma CoreKeepsSpaced(c: Course, core: Core)
    requires Spaced(c) && Follows(c, core)
    ensures Spaced(WithCore(c, core))
  {
    hide Interval;
  }

  lemma FirstSendKeepsSpaced(c: Course, delivered: bool)
    requires Spaced(c) && c.stage.New?
    ensures Spaced(FirstSend(c, delivered))
  {
    hide Interval;
  }

  lemma TimersStartedKeepsSpaced(c: Course, udp: bool)
    requires Spaced(c) && c.stage.FirstSent?
    ensures Spaced(TimersStarted(c, udp))
  {
    hide Interval;
    IntervalZero();
  }

  lemma RetransmittedKeepsSpaced(c: Course)
    requires Spaced(c) && c.core.a.Queued?
    ensures Spaced(Retransmitted(c))
  {
    hide Interval;
  }

  lemma ResumedKeepsSpaced(c: Course)
    requires Spaced(c) && c.inFlight
    ensures Spaced(Resumed(c))
  {
    hide Interval;
  }

  lemma TimeKeepsSpaced(c: Course, now: nat)
    requires Spaced(c) && c.now <= now
    ensures Spaced(c.(now := now))
  {
    hide Interval;
  }

  lemma ServedFollows(c: Course)
    ensures BServed(c) == WithCore(c, BServed(c).core).(expired := BServed(c).expired) && Follows(c, BServed(c).core)
    ensures Spaced(WithCore(c, BServed(c).core)) ==> Spaced(BServed(c))
  {
  }

  lemma EndingFollows(c: Course, code: nat, invite: bool)
    ensures Follows(c, Responded(c.core, code, invite)) && Follows(c, StartFailed(c.core))
  {
  }

  lemma StepKeepsSpaced(s: Txn, e: Event)
    requires Spaced(s.course) && Enabled(s, e)
    ensures Spaced(Step(s, e).course)
  {
    hide Spaced, FirstSend, TimersStarted, Retransmitted, Resumed, BServed, Responded, StartFailed, WithCore;
    var c := s.course;
    match e
    case SendFirst(delivered) => FirstSendKeepsSpaced(c, delivered);
    case ArmTimers => TimersStartedKeepsSpaced(c, s.udp);
    case ExpireA => CoreKeepsSpaced(c, c.core.(a := Queued));
    case Retransmit => RetransmittedKeepsSpaced(c);
    case Rearm => ResumedKeepsSpaced(c);
    case ExpireB => CoreKeepsSpaced(c, c.core.(b := Queued));
    case TimerB => ServedFollows(c); CoreKeepsSpaced(c, BServed(c).core);
    case Process(r) =>
      EndingFollows(c, s.held[r].code, s.invite);
      CoreKeepsSpaced(c, Responded(c.core, s.held[r].code, s.invite));
    case Shutdown => EndingFollows(c, 0, false); CoreKeepsSpaced(c, StartFailed(c.core));
    case Tick(d) => TimeKeepsSpaced(c, c.now + d);
    case _ =>
  }

  lemma IntervalZero()
    ensures Interval(0) == T1
  {
    assert Shifted(0) == 1;
  }

  lemma FirstSendKeepsGuarded(c: Course, delivered: bool)
    requires Spaced(c) && Guarded(c) && c.stage.New?
    ensures Guarded(FirstSend(c, delivered))
  {
    hide Interval, Earliest;
  }

  lemma TimersStartedKeepsGuarded(c: Course, udp: bool)
    requires Spaced(c) && Guarded(c) && c.stage.FirstSent?
    ensures Guarded(TimersStarted(c, udp))
  {
    hide Interval;
    IntervalZero();
    assert Earliest(1) == Earliest(0) + Interval(0);
  }

  lemma RetransmittedKeepsGuarded(c: Course)
    requires Spaced(c) && Guarded(c) && c.core.a.Queued?
    ensures Guarded(Retransmitted(c))
  {
    hide Interval, Earliest;
  }

  lemma ResumedKeepsGuarded(c: Course)
    requires Spaced(c) && Guarded(c) && c.inFlight
    ensures Guarded(Resumed(c))
  {
    hide Interval;
    assert Earliest(c.core.count + 1) == Earliest(c.core.count) + Interval(c.core.count);
  }

  lemma ExpiryKeepsGuarded(c: Course)
    requires Guarded(c)
    ensures c.core.a.Armed? && c.core.a.due <= c.now ==> Guarded(WithCore(c, c.core.(a := Queued)))
    ensures c.core.b.Armed? && c.core.b.due <= c.now ==> Guarded(WithCore(c, c.core.(b := Queued)))
  {
    hide Earliest;
  }

  lemma ServedKeepsGuarded(c: Course)
    requires Guarded(c) && c.core.b.Queued?
    ensures Guarded(BServed(c))
  {
    hide Earliest;
  }

  lemma ResponseKeepsGuarded(c: Course, code: nat, invite: bool)
    requires Spaced(c) && Guarded(c)
    requires 100 <= code < 200 && c.stage.Started? && Ended(c.core.phase) && c.core.b.Off? ==> !c.inFlight && !c.core.a.Queued?
    ensures Guarded(WithCore(c, Responded(c.core, code, invite)))
  {
    hide Earliest, Interval;
  }

  lemma ShutdownKeepsGuarded(c: Course)
    requires Guarded(c)
    ensures Guarded(WithCore(c, StartFailed(c.core)))
  {
    hide Earliest;
  }

  lemma TimeKeepsGuarded(c: Course, d: nat)
    requires Guarded(c) && (c.core.b.Armed? ==> c.now + d <= c.core.b.due) && (c.core.b.Queued? ==> d == 0)
    ensures Guarded(c.(now := c.now + d))
  {
    hide Earliest;
  }

  lemma StepKeepsGuarded(s: Txn, e: Event)
    requires Spaced(s.course) && Guarded(s.course) && Enabled(s, e) && !Revives(s, e)
    ensures Guarded(Step(s, e).course)
  {
    hide Spaced, Guarded, FirstSend, TimersStarted, Retransmitted, Resumed, BServed, Responded, StartFailed, WithCore;
    var c := s.course;
    match e
    case SendFirst(delivered) => FirstSendKeepsGuarded(c, delivered);
    case ArmTimers => TimersStartedKeepsGuarded(c, s.udp);
    case ExpireA => ExpiryKeepsGuarded(c);
    case Retransmit => RetransmittedKeepsGuarded(c);
    case Rearm => ResumedKeepsGuarded(c);
    case ExpireB => ExpiryKeepsGuarded(c);
    case TimerB => ServedKeepsGuarded(c);
    case Process(r) => ResponseKeepsGuarded(c, s.held[r].code, s.invite);
    case Shutdown => ShutdownKeepsGuarded(c);
    case Tick(d) => TimeKeepsGuarded(c, d);
    case _ =>
  }

  // ---------- Main results ----------

  lemma {:induction false} RunsAreSpaced(s: Txn, es: seq<Event>)
    requires Spaced(s.course) && Valid(s, es)
    ensures Spaced(Final(s, es).course)
    decreases es
  {
    hide Spaced, Enabled, Step;
    if es != [] {
      StepKeepsSpaced(s, es[0]);
      RunsAreSpaced(Step(s, es[0]), es[1..]);
    }
  }

  /** In every run the k-th retransmission comes at least min(500 * 2^k, 4000) ms after the send before it. */
  lemma RetransmissionsBackOff(invite: bool, udp: bool, es: seq<Event>, k: nat)
    requires Valid(Init(invite, udp), es) && k + 1 < |Final(Init(invite, udp), es).course.sent|
    ensures var sent := Final(Init(invite, udp), es).course.sent;
            sent[k] + (if k >= 3 then 4000 else if k == 2 then 2000 else if k == 1 then 1000 else 500) <= sent[k + 1]
  {
    RunsAreSpaced(Init(invite, udp), es);
    EarlyIntervals();
    if k >= 3 { LateIntervals(k); }
  }

  /** No time passes over a due Timer A, a send, or the arming of the timers. */
  predicate PromptRun(s: Txn, es: seq<Event>)
    requires Valid(s, es)
    decreases es
  {
    es == [] || (Prompt(s, es[0]) && PromptRun(Step(s, es[0]), es[1..]))
  }

  predicate Prompt(s: Txn, e: Event) {
    e.Tick? && e.d > 0 ==>
      !s.course.stage.FirstSent? && !s.course.inFlight && !s.course.core.a.Queued? && (s.course.core.a.Armed? ==> s.course.now + e.d <= s.course.core.a.due)
  }

  ghost predicate Punctual(c: Course) {
    && (c.stage.FirstSent? || c.inFlight ==> c.sent != [] && c.sent[|c.sent| - 1] == c.now)
    && (c.core.a.Armed? ==> c.sent != [] && c.core.a.due == c.sent[|c.sent| - 1] + Interval(c.core.count) && c.now <= c.core.a.due)
    && (c.core.a.Queued? ==> c.sent != [] && c.now == c.sent[|c.sent| - 1] + Interval(c.core.count))
    && (forall k | 0 <= k < |c.sent| - 1 :: c.sent[k + 1] == c.sent[k] + Interval(k))
  }

  lemma CoreKeepsPunctual(c: Course, core: Core)
    requires Punctual(c) && Follows(c, core)
    ensures Punctual(WithCore(c, core))
  {
    hide Interval;
  }

  lemma FirstSendKeepsPunctual(c: Course, delivered: bool)
    requires Spaced(c) && Punctual(c) && c.stage.New?
    ensures Punctual(FirstSend(c, delivered))
  {
    hide Interval;
  }

  lemma TimersStartedKeepsPunctual(c: Course, udp: bool)
    requires Spaced(c) && Punctual(c) && c.stage.FirstSent?
    ensures Punctual(TimersStarted(c, udp))
  {
    hide Interval;
    IntervalZero();
  }

  lemma RetransmittedKeepsPunctual(c: Course)
    requires Spaced(c) && Punctual(c) && c.core.a.Queued?
    ensures Punctual(Retransmitted(c))
  {
    hide Interval;
  }

  lemma ResumedKeepsPunctual(c: Course)
    requires Spaced(c) && Punctual(c) && c.inFlight
    ensures Punctual(Resumed(c))
  {
    hide Interval;
    IntervalIsPositive(c.core.count);
  }

  lemma ServedKeepsPunctual(c: Course)
    requires Punctual(c)
    ensures Punctual(BServed(c))
  {
    hide Interval;
  }

  lemma TimeKeepsPunctual(c: Course, d: nat)
    requires Punctual(c)
    requires d > 0 ==> !c.stage.FirstSent? && !c.inFlight && !c.core.a.Queued? && (c.core.a.Armed? ==> c.now + d <= c.core.a.due)
    ensures Punctual(c.(now := c.now + d))
  {
    hide Interval;
  }

  lemma StepKeepsPunctual(s: Txn, e: Event)
    requires Spaced(s.course) && Punctual(s.course) && Enabled(s, e) && Prompt(s, e)
    ensures Punctual(Step(s, e).course)
  {
    hide Spaced, Punctual, FirstSend, TimersStarted, Retransmitted, Resumed, BServed, Responded, StartFailed, WithCore;
    var c := s.course;
    match e
    case SendFirst(delivered) => FirstSendKeepsPunctual(c, delivered);
    case ArmTimers => TimersStartedKeepsPunctual(c, s.udp);
    case ExpireA => CoreKeepsPunctual(c, c.core.(a := Queued));
    case Retransmit => RetransmittedKeepsPunctual(c);
    case Rearm => ResumedKeepsPunctual(c);
    case ExpireB => CoreKeepsPunctual(c, c.core.(b := Queued));
    case TimerB => ServedKeepsPunctual(c);
    case Process(r) =>
      EndingFollows(c, s.held[r].code, s.invite);
      CoreKeepsPunctual(c, Responded(c.core, s.held[r].code, s.invite));
    case Shutdown => EndingFollows(c, 0, false); CoreKeepsPunctual(c, StartFailed(c.core));
    case Tick(d) => TimeKeepsPunctual(c, d);
    case _ =>
  }

  lemma IntervalIsPositive(n: nat)
    ensures Interval(n) > 0
  {
  }

  lemma {:induction false} PromptRunsArePunctual(s: Txn, es: seq<Event>)
    requires Spaced(s.course) && Punctual(s.course) && Valid(s, es) && PromptRun(s, es)
    ensures Spaced(Final(s, es).course) && Punctual(Final(s, es).course)
    decreases es
  {
    hide Spaced, Punctual, Enabled, Step, Prompt;
    if es != [] {
      StepKeepsSpaced(s, es[0]);
      StepKeepsPunctual(s, es[0]);
      PromptRunsArePunctual(Step(s, es[0]), es[1..]);
    }
  }

  /** With Timer A served when due and sends that take no time, the intervals are exactly min(500 * 2^k, 4000) ms. */
  lemma PromptIntervalsAreExact(invite: bool, udp: bool, es: seq<Event>, k: nat)
    requires Valid(Init(invite, udp), es) && PromptRun(Init(invite, udp), es) && k + 1 < |Final(Init(invite, udp), es).course.sent|
    ensures var sent := Final(Init(invite, udp), es).course.sent;
            sent[k] + (if k >= 3 then 4000 else if k == 2 then 2000 else if k == 1 then 1000 else 500) == sent[k + 1]
  {
    PromptRunsArePunctual(Init(invite, udp), es);
    EarlyIntervals();
    if k >= 3 { LateIntervals(k); }
  }

  lemma {:induction false} RunsStayGuarded(s: Txn, es: seq<Event>)
    requires Spaced(s.course) && Guarded(s.course) && Valid(s, es) && NeverRevives(s, es)
    ensures Spaced(Final(s, es).course) && Guarded(Final(s, es).course)
    decreases es
  {
    hide Spaced, Guarded, Enabled, Step, Revives;
    if es != [] {
      StepKeepsSpaced(s, es[0]);
      StepKeepsGuarded(s, es[0]);
      RunsStayGuarded(Step(s, es[0]), es[1..]);
    }
  }

  /** At most ten retransmissions, eleven sends, and a shift of at most ten, unless a late provisional response revives one. */
  lemma AtMostTenRetransmissions(invite: bool, udp: bool, es: seq<Event>)
    requires Valid(Init(invite, udp), es) && NeverRevives(Init(invite, udp), es)
    ensures Final(Init(invite, udp), es).course.core.count <= 10 && |Final(Init(invite, udp), es).course.sent| <= 11
  {
    RunsStayGuarded(Init(invite, udp), es);
    TenFit(Final(Init(invite, udp), es).course.core.count);
  }

  // ---------- The converse ----------

  /** Nothing will stop the retransmissions any more. */
  predicate Loose(s: Txn) {
    s.course.stage.Started? && s.course.core.phase.Proceeding? && s.course.core.b.Off? && s.course.inFlight && s.course.core.a.Off?
  }

  /** One more round: the timer is set again, expires, and its handler sends. */
  function Round(s: Txn): seq<Event> {
    [Rearm, Tick(Interval(s.course.core.count)), ExpireA, Retransmit]
  }

  function AfterRound(s: Txn): Txn
    requires Loose(s)
  {
    Step(Step(Step(Step(s, Rearm), Tick(Interval(s.course.core.count))), ExpireA), Retransmit)
  }

  lemma RoundCounts(s: Txn)
    requires Loose(s)
    ensures Loose(AfterRound(s)) && AfterRound(s).course.core.count == s.course.core.count + 1
    ensures Valid(s, Round(s)) && Final(s, Round(s)) == AfterRound(s)
  {
    hide Interval;
    var es := Round(s);
    var s1 := Step(s, Rearm);
    var s2 := Step(s1, Tick(Interval(s.course.core.count)));
    var s3 := Step(s2, ExpireA);
    assert es[1..] == [Tick(Interval(s.course.core.count)), ExpireA, Retransmit];
    assert es[1..][1..] == [ExpireA, Retransmit];
    assert es[1..][1..][1..] == [Retransmit];
    assert es[1..][1..][1..][1..] == [];
    assert Valid(s3, [Retransmit]) && Final(s3, [Retransmit]) == AfterRound(s);
    assert Valid(s2, es[1..][1..]) && Final(s2, es[1..][1..]) == AfterRound(s);
    assert Valid(s1, es[1..]) && Final(s1, es[1..]) == AfterRound(s);
  }

  lemma {:induction false} RunsCompose(s: Txn, a: seq<Event>, b: seq<Event>)
    requires Valid(s, a) && Valid(Final(s, a), b)
    ensures Valid(s, a + b) && Final(s, a + b) == Final(Final(s, a), b)
    decreases a
  {
    hide Enabled, Step;
    if a == [] {
      assert a + b == b;
    } else {
      RunsCompose(Step(s, a[0]), a[1..], b);
      assert (a + b)[1..] == a[1..] + b;
    }
  }

  function Rounds(s: Txn, n: nat): seq<Event>
    requires Loose(s)
    decreases n
  {
    if n == 0 then []
    else
      RoundCounts(s);
      Round(s) + Rounds(AfterRound(s), n - 1)
  }

  lemma {:induction false} RoundsCount(s: Txn, n: nat)
    requires Loose(s)
    ensures Valid(s, Rounds(s, n)) && Final(s, Rounds(s, n)).course.core.count == s.course.core.count + n
    decreases n
  {
    hide Loose, Step, Round, AfterRound, Enabled;
    if n > 0 {
      RoundCounts(s);
      RoundsCount(AfterRound(s), n - 1);
      RunsCompose(s, Round(s), Rounds(AfterRound(s), n - 1));
    }
  }

  /** Once revived, no number bounds the retransmissions: a continuation reaches every count. */
  lemma RevivedTransactionIsUnbounded(s: Txn, e: Event, n: nat) returns (es: seq<Event>)
    requires Spaced(s.course) && Enabled(s, e) && Revives(s, e)
    ensures Valid(Step(s, e), es) && Final(Step(s, e), es).course.core.count >= n
  {
    var t := Step(s, e);
    if t.course.inFlight {
      es := Rounds(t, n);
      RoundsCount(t, n);
    } else {
      var u := Step(t, Retransmit);
      RoundsCount(u, n);
      es := [Retransmit] + Rounds(u, n);
      assert es[1..] == Rounds(u, n);
    }
  }

  /**
   * Such a response can come: a 180 is looked up while a retransmission is being sent; then Timer B ends the
   * transaction and its entry is erased; then the 180 is processed.
   */
  lemma RevivalIsReachable() returns (es: seq<Event>)
    ensures Valid(Init(true, true), es) && OneAtATimeRun(Init(true, true), es)
    ensures !Final(Init(true, true), es).listed && Revives(Final(Init(true, true), es), Process(0))
  {
    var s5 := AfterLateRetransmission();
    var s6 := Step(s5, Lookup(0, 180));
    var s7 := Step(s6, ExpireB);
    var s8 := Step(s7, TimerB);
    ghost var tail: seq<Event> := [];
    OneStep(s8, EraseSelf, tail); tail := [EraseSelf] + tail;
    OneStep(s7, TimerB, tail); tail := [TimerB] + tail;
    OneStep(s6, ExpireB, tail); tail := [ExpireB] + tail;
    OneStep(s5, Lookup(0, 180), tail); tail := [Lookup(0, 180)] + tail;
    es := LateRetransmission(tail);
  }

  /** The only retransmission so far is sent when Timer B is due. */
  function AfterLateRetransmission(): Txn {
    Txn(Course(Core(Trying, Off, Armed(TIMER_B), 1), Started, true, TIMER_B, [0, TIMER_B], 0, false), true, false, false, map[], true, true)
  }

  lemma LateRetransmission(tail: seq<Event>) returns (es: seq<Event>)
    requires Valid(AfterLateRetransmission(), tail) && OneAtATimeRun(AfterLateRetransmission(), tail)
    ensures Valid(Init(true, true), es) && OneAtATimeRun(Init(true, true), es)
    ensures Final(Init(true, true), es) == Final(AfterLateRetransmission(), tail)
  {
    var s0 := Init(true, true);
    var s1 := Step(s0, SendFirst(true));
    var s2 := Step(s1, ArmTimers);
    var s3 := Step(s2, Tick(32000));
    var s4 := Step(s3, ExpireA);
    assert Step(s4, Retransmit) == AfterLateRetransmission();
    es := tail;
    OneStep(s4, Retransmit, es); es := [Retransmit] + es;
    OneStep(s3, ExpireA, es); es := [ExpireA] + es;
    OneStep(s2, Tick(32000), es); es := [Tick(32000)] + es;
    OneStep(s1, ArmTimers, es); es := [ArmTimers] + es;
    OneStep(s0, SendFirst(true), es); es := [SendFirst(true)] + es;
  }

  lemma OneStep(s: Txn, e: Event, rest: seq<Event>)
    requires Enabled(s, e) && OneAtATime(s, e) && Valid(Step(s, e), rest) && OneAtATimeRun(Step(s, e), rest)
    ensures Valid(s, [e] + rest) && OneAtATimeRun(s, [e] + rest) && Final(s, [e] + rest) == Final(Step(s, e), rest)
  {
    hide Enabled, Step, OneAtATime;
    assert ([e] + rest)[1..] == rest;
  }

  // ---------- One receiver ----------

  /** A socket whose next read is armed when the callback for the last one has returned delivers one response at a time. */
  predicate OneAtATime(s: Txn, e: Event) {
    e.Lookup? ==> s.held == map[]
  }

  predicate OneAtATimeRun(s: Txn, es: seq<Event>)
    requires Valid(s, es)
    decreases es
  {
    es == [] || (OneAtATime(s, es[0]) && OneAtATimeRun(Step(s, es[0]), es[1..]))
  }

  /** The steps on the transaction table alone. */
  predicate Files(e: Event) {
    e.Lookup? || e.EraseAnswered? || e.EraseSelf? || e.Close?
  }

  lemma FilingLeavesTheCourse(s: Txn, e: Event)
    requires Enabled(s, e) && Files(e)
    ensures Step(s, e).course == s.course
  {
  }

  /** A transaction that a final response ended is erased before another response can be looked up. */
  ghost predicate ErasedFirst(s: Txn) {
    (forall q, r | q in s.held && r in s.held :: q == r) && (EndedByResponse(s) ==> AllAnswered(s))
  }

  predicate EndedByResponse(s: Txn) {
    Ended(s.course.core.phase) && !s.course.expired && !s.closing && !s.course.stage.Failed?
  }

  ghost predicate AllAnswered(s: Txn) {
    (forall r | r in s.held :: s.held[r].Answered?) && (s.held == map[] ==> !s.listed)
  }

  lemma FilingErasesFirst(s: Txn, e: Event)
    requires ErasedFirst(s) && Enabled(s, e) && OneAtATime(s, e) && Files(e)
    ensures ErasedFirst(Step(s, e))
  {
    FilingLeavesTheCourse(s, e);
    if e.EraseAnswered? {
      assert s.held.Keys == {e.receiver};
      assert Step(s, e).held == map[];
    }
  }

  lemma ProcessErasesFirst(s: Txn, e: Event)
    requires ErasedFirst(s) && Enabled(s, e) && e.Process?
    ensures ErasedFirst(Step(s, e))
  {
    var t := Step(s, e);
    forall r | r in t.held ensures r == e.receiver { }
    if EndedByResponse(t) && !EndedByResponse(s) { assert e.receiver in t.held; }
  }

  lemma OtherErasesFirst(s: Txn, e: Event)
    requires ErasedFirst(s) && Enabled(s, e) && !Files(e) && !e.Process?
    ensures ErasedFirst(Step(s, e))
  {
    var t := Step(s, e);
    assert t.held == s.held && t.listed == s.listed;
    if EndedByResponse(t) { assert EndedByResponse(s); }
  }

  lemma StepKeepsErasedFirst(s: Txn, e: Event)
    requires ErasedFirst(s) && Enabled(s, e) && OneAtATime(s, e)
    ensures ErasedFirst(Step(s, e))
  {
    hide ErasedFirst, Enabled, Step, OneAtATime;
    if Files(e) { FilingErasesFirst(s, e); }
    else if e.Process? { ProcessErasesFirst(s, e); }
    else { OtherErasesFirst(s, e); }
  }

  lemma {:induction false} RunsEraseFirst(s: Txn, es: seq<Event>)
    requires ErasedFirst(s) && Valid(s, es) && OneAtATimeRun(s, es)
    ensures ErasedFirst(Final(s, es))
    decreases es
  {
    hide ErasedFirst, Step, Enabled, OneAtATime;
    if es != [] {
      StepKeepsErasedFirst(s, es[0]);
      RunsEraseFirst(Step(s, es[0]), es[1..]);
    }
  }

  /** With one receiver only Timer B or a shutdown can be overtaken by a response: a final response cannot. */
  lemma OnlyTimeoutOrShutdownIsRevived(invite: bool, udp: bool, es: seq<Event>, e: Event)
    requires Valid(Init(invite, udp), es) && OneAtATimeRun(Init(invite, udp), es)
    requires Revives(Final(Init(invite, udp), es), e)
    ensures Final(Init(invite, udp), es).course.expired || Final(Init(invite, udp), es).closing
  {
    RunsEraseFirst(Init(invite, udp), es);
  }
}
