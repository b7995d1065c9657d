/** The lock object of a client, as a value.

    Callbacks belong to the user: what they call on the object is a list of calls, given with
    the event that triggers them.  A message is only delivered while the object listens, and
    the timer only rings while it is enabled. */
module ClientState {
  import opened Basics

  // The UNLOCK message has five seconds to be acknowledged.
  const UNLOCK_DELAY: int := 5 * SECOND

  datatype State = Idle | Locking | Locked | Unlocking | Failed

  datatype Reason = NoReason | LocalTimeout | RemoteTimeout | TransmissionError | Invalid

  datatype Mode = Simple | Extended

  /** What a callback calls on the object that called it. */
  datatype Call = CallLock | CallUnlock

  datatype Sent = SentLock(timeout: int) | SentUnlock

  datatype Alarm = Off | At(date: int)

  /** `accepted` counts the calls of lock() that returned true; the other counts are calls of callbacks. */
  datatype Client = Client(
    mode: Mode, obtention: int, state: State, reason: Reason, lockDate: int, unlockedDate: int, alarm: Alarm,
    listening: bool, accepted: nat, obtained: nat, failures: nat, finals: nat, sent: seq<Sent>)

  function NewClient(mode: Mode, obtention: int): Client {
    Client(mode, obtention, Idle, NoReason, 0, 0, Off, false, 0, 0, 0, 0, [])
  }

  // ---------- the calls of the user ----------

  function Lock(c: Client, now: int): Client {
    if c.state != Idle then c
    else c.(sent := c.sent + [SentLock(now + c.obtention)], alarm := At(now + c.obtention), reason := NoReason,
                state := Locking, listening := true, accepted := c.accepted + 1)
  }

  function Unlock(c: Client, now: int): Client {
    if c.state != Locked && c.state != Locking then c
    else c.(lockDate := 0, sent := c.sent + [SentUnlock], alarm := At(now + UNLOCK_DELAY), state := Unlocking)
  }

  function Called(c: Client, call: Call, now: int): Client {
    if call == CallLock then Lock(c, now) else Unlock(c, now)
  }

  /** The first `n` calls of a callback. */
  function Calls(c: Client, calls: seq<Call>, n: nat, now: int): Client
    requires n <= |calls|
  {
    if n == 0 then c else Called(Calls(c, calls, n - 1, now), calls[n - 1], now)
  }

  /** The calls that the callbacks of one event make. */
  datatype Callbacks = Callbacks(obtained: seq<Call>, failed: seq<Call>, final: seq<Call>)

  function LockObtained(c: Client, user: Callbacks, now: int): Client {
    var called := Calls(c.(obtained := c.obtained + 1), user.obtained, |user.obtained|, now);
    if c.mode == Simple then Unlock(called, now) else called
  }

  function LockFailed(c: Client, user: Callbacks, now: int): Client {
    if c.state == Failed then c
    else Calls(c.(state := Failed, alarm := Off, failures := c.failures + 1), user.failed, |user.failed|, now)
  }

  function Finally(c: Client, user: Callbacks, now: int): Client {
    Calls(c.(state := Idle, listening := false, finals := c.finals + 1), user.final, |user.final|, now)
  }

  /** set_reason, lock_failed and finally. */
  function GiveUp(c: Client, reason: Reason, user: Callbacks, now: int): Client {
    Finally(LockFailed(c.(reason := reason), user, now), user, now)
  }

  // ---------- events ----------

  /** `valid` is is_cluck_msg. */
  datatype Event =
    | UserCalls(call: Call)
    | TimerRings
    | LockedArrives(valid: bool, timeoutDate: int, unlockedDate: int)
    | LockFailedArrives(valid: bool, timedOut: bool)
    | TransmissionFailed
    | UnlockedArrives(valid: bool)
    | UnlockingArrives(valid: bool)

  /** Messages need a listener, and the timer has to be enabled and due. */
  predicate Possible(c: Client, e: Event, now: int) {
    match e
    case UserCalls(_) => true
    case TimerRings => c.alarm.At? && c.alarm.date <= now
    case _ => c.listening
  }

  function ProcessTimeout(c: Client, user: Callbacks, now: int): Client {
    var off := c.(alarm := Off);
    match c.state
    case Locking => GiveUp(off, LocalTimeout, user, now)
    case Locked => Unlock(off.(reason := LocalTimeout), now)
    case Unlocking => GiveUp(off, LocalTimeout, user, now)
    case _ => off
  }

  function MsgLocked(c: Client, valid: bool, timeoutDate: int, unlockedDate: int, user: Callbacks, now: int): Client {
    if !valid then GiveUp(c, Invalid, user, now)
    else LockObtained(c.(state := Locked, lockDate := timeoutDate, unlockedDate := unlockedDate,
        alarm := At(timeoutDate)), user, now)
  }

  function MsgLockFailed(c: Client, valid: bool, timedOut: bool, user: Callbacks, now: int): Client {
    GiveUp(c, if valid && timedOut then RemoteTimeout else Invalid, user, now)
  }

  function MsgUnlocked(c: Client, valid: bool, user: Callbacks, now: int): Client {
    if !valid then GiveUp(c, Invalid, user, now)
    else if now >= c.unlockedDate then GiveUp(c.(alarm := Off), RemoteTimeout, user, now)
    else Finally(c.(alarm := Off, reason := NoReason), user, now)
  }

  function MsgUnlocking(c: Client, valid: bool, user: Callbacks, now: int): Client {
    if !valid then GiveUp(c, Invalid, user, now)
    else if now >= c.unlockedDate then GiveUp(c.(alarm := Off), RemoteTimeout, user, now)
    else Unlock(c.(reason := RemoteTimeout), now)
  }

  function Step(c: Client, e: Event, user: Callbacks, now: int): Client {
    match e
    case UserCalls(call) => Called(c, call, now)
    case TimerRings => ProcessTimeout(c, user, now)
    case LockedArrives(valid, t, u) => MsgLocked(c, valid, t, u, user, now)
    case LockFailedArrives(valid, timedOut) => MsgLockFailed(c, valid, timedOut, user, now)
    case TransmissionFailed => GiveUp(c, TransmissionError, user, now)
    case UnlockedArrives(valid) => MsgUnlocked(c, valid, user, now)
    case UnlockingArrives(valid) => MsgUnlocking(c, valid, user, now)
  }

  // ---------- the invariant ----------

  function Busy(c: Client): nat { if c.state == Idle then 0 else 1 }

  /** Between events: every accepted lock() had its finally(), unless it is the current one; there
      are no more failures than ends; the timer runs exactly while something is awaited; and the
      object listens exactly while it is busy. */
  predicate Accounted(c: Client) {
    && c.state != Failed && c.accepted == c.finals + Busy(c) && c.failures <= c.finals
    && (c.alarm.At? <==> c.state in {Locking, Locked, Unlocking})
    && (c.listening <==> c.state != Idle)
  }

  lemma {:induction false} CallsKeep(c: Client, calls: seq<Call>, n: nat, now: int)
    requires n <= |calls| && Accounted(c)
    ensures Accounted(Calls(c, calls, n, now)) && Calls(c, calls, n, now).finals == c.finals
  {
    if n > 0 {
      CallsKeep(c, calls, n - 1, now);
    }
  }

  /** While the object is failed the calls of a callback do nothing. */
  lemma {:induction false} FailedIgnoresCalls(c: Client, calls: seq<Call>, n: nat, now: int)
    requires n <= |calls| && c.state == Failed
    ensures Calls(c, calls, n, now) == c
  {
    if n > 0 {
      FailedIgnoresCalls(c, calls, n - 1, now);
    }
  }

  /** The end of a cycle: one more finally(), and a callback may have started the next cycle. */
  lemma GiveUpKeeps(c: Client, reason: Reason, user: Callbacks, now: int)
    requires c.state in {Locking, Locked, Unlocking} && c.accepted == c.finals + 1 && c.failures <= c.finals
    ensures Accounted(GiveUp(c, reason, user, now)) && GiveUp(c, reason, user, now).finals == c.finals + 1
    ensures user.final == [] ==> GiveUp(c, reason, user, now).state == Idle
  {
    var failed := c.(reason := reason, state := Failed, alarm := Off, failures := c.failures + 1);
    FailedIgnoresCalls(failed, user.failed, |user.failed|, now);
    CallsKeep(failed.(state := Idle, listening := false, finals := failed.finals + 1), user.final, |user.final|, now);
  }

  lemma LockObtainedKeeps(c: Client, user: Callbacks, now: int)
    requires Accounted(c)
    ensures Accounted(LockObtained(c, user, now))
  {
    CallsKeep(c.(obtained := c.obtained + 1), user.obtained, |user.obtained|, now);
  }

  lemma StepKeeps(c: Client, e: Event, user: Callbacks, now: int)
    requires Accounted(c) && Possible(c, e, now)
    ensures Accounted(Step(c, e, user, now))
  {
    match e
    case UserCalls(_) =>
    case TimerRings =>
      if c.state != Locked {
        GiveUpKeeps(c.(alarm := Off), LocalTimeout, user, now);
      }
    case LockedArrives(valid, t, u) =>
      if valid {
        LockObtainedKeeps(c.(state := Locked, lockDate := t, unlockedDate := u, alarm := At(t)), user, now);
      } else {
        GiveUpKeeps(c, Invalid, user, now);
      }
    case LockFailedArrives(valid, timedOut) => GiveUpKeeps(c, if valid && timedOut then RemoteTimeout
        else Invalid, user, now);
    case TransmissionFailed => GiveUpKeeps(c, TransmissionError, user, now);
    case UnlockedArrives(valid) => UnlockedKeeps(c, valid, user, now);
    case UnlockingArrives(valid) =>
      if !valid {
        GiveUpKeeps(c, Invalid, user, now);
      } else if now >= c.unlockedDate {
        GiveUpKeeps(c.(alarm := Off), RemoteTimeout, user, now);
      }
  }

  lemma UnlockedKeeps(c: Client, valid: bool, user: Callbacks, now: int)
    requires Accounted(c) && c.state != Idle
    ensures Accounted(MsgUnlocked(c, valid, user, now))
  {
    if !valid {
      GiveUpKeeps(c, Invalid, user, now);
    } else if now >= c.unlockedDate {
      GiveUpKeeps(c.(alarm := Off), RemoteTimeout, user, now);
    } else {
      CallsKeep(c.(alarm := Off, reason := NoReason, state := Idle, listening := false, finals := c.finals + 1),
                user.final, |user.final|, now);
    }
  }

  // ---------- runs ----------

  datatype Timed = Timed(event: Event, user: Callbacks, now: int)

  /** The client after the first `n` events. */
  function After(c: Client, run: seq<Timed>, n: nat): Client
    requires n <= |run|
  {
    if n == 0 then c else Step(After(c, run, n - 1), run[n - 1].event, run[n - 1].user, run[n - 1].now)
  }

  predicate Run(c: Client, run: seq<Timed>) {
    forall n :: 0 <= n < |run| ==> Possible(After(c, run, n), run[n].event, run[n].now)
  }

  lemma {:induction false} RunKeeps(c: Client, run: seq<Timed>, n: nat)
    requires n <= |run| && Accounted(c) && Run(c, run)
    ensures Accounted(After(c, run, n))
  {
    hide Accounted, Possible, Step, Run;
    if n > 0 {
      RunKeeps(c, run, n - 1);
      OneMoreKeeps(c, run, n);
    }
  }

  lemma {:induction false} OneMoreKeeps(c: Client, run: seq<Timed>, n: nat)
    requires 0 < n <= |run| && Run(c, run) && Accounted(After(c, run, n - 1))
    ensures Accounted(After(c, run, n))
  {
    assert Possible(After(c, run, n - 1), run[n - 1].event, run[n - 1].now);
    hide Accounted, Possible, Step, Run;
    StepKeeps(After(c, run, n - 1), run[n - 1].event, run[n - 1].user, run[n - 1].now);
  }

  /** Over every sequence of events from a new object, whatever the callbacks call: accepted lock()
      calls and finally() calls match, and the timer runs exactly in the three waiting states. */
  lemma RunAccounted(mode: Mode, obtention: int, run: seq<Timed>)
    requires Run(NewClient(mode, obtention), run)
    ensures var c := After(NewClient(mode, obtention), run, |run|);
            && c.accepted == c.finals + Busy(c) && c.failures <= c.finals
            && (c.alarm.At? <==> c.state in {Locking, Locked, Unlocking})
  {
    RunKeeps(NewClient(mode, obtention), run, |run|);
  }

  /** When the daemon says nothing, the timer rings at most twice before the cycle ends. */
  lemma SilentDaemon(c: Client, user: Callbacks, first: int, second: int)
    requires Accounted(c) && c.state != Idle && user.final == []
    requires Possible(c, TimerRings, first)
    ensures var once := Step(c, TimerRings, user, first);
            if c.state == Locked
            then once.state == Unlocking && once.alarm == At(first + UNLOCK_DELAY)
                && Step(once, TimerRings, user, second).state == Idle
            else once.state == Idle
  {
    var once := Step(c, TimerRings, user, first);
    if c.state == Locked {
      StepKeeps(c, TimerRings, user, first);
      GiveUpKeeps(once.(alarm := Off), LocalTimeout, user, second);
    } else {
      GiveUpKeeps(c.(alarm := Off), LocalTimeout, user, first);
    }
  }

  // ---------- when UNLOCKED counts as a failure ----------

  /** The unlocked date of the last valid LOCKED among the first `n` events, 0 when there was none. */
  function LastDate(run: seq<Timed>, n: nat): int
    requires n <= |run|
  {
    if n == 0 then 0
    else if run[n - 1].event.LockedArrives? && run[n - 1].event.valid then run[n - 1].event.unlockedDate
    else LastDate(run, n - 1)
  }

  lemma {:induction false} CallsKeepDates(c: Client, calls: seq<Call>, n: nat, now: int)
    requires n <= |calls|
    ensures Calls(c, calls, n, now).unlockedDate == c.unlockedDate && Calls(c, calls, n, now).failures == c.failures
    ensures Calls(c, calls, n, now).finals == c.finals
  {
    if n > 0 {
      CallsKeepDates(c, calls, n - 1, now);
    }
  }

  lemma GiveUpKeepsDate(c: Client, reason: Reason, user: Callbacks, now: int)
    requires c.state != Failed
    ensures GiveUp(c, reason, user, now).unlockedDate == c.unlockedDate
    ensures GiveUp(c, reason, user, now).failures == c.failures + 1
    ensures GiveUp(c, reason, user, now).finals == c.finals + 1
  {
    var failed := c.(reason := reason, state := Failed, alarm := Off, failures := c.failures + 1);
    FailedIgnoresCalls(failed, user.failed, |user.failed|, now);
    CallsKeepDates(failed.(state := Idle, listening := false, finals := failed.finals + 1), user.final, |user.final|,
                   now);
  }

  /** Only LOCKED sets the unlocked date; lock() and unlock() do not reset it. */
  lemma StepDate(c: Client, e: Event, user: Callbacks, now: int)
    requires Accounted(c)
    ensures Step(c, e, user, now).unlockedDate == if e.LockedArrives? && e.valid then e.unlockedDate else c.unlockedDate
  {
    match e
    case UserCalls(_) =>
    case TimerRings =>
      if c.state in {Locking, Unlocking} {
        GiveUpKeepsDate(c.(alarm := Off), LocalTimeout, user, now);
      }
    case LockedArrives(valid, t, u) =>
      if valid {
        var locked := c.(state := Locked, lockDate := t, unlockedDate := u, alarm := At(t), obtained := c.obtained + 1);
        CallsKeepDates(locked, user.obtained, |user.obtained|, now);
      } else {
        GiveUpKeepsDate(c, Invalid, user, now);
      }
    case LockFailedArrives(valid, timedOut) => GiveUpKeepsDate(c, if valid && timedOut then RemoteTimeout
        else Invalid, user, now);
    case TransmissionFailed => GiveUpKeepsDate(c, TransmissionError, user, now);
    case UnlockedArrives(valid) => AcknowledgedDate(c, valid, user, now);
    case UnlockingArrives(valid) =>
      if !valid {
        GiveUpKeepsDate(c, Invalid, user, now);
      } else if now >= c.unlockedDate {
        GiveUpKeepsDate(c.(alarm := Off), RemoteTimeout, user, now);
      }
  }

  lemma AcknowledgedDate(c: Client, valid: bool, user: Callbacks, now: int)
    requires c.state != Failed
    ensures var done := MsgUnlocked(c, valid, user, now);
            && done.unlockedDate == c.unlockedDate && done.finals == c.finals + 1
            && done.failures == c.failures + if !valid || now >= c.unlockedDate then 1 else 0
  {
    if !valid {
      GiveUpKeepsDate(c, Invalid, user, now);
    } else if now >= c.unlockedDate {
      GiveUpKeepsDate(c.(alarm := Off), RemoteTimeout, user, now);
    } else {
      CallsKeepDates(c.(alarm := Off, reason := NoReason, state := Idle, listening := false, finals := c.finals + 1),
                     user.final, |user.final|, now);
    }
  }

  lemma {:induction false} RunDate(c: Client, run: seq<Timed>, n: nat)
    requires n <= |run| && Accounted(c) && Run(c, run) && c.unlockedDate == 0
    ensures After(c, run, n).unlockedDate == LastDate(run, n)
  {
    hide Accounted, Run, Possible, Step;
    if n > 0 {
      RunDate(c, run, n - 1);
      RunKeeps(c, run, n - 1);
      OneDate(c, run, n - 1);
    }
  }

  lemma OneDate(c: Client, run: seq<Timed>, n: nat)
    requires n < |run| && Accounted(After(c, run, n))
    ensures After(c, run, n + 1).unlockedDate
         == if run[n].event.LockedArrives? && run[n].event.valid then run[n].event.unlockedDate
             else After(c, run, n).unlockedDate
  {
    hide Accounted, Step;
    var before := After(c, run, n);
    StepDate(before, run[n].event, run[n].user, run[n].now);
  }

  /** Over every run: an acknowledged unlock() ends the cycle, and it is reported as a failure if
      and only if the unlocked date of the last LOCKED ever received has passed, whether or not
      that LOCKED belongs to the cycle. */
  lemma UnlockedFailsIff(mode: Mode, obtention: int, run: seq<Timed>, n: nat)
    requires Run(NewClient(mode, obtention), run) && n < |run| && run[n].event == UnlockedArrives(true)
    ensures var c, done := After(NewClient(mode, obtention), run, n), After(NewClient(mode, obtention), run, n + 1);
            done.finals == c.finals + 1 && done.failures == c.failures + if run[n].now >= LastDate(run, n) then 1 else 0
  {
    RunDate(NewClient(mode, obtention), run, n);
    RunKeeps(NewClient(mode, obtention), run, n);
    AcknowledgedDate(After(NewClient(mode, obtention), run, n), true, run[n].user, run[n].now);
  }

  /** A client that calls unlock() before it got the lock: the first time, the acknowledgement is a
      failure. */
  lemma UnlockWhileLockingFails(mode: Mode, obtention: int, lockTime: int, unlockTime: int, user: Callbacks, now: int)
    requires now >= 0
    ensures var c := Unlock(Lock(NewClient(mode, obtention), lockTime), unlockTime);
            var done := MsgUnlocked(c, true, user, now);
            c.state == Unlocking && done.failures == 1 && done.finals == 1
  {
    var calls := Callbacks([], [], []);
    var run := [Timed(UserCalls(CallLock), calls, lockTime), Timed(UserCalls(CallUnlock), calls, unlockTime),
                Timed(UnlockedArrives(true), user, now)];
    ThreeEvents(NewClient(mode, obtention), run);
    assert LastDate(run, 0) == LastDate(run, 1) == LastDate(run, 2) == 0;
    UnlockedFailsIff(mode, obtention, run, 2);
  }

  lemma ThreeEvents(c: Client, run: seq<Timed>)
    requires |run| == 3
    ensures After(c, run, 0) == c
    ensures After(c, run, 1) == Step(c, run[0].event, run[0].user, run[0].now)
    ensures After(c, run, 2) == Step(After(c, run, 1), run[1].event, run[1].user, run[1].now)
    ensures After(c, run, 3) == Step(After(c, run, 2), run[2].event, run[2].user, run[2].now)
  {
  }

  /** When an earlier cycle was LOCKED until `date`, the same two calls end without a failure as
      long as that date has not passed. */
  lemma EarlierLockHidesIt(c: Client, lockTime: int, unlockTime: int, user: Callbacks, now: int)
    requires Accounted(c) && c.state == Idle
    ensures var done := MsgUnlocked(Unlock(Lock(c, lockTime), unlockTime), true, user, now);
            done.finals == c.finals + 1 && (done.failures == c.failures <==> now < c.unlockedDate)
  {
    AcknowledgedDate(Unlock(Lock(c, lockTime), unlockTime), true, user, now);
  }

  // ---------- LOCKED after unlock() ----------

  lemma {:induction false} CallsOfLocked(c: Client, calls: seq<Call>, n: nat, now: int)
    requires n <= |calls| && c.state == Locked
    ensures Calls(c, calls, n, now) == if CallUnlock in calls[..n] then Unlock(c, now) else c
  {
    if n > 0 {
      CallsOfLocked(c, calls, n - 1, now);
      assert calls[..n] == calls[..n - 1] + [calls[n - 1]];
    }
  }

  /** A LOCKED that arrives while the object is unlocking locks it again; it stays locked, and the
      daemon hears no second UNLOCK, if and only if the mode is extended and no callback unlocks. */
  lemma LockedAfterUnlock(c: Client, t: int, u: int, user: Callbacks, now: int)
    requires c.state == Unlocking
    ensures var again, kept := MsgLocked(c, true, t, u, user, now), c.mode == Extended && CallUnlock !in user.obtained;
            && again.obtained == c.obtained + 1 && again.state == (if kept then Locked else Unlocking)
            && again.sent == (if kept then c.sent else c.sent + [SentUnlock])
            && again.alarm == At(if kept then t else now + UNLOCK_DELAY)
  {
    var locked := c.(state := Locked, lockDate := t, unlockedDate := u, alarm := At(t), obtained := c.obtained + 1);
    CallsOfLocked(locked, user.obtained, |user.obtained|, now);
    assert user.obtained[..|user.obtained|] == user.obtained;
  }
}
