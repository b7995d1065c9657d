/** What the lock object of a client says to the daemon and to its user, over every sequence of events. */
module ClientHistory {
  import opened Basics
  import opened ClientState

  // ---------- what is sent ----------

  function Locks(sent: seq<Sent>): nat {
    if sent == [] then 0 else Locks(sent[..|sent| - 1]) + if sent[|sent| - 1].SentLock? then 1 else 0
  }

  lemma LocksMore(sent: seq<Sent>, m: Sent)
    ensures Locks(sent + [m]) == Locks(sent) + if m.SentLock? then 1 else 0
  {
    assert (sent + [m])[..|sent|] == sent;
  }

  /** Every UNLOCK belongs to a cycle: more LOCKs than `ended` cycles came before it. */
  predicate InCycles(sent: seq<Sent>, from: nat, ended: nat) {
    forall i :: from <= i < |sent| && sent[i].SentUnlock? ==> Locks(sent[..i]) > ended
  }

  /** Every LOCK asks for this date. */
  predicate Dates(sent: seq<Sent>, from: nat, date: int) {
    forall i :: from <= i < |sent| && sent[i].SentLock? ==> sent[i].timeout == date
  }

  /** The last message says what the object waits for. */
  predicate Heralds(c: Client) {
    && Locks(c.sent) == c.accepted
    && (c.state == Locking ==> c.sent != [] && c.alarm.At? && c.sent[|c.sent| - 1] == SentLock(c.alarm.date))
    && (c.state == Unlocking ==> c.sent != [] && c.sent[|c.sent| - 1] == SentUnlock && c.lockDate == 0)
    && (c.state == Locked ==> c.alarm == At(c.lockDate))
  }

  /** From `c` on only these messages were added. */
  predicate Grows(c: Client, d: Client, now: int) {
    && |c.sent| <= |d.sent| && d.sent[..|c.sent|] == c.sent && c.finals <= d.finals && d.obtention == c.obtention
    && InCycles(d.sent, |c.sent|, c.finals) && Dates(d.sent, |c.sent|, now + c.obtention)
  }

  /** At any moment, also between the calls of a callback. */
  predicate Good(c: Client) { Accounted(c) && Heralds(c) }

  lemma LockKeeps(c: Client, now: int)
    requires Good(c)
    ensures Good(Lock(c, now)) && Grows(c, Lock(c, now), now)
  {
    if c.state == Idle {
      LocksMore(c.sent, SentLock(now + c.obtention));
      OneMessageGrows(c, Lock(c, now), SentLock(now + c.obtention), now);
    } else {
      GrowsSame(c, c, now);
    }
  }

  lemma UnlockKeeps(c: Client, now: int)
    requires Good(c)
    ensures Good(Unlock(c, now)) && Grows(c, Unlock(c, now), now)
  {
    if c.state == Locked || c.state == Locking {
      LocksMore(c.sent, SentUnlock);
      OneMessageGrows(c, Unlock(c, now), SentUnlock, now);
    } else {
      GrowsSame(c, c, now);
    }
  }

  /** One message more. */
  lemma OneMessageGrows(c: Client, d: Client, m: Sent, now: int)
    requires d.sent == c.sent + [m] && d.finals == c.finals && d.obtention == c.obtention
    requires m == SentLock(now + c.obtention) || (m == SentUnlock && Locks(c.sent) > c.finals)
    ensures Grows(c, d, now)
  {
    hide Locks;
    assert d.sent[..|c.sent|] == c.sent;
    forall i | |c.sent| <= i < |d.sent| && d.sent[i].SentUnlock? ensures Locks(d.sent[..i]) > c.finals {
      assert i == |c.sent|;
    }
  }

  lemma CallKeeps(c: Client, call: Call, now: int)
    requires Good(c)
    ensures Good(Called(c, call, now)) && Grows(c, Called(c, call, now), now)
  {
    hide Good, Grows, Lock, Unlock;
    if call == CallLock {
      LockKeeps(c, now);
    } else {
      UnlockKeeps(c, now);
    }
  }

  lemma GrowsThen(c: Client, d: Client, e: Client, now: int)
    requires Grows(c, d, now) && Grows(d, e, now)
    ensures Grows(c, e, now)
  {
    assert e.sent[..|c.sent|] == e.sent[..|d.sent|][..|c.sent|];
    forall i | |c.sent| <= i < |e.sent| && e.sent[i].SentUnlock? ensures Locks(e.sent[..i]) > c.finals {
      if i < |d.sent| {
        assert e.sent[i] == e.sent[..|d.sent|][i] && e.sent[..i] == e.sent[..|d.sent|][..i];
      }
    }
    forall i | |c.sent| <= i < |e.sent| && e.sent[i].SentLock? ensures e.sent[i].timeout == now + c.obtention {
      if i < |d.sent| {
        assert e.sent[i] == e.sent[..|d.sent|][i];
      }
    }
  }

  /** Nothing is sent. */
  lemma GrowsSame(c: Client, d: Client, now: int)
    requires d.sent == c.sent && c.finals <= d.finals && d.obtention == c.obtention
    ensures Grows(c, d, now)
  {
    assert d.sent[..|c.sent|] == c.sent;
  }

  lemma {:induction false} CallsKeepGood(c: Client, calls: seq<Call>, n: nat, now: int)
    requires n <= |calls| && Good(c)
    ensures Good(Calls(c, calls, n, now)) && Grows(c, Calls(c, calls, n, now), now)
  {
    hide Good, Grows, Called;
    if n == 0 {
      GrowsSame(c, c, now);
    } else {
      CallsKeepGood(c, calls, n - 1, now);
      CallKeeps(Calls(c, calls, n - 1, now), calls[n - 1], now);
      GrowsThen(c, Calls(c, calls, n - 1, now), Calls(c, calls, n, now), now);
    }
  }

  /** The object after finally() but for the calls of its callback. */
  function Ended(c: Client, reason: Reason, failure: bool): Client {
    c.(reason := reason, state := Idle, listening := false, finals := c.finals + 1,
       alarm := if failure then Off else c.alarm, failures := c.failures + if failure then 1 else 0)
  }

  lemma GiveUpEnds(c: Client, reason: Reason, user: Callbacks, now: int)
    requires c.state != Failed
    ensures GiveUp(c, reason, user, now) == Calls(Ended(c, reason, true), user.final, |user.final|, now)
  {
    var failed := c.(reason := reason, state := Failed, alarm := Off, failures := c.failures + 1);
    FailedIgnoresCalls(failed, user.failed, |user.failed|, now);
  }

  lemma EndKeepsGood(c: Client, d: Client, user: Callbacks, now: int)
    requires Good(c) && d.state == Idle && d.alarm == Off && !d.listening && d.sent == c.sent &&
        d.accepted == c.accepted
    requires d.finals == c.finals + 1 && d.obtention == c.obtention && d.failures <= d.finals && c.state != Idle
    ensures var e := Calls(d, user.final, |user.final|, now); Good(e) && Grows(c, e, now)
  {
    GrowsSame(c, d, now);
    CallsKeepGood(d, user.final, |user.final|, now);
    GrowsThen(c, d, Calls(d, user.final, |user.final|, now), now);
  }

  lemma GiveUpKeepsGood(c: Client, begin: Client, reason: Reason, user: Callbacks, now: int)
    requires Good(c) && c.state != Idle && (begin == c || begin == c.(alarm := Off))
    ensures Good(GiveUp(begin, reason, user, now)) && Grows(c, GiveUp(begin, reason, user, now), now)
  {
    GiveUpEnds(begin, reason, user, now);
    EndKeepsGood(c, Ended(begin, reason, true), user, now);
  }

  lemma ObtainedIsGood(c: Client, d: Client, now: int)
    requires Good(c) && Good(d) && d.sent == c.sent && d.finals == c.finals && d.obtention == c.obtention
    ensures Good(d.(obtained := d.obtained + 1)) && Grows(c, d.(obtained := d.obtained + 1), now)
  {
    GrowsSame(c, d.(obtained := d.obtained + 1), now);
  }

  lemma ThenUnlock(c: Client, d: Client, now: int)
    requires Grows(c, d, now) && Good(d)
    ensures Good(Unlock(d, now)) && Grows(c, Unlock(d, now), now)
  {
    CallKeeps(d, CallUnlock, now);
    hide Good, Grows, Unlock;
    GrowsThen(c, d, Called(d, CallUnlock, now), now);
  }

  lemma ObtainedKeepsGood(c: Client, d: Client, user: Callbacks, now: int)
    requires Good(c) && Good(d) && d.sent == c.sent && d.finals == c.finals && d.obtention == c.obtention
    ensures Good(LockObtained(d, user, now)) && Grows(c, LockObtained(d, user, now), now)
  {
    hide Good, Grows, Unlock, Calls;
    var told := d.(obtained := d.obtained + 1);
    ObtainedIsGood(c, d, now);
    CallsKeepGood(told, user.obtained, |user.obtained|, now);
    GrowsThen(c, told, Calls(told, user.obtained, |user.obtained|, now), now);
    ThenUnlock(c, Calls(told, user.obtained, |user.obtained|, now), now);
  }

  lemma UnlockKeepsGood(c: Client, reason: Reason, now: int)
    requires Good(c) && c.state in {Locking, Locked, Unlocking}
    ensures Good(Unlock(c.(reason := reason), now)) && Grows(c, Unlock(c.(reason := reason), now), now)
  {
    CallKeeps(c.(reason := reason), CallUnlock, now);
  }

  lemma StepKeepsGood(c: Client, e: Event, user: Callbacks, now: int)
    requires Good(c) && Possible(c, e, now)
    ensures Good(Step(c, e, user, now)) && Grows(c, Step(c, e, user, now), now)
  {
    match e
    case UserCalls(call) => CallKeeps(c, call, now);
    case TimerRings => RingKeepsGood(c, user, now);
    case LockedArrives(valid, t, u) =>
      if valid {
        ObtainedKeepsGood(c, c.(state := Locked, lockDate := t, unlockedDate := u, alarm := At(t)), user, now);
      } else {
        GiveUpKeepsGood(c, c, Invalid, user, now);
      }
    case LockFailedArrives(valid, timedOut) =>
      GiveUpKeepsGood(c, c, if valid && timedOut then RemoteTimeout else Invalid, user, now);
    case TransmissionFailed => GiveUpKeepsGood(c, c, TransmissionError, user, now);
    case UnlockedArrives(valid) => UnlockedKeepsGood(c, valid, user, now);
    case UnlockingArrives(valid) =>
      if !valid {
        GiveUpKeepsGood(c, c, Invalid, user, now);
      } else if now >= c.unlockedDate {
        GiveUpKeepsGood(c, c.(alarm := Off), RemoteTimeout, user, now);
      } else {
        UnlockKeepsGood(c, RemoteTimeout, now);
      }
  }

  lemma RingKeepsGood(c: Client, user: Callbacks, now: int)
    requires Good(c) && c.alarm.At?
    ensures Good(ProcessTimeout(c, user, now)) && Grows(c, ProcessTimeout(c, user, now), now)
  {
    if c.state == Locked {
      UnlockKeepsGood(c, LocalTimeout, now);
    } else {
      GiveUpKeepsGood(c, c.(alarm := Off), LocalTimeout, user, now);
    }
  }

  lemma UnlockedKeepsGood(c: Client, valid: bool, user: Callbacks, now: int)
    requires Good(c) && c.state != Idle
    ensures Good(MsgUnlocked(c, valid, user, now)) && Grows(c, MsgUnlocked(c, valid, user, now), now)
  {
    if !valid {
      GiveUpKeepsGood(c, c, Invalid, user, now);
    } else if now >= c.unlockedDate {
      GiveUpKeepsGood(c, c.(alarm := Off), RemoteTimeout, user, now);
    } else {
      EndKeepsGood(c, Ended(c.(alarm := Off), NoReason, false), user, now);
    }
  }

  lemma {:induction false} AfterGood(c: Client, run: seq<Timed>, n: nat)
    requires n <= |run| && Good(c) && Run(c, run)
    ensures Good(After(c, run, n))
  {
    hide Good, Possible, Step, Grows;
    if n > 0 {
      AfterGood(c, run, n - 1);
      assert Possible(After(c, run, n - 1), run[n - 1].event, run[n - 1].now);
      StepKeepsGood(After(c, run, n - 1), run[n - 1].event, run[n - 1].user, run[n - 1].now);
    }
  }

  lemma NewIsGood(mode: Mode, obtention: int)
    ensures Good(NewClient(mode, obtention))
  {
  }

  /** Over every run, whatever the callbacks call: one LOCK was sent for each accepted lock(); while the object is
      LOCKING the last message is a LOCK whose timeout is the date of the timer, and while it is UNLOCKING an UNLOCK.
      The lock date is the date of the timer while LOCKED and is taken back by the UNLOCK. */
  lemma EveryLockIsSent(mode: Mode, obtention: int, run: seq<Timed>, n: nat)
    requires Run(NewClient(mode, obtention), run) && n <= |run|
    ensures var c := After(NewClient(mode, obtention), run, n);
            && Locks(c.sent) == c.accepted
            && (c.state == Locking ==> c.sent != [] && c.alarm.At? && c.sent[|c.sent| - 1] == SentLock(c.alarm.date))
            && (c.state == Unlocking ==> c.sent != [] && c.sent[|c.sent| - 1] == SentUnlock && c.lockDate == 0)
            && (c.state == Locked ==> c.alarm == At(c.lockDate))
  {
    NewIsGood(mode, obtention);
    AfterGood(NewClient(mode, obtention), run, n);
  }

  lemma {:induction false} SameObtention(c: Client, run: seq<Timed>, n: nat)
    requires n <= |run| && Good(c) && Run(c, run)
    ensures After(c, run, n).obtention == c.obtention
  {
    hide Good, Possible, Step, Run;
    if n > 0 {
      SameObtention(c, run, n - 1);
      OneMoreGrows(c, run, n - 1);
    }
  }

  lemma OneMoreGrows(c: Client, run: seq<Timed>, n: nat)
    requires n < |run| && Good(c) && Run(c, run)
    ensures Grows(After(c, run, n), After(c, run, n + 1), run[n].now)
  {
    AfterGood(c, run, n);
    assert Possible(After(c, run, n), run[n].event, run[n].now);
    hide Good, Possible, Step, Grows;
    StepKeepsGood(After(c, run, n), run[n].event, run[n].user, run[n].now);
  }

  /** Over every run: each event only adds messages; a LOCK among them asks for the obtention timeout from then on, and
      an UNLOCK follows more LOCKs than cycles have ended, so that it belongs to one that has begun. */
  lemma EveryMessageInItsCycle(mode: Mode, obtention: int, run: seq<Timed>, n: nat, i: nat)
    requires Run(NewClient(mode, obtention), run) && n < |run|
    ensures var c, d := After(NewClient(mode, obtention), run, n), After(NewClient(mode, obtention), run, n + 1);
            && |c.sent| <= |d.sent| && d.sent[..|c.sent|] == c.sent
            && (|c.sent| <= i < |d.sent| ==>
                match d.sent[i]
                case SentLock(timeout) => timeout == run[n].now + obtention
                case SentUnlock => Locks(d.sent[..i]) > c.finals)
  {
    NewIsGood(mode, obtention);
    SameObtention(NewClient(mode, obtention), run, n);
    hide Run;
    OneMoreGrows(NewClient(mode, obtention), run, n);
  }

  // ---------- what the user is told ----------

  /** The event ends the cycle; `date` is the unlocked date of the last LOCKED. */
  predicate Ends(state: State, e: Event, now: int, date: int) {
    match e
    case UserCalls(_) => false
    case TimerRings => state != Locked
    case LockedArrives(valid, _, _) => !valid
    case LockFailedArrives(_, _) => true
    case TransmissionFailed => true
    case UnlockedArrives(_) => true
    case UnlockingArrives(valid) => !valid || now >= date
  }

  /** An end that is no failure. */
  predicate Succeeds(e: Event, now: int, date: int) { e == UnlockedArrives(true) && now < date }

  function ReasonOf(e: Event, now: int, date: int): Reason {
    match e
    case TimerRings => LocalTimeout
    case LockFailedArrives(valid, timedOut) => if valid && timedOut then RemoteTimeout else Invalid
    case TransmissionFailed => TransmissionError
    case UnlockedArrives(true) => if now < date then NoReason else RemoteTimeout
    case UnlockingArrives(true) => RemoteTimeout
    case _ => Invalid
  }

  lemma {:induction false} CallsFromIdle(c: Client, calls: seq<Call>, n: nat, now: int)
    requires n <= |calls| && c.state == Idle
    ensures var d, again := Calls(c, calls, n, now), CallLock in calls[..n];
            && d.accepted == c.accepted + (if again then 1 else 0) && (d.state == Idle <==> !again)
            && d.reason == (if again then NoReason else c.reason) && d.state in {Idle, Locking, Unlocking}
            && d.obtained == c.obtained && d.failures == c.failures && d.finals == c.finals
  {
    if n > 0 {
      CallsFromIdle(c, calls, n - 1, now);
      assert calls[..n] == calls[..n - 1] + [calls[n - 1]];
    }
  }

  /** What an end leaves: one more finally(), a failure or not, the reason, and whether a callback locks again. */
  predicate EndedWith(c: Client, d: Client, user: Callbacks, failure: bool, reason: Reason) {
    && d.finals == c.finals + 1 && d.failures == c.failures + (if failure then 1 else 0) && d.obtained == c.obtained
    && d.accepted == c.accepted + (if CallLock in user.final then 1 else 0)
    && (d.state == Idle <==> CallLock !in user.final)
    && d.reason == if CallLock in user.final then NoReason else reason
  }

  lemma GiveUpLeaves(c: Client, reason: Reason, user: Callbacks, now: int)
    requires c.state != Failed
    ensures EndedWith(c, GiveUp(c, reason, user, now), user, true, reason)
  {
    GiveUpEnds(c, reason, user, now);
    CallsFromIdle(Ended(c, reason, true), user.final, |user.final|, now);
    assert user.final[..|user.final|] == user.final;
  }

  lemma FinallyLeaves(c: Client, user: Callbacks, now: int)
    ensures EndedWith(c, Finally(c, user, now), user, false, c.reason)
  {
    CallsFromIdle(c.(state := Idle, listening := false, finals := c.finals + 1), user.final, |user.final|, now);
    assert user.final[..|user.final|] == user.final;
  }

  lemma StepEnds(c: Client, e: Event, user: Callbacks, now: int)
    requires Accounted(c) && Possible(c, e, now) && Ends(c.state, e, now, c.unlockedDate)
    ensures EndedWith(c, Step(c, e, user, now), user, !Succeeds(e, now, c.unlockedDate),
        ReasonOf(e, now, c.unlockedDate))
  {
    match e
    case TimerRings => GiveUpLeaves(c.(alarm := Off), LocalTimeout, user, now);
    case LockedArrives(_, _, _) => GiveUpLeaves(c, Invalid, user, now);
    case LockFailedArrives(valid, timedOut) =>
      GiveUpLeaves(c, if valid && timedOut then RemoteTimeout else Invalid, user, now);
    case TransmissionFailed => GiveUpLeaves(c, TransmissionError, user, now);
    case UnlockedArrives(valid) =>
      if !valid {
        GiveUpLeaves(c, Invalid, user, now);
      } else if now >= c.unlockedDate {
        GiveUpLeaves(c.(alarm := Off), RemoteTimeout, user, now);
      } else {
        FinallyLeaves(c.(alarm := Off, reason := NoReason), user, now);
      }
    case UnlockingArrives(valid) =>
      if !valid {
        GiveUpLeaves(c, Invalid, user, now);
      } else {
        GiveUpLeaves(c.(alarm := Off), RemoteTimeout, user, now);
      }
  }

  lemma {:induction false} CallsOfHolder(c: Client, calls: seq<Call>, n: nat, now: int)
    requires n <= |calls| && c.state in {Locked, Unlocking}
    ensures var d := Calls(c, calls, n, now);
            && d.state in {Locked, Unlocking} && d.accepted == c.accepted && d.obtained == c.obtained
            && d.finals == c.finals && d.failures == c.failures && d.reason == c.reason
  {
    if n > 0 {
      CallsOfHolder(c, calls, n - 1, now);
    }
  }

  /** An event that does not end the cycle. */
  lemma StepGoesOn(c: Client, e: Event, user: Callbacks, now: int)
    requires Accounted(c) && Possible(c, e, now) && !Ends(c.state, e, now, c.unlockedDate)
    ensures var d := Step(c, e, user, now);
            && d.finals == c.finals && d.failures == c.failures
            && d.obtained == c.obtained + (if e.LockedArrives? then 1 else 0)
            && d.accepted == c.accepted + (if e == UserCalls(CallLock) && c.state == Idle then 1 else 0)
            && (e.TimerRings? ==> d.state == Unlocking && d.reason == LocalTimeout && d.sent == c.sent + [SentUnlock])
            && (e.UnlockingArrives? ==>
                && d.state == Unlocking && d.reason == RemoteTimeout
                && d.sent == c.sent + if c.state == Unlocking then [] else [SentUnlock])
            && (e == UserCalls(CallLock) && c.state == Idle ==> d.state == Locking && d.reason == NoReason)
            && (e == UserCalls(CallUnlock) && c.state in {Locking, Locked} ==>
                d.state == Unlocking && d.sent == c.sent + [SentUnlock])
  {
    if e.LockedArrives? {
      CallsOfHolder(c.(state := Locked, lockDate := e.timeoutDate, unlockedDate := e.unlockedDate,
          alarm := At(e.timeoutDate), obtained := c.obtained + 1), user.obtained, |user.obtained|, now);
    }
  }

  /** Over every run: the cycle ends exactly at the events of `Ends`, with one finally(), a failure unless it was an
      UNLOCKED before the unlocked date of the last LOCKED, and the reason of `ReasonOf`; the next cycle begins at
      once if and only if the callback of finally() calls lock(). */
  lemma EveryEndIsReported(mode: Mode, obtention: int, run: seq<Timed>, n: nat)
    requires Run(NewClient(mode, obtention), run) && n < |run|
    ensures var c, d, date := After(NewClient(mode, obtention), run, n), After(NewClient(mode, obtention), run, n + 1),
                              LastDate(run, n);
            var e, now := run[n].event, run[n].now;
            if Ends(c.state, e, now, date)
            then EndedWith(c, d, run[n].user, !Succeeds(e, now, date), ReasonOf(e, now, date))
            else
              && d.finals == c.finals && d.failures == c.failures
              && d.obtained == c.obtained + if e.LockedArrives? then 1 else 0
  {
    var new' := NewClient(mode, obtention);
    RunDate(new', run, n);
    RunKeeps(new', run, n);
    var c := After(new', run, n);
    assert Possible(c, run[n].event, run[n].now);
    hide Accounted, Possible, Step, EndedWith, Succeeds, ReasonOf, Run;
    if Ends(c.state, run[n].event, run[n].now, c.unlockedDate) {
      StepEnds(c, run[n].event, run[n].user, run[n].now);
    } else {
      StepGoesOn(c, run[n].event, run[n].user, run[n].now);
    }
  }
}
