/** The lock object of a client: every method is proved to perform one transition of ClientState. */
module Client {
  import opened ClientState

  class Cluck {
    const mode: Mode
    const obtention: int
    var state: State
    var reason: Reason
    var lockTimeoutDate: int
    var unlockedTimeoutDate: int
    var alarm: Alarm
    var listening: bool
    var accepted: nat
    var obtained: nat
    var failures: nat
    var finals: nat
    var sent: seq<Sent>

    function View(): ClientState.Client
      reads this
    {
      ClientState.Client(mode, obtention, state, reason, lockTimeoutDate, unlockedTimeoutDate, alarm, listening,
                         accepted, obtained, failures, finals, sent)
    }

    constructor (mode: Mode, obtention: int)
      ensures View() == NewClient(mode, obtention)
    {
      this.mode, this.obtention := mode, obtention;
      state, reason, lockTimeoutDate, unlockedTimeoutDate, alarm, listening := Idle, NoReason, 0, 0, Off, false;
      accepted, obtained, failures, finals, sent := 0, 0, 0, 0, [];
    }

    /** is_busy. */
    predicate IsBusy()
      reads this`state
    {
      state != Idle
    }

    method Lock(now: int) returns (ok: bool)
      modifies this
      ensures View() == ClientState.Lock(old(View()), now)
      ensures ok <==> !old(IsBusy())
      ensures accepted == old(accepted) + if ok then 1 else 0
    {
      if IsBusy() {
        return false;
      }
      var date := now + obtention;
      sent := sent + [SentLock(date)];
      alarm := At(date);
      reason := NoReason;
      state := Locking;
      listening := true;
      accepted := accepted + 1;
      return true;
    }

    method Unlock(now: int)
      modifies this
      ensures View() == ClientState.Unlock(old(View()), now)
    {
      if state != Locked && state != Locking {
        return;
      }
      lockTimeoutDate := 0;
      sent := sent + [SentUnlock];
      alarm := At(now + UNLOCK_DELAY);
      state := Unlocking;
    }

    /** What the callbacks of the user call on this object. */
    method Run(calls: seq<Call>, now: int)
      modifies this
      ensures View() == Calls(old(View()), calls, |calls|, now)
    {
      var i := 0;
      while i < |calls|
        invariant 0 <= i <= |calls| && View() == Calls(old(View()), calls, i, now)
      {
        if calls[i] == CallLock {
          var _ := Lock(now);
        } else {
          Unlock(now);
        }
        i := i + 1;
      }
    }

    method LockObtained(user: Callbacks, now: int)
      modifies this
      ensures View() == ClientState.LockObtained(old(View()), user, now)
    {
      obtained := obtained + 1;
      Run(user.obtained, now);
      if mode == Simple {
        Unlock(now);
      }
    }

    method LockFailed(user: Callbacks, now: int)
      modifies this
      ensures View() == ClientState.LockFailed(old(View()), user, now)
    {
      if state != Failed {
        state := Failed;
        alarm := Off;
        failures := failures + 1;
        Run(user.failed, now);
      }
    }

    method Finally(user: Callbacks, now: int)
      modifies this
      ensures View() == ClientState.Finally(old(View()), user, now)
    {
      state := Idle;
      listening := false;
      finals := finals + 1;
      Run(user.final, now);
    }

    method ProcessTimeout(user: Callbacks, now: int)
      modifies this
      ensures View() == ClientState.ProcessTimeout(old(View()), user, now)
    {
      alarm := Off;
      match state {
        case Locking | Unlocking =>
          reason := LocalTimeout;
          LockFailed(user, now);
          Finally(user, now);
        case Locked =>
          reason := LocalTimeout;
          Unlock(now);
        case Idle | Failed =>
      }
    }

    method MsgLocked(valid: bool, timeoutDate: int, unlockedDate: int, user: Callbacks, now: int)
      modifies this
      ensures View() == ClientState.MsgLocked(old(View()), valid, timeoutDate, unlockedDate, user, now)
    {
      if !valid {
        reason := Invalid;
        LockFailed(user, now);
        Finally(user, now);
        return;
      }
      state := Locked;
      lockTimeoutDate := timeoutDate;
      unlockedTimeoutDate := unlockedDate;
      alarm := At(lockTimeoutDate);
      LockObtained(user, now);
    }

    method MsgLockFailed(valid: bool, timedOut: bool, user: Callbacks, now: int)
      modifies this
      ensures View() == ClientState.MsgLockFailed(old(View()), valid, timedOut, user, now)
    {
      if !valid {
        reason := Invalid;
      } else if timedOut {
        reason := RemoteTimeout;
      } else {
        reason := Invalid;
      }
      LockFailed(user, now);
      Finally(user, now);
    }

    /** `failed` is true when the transmission of a LOCK failed; other reports are ignored. */
    method MsgTransmissionReport(failed: bool, user: Callbacks, now: int)
      modifies this
      ensures View() == if failed then GiveUp(old(View()), TransmissionError, user, now) else old(View())
    {
      if failed {
        reason := TransmissionError;
        LockFailed(user, now);
        Finally(user, now);
      }
    }

    method MsgUnlocked(valid: bool, user: Callbacks, now: int)
      modifies this
      ensures View() == ClientState.MsgUnlocked(old(View()), valid, user, now)
    {
      if !valid {
        reason := Invalid;
        LockFailed(user, now);
      } else {
        alarm := Off;
        if now >= unlockedTimeoutDate {
          reason := RemoteTimeout;
          LockFailed(user, now);
        } else {
          reason := NoReason;
        }
      }
      Finally(user, now);
    }

    method MsgUnlocking(valid: bool, user: Callbacks, now: int)
      modifies this
      ensures View() == ClientState.MsgUnlocking(old(View()), valid, user, now)
    {
      if !valid {
        reason := Invalid;
        LockFailed(user, now);
        Finally(user, now);
        return;
      }
      reason := RemoteTimeout;
      if now >= unlockedTimeoutDate {
        alarm := Off;
        LockFailed(user, now);
        Finally(user, now);
      } else {
        Unlock(now);
      }
    }
  }
}
