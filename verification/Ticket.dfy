/** The ticket class.

    Every method is proved to perform one transition of TicketRecord on the value of the
    object.  Where the source calls back into the daemon (get_last_ticket, set_ticket,
    lock_exiting) the caller does it: a method returns whether the algorithm goes on at
    once, which is the case with one leader only (ticket::one_leader). */
module Ticket {
  import opened KeyOrder
  import opened TicketProgress
  import opened TicketRecord

  class Ticket {
    const objectName: string
    const tag: int
    const serverName: ServerName
    const serviceName: string
    const enteringKey: EnteringKey
    var owner: ServerName
    var serial: int
    var obtentionTimeout: int
    var aliveTimeout: int
    var lockDuration: Duration
    var unlockDuration: Duration
    var getMaxTicket: bool
    var ourTicket: nat
    var addedTicket: bool
    var addedTicketQuorum: bool
    var stillEntering: map<EnteringKey, Ticket>
    var ticketReady: bool
    var locked: bool
    var lockTimeoutDate: int
    var unlockedTimeoutDate: int
    var lockFailed: Failure
    var sent: seq<Sent>

    /** The object as a value. */
    function View(): Record
      reads this
    {
      Record(
        Progress(owner, enteringKey, getMaxTicket, ourTicket, addedTicket, addedTicketQuorum, stillEntering.Keys,
                 ticketReady, locked, lockFailed != NoFailure),
        lockFailed, obtentionTimeout, aliveTimeout, lockDuration, unlockDuration, lockTimeoutDate,
        unlockedTimeoutDate, sent)
    }

    /** f_ticket_key. */
    function Key(): TicketKey
      reads this
    {
      TicketKey(ourTicket, enteringKey)
    }

    constructor (me: ServerName, objectName: string, tag: int, enteringKey: EnteringKey, obtentionTimeout: int,
                 duration: int, serverName: ServerName, serviceName: string)
      ensures View() == NewRecord(me, enteringKey, obtentionTimeout, duration, DEFAULT_TIMEOUT)
      ensures this.objectName == objectName && this.tag == tag && this.enteringKey == enteringKey
      ensures this.serverName == serverName && this.serviceName == serviceName && stillEntering == map[]
    {
      this.objectName, this.tag, this.enteringKey := objectName, tag, enteringKey;
      this.serverName, this.serviceName := serverName, serviceName;
      this.owner, this.serial := me, -1;
      this.obtentionTimeout, this.aliveTimeout := obtentionTimeout, 0;
      this.lockDuration := Clamp(duration, UNLOCK_MINIMUM_TIMEOUT, MAXIMUM_TIMEOUT);
      this.unlockDuration := UnlockDuration(DEFAULT_TIMEOUT, Clamp(duration, UNLOCK_MINIMUM_TIMEOUT, MAXIMUM_TIMEOUT));
      this.getMaxTicket, this.ourTicket, this.addedTicket, this.addedTicketQuorum := false, 0, false, false;
      this.stillEntering, this.ticketReady, this.locked := map[], false, false;
      this.lockTimeoutDate, this.unlockedTimeoutDate, this.lockFailed, this.sent := 0, 0, NoFailure, [];
    }

    method SetUnlockDuration(duration: int)
      modifies this`unlockDuration
      ensures View() == old(View()).(unlockDuration := UnlockDuration(duration, lockDuration))
    {
      var d := if duration == DEFAULT_TIMEOUT then lockDuration else duration;
      if d < UNLOCK_MINIMUM_TIMEOUT {
        d := UNLOCK_MINIMUM_TIMEOUT;
      } else if d > MAXIMUM_TIMEOUT {
        d := MAXIMUM_TIMEOUT;
      }
      unlockDuration := d;
    }

    // ---------- bakery ----------

    method Entering(oneLeader: bool) returns (goOn: bool)
      modifies this`sent
      ensures View() == StartEntering(old(View())) && goOn == oneLeader
    {
      sent := sent + [SentLockEntering];
      goOn := oneLeader;
    }

    method Entered(last: nat, oneLeader: bool) returns (goOn: bool)
      modifies this`getMaxTicket, this`ourTicket, this`sent
      ensures View() == StartNumbering(old(View()), last)
      ensures goOn == (oneLeader && !old(getMaxTicket))
    {
      goOn := false;
      if !getMaxTicket {
        getMaxTicket := true;
        ourTicket := last;
        sent := sent + [SentGetMaxTicket];
        goOn := oneLeader;
      }
    }

    /** False when the next number would be NO_TICKET: the source throws. */
    method MaxTicket(newMax: nat, oneLeader: bool) returns (ok: bool, goOn: bool)
      modifies this`addedTicket, this`ourTicket, this`sent
      ensures ok <==> old(addedTicket) || !WrapsAround(old(View()).progress, newMax)
      ensures ok ==> View() == TakeNumber(old(View()), newMax)
      ensures ok && !old(addedTicket) ==> old(ourTicket) < ourTicket && newMax < ourTicket < NUMBER_LIMIT
      ensures !ok ==> old(ourTicket) >= NUMBER_LIMIT - 1 || newMax >= NUMBER_LIMIT - 1
      ensures goOn == (oneLeader && ok && !old(addedTicket))
    {
      ok, goOn := true, false;
      if !addedTicket {
        if newMax > ourTicket {
          ourTicket := newMax;
        }
        ourTicket := ourTicket + 1;
        if ourTicket >= NUMBER_LIMIT {
          ok := false;
          return;
        }
        addedTicket := true;
        sent := sent + [SentAddTicket];
        goOn := oneLeader;
      }
    }

    method TicketAdded(entering: map<EnteringKey, Ticket>) returns (exits: bool)
      modifies this`addedTicketQuorum, this`stillEntering, this`sent
      ensures View() == ReachQuorum(old(View()), entering.Keys)
      ensures exits == !old(addedTicketQuorum)
      ensures stillEntering == if exits then entering else old(stillEntering)
    {
      exits := !addedTicketQuorum;
      if exits {
        addedTicketQuorum := true;
        stillEntering := entering;
        sent := sent + [SentLockExiting];
      }
    }

    /** The keys of the waiting list whose tickets timed out. */
    ghost function Expired(now: int): set<EnteringKey>
      reads this, stillEntering.Values
    {
      set k | k in stillEntering && TicketRecord.TimedOut(stillEntering[k].View(), now)
    }

    /** The ticket waits for this key: it has its quorum and is not ready. */
    predicate WaitsFor(key: EnteringKey)
      reads this
    {
      addedTicketQuorum && !ticketReady && key in stillEntering
    }

    /** The keys that are still waited for when `key` leaves: those of the other tickets whose dates are to come. */
    ghost function Awaited(key: EnteringKey, now: int): set<EnteringKey>
      reads this, stillEntering.Values
    {
      set k | k in stillEntering && k != key && now < CurrentDate(stillEntering[k].View())
    }

    method RemoveEntering(key: EnteringKey, now: int)
      modifies this`stillEntering, this`ticketReady, this`sent
      ensures View() == StopWaitingFor(old(View()), key, old(Expired(now)))
      ensures stillEntering.Keys == if old(WaitsFor(key)) then old(Awaited(key, now)) else old(stillEntering.Keys)
      ensures forall k :: k in stillEntering ==> stillEntering[k] == old(stillEntering[k])
      ensures sent == old(sent) + if old(WaitsFor(key) && Awaited(key, now) == {}) then [SentTicketReady] else []
      ensures ticketReady == old(ticketReady || (WaitsFor(key) && Awaited(key, now) == {}))
    {
      hide Awaited, Expired;
      if addedTicketQuorum && !ticketReady && key in stillEntering {
        var left := StillAwaited(key, now);
        stillEntering := left;
        if stillEntering == map[] {
          ticketReady := true;
          sent := sent + [SentTicketReady];
        }
      }
    }

    method StillAwaited(key: EnteringKey, now: int) returns (left: map<EnteringKey, Ticket>)
      ensures left.Keys == stillEntering.Keys - {key} - Expired(now) == Awaited(key, now)
      ensures forall k :: k in left ==> left[k] == stillEntering[k]
    {
      left := EraseExpired(stillEntering - {key}, now);
    }

    /** The loop of remove_entering: erases the tickets that timed out from a waiting list. */
    static method EraseExpired(entering: map<EnteringKey, Ticket>, now: int) returns (left: map<EnteringKey, Ticket>)
      ensures forall k :: k in left <==> k in entering && !TicketRecord.TimedOut(entering[k].View(), now)
      ensures forall k :: k in left ==> left[k] == entering[k]
    {
      left := entering;
      var todo := entering.Keys;
      while todo != {}
        invariant todo <= entering.Keys
        invariant forall k :: k in left <==>
            k in entering && (k in todo || !TicketRecord.TimedOut(entering[k].View(), now))
        invariant forall k :: k in left ==> left[k] == entering[k]
        decreases |todo|
      {
        var k :| k in todo;
        var out := entering[k].TimedOut(now);
        if out {
          left := left - {k};
        }
        todo := todo - {k};
      }
    }

    method SetReady()
      modifies this`ticketReady
      ensures View() == old(View()).(progress := TicketProgress.SetReady(old(View()).progress))
    {
      ticketReady := true;
    }

    /** False when the ticket has a number already: the source throws. */
    method SetTicketNumber(number: nat) returns (ok: bool)
      modifies this`addedTicket, this`ourTicket
      ensures ok <==> !HasNumber(old(View()).progress)
      ensures ok <==> old(ourTicket) == 0 && !old(addedTicket)
      ensures View()
           == if ok then old(View()).(progress := TicketProgress.SetTicketNumber(old(View()).progress,
              number)) else old(View())
    {
      ok := ourTicket == 0 && !addedTicket;
      if ok {
        addedTicket := true;
        ourTicket := number;
      }
    }

    method ActivateLock(oneLeader: bool) returns (goOn: bool)
      modifies this`sent
      ensures View() == AskActivation(old(View()))
      ensures goOn == (oneLeader && CanLock(old(View()).progress))
    {
      goOn := false;
      if ticketReady && !locked && lockFailed == NoFailure {
        sent := sent + [SentActivateLock];
        goOn := oneLeader;
      }
    }

    method LockActivated(me: ServerName, now: int)
      modifies this`locked, this`lockTimeoutDate, this`unlockedTimeoutDate, this`sent
      ensures View() == Lock(old(View()), me, now)
    {
      if ticketReady && !locked && lockFailed == NoFailure {
        locked := true;
        lockTimeoutDate := now + lockDuration;
        unlockedTimeoutDate := lockTimeoutDate + unlockDuration;
        if owner == me {
          sent := sent + [SentLocked(lockTimeoutDate, unlockedTimeoutDate)];
        }
      }
    }

    // ---------- the end of a ticket ----------

    method DropTicket()
      modifies this`lockFailed, this`sent
      ensures View() == Drop(old(View()))
    {
      sent := sent + [SentDropTicket];
      if lockFailed == NoFailure {
        lockFailed := UnlockingFailure;
        sent := sent + [SentUnlocked];
      }
    }

    method LockFailed(me: ServerName, now: int)
      modifies this`lockFailed, this`lockTimeoutDate, this`sent
      ensures View() == Fail(old(View()), me, now)
    {
      var message: seq<Sent> := [];
      match lockFailed {
        case NoFailure =>
          lockFailed := Failure.LockFailure;
          if locked {
            lockTimeoutDate := lockTimeoutDate + unlockDuration;
            var out := TimedOut(now);
            message := if out then [SentUnlocked] else [SentUnlocking];
          } else {
            message := [SentLockFailed];
          }
        case LockFailure =>
          lockFailed := UnlockingFailure;
          if locked {
            message := [SentUnlocked];
          }
        case UnlockingFailure =>
      }
      if owner != me {
        return;
      }
      sent := sent + message;
    }

    // ---------- timeouts and ownership ----------

    method SetAliveTimeout(timeout: int)
      modifies this`aliveTimeout
      ensures View() == old(View()).(alive := AliveTimeout(old(View()), timeout))
    {
      var t := if timeout < 0 then 0 else timeout;
      aliveTimeout := if t < obtentionTimeout then t else obtentionTimeout;
    }

    method GetCurrentTimeoutDate() returns (date: int)
      ensures date == CurrentDate(View())
    {
      if aliveTimeout > 0 {
        return aliveTimeout;
      }
      if locked {
        return lockTimeoutDate;
      }
      return obtentionTimeout;
    }

    method TimedOut(now: int) returns (out: bool)
      ensures out <==> TicketRecord.TimedOut(View(), now)
    {
      var date := GetCurrentTimeoutDate();
      out := date <= now;
    }
  }
}
