/** A whole ticket as a value: its progress, its dates and the messages it sent.

    These are the transitions of ticket.cpp with a clock.  `now` is what snapdev::now()
    returns during the call; dates and durations are nanoseconds. */
module TicketRecord {
  import opened KeyOrder
  import opened TicketProgress
  import opened Basics

  // CLUCK_MINIMUM_TIMEOUT and CLUCK_UNLOCK_MINIMUM_TIMEOUT
  const MINIMUM_TIMEOUT: int := 3 * SECOND
  const UNLOCK_MINIMUM_TIMEOUT: int := 3 * SECOND
  // CLUCK_MAXIMUM_TIMEOUT
  const MAXIMUM_TIMEOUT: int := 7 * 24 * 60 * 60 * SECOND
  // CLUCK_DEFAULT_TIMEOUT
  const DEFAULT_TIMEOUT: int := -SECOND

  /** The constructor and set_unlock_duration clamp both durations of a ticket. */
  type Duration = d: int | UNLOCK_MINIMUM_TIMEOUT <= d <= MAXIMUM_TIMEOUT witness UNLOCK_MINIMUM_TIMEOUT

  /** ticket::lock_failure_t. */
  datatype Failure = NoFailure | LockFailure | UnlockingFailure

  /** The messages a ticket originates. */
  datatype Sent =
    | SentLockEntering
    | SentGetMaxTicket
    | SentAddTicket
    | SentLockExiting
    | SentTicketReady
    | SentActivateLock
    | SentLocked(timeoutDate: int, unlockedDate: int)
    | SentUnlocking
    | SentUnlocked
    | SentLockFailed
    | SentDropTicket

  datatype Record = Record(
    progress: Progress,
    failure: Failure,
    obtention: int,
    alive: int,
    lockDuration: Duration,
    unlockDuration: Duration,
    lockDate: int,
    unlockedDate: int,
    sent: seq<Sent>)
  {
    function Sending(m: Sent): Record { this.(sent := sent + [m]) }
  }

  function Clamp(v: int, lo: int, hi: int): (r: int)
    requires lo <= hi
    ensures lo <= r <= hi
  {
    if v < lo then lo else if hi < v then hi else v
  }

  /** ticket::set_unlock_duration. */
  function UnlockDuration(duration: int, lockDuration: int): (r: Duration)
  {
    Clamp(if duration == DEFAULT_TIMEOUT then lockDuration else duration, UNLOCK_MINIMUM_TIMEOUT, MAXIMUM_TIMEOUT)
  }

  /** The constructor followed by set_unlock_duration. */
  function NewRecord(owner: ServerName, entering: EnteringKey, obtention: int, duration: int,
      unlockDuration: int): Record {
    var lockDuration := Clamp(duration, UNLOCK_MINIMUM_TIMEOUT, MAXIMUM_TIMEOUT);
    Record(NewTicket(owner, entering), NoFailure, obtention, 0, lockDuration,
           UnlockDuration(unlockDuration, lockDuration), 0, 0, [])
  }

  /** `d` is the duration asked for, or the bound that it exceeds. */
  predicate Bounded(d: int, asked: int) {
    if asked < UNLOCK_MINIMUM_TIMEOUT then d == UNLOCK_MINIMUM_TIMEOUT
    else if asked > MAXIMUM_TIMEOUT then d == MAXIMUM_TIMEOUT
    else d == asked
  }

  /** A ticket lasts as long as asked for, within the bounds; without an unlock duration that is the lock duration. */
  lemma DurationsAsAsked(owner: ServerName, entering: EnteringKey, obtention: int, duration: int, unlockDuration: int)
    ensures var r := NewRecord(owner, entering, obtention, duration, unlockDuration);
            && r.obtention == obtention && Bounded(r.lockDuration, duration)
            && if unlockDuration == DEFAULT_TIMEOUT then r.unlockDuration == r.lockDuration
               else Bounded(r.unlockDuration, unlockDuration)
  {
  }

  // ---------- timeouts ----------

  /** ticket::get_current_timeout_date. */
  function CurrentDate(r: Record): int {
    if r.alive > 0 then r.alive else if r.progress.locked then r.lockDate else r.obtention
  }

  /** ticket::timed_out. */
  predicate TimedOut(r: Record, now: int) { CurrentDate(r) <= now }

  /** ticket::set_alive_timeout: never negative, never past the obtention timeout. */
  function AliveTimeout(r: Record, timeout: int): int {
    var t := if timeout < 0 then 0 else timeout;
    if t < r.obtention then t else r.obtention
  }

  // ---------- the bakery steps ----------

  function StartEntering(r: Record): Record { r.Sending(SentLockEntering) }

  function StartNumbering(r: Record, last: nat): Record {
    if r.progress.getMax then r else r.(progress := Entered(r.progress, last)).Sending(SentGetMaxTicket)
  }

  /** max_ticket and add_ticket, when the number does not wrap around. */
  function TakeNumber(r: Record, newMax: nat): Record {
    if r.progress.added then r else r.(progress := Numbered(r.progress, newMax)).Sending(SentAddTicket)
  }

  function ReachQuorum(r: Record, entering: set<EnteringKey>): Record {
    if r.progress.quorum then r else r.(progress := Acknowledged(r.progress, entering)).Sending(SentLockExiting)
  }

  function StopWaitingFor(r: Record, key: EnteringKey, expired: set<EnteringKey>): Record {
    var p := RemoveEntering(r.progress, key, expired);
    if p.ready && !r.progress.ready then r.(progress := p).Sending(SentTicketReady) else r.(progress := p)
  }

  function AskActivation(r: Record): Record {
    if CanLock(r.progress) then r.Sending(SentActivateLock) else r
  }

  /** ticket::lock_activated, on the daemon `me`. */
  function Lock(r: Record, me: ServerName, now: int): Record {
    if !CanLock(r.progress) then r
    else
      var date := now + r.lockDuration;
      var l := r.(progress := Activated(r.progress), lockDate := date, unlockedDate := date + r.unlockDuration);
      if r.progress.owner == me then l.Sending(SentLocked(date, date + r.unlockDuration)) else l
  }

  // ---------- the end of a ticket ----------

  /** ticket::drop_ticket. */
  function Drop(r: Record): Record {
    var d := r.Sending(SentDropTicket);
    if r.failure.NoFailure? then d.(failure := UnlockingFailure, progress := Failed(r.progress)).Sending(SentUnlocked)
        else d
  }

  /** ticket::lock_failed, on the daemon `me`. */
  function Fail(r: Record, me: ServerName, now: int): Record {
    match r.failure
    case NoFailure =>
      var f := r.(failure := LockFailure, progress := Failed(r.progress),
                  lockDate := if r.progress.locked then r.lockDate + r.unlockDuration else r.lockDate);
      if r.progress.owner != me then f
      else if !r.progress.locked then f.Sending(SentLockFailed)
      else if TimedOut(f, now) then f.Sending(SentUnlocked)
      else f.Sending(SentUnlocking)
    case LockFailure =>
      var f := r.(failure := UnlockingFailure);
      if r.progress.locked && r.progress.owner == me then f.Sending(SentUnlocked) else f
    case UnlockingFailure => r
  }

  // ---------- sweeps ----------

  /** A ticket, and whether the daemon erased it. */
  datatype Life = Life(record: Record, erased: bool)

  /** Every sweep of the daemon calls lock_failed on a ticket that timed out and erases the
      ticket if it still is timed out then. */
  function Sweep(r: Record, me: ServerName, now: int): Life {
    if !TimedOut(r, now) then Life(r, false)
    else var f := Fail(r, me, now); Life(f, TimedOut(f, now))
  }

  function OneSwept(kept: seq<Record>, r: Record, me: ServerName, now: int): (k: seq<Record>)
    ensures |kept| <= |k| <= |kept| + 1
  {
    var l := Sweep(r, me, now);
    if l.erased then kept else kept + [l.record]
  }

  /** The first `n` tickets of a table row, swept in key order. */
  function SweptFirst(row: seq<Record>, n: nat, me: ServerName, now: int): (kept: seq<Record>)
    requires n <= |row|
    ensures |kept| <= n
  {
    if n == 0 then [] else OneSwept(SweptFirst(row, n - 1, me, now), row[n - 1], me, now)
  }

  function Swept(row: seq<Record>, me: ServerName, now: int): (kept: seq<Record>)
    ensures |kept| <= |row|
  {
    SweptFirst(row, |row|, me, now)
  }

  predicate Current(row: seq<Record>, now: int) {
    forall i :: 0 <= i < |row| ==> !TimedOut(row[i], now)
  }

  /** Nothing in a swept row is timed out, and sweeping it again changes nothing. */
  lemma {:induction false} SweptIsCurrent(row: seq<Record>, n: nat, me: ServerName, now: int)
    requires n <= |row|
    ensures Current(SweptFirst(row, n, me, now), now)
  {
    if n > 0 {
      SweptIsCurrent(row, n - 1, me, now);
    }
  }

  lemma {:induction false} CurrentIsSwept(row: seq<Record>, n: nat, me: ServerName, now: int)
    requires n <= |row| && Current(row, now)
    ensures SweptFirst(row, n, me, now) == row[..n]
  {
    if n > 0 {
      CurrentIsSwept(row, n - 1, me, now);
    }
  }
}
