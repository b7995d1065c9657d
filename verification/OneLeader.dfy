/** A daemon that is the only leader, as a first in, first out queue for each object name.

    With one leader every step of the bakery algorithm follows at once, so between two events
    a ticket is either waiting or it holds the lock.  The functions of this module say what
    the handlers of Cluckd.dfy leave in the ticket table. */
module OneLeader {
  import opened KeyOrder
  import opened TicketProgress
  import opened TicketRecord
  import opened TicketRow
  import opened FifoLock

  // ---------- one row ----------

  /** Ready to be locked, and not timed out so far. */
  predicate Waiting(r: Record, me: ServerName) {
    && r.progress.ready && r.progress.quorum && !r.progress.locked && r.failure.NoFailure? && !r.progress.failed
    && r.alive == 0 && r.progress.owner == me
  }

  /** LOCKED told the client the dates. */
  predicate Told(r: Record) { SentLocked(r.unlockedDate - r.unlockDuration, r.unlockedDate) in r.sent }

  /** Locked; the lock times out at the date sent in LOCKED, or earlier if UNLOCKING was not sent yet. */
  predicate Holding(r: Record, me: ServerName) {
    && r.progress.ready && r.progress.quorum && r.progress.locked && (r.progress.failed <==> r.failure != NoFailure)
    && r.alive == 0 && r.progress.owner == me && !r.failure.UnlockingFailure?
    && Told(r)
    && r.unlockedDate == r.lockDate + if r.failure.NoFailure? then r.unlockDuration else 0
  }

  /** A row whose head may have to be activated. */
  predicate AlmostQueue(row: seq<Record>, me: ServerName) {
    && Sorted(row)
    && (row != [] ==> Holding(row[0], me) || Waiting(row[0], me))
    && forall i :: 0 < i < |row| ==> Waiting(row[i], me)
  }

  /** The first ticket holds the lock and all the others wait. */
  predicate QueueRow(row: seq<Record>, me: ServerName) {
    AlmostQueue(row, me) && (row != [] ==> Holding(row[0], me))
  }

  // ---------- sweeps ----------

  lemma SweepWaiting(r: Record, me: ServerName, now: int)
    requires Waiting(r, me)
    ensures Sweep(r, me, now).erased <==> r.obtention <= now
    ensures !Sweep(r, me, now).erased ==> Sweep(r, me, now).record == r
  {
  }

  /** A holder leaves exactly at the unlocked date that was sent to it. */
  lemma SweepHolding(r: Record, me: ServerName, now: int)
    requires Holding(r, me)
    ensures Sweep(r, me, now).erased <==> r.unlockedDate <= now
    ensures !Sweep(r, me, now).erased ==> Holding(Sweep(r, me, now).record, me)
    ensures Sweep(r, me, now).record.unlockedDate == r.unlockedDate
  {
  }

  lemma {:induction false} SweptQueue(row: seq<Record>, n: nat, me: ServerName, now: int)
    requires n <= |row| && AlmostQueue(row, me)
    ensures AlmostQueue(SweptFirst(row, n, me, now), me)
    ensures 0 < n == |SweptFirst(row, n, me, now)| && Holding(row[0], me) ==>
        Holding(SweptFirst(row, n, me, now)[0], me)
  {
    if n > 0 {
      SweptQueue(row, n - 1, me, now);
      SweptSorted(row, n, me, now);
      if n == 1 && Holding(row[0], me) {
        SweepHolding(row[0], me, now);
      } else {
        SweepWaiting(row[n - 1], me, now);
      }
    }
  }

  lemma ActivatedQueue(row: seq<Record>, me: ServerName, now: int)
    requires AlmostQueue(row, me)
    ensures QueueRow(HeadActivated(row, me, now, true), me)
  {
    HeadActivatedSorted(row, me, now, true);
    if row != [] {
      ActivationHolds(row[0], me, now);
    }
  }

  lemma ActivationHolds(r: Record, me: ServerName, now: int)
    requires Holding(r, me) || Waiting(r, me)
    ensures Holding(Activation(r, me, now, true), me)
    ensures Holding(r, me) ==> Activation(r, me, now, true) == r
    ensures Activation(r, me, now, true).progress.Key() == r.progress.Key()
  {
  }

  lemma CleanedQueue(row: seq<Record>, me: ServerName, now: int)
    requires QueueRow(row, me)
    ensures QueueRow(Cleaned(row, me, now, true), me)
  {
    SweptQueue(row, |row|, me, now);
    CleanedIsCurrent(row, me, now, true);
    ActivatedQueue(Swept(row, me, now), me, now);
  }

  // ---------- rows are queues ----------

  /** A ticket as its client sees it. */
  function PlaceOf(r: Record): Place {
    Place(r.progress.entering, if r.progress.locked then r.unlockedDate else r.obtention,
          r.lockDuration + r.unlockDuration, r.progress.locked)
  }

  function QueueOf(row: seq<Record>): (q: Queue)
    ensures |q| == |row| && forall i :: 0 <= i < |row| ==> q[i] == PlaceOf(row[i])
  {
    seq(|row|, i requires 0 <= i < |row| => PlaceOf(row[i]))
  }

  lemma SweepPlace(r: Record, me: ServerName, now: int)
    requires Holding(r, me) || Waiting(r, me)
    ensures var l := Sweep(r, me, now);
            (l.erased <==> PlaceOf(r).until <= now) && (!l.erased ==> PlaceOf(l.record) == PlaceOf(r))
  {
    if Holding(r, me) {
      SweepHolding(r, me, now);
    } else {
      SweepWaiting(r, me, now);
    }
  }

  lemma QueueOfMore(row: seq<Record>, r: Record)
    ensures QueueOf(row + [r]) == QueueOf(row) + [PlaceOf(r)]
  {
  }

  lemma {:induction false} SweptIsStaying(row: seq<Record>, n: nat, me: ServerName, now: int)
    requires n <= |row| && AlmostQueue(row, me)
    ensures QueueOf(SweptFirst(row, n, me, now)) == StayingFirst(QueueOf(row), n, now)
  {
    if n > 0 {
      SweptIsStaying(row, n - 1, me, now);
      var so, l := SweptFirst(row, n - 1, me, now), Sweep(row[n - 1], me, now);
      assert Holding(row[n - 1], me) || Waiting(row[n - 1], me);
      SweepPlace(row[n - 1], me, now);
      if l.erased {
        assert SweptFirst(row, n, me, now) == so;
      } else {
        QueueOfMore(so, l.record);
        assert SweptFirst(row, n, me, now) == so + [l.record];
      }
    }
  }

  lemma ActivatedIsGranted(row: seq<Record>, me: ServerName, now: int)
    requires AlmostQueue(row, me)
    ensures QueueOf(HeadActivated(row, me, now, true)) == Granted(QueueOf(row), now)
  {
  }

  lemma FirstActivatedIsSettled(row: seq<Record>, me: ServerName, now: int)
    requires AlmostQueue(row, me)
    ensures QueueRow(FirstActivated(row, me, now, true), me) && Current(FirstActivated(row, me, now, true), now)
    ensures QueueOf(FirstActivated(row, me, now, true)) == Settled(QueueOf(row), now)
  {
    var kept := Swept(row, me, now);
    SweptQueue(row, |row|, me, now);
    SweptIsStaying(row, |row|, me, now);
    ActivatedQueue(kept, me, now);
    ActivatedIsGranted(kept, me, now);
    SweptAgain(row, me, now);
    HeadActivatedCurrent(kept, me, now, true);
  }

  /** cluckd::cleanup settles each queue. */
  lemma CleanedIsSettled(row: seq<Record>, me: ServerName, now: int)
    requires QueueRow(row, me)
    ensures QueueRow(Cleaned(row, me, now, true), me) && Current(Cleaned(row, me, now, true), now)
    ensures QueueOf(Cleaned(row, me, now, true)) == Settled(QueueOf(row), now)
  {
    CleanedQueue(row, me, now);
    FirstActivatedIsSettled(row, me, now);
    CleanedIsCurrent(row, me, now, true);
    SweptQueue(row, |row|, me, now);
    SweptIsStaying(row, |row|, me, now);
  }

  // ---------- a new ticket ----------

  /** The steps from entering() to max_ticket(), when the largest number of the row is `last`. */
  function NumberedAlone(r: Record, last: nat): Record { TakeNumber(StartNumbering(StartEntering(r), last), last) }

  /** The steps from ticket_added() to remove_entering(), when nobody else is entering. */
  function ReadyAlone(r: Record, key: EnteringKey): Record { StopWaitingFor(ReachQuorum(r, {key}), key, {}) }

  /** What msg_lock makes of a new ticket before the activation. */
  function Fresh(me: ServerName, key: EnteringKey, obtention: int, duration: int, unlockDuration: int,
      last: nat): Record {
    ReadyAlone(NumberedAlone(NewRecord(me, key, obtention, duration, unlockDuration), last), key)
  }

  function Lease(duration: int, unlockDuration: int): int {
    var lock := Clamp(duration, UNLOCK_MINIMUM_TIMEOUT, MAXIMUM_TIMEOUT);
    lock + UnlockDuration(unlockDuration, lock)
  }

  lemma FreshWaits(me: ServerName, key: EnteringKey, obtention: int, duration: int, unlockDuration: int, last: nat)
    ensures var r := Fresh(me, key, obtention, duration, unlockDuration, last);
            && Waiting(r, me) && r.progress.number == last + 1
            && PlaceOf(r) == Place(key, obtention, Lease(duration, unlockDuration), false)
            && r.sent == [SentLockEntering, SentGetMaxTicket, SentAddTicket, SentLockExiting, SentTicketReady]
  {
    var numbered := NumberedAlone(NewRecord(me, key, obtention, duration, unlockDuration), last);
    assert numbered.progress.number == last + 1;
    var quorate := ReachQuorum(numbered, {key});
    assert quorate.progress.still - {key} - {} == {};
  }

  lemma AddedQueue(row: seq<Record>, r: Record, me: ServerName, now: int)
    requires QueueRow(row, me) && Waiting(r, me) && r.progress.number == LastNumber(row) + 1
    ensures QueueRow(HeadActivated(row + [r], me, now, true), me)
    ensures QueueOf(HeadActivated(row + [r], me, now, true)) == Granted(QueueOf(row) + [PlaceOf(r)], now)
  {
    assert AlmostQueue(row + [r], me);
    ActivatedQueue(row + [r], me, now);
    ActivatedIsGranted(row + [r], me, now);
    QueueOfMore(row, r);
  }

  lemma RemovedQueue(row: seq<Record>, i: nat, me: ServerName)
    requires QueueRow(row, me) && i < |row|
    ensures AlmostQueue(row[..i] + row[i + 1..], me)
    ensures QueueOf(row[..i] + row[i + 1..]) == QueueOf(row)[..i] + QueueOf(row)[i + 1..]
  {
  }

  // ---------- the daemon ----------

  /** A LOCK whose parameters are not refused at once, an UNLOCK, or the timer. */
  datatype Request =
    | LockRequest(objectName: string, key: EnteringKey, obtention: int, duration: int, unlockDuration: int)
    | UnlockRequest(objectName: string, key: EnteringKey)
    | TimerRings

  function RowAt(table: TableValues, o: string): seq<Record> { if o in table then table[o] else [] }

  function QueueAt(table: TableValues, o: string): Queue { QueueOf(RowAt(table, o)) }

  /** msg_lock creates a ticket in this cleaned row: the date is not past and the client has no ticket yet. */
  predicate Accepts(clean: seq<Record>, e: Request, now: int)
    requires e.LockRequest?
  {
    now < e.obtention && FifoLock.Find(QueueOf(clean), e.key) == |clean|
  }

  /** The row that LOCK leaves, when the number does not overflow. */
  function LockedRow(row: seq<Record>, me: ServerName, e: Request, now: int): seq<Record>
    requires e.LockRequest?
  {
    var clean := Cleaned(row, me, now, true);
    if Accepts(clean, e, now)
    then HeadActivated(clean + [Fresh(me, e.key, e.obtention, e.duration, e.unlockDuration, LastNumber(clean))],
                       me, now, true)
    else clean
  }

  /** The row that UNLOCK leaves. */
  function UnlockedRow(row: seq<Record>, me: ServerName, key: EnteringKey, now: int): seq<Record> {
    var i := FifoLock.Find(QueueOf(row), key);
    if i < |row| then FirstActivated(row[..i] + row[i + 1..], me, now, true) else Cleaned(row, me, now, true)
  }

  /** What a request makes of the row of `o`. */
  function RowAfter(row: seq<Record>, me: ServerName, e: Request, o: string, now: int): seq<Record> {
    if e.LockRequest? && e.objectName == o then LockedRow(row, me, e, now)
    else if e.UnlockRequest? && e.objectName == o then UnlockedRow(row, me, e.key, now)
    else Cleaned(row, me, now, true)
  }

  function Objects(e: Request): set<string> { if e.TimerRings? then {} else {e.objectName} }

  /** The ticket table after a request; no row is empty. */
  function After(table: TableValues, me: ServerName, e: Request, now: int): TableValues {
    map o | o in table.Keys + Objects(e) && RowAfter(RowAt(table, o), me, e, o, now) != [] :: RowAfter(RowAt(table, o),
        me, e, o, now)
  }

  predicate Queues(table: TableValues, me: ServerName) {
    forall o :: o in table ==> table[o] != [] && QueueRow(table[o], me)
  }

  /** What a request means for the queue of `o`. */
  function EventAt(e: Request, o: string): FifoLock.Event {
    match e
    case LockRequest(p, key, obtention, duration, unlockDuration) =>
      if p == o then FifoLock.Lock(key, obtention, Lease(duration, unlockDuration)) else FifoLock.Tick
    case UnlockRequest(p, key) => if p == o then FifoLock.Unlock(key) else FifoLock.Tick
    case TimerRings => FifoLock.Tick
  }

  lemma LockedRowSteps(row: seq<Record>, me: ServerName, e: Request, now: int)
    requires e.LockRequest? && QueueRow(row, me)
    ensures QueueRow(LockedRow(row, me, e, now), me)
    ensures QueueOf(LockedRow(row, me, e, now)) == Step(QueueOf(row), EventAt(e, e.objectName), now)
  {
    var clean := Cleaned(row, me, now, true);
    CleanedIsSettled(row, me, now);
    if Accepts(clean, e, now) {
      var r := Fresh(me, e.key, e.obtention, e.duration, e.unlockDuration, LastNumber(clean));
      FreshWaits(me, e.key, e.obtention, e.duration, e.unlockDuration, LastNumber(clean));
      AddedQueue(clean, r, me, now);
    }
  }

  lemma UnlockedRowSteps(row: seq<Record>, me: ServerName, key: EnteringKey, now: int)
    requires QueueRow(row, me)
    ensures QueueRow(UnlockedRow(row, me, key, now), me)
    ensures QueueOf(UnlockedRow(row, me, key, now)) == Step(QueueOf(row), FifoLock.Unlock(key), now)
  {
    hide QueueRow, FirstActivated, Cleaned, Settled;
    var i := FifoLock.Find(QueueOf(row), key);
    if i < |row| {
      RemovedQueue(row, i, me);
      FirstActivatedIsSettled(row[..i] + row[i + 1..], me, now);
    } else {
      CleanedIsSettled(row, me, now);
    }
  }

  lemma RowRefines(row: seq<Record>, me: ServerName, e: Request, o: string, now: int)
    requires QueueRow(row, me)
    ensures QueueRow(RowAfter(row, me, e, o, now), me)
    ensures QueueOf(RowAfter(row, me, e, o, now)) == Step(QueueOf(row), EventAt(e, o), now)
  {
    if e.LockRequest? && e.objectName == o {
      LockedRowSteps(row, me, e, now);
    } else if e.UnlockRequest? && e.objectName == o {
      UnlockedRowSteps(row, me, e.key, now);
    } else {
      CleanedIsSettled(row, me, now);
    }
  }

  /** One request: the daemon does for every object name what the queue of that name does. */
  lemma RequestRefines(table: TableValues, me: ServerName, e: Request, now: int, o: string)
    requires Queues(table, me)
    ensures Queues(After(table, me, e, now), me)
    ensures QueueAt(After(table, me, e, now), o) == Step(QueueAt(table, o), EventAt(e, o), now)
  {
    forall p | p in After(table, me, e, now) ensures QueueRow(After(table, me, e, now)[p], me) {
      RowRefines(RowAt(table, p), me, e, p, now);
    }
    RowRefines(RowAt(table, o), me, e, o, now);
  }

  /** msg_lock creates a ticket exactly when the queue lets the client in. */
  lemma {:induction false} AcceptsIsEnters(table: TableValues, me: ServerName, e: Request, now: int)
    requires Queues(table, me) && e.LockRequest?
    ensures Accepts(RowAt(CleanedTable(table, me, now, true), e.objectName), e, now)
       <==> FifoLock.Enters(QueueAt(table, e.objectName), EventAt(e, e.objectName), now)
  {
    CleanedAt(table, me, now, e.objectName);
    CleanedIsSettled(RowAt(table, e.objectName), me, now);
  }

  lemma LeasePositive(duration: int, unlockDuration: int)
    ensures Lease(duration, unlockDuration) > 0
  {
  }

  /** The ticket that a LOCK created makes msg_lock refuse the next LOCK of the same client. */
  lemma {:induction false} SecondIsRefused(table: TableValues, me: ServerName, e: Request, second: Request, now: int)
    requires Queues(table, me) && e.LockRequest? && second.LockRequest?
    requires second.objectName == e.objectName && second.key == e.key
    requires Accepts(RowAt(CleanedTable(table, me, now, true), e.objectName), e, now)
    ensures Queues(After(table, me, e, now), me)
    ensures !Accepts(RowAt(CleanedTable(After(table, me, e, now), me, now, true), e.objectName), second, now)
  {
    hide Queues, Accepts, After, CleanedTable, FifoLock.Enters, Step, Lease;
    AcceptsIsEnters(table, me, e, now);
    RequestRefines(table, me, e, now, e.objectName);
    AcceptsIsEnters(After(table, me, e, now), me, second, now);
    LeasePositive(e.duration, e.unlockDuration);
    FifoLock.SecondLock(QueueAt(table, e.objectName), EventAt(e, e.objectName), EventAt(second, e.objectName), now);
  }

  // ---------- what the handlers do to the table ----------

  function WithRowAt(table: TableValues, o: string, row: seq<Record>): TableValues {
    if row == [] then table - {o} else table[o := row]
  }

  lemma CurrentIsCleaned(row: seq<Record>, me: ServerName, now: int)
    requires Current(row, now)
    ensures Cleaned(row, me, now, true) == row
  {
    CurrentIsSwept(row, |row|, me, now);
    assert row[..|row|] == row;
  }

  predicate NoEmptyRow(table: TableValues) { forall o :: o in table ==> table[o] != [] }

  lemma {:induction false} AfterAt(table: TableValues, me: ServerName, e: Request, now: int, o: string)
    ensures RowAt(After(table, me, e, now), o) == RowAfter(RowAt(table, o), me, e, o, now)
        && NoEmptyRow(After(table, me, e, now))
  {
  }

  lemma {:induction false} CleanedAt(table: TableValues, me: ServerName, now: int, o: string)
    ensures RowAt(CleanedTable(table, me, now, true), o) == Cleaned(RowAt(table, o), me, now, true)
    ensures NoEmptyRow(CleanedTable(table, me, now, true))
  {
  }

  lemma {:induction false} SameRows(a: TableValues, b: TableValues)
    requires NoEmptyRow(a) && NoEmptyRow(b) && forall o :: RowAt(a, o) == RowAt(b, o)
    ensures a == b
  {
    forall o ensures (o in a <==> o in b) && (o in a ==> a[o] == b[o]) {
      assert RowAt(a, o) == RowAt(b, o);
    }
  }

  /** The timer, or a request that changes nothing else. */
  lemma {:induction false} CleanedTableIsAfter(table: TableValues, me: ServerName, e: Request, now: int)
    requires !e.TimerRings? ==>
        RowAfter(RowAt(table, e.objectName), me, e, e.objectName, now) ==
        Cleaned(RowAt(table, e.objectName), me, now, true)
    ensures CleanedTable(table, me, now, true) == After(table, me, e, now)
  {
    forall o ensures RowAt(CleanedTable(table, me, now, true), o) == RowAt(After(table, me, e, now), o)
                     && NoEmptyRow(CleanedTable(table, me, now, true)) && NoEmptyRow(After(table, me, e, now)) {
      AfterAt(table, me, e, now, o);
      CleanedAt(table, me, now, o);
    }
    AfterAt(table, me, e, now, "");
    CleanedAt(table, me, now, "");
    SameRows(CleanedTable(table, me, now, true), After(table, me, e, now));
  }

  /** One row is replaced by a row that has nothing to clean, then everything is cleaned. */
  lemma {:induction false} RowThenCleaned(table: TableValues, me: ServerName, e: Request, now: int, row: seq<Record>)
    requires !e.TimerRings? && Current(row, now)
    requires row == RowAfter(RowAt(table, e.objectName), me, e, e.objectName, now)
    ensures CleanedTable(WithRowAt(table, e.objectName, row), me, now, true) == After(table, me, e, now)
  {
    var changed := WithRowAt(table, e.objectName, row);
    CurrentIsCleaned(row, me, now);
    forall o ensures RowAt(CleanedTable(changed, me, now, true), o) == RowAt(After(table, me, e, now), o) {
      AfterAt(table, me, e, now, o);
      CleanedAt(changed, me, now, o);
    }
    AfterAt(table, me, e, now, "");
    CleanedAt(changed, me, now, "");
    SameRows(CleanedTable(changed, me, now, true), After(table, me, e, now));
  }

  /** The table that msg_unlock leaves to cleanup. */
  function DroppedTable(table: TableValues, me: ServerName, o: string, key: EnteringKey, now: int): TableValues {
    var row := RowAt(table, o);
    var i := FifoLock.Find(QueueOf(row), key);
    if i < |row| then WithRowAt(table, o, FirstActivated(row[..i] + row[i + 1..], me, now, true)) else table
  }

  lemma {:induction false} WithRowInvariant(table: TableValues, o: string, row: seq<Record>, me: ServerName)
    requires Queues(table, me) && Sorted(row)
    ensures TableInvariant(WithRowAt(table, o, row)) && TableInvariant(table)
  {
  }

  lemma {:induction false} RemovedIsSettled(row: seq<Record>, i: nat, me: ServerName, now: int)
    requires QueueRow(row, me) && i < |row|
    ensures var rest := FirstActivated(row[..i] + row[i + 1..], me, now, true); Current(rest, now) && Sorted(rest)
  {
    RemovedQueue(row, i, me);
    FirstActivatedIsSettled(row[..i] + row[i + 1..], me, now);
  }

  lemma {:induction false} DroppedIsCurrent(table: TableValues, me: ServerName, o: string, key: EnteringKey, now: int)
    requires Queues(table, me)
    ensures TableInvariant(DroppedTable(table, me, o, key, now))
    ensures CleanedTable(DroppedTable(table, me, o, key, now), me, now, true) == After(table, me,
        UnlockRequest(o, key), now)
  {
    hide CleanedTable, After, FirstActivated, QueueOf, Cleaned;
    var row, e := RowAt(table, o), UnlockRequest(o, key);
    var u, i := UnlockedRow(row, me, key, now), FifoLock.Find(QueueOf(row), key);
    if i < |row| {
      RemovedIsSettled(row, i, me, now);
      assert u == FirstActivated(row[..i] + row[i + 1..], me, now, true);
      assert DroppedTable(table, me, o, key, now) == WithRowAt(table, o, u);
      WithRowInvariant(table, o, u, me);
      RowThenCleaned(table, me, e, now, u);
    } else {
      WithRowInvariant(table, o, [], me);
      CleanedTableIsAfter(table, me, e, now);
    }
  }

  /** A ticket that takes its number in a row of queued tickets is above all of them. */
  lemma {:induction false} NumberedAbove(row: seq<Record>, r: Record, last: nat, key: EnteringKey, me: ServerName)
    requires QueueRow(row, me) && last == LastNumber(row) && FifoLock.Find(QueueOf(row), key) == |row|
    requires !r.progress.getMax && !r.progress.added && !r.progress.quorum
    ensures !NumberedAlone(r, last).progress.quorum
    ensures forall i :: 0 <= i < |row| ==> row[i].progress.ready && row[i].progress.entering != key
                                           && row[i].progress.number < NumberedAlone(r, last).progress.number
  {
    forall i | 0 <= i < |row| ensures row[i].progress.entering != key {
      assert QueueOf(row)[i].key != key;
    }
  }

  /** The row with the new ticket has nothing to clean, so the sweep before the activation does nothing. */
  lemma {:induction false} AddedIsCurrent(clean: seq<Record>, r: Record, me: ServerName, now: int)
    requires Current(clean, now) && !TimedOut(r, now)
    ensures FirstActivated(clean + [r], me, now, true) == HeadActivated(clean + [r], me, now, true)
    ensures Current(HeadActivated(clean + [r], me, now, true), now)
  {
    var row := clean + [r];
    CurrentIsSwept(row, |row|, me, now);
    assert row[..|row|] == row;
    HeadActivatedCurrent(row, me, now, true);
  }

  /** A cleaned table, a new ticket in one row, and the clean ups at the end of msg_lock_exiting
      and of msg_lock. */
  lemma {:induction false} LockedIsAfter(table: TableValues, me: ServerName, e: Request, now: int, row: seq<Record>)
    requires e.LockRequest? && Current(row, now)
    requires row == RowAfter(RowAt(table, e.objectName), me, e, e.objectName, now)
    ensures CleanedTable(WithRowAt(CleanedTable(table, me, now, true), e.objectName, row), me, now,
        true) == After(table, me, e, now)
    ensures CleanedTable(After(table, me, e, now), me, now, true) == After(table, me, e, now)
  {
    var clean := CleanedTable(table, me, now, true);
    var changed, a := WithRowAt(clean, e.objectName, row), After(table, me, e, now);
    CurrentIsCleaned(row, me, now);
    forall o ensures RowAt(CleanedTable(changed, me, now, true), o) == RowAt(a, o)
        && RowAt(CleanedTable(a, me, now, true), o) == RowAt(a, o) {
      AfterAt(table, me, e, now, o);
      CleanedAt(table, me, now, o);
      CleanedAt(changed, me, now, o);
      CleanedAt(a, me, now, o);
      CleanedTwice(RowAt(table, o), me, now, true);
    }
    AfterAt(table, me, e, now, "");
    CleanedAt(changed, me, now, "");
    CleanedAt(a, me, now, "");
    SameRows(CleanedTable(changed, me, now, true), a);
    SameRows(CleanedTable(a, me, now, true), a);
  }

  // ---------- runs ----------

  datatype Timed = Timed(request: Request, now: int)

  /** The table after a sequence of requests. */
  function Ran(table: TableValues, me: ServerName, run: seq<Timed>): TableValues
    decreases |run|
  {
    if run == [] then table else Ran(After(table, me, run[0].request, run[0].now), me, run[1..])
  }

  /** What the requests mean for the queue of `o`. */
  function EventsAt(run: seq<Timed>, o: string): (events: seq<FifoLock.Timed>)
    ensures |events| == |run|
    ensures forall i :: 0 <= i < |run| ==> events[i] == FifoLock.Timed(EventAt(run[i].request, o), run[i].now)
  {
    seq(|run|, i requires 0 <= i < |run| => FifoLock.Timed(EventAt(run[i].request, o), run[i].now))
  }

  /** Over every sequence of LOCK, UNLOCK and timer events the tables are the queues. */
  lemma {:induction false} RunRefinesFifo(table: TableValues, me: ServerName, run: seq<Timed>, o: string)
    requires Queues(table, me)
    ensures Queues(Ran(table, me, run), me)
    ensures QueueAt(Ran(table, me, run), o) == FifoLock.Ran(QueueAt(table, o), EventsAt(run, o))
    decreases |run|
  {
    if run != [] {
      RequestRefines(table, me, run[0].request, run[0].now, o);
      RunRefinesFifo(After(table, me, run[0].request, run[0].now), me, run[1..], o);
      assert EventsAt(run, o)[1..] == EventsAt(run[1..], o);
    }
  }

  /** A daemon that is alone from the start: in every row the first ticket is locked and no
      other one is, so there is one holder and no lost wakeup. */
  lemma OneHolder(me: ServerName, run: seq<Timed>, o: string)
    ensures var row := RowAt(Ran(map[], me, run), o);
            && (forall i :: 0 <= i < |row| ==> (row[i].progress.locked <==> i == 0) && row[i].progress.ready)
            && (forall i, j :: 0 <= i < j < |row| ==> row[i].progress.entering != row[j].progress.entering)
            && (o in Ran(map[], me, run) ==> row != [])
  {
    var row := RowAt(Ran(map[], me, run), o);
    RunRefinesFifo(map[], me, run, o);
    RanProper([], EventsAt(run, o));
    forall i, j | 0 <= i < j < |row| ensures row[i].progress.entering != row[j].progress.entering {
      assert QueueOf(row)[i].key != QueueOf(row)[j].key;
    }
  }

  /** A client that got LOCKED keeps the lock until the unlocked date in that message, unless it
      sends UNLOCK: no timeout removes its ticket before. */
  lemma {:induction false} LeaseIsSafe(me: ServerName, before: seq<Timed>, run: seq<Timed>, o: string, holder: Record)
    requires RowAt(Ran(map[], me, before), o) != [] && holder == RowAt(Ran(map[], me, before), o)[0]
    requires forall i :: 0 <= i < |run| ==>
      run[i].now < holder.unlockedDate && run[i].request != UnlockRequest(o, holder.progress.entering)
    ensures Told(holder) && StillHolds(RowAt(Ran(Ran(map[], me, before), me, run), o), holder)
  {
    RunRefinesFifo(map[], me, before, o);
    RanProper([], EventsAt(before, o));
    HolderKeepsLease(Ran(map[], me, before), me, run, o);
  }

  predicate StillHolds(row: seq<Record>, holder: Record) {
    && row != [] && row[0].progress.locked && row[0].progress.entering == holder.progress.entering
    && row[0].unlockedDate == holder.unlockedDate
  }

  /** The events of the object come before the end of the lease and do not give it up. */
  lemma {:induction false} RunLeavesHolder(run: seq<Timed>, o: string, holder: Record)
    requires forall i :: 0 <= i < |run| ==>
      run[i].now < holder.unlockedDate && run[i].request != UnlockRequest(o, holder.progress.entering)
    requires PlaceOf(holder).granted
    ensures forall i :: 0 <= i < |EventsAt(run, o)| ==>
      EventsAt(run, o)[i].now < PlaceOf(holder).until &&
          EventsAt(run, o)[i].event != FifoLock.Unlock(PlaceOf(holder).key)
  {
    forall i | 0 <= i < |EventsAt(run, o)|
      ensures EventsAt(run, o)[i].now < PlaceOf(holder).until &&
          EventsAt(run, o)[i].event != FifoLock.Unlock(PlaceOf(holder).key)
    {
      assert EventsAt(run, o)[i] == FifoLock.Timed(EventAt(run[i].request, o), run[i].now);
    }
  }

  lemma {:induction false} HolderKeepsLease(table: TableValues, me: ServerName, run: seq<Timed>, o: string)
    requires Queues(table, me) && Proper(QueueAt(table, o)) && RowAt(table, o) != []
    requires forall i :: 0 <= i < |run| ==>
      run[i].now < RowAt(table, o)[0].unlockedDate && run[i].request != UnlockRequest(o,
          RowAt(table, o)[0].progress.entering)
    ensures StillHolds(RowAt(Ran(table, me, run), o), RowAt(table, o)[0])
  {
    var q, events := QueueAt(table, o), EventsAt(run, o);
    assert q[0] == PlaceOf(RowAt(table, o)[0]);
    RunLeavesHolder(run, o, RowAt(table, o)[0]);
    hide Queues, EventsAt, Ran, FifoLock.Ran;
    RunRefinesFifo(table, me, run, o);
    LeaseSafety(q, events);
    SamePlace(RowAt(Ran(table, me, run), o), RowAt(table, o)[0]);
  }

  lemma SamePlace(row: seq<Record>, holder: Record)
    requires QueueOf(row) != [] && QueueOf(row)[0] == PlaceOf(holder) && PlaceOf(holder).granted
    ensures StillHolds(row, holder)
  {
  }
}
