/** The life of one ticket at its owner: exactly which messages its calls and the clock make it send,
    and when it ends.  TicketTrace bounds the messages from above; this is the other half. */
module TicketHistory {
  import opened Basics
  import opened KeyOrder
  import opened TicketProgress
  import opened TicketRecord
  import opened TicketTrace

  // ---------- dates ----------

  /** The alive timeout that the last ALIVE set, within its bounds; 0 when there was none. */
  function LastAlive(events: seq<Event>, n: nat, obtention: int): int
    requires n <= |events|
  {
    if n == 0 then 0
    else if !events[n - 1].AliveSet? then LastAlive(events, n - 1, obtention)
    else if events[n - 1].timeout < 0 && 0 < obtention then 0
    else if 0 <= events[n - 1].timeout < obtention then events[n - 1].timeout
    else obtention
  }

  /** LOCKED told the client these dates. */
  predicate Told(l: Life, t: int, u: int) { SentLocked(t, u) in l.record.sent }

  /** What the dates and the failure level say about the messages. */
  ghost predicate Dated(first: Life, l: Life, alive: int) {
    var r := l.record;
    && r.alive == alive && r.obtention == first.record.obtention
    && r.lockDuration == first.record.lockDuration && r.unlockDuration == first.record.unlockDuration
    && (forall t, u :: Told(l, t, u) ==> r.progress.locked && t + r.unlockDuration == u == r.unlockedDate)
    && (!l.erased ==> match r.failure
                      case NoFailure => SentUnlocking !in r.sent
                          && (r.progress.locked ==> r.lockDate + r.unlockDuration == r.unlockedDate)
                      case LockFailure => SentUnlocking in r.sent && r.progress.locked && r.lockDate == r.unlockedDate
                      case UnlockingFailure => false)
  }

  function AliveAfter(l: Life, e: Event): int {
    if e.AliveSet? then AliveTimeout(l.record, e.timeout) else l.record.alive
  }

  lemma NextDated(me: ServerName, first: Life, l: Life, e: Event)
    requires Traced(me, l) && Dated(first, l, l.record.alive) && Possible(l, e)
    ensures Dated(first, Next(me, l, e), AliveAfter(l, e))
  {
    hide ProperTrace, Has, Paced;
    var r, d := l.record, Next(me, l, e);
    forall t, u | Told(d, t, u)
      ensures d.record.progress.locked && t + d.record.unlockDuration == u == d.record.unlockedDate
    {
      assert Told(l, t, u) ==> r.progress.locked;
    }
  }

  lemma AliveIsLast(first: Life, l: Life, events: seq<Event>, n: nat)
    requires 0 < n <= |events| && Dated(first, l, LastAlive(events, n - 1, first.record.obtention))
    ensures l.record.alive == LastAlive(events, n - 1, first.record.obtention)
    ensures AliveAfter(l, events[n - 1]) == LastAlive(events, n, first.record.obtention)
  {
  }

  lemma {:induction false} AfterDated(me: ServerName, first: Life, events: seq<Event>, n: nat)
    requires n <= |events| && Follows(me, first, events) && Traced(me, first) && Dated(first, first, 0)
    ensures var l := After(me, first, events, n);
            Traced(me, l) && Dated(first, l, LastAlive(events, n, first.record.obtention))
  {
    hide Traced, Dated, Possible, Next, AliveAfter, LastAlive, Follows;
    AfterTraced(me, first, events, n);
    if n == 0 {
      NoAlive(events, first.record.obtention);
    } else {
      AfterDated(me, first, events, n - 1);
      LastPossible(me, first, events, n);
      AliveIsLast(first, After(me, first, events, n - 1), events, n);
      NextDated(me, first, After(me, first, events, n - 1), events[n - 1]);
    }
  }

  lemma LastPossible(me: ServerName, first: Life, events: seq<Event>, n: nat)
    requires 0 < n <= |events| && Follows(me, first, events)
    ensures Possible(After(me, first, events, n - 1), events[n - 1])
  {
  }

  lemma NoAlive(events: seq<Event>, obtention: int)
    ensures LastAlive(events, 0, obtention) == 0
  {
  }

  lemma NewDated(me: ServerName, key: EnteringKey, obtention: int, duration: int, unlockDuration: int)
    ensures var first := New(me, key, obtention, duration, unlockDuration); Traced(me, first) && Dated(first, first, 0)
  {
  }

  // ---------- the end of a ticket ----------

  /** The clock ends a ticket whose client was told the unlocked date `u` (None: that still waits). */
  predicate Late(now: int, alive: int, date: int) { now >= if alive > 0 then alive else date }

  /** Over every run, with any number of ALIVE: a ticket ends exactly at its UNLOCK, or at the first clean
      up at or after the date of its last ALIVE or, when there is none, at or after the unlocked date that
      LOCKED told its client; the obtention timeout takes its place before LOCKED. */
  lemma EndsExactly(me: ServerName, key: EnteringKey, obtention: int, duration: int, unlockDuration: int,
      events: seq<Event>, n: nat)
    requires n < |events| && Follows(me, New(me, key, obtention, duration, unlockDuration), events)
    ensures var first := New(me, key, obtention, duration, unlockDuration);
            var l, e, alive := After(me, first, events, n), events[n], LastAlive(events, n, obtention);
            var ends := After(me, first, events, n + 1).erased;
            && (forall t, u :: Told(l, t, u) ==>
                (ends <==> e.Unlocked? || (e.ClockChecked? && Late(e.now, alive, u))))
            && (!Has(l.record.sent, 5) ==>
                (ends <==> e.Unlocked? || (e.ClockChecked? && Late(e.now, alive, obtention))))
  {
    var first := New(me, key, obtention, duration, unlockDuration);
    NewDated(me, key, obtention, duration, unlockDuration);
    AfterDated(me, first, events, n);
    assert Possible(After(me, first, events, n), events[n]);
    hide ProperTrace, Paced, Has;
  }

  // ---------- what each flag says about the messages ----------

  predicate Marked(l: Life) {
    var p, s := l.record.progress, l.record.sent;
    && (p.getMax <==> SentGetMaxTicket in s) && (p.added <==> SentAddTicket in s) &&
        (p.quorum <==> SentLockExiting in s)
    && (p.ready <==> SentTicketReady in s) && (SentDropTicket in s ==> l.erased)
  }

  lemma NextMarked(me: ServerName, l: Life, e: Event)
    requires Marked(l) && Possible(l, e)
    ensures Marked(Next(me, l, e))
  {
    match e
    case ClockChecked(now) => SweepMarked(me, l, now);
    case Unlocked => DropMarked(l);
    case _ =>
  }

  lemma SweepMarked(me: ServerName, l: Life, now: int)
    requires Marked(l) && !l.erased
    ensures Marked(Sweep(l.record, me, now))
  {
    var r, f := l.record, Fail(l.record, me, now);
    if TimedOut(r, now) && |f.sent| > |r.sent| {
      var m := f.sent[|r.sent|];
      assert f.sent == r.sent + [m] && (f.progress == Failed(r.progress) || f.progress == r.progress);
    }
  }

  lemma DropMarked(l: Life)
    requires Marked(l)
    ensures Marked(Life(Drop(l.record), true))
  {
  }

  lemma {:induction false} AfterMarked(me: ServerName, first: Life, events: seq<Event>, n: nat)
    requires n <= |events| && Follows(me, first, events) && Marked(first)
    ensures Marked(After(me, first, events, n))
  {
    hide Marked, Possible, Next;
    if n > 0 {
      AfterMarked(me, first, events, n - 1);
      LastPossible(me, first, events, n);
      NextMarked(me, After(me, first, events, n - 1), events[n - 1]);
    }
  }

  lemma NewMarked(me: ServerName, key: EnteringKey, obtention: int, duration: int, unlockDuration: int)
    ensures Marked(New(me, key, obtention, duration, unlockDuration))
  {
  }

  // ---------- what the client is told at the end ----------

  /** None of the messages that end a ticket. */
  predicate NoEnd(s: seq<Sent>) { SentLockFailed !in s && SentUnlocked !in s && SentDropTicket !in s }

  /** A ticket that the clock ended sent LOCK_FAILED if its client never got LOCKED, and UNLOCKED if it did.  One that
      was unlocked sent DROP_TICKET, and UNLOCKED unless UNLOCKING went out before. */
  predicate ProperEnd(s: seq<Sent>, e: Event) {
    && (e.ClockChecked? || e.Unlocked?)
    && (e.ClockChecked? ==>
        SentDropTicket !in s && (SentLockFailed in s <==> !Has(s, 5)) && (SentUnlocked in s <==> Has(s, 5)))
    && (e.Unlocked? ==>
        SentDropTicket in s && SentLockFailed !in s && (SentUnlocked in s <==> SentUnlocking !in s))
  }

  /** The client hears of every end of its ticket, and of none before. */
  lemma EveryEndIsTold(me: ServerName, key: EnteringKey, obtention: int, duration: int, unlockDuration: int,
      events: seq<Event>, n: nat)
    requires n <= |events| && Follows(me, New(me, key, obtention, duration, unlockDuration), events)
    ensures var l := After(me, New(me, key, obtention, duration, unlockDuration), events, n);
            if l.erased then n > 0 && ProperEnd(l.record.sent, events[n - 1]) else NoEnd(l.record.sent)
  {
    hide Traced, Dated, Marked, Possible, Next, NoEnd, ProperEnd, LastAlive, Follows;
    var first := New(me, key, obtention, duration, unlockDuration);
    NewDated(me, key, obtention, duration, unlockDuration);
    NewMarked(me, key, obtention, duration, unlockDuration);
    AfterDated(me, first, events, n);
    AfterMarked(me, first, events, n);
    if !After(me, first, events, n).erased {
      StillThere(me, first, After(me, first, events, n));
    } else if n > 0 {
      AfterDated(me, first, events, n - 1);
      AfterMarked(me, first, events, n - 1);
      LastPossible(me, first, events, n);
      AliveOf(first, After(me, first, events, n - 1), LastAlive(events, n - 1, obtention));
      LastStep(me, first, After(me, first, events, n - 1), events[n - 1]);
    }
  }

  lemma AliveOf(first: Life, l: Life, alive: int)
    requires Dated(first, l, alive)
    ensures alive == l.record.alive
  {
  }

  lemma StillThere(me: ServerName, first: Life, l: Life)
    requires Traced(me, l) && Marked(l) && !l.erased
    ensures NoEnd(l.record.sent)
  {
  }

  lemma LastStep(me: ServerName, first: Life, l: Life, e: Event)
    requires Traced(me, l) && Dated(first, l, l.record.alive) && Marked(l) && Possible(l, e)
    requires Traced(me, Next(me, l, e))
    ensures Next(me, l, e).erased ==> ProperEnd(Next(me, l, e).record.sent, e)
  {
    hide ProperTrace, Paced, Has;
  }

  /** At this event the lock times out, for the client was told that it would, and it may still acknowledge. */
  predicate TimesOut(l: Life, e: Event, alive: int) {
    && e.ClockChecked? && alive <= 0
    && exists m :: m in l.record.sent && m.SentLocked? && m.timeoutDate <= e.now < m.unlockedDate
  }

  /** The dates that a locked ticket told its client. */
  lemma ToldDates(me: ServerName, first: Life, l: Life) returns (m: Sent)
    requires Traced(me, l) && Dated(first, l, l.record.alive) && l.record.progress.locked
    ensures m in l.record.sent && m.SentLocked? && m.unlockedDate == l.record.unlockedDate
    ensures m.timeoutDate == l.record.unlockedDate - l.record.unlockDuration
  {
    var i :| 0 <= i < |l.record.sent| && Stage(l.record.sent[i]) == 5;
    m := l.record.sent[i];
    assert Told(l, m.timeoutDate, m.unlockedDate);
  }

  lemma NextWarned(me: ServerName, first: Life, l: Life, e: Event)
    requires Traced(me, l) && Dated(first, l, l.record.alive) && Possible(l, e)
    ensures SentUnlocking in Next(me, l, e).record.sent <==>
        SentUnlocking in l.record.sent || TimesOut(l, e, l.record.alive)
  {
    if e.ClockChecked? {
      if l.record.progress.locked {
        var m := ToldDates(me, first, l);
        SweepWarned(me, first, l, e.now, m);
      } else {
        hide ProperTrace, Paced, Has;
        assert forall m :: m in l.record.sent && m.SentLocked? ==> Told(l, m.timeoutDate, m.unlockedDate);
      }
    }
  }

  lemma SweepWarned(me: ServerName, first: Life, l: Life, now: int, m: Sent)
    requires Traced(me, l) && Dated(first, l, l.record.alive) && !l.erased && l.record.progress.locked
    requires m in l.record.sent && m.SentLocked? && m.unlockedDate == l.record.unlockedDate
    requires m.timeoutDate == l.record.unlockedDate - l.record.unlockDuration
    ensures SentUnlocking in Sweep(l.record, me, now).record.sent
       <==> SentUnlocking in l.record.sent || TimesOut(l, ClockChecked(now), l.record.alive)
  {
    hide ProperTrace, Paced, Has;
    forall x | x in l.record.sent && x.SentLocked? ensures x == m {
      assert Told(l, x.timeoutDate, x.unlockedDate);
    }
  }

  /** Over every run: UNLOCKING goes out if and only if, after LOCKED told the client the dates t and u, the daemon
      looked at the clock between t and u, and no ALIVE took the place of these dates. */
  lemma {:induction false} WarnedExactly(me: ServerName, key: EnteringKey, obtention: int, duration: int,
      unlockDuration: int, events: seq<Event>, n: nat)
    requires n <= |events| && Follows(me, New(me, key, obtention, duration, unlockDuration), events)
    ensures var first := New(me, key, obtention, duration, unlockDuration);
            SentUnlocking in After(me, first, events, n).record.sent <==>
            exists i :: 0 <= i < n && TimesOut(After(me, first, events, i), events[i], LastAlive(events, i, obtention))
  {
    hide Traced, Dated, Possible, Next, TimesOut;
    var first := New(me, key, obtention, duration, unlockDuration);
    if n == 0 {
      NothingSent(me, key, obtention, duration, unlockDuration);
    } else {
      WarnedExactly(me, key, obtention, duration, unlockDuration, events, n - 1);
      NewDated(me, key, obtention, duration, unlockDuration);
      AfterDated(me, first, events, n - 1);
      LastPossible(me, first, events, n);
      AliveOf(first, After(me, first, events, n - 1), LastAlive(events, n - 1, obtention));
      NextWarned(me, first, After(me, first, events, n - 1), events[n - 1]);
    }
  }

  lemma NothingSent(me: ServerName, key: EnteringKey, obtention: int, duration: int, unlockDuration: int)
    ensures New(me, key, obtention, duration, unlockDuration).record.sent == []
    ensures New(me, key, obtention, duration, unlockDuration).record.obtention == obtention
  {
  }

  /** The ticket of a client that is alone, up to LOCKED at time 0, and one clock check at `now`. */
  function OneCheck(key: EnteringKey, now: int): seq<Event> {
    [Enter, LockEnteredArrives(0), MaxTicketArrives(0), TicketAddedArrives({key}), EnteringRemoved(key, {}),
     Activated(0), ClockChecked(now)]
  }

  /** A clock check after the lock timed out does not always send UNLOCKING: at or after the unlocked date the ticket
      ends with UNLOCKED at once. */
  lemma LateCheck(me: ServerName, key: EnteringKey, obtention: int, duration: int, unlockDuration: int, now: int)
    ensures var first, events := New(me, key, obtention, duration, unlockDuration), OneCheck(key, now);
            var t := first.record.lockDuration;
            var u, s := t + first.record.unlockDuration, After(me, first, events, 7).record.sent;
            && Follows(me, first, events) && Told(After(me, first, events, 6), t, u)
            && (SentUnlocking in s <==> t <= now < u) && (SentUnlocked in s <==> u <= now)
  {
    var first, events := New(me, key, obtention, duration, unlockDuration), OneCheck(key, now);
    var t := first.record.lockDuration;
    var u := t + first.record.unlockDuration;
    LockedAtZero(me, key, obtention, duration, unlockDuration, now);
    var r := After(me, first, events, 6).record;
    assert After(me, first, events, 7) == Sweep(r, me, now);
    hide After, Follows;
  }

  lemma LockedAtZero(me: ServerName, key: EnteringKey, obtention: int, duration: int, unlockDuration: int, now: int)
    ensures var first, events := New(me, key, obtention, duration, unlockDuration), OneCheck(key, now);
            var l, t := After(me, first, events, 6), first.record.lockDuration;
            var u := t + first.record.unlockDuration;
            && Follows(me, first, events) && !l.erased && l.record.progress.locked && l.record.failure.NoFailure?
            && l.record.alive == 0 && l.record.lockDate == t && l.record.unlockDuration == first.record.unlockDuration
            && l.record.progress.owner == me && l.record.sent == [SentLockEntering, SentGetMaxTicket, SentAddTicket,
                SentLockExiting, SentTicketReady, SentLocked(t, u)]
  {
    var first, events := New(me, key, obtention, duration, unlockDuration), OneCheck(key, now);
    var l0 := After(me, first, events, 0);
    var l1 := After(me, first, events, 1);
    var l2 := After(me, first, events, 2);
    var l3 := After(me, first, events, 3);
    var l4 := After(me, first, events, 4);
    var l5 := After(me, first, events, 5);
    var l6 := After(me, first, events, 6);
    assert l0 == first && l1 == Next(me, l0, events[0]) && l2 == Next(me, l1, events[1]) &&
        l3 == Next(me, l2, events[2]);
    assert l4 == Next(me, l3, events[3]) && l5 == Next(me, l4, events[4]) && l6 == Next(me, l5, events[5]);
    assert l4.record.progress.still == {key} && {key} - {key} - {} == {};
    forall n | 0 <= n < |events| ensures Possible(After(me, first, events, n), events[n]) {
      assert n in {0, 1, 2, 3, 4, 5, 6};
    }
  }

  // ---------- the bakery messages ----------

  predicate AnyEntered(events: seq<Event>, n: nat)
    requires n <= |events|
  {
    exists i :: 0 <= i < n && events[i].LockEnteredArrives?
  }

  predicate AnyNumber(events: seq<Event>, n: nat)
    requires n <= |events|
  {
    exists i :: 0 <= i < n && events[i].MaxTicketArrives?
  }

  predicate AnyAdded(events: seq<Event>, n: nat)
    requires n <= |events|
  {
    exists i :: 0 <= i < n && events[i].TicketAddedArrives?
  }

  lemma NextAsks(me: ServerName, l: Life, e: Event)
    requires Marked(l) && Possible(l, e)
    ensures var s, d := l.record.sent, Next(me, l, e).record.sent;
            && (SentGetMaxTicket in d <==> SentGetMaxTicket in s || e.LockEnteredArrives?)
            && (SentAddTicket in d <==> SentAddTicket in s || e.MaxTicketArrives?)
            && (SentLockExiting in d <==> SentLockExiting in s || e.TicketAddedArrives?)
  {
    if e.ClockChecked? {
      SweepAsks(me, l, e.now);
    }
  }

  lemma SweepAsks(me: ServerName, l: Life, now: int)
    ensures forall m :: m in Sweep(l.record, me, now).record.sent ==>
              m in l.record.sent || m in {SentLockFailed, SentUnlocking, SentUnlocked}
    ensures forall m :: m in l.record.sent ==> m in Sweep(l.record, me, now).record.sent
  {
  }

  /** Over every run: the owner asks for the largest number, adds its ticket and exits if and only if it got the
      answer that each of these messages waits for. */
  lemma {:induction false} AnswersAreActedOn(me: ServerName, key: EnteringKey, obtention: int, duration: int,
      unlockDuration: int, events: seq<Event>, n: nat)
    requires n <= |events| && Follows(me, New(me, key, obtention, duration, unlockDuration), events)
    ensures var s := After(me, New(me, key, obtention, duration, unlockDuration), events, n).record.sent;
            && (SentGetMaxTicket in s <==> AnyEntered(events, n)) && (SentAddTicket in s <==> AnyNumber(events, n))
            && (SentLockExiting in s <==> AnyAdded(events, n))
  {
    hide Marked, Possible, Next, Follows;
    var first := New(me, key, obtention, duration, unlockDuration);
    if n == 0 {
      NothingSent(me, key, obtention, duration, unlockDuration);
    } else {
      AnswersAreActedOn(me, key, obtention, duration, unlockDuration, events, n - 1);
      NewMarked(me, key, obtention, duration, unlockDuration);
      AfterMarked(me, first, events, n - 1);
      LastPossible(me, first, events, n);
      NextAsks(me, After(me, first, events, n - 1), events[n - 1]);
    }
  }

  /** At this event the owner may lock its ticket. */
  predicate Locks(l: Life, e: Event) { e.Activated? && SentTicketReady in l.record.sent && !Has(l.record.sent, 5) }

  lemma NextLocks(me: ServerName, first: Life, l: Life, e: Event)
    requires Traced(me, l) && Dated(first, l, l.record.alive) && Marked(l) && Possible(l, e)
    ensures var d := Next(me, l, e);
            && (forall t, u :: Told(d, t, u) <==>
                Told(l, t, u) || (Locks(l, e) && t == e.now + first.record.lockDuration &&
                    u == t + first.record.unlockDuration))
  {
    hide ProperTrace, Paced, Has;
    if e.ClockChecked? {
      SweepAsks(me, l, e.now);
    }
  }

  /** Over every run: LOCKED goes out if and only if the owner was told that its ticket is first after that was ready;
      the dates in it are the clock at the first such moment plus the lock duration, plus the unlock duration. */
  lemma {:induction false} LockedExactly(me: ServerName, key: EnteringKey, obtention: int, duration: int,
      unlockDuration: int, events: seq<Event>, n: nat, t: int, u: int)
    requires n <= |events| && Follows(me, New(me, key, obtention, duration, unlockDuration), events)
    ensures var first := New(me, key, obtention, duration, unlockDuration);
            Told(After(me, first, events, n), t, u) <==>
              exists i :: 0 <= i < n && Locks(After(me, first, events, i), events[i])
                && t == events[i].now + first.record.lockDuration && u == t + first.record.unlockDuration
  {
    hide Traced, Dated, Marked, Possible, Next, Locks, Follows;
    var first := New(me, key, obtention, duration, unlockDuration);
    if n == 0 {
      NothingSent(me, key, obtention, duration, unlockDuration);
    } else {
      LockedExactly(me, key, obtention, duration, unlockDuration, events, n - 1, t, u);
      NewDated(me, key, obtention, duration, unlockDuration);
      NewMarked(me, key, obtention, duration, unlockDuration);
      AfterDated(me, first, events, n - 1);
      AfterMarked(me, first, events, n - 1);
      LastPossible(me, first, events, n);
      AliveOf(first, After(me, first, events, n - 1), LastAlive(events, n - 1, obtention));
      NextLocks(me, first, After(me, first, events, n - 1), events[n - 1]);
    }
  }

  // ---------- the waiting list ----------

  /** The entering tickets at the moment of the TICKET_ADDED quorum; None before it. */
  function Snapshot(events: seq<Event>, n: nat): Option<set<EnteringKey>>
    requires n <= |events|
  {
    if n == 0 then None
    else if Snapshot(events, n - 1).Some? then Snapshot(events, n - 1)
    else if events[n - 1].TicketAddedArrives? then Some(events[n - 1].entering)
    else None
  }

  /** The keys of the snapshot that left it: by a LOCK_EXITING that found its key there, or because their tickets
      were timed out at such a moment. */
  function Gone(events: seq<Event>, n: nat): set<EnteringKey>
    requires n <= |events|
  {
    if n == 0 then {}
    else
      var so, e := Gone(events, n - 1), events[n - 1];
      if e.EnteringRemoved? && Snapshot(events, n - 1).Some? && e.key in Snapshot(events, n - 1).value - so
      then so + {e.key} + e.expired else so
  }

  /** Nobody of the snapshot is waited for any more. */
  predicate NobodyLeft(events: seq<Event>, n: nat)
    requires n <= |events|
  {
    Snapshot(events, n).Some? && Snapshot(events, n).value != {} && Snapshot(events, n).value <= Gone(events, n)
  }

  predicate Awaits(l: Life, events: seq<Event>, n: nat)
    requires n <= |events|
  {
    var p := l.record.progress;
    && (p.quorum <==> Snapshot(events, n).Some?) && (p.ready <==> NobodyLeft(events, n))
    && (p.quorum ==> p.still == Snapshot(events, n).value - Gone(events, n))
    && (!p.quorum ==> Gone(events, n) == {})
  }

  lemma NextAwaits(me: ServerName, l: Life, events: seq<Event>, n: nat)
    requires 0 < n <= |events| && Awaits(l, events, n - 1) && FlagsInOrder(l.record.progress)
    ensures Awaits(Next(me, l, events[n - 1]), events, n)
  {
    var e, p := events[n - 1], l.record.progress;
    if e.EnteringRemoved? && p.quorum && !p.ready && e.key in p.still {
      assert p.still - {e.key} - e.expired == Snapshot(events, n).value - Gone(events, n);
    }
  }

  lemma {:induction false} AfterAwaits(me: ServerName, key: EnteringKey, obtention: int, duration: int,
      unlockDuration: int, events: seq<Event>, n: nat)
    requires n <= |events| && Follows(me, New(me, key, obtention, duration, unlockDuration), events)
    ensures Awaits(After(me, New(me, key, obtention, duration, unlockDuration), events, n), events, n)
  {
    hide Awaits, Traced, FlagsInOrder, Next, Follows;
    var first := New(me, key, obtention, duration, unlockDuration);
    if n == 0 {
      NobodyAwaited(me, key, obtention, duration, unlockDuration, events);
    } else {
      AfterAwaits(me, key, obtention, duration, unlockDuration, events, n - 1);
      NewTraced(me, key, obtention, duration, unlockDuration);
      AfterTraced(me, first, events, n - 1);
      InOrder(me, After(me, first, events, n - 1));
      NextAwaits(me, After(me, first, events, n - 1), events, n);
    }
  }

  lemma NobodyAwaited(me: ServerName, key: EnteringKey, obtention: int, duration: int, unlockDuration: int,
      events: seq<Event>)
    ensures Awaits(New(me, key, obtention, duration, unlockDuration), events, 0)
  {
  }

  lemma InOrder(me: ServerName, l: Life)
    requires Traced(me, l)
    ensures FlagsInOrder(l.record.progress)
  {
  }

  /** Over every run: TICKET_READY has gone out if and only if each key that was entering at the quorum left or was
      found timed out; so it goes out at the first event after which that is so. */
  lemma ReadyExactly(me: ServerName, key: EnteringKey, obtention: int, duration: int, unlockDuration: int,
      events: seq<Event>, n: nat)
    requires n <= |events| && Follows(me, New(me, key, obtention, duration, unlockDuration), events)
    ensures var l := After(me, New(me, key, obtention, duration, unlockDuration), events, n);
            SentTicketReady in l.record.sent <==> NobodyLeft(events, n)
  {
    NewMarked(me, key, obtention, duration, unlockDuration);
    AfterMarked(me, New(me, key, obtention, duration, unlockDuration), events, n);
    AfterAwaits(me, key, obtention, duration, unlockDuration, events, n);
  }

  // ---------- the messages that may go out more than once ----------

  function Times(s: seq<Sent>, m: Sent): nat {
    if s == [] then 0 else Times(s[..|s| - 1], m) + if s[|s| - 1] == m then 1 else 0
  }

  lemma TimesMore(s: seq<Sent>, x: Sent, m: Sent)
    ensures Times(s + [x], m) == Times(s, m) + if x == m then 1 else 0
  {
    assert (s + [x])[..|s|] == s;
  }

  /** At this event the owner asks whether its ticket, which is ready and not locked, is the first one. */
  predicate Asks(l: Life, e: Event) { e.Activation? && SentTicketReady in l.record.sent && !Has(l.record.sent, 5) }

  /** How often the first `n` events make the owner say that it is entering, and ask for the activation. */
  function Entries(events: seq<Event>, n: nat): nat
    requires n <= |events|
  {
    if n == 0 then 0 else Entries(events, n - 1) + if events[n - 1].Enter? then 1 else 0
  }

  function Questions(me: ServerName, first: Life, events: seq<Event>, n: nat): nat
    requires n <= |events|
  {
    if n == 0 then 0
    else Questions(me, first, events, n - 1) + if Asks(After(me, first, events, n - 1), events[n - 1]) then 1 else 0
  }

  lemma NextRepeats(me: ServerName, l: Life, e: Event)
    requires Traced(me, l) && Marked(l) && Possible(l, e) &&
        (!l.erased && l.record.progress.failed ==> l.record.progress.locked)
    ensures var s, d := l.record.sent, Next(me, l, e).record.sent;
            && Times(d, SentLockEntering) == Times(s, SentLockEntering) + (if e.Enter? then 1 else 0)
            && Times(d, SentActivateLock) == Times(s, SentActivateLock) + (if Asks(l, e) then 1 else 0)
  {
    hide ProperTrace, Paced, Has;
    var s, d := l.record.sent, Next(me, l, e).record.sent;
    if e.Unlocked? {
      TimesBoth(s, SentDropTicket);
      TimesBoth(s + [SentDropTicket], SentUnlocked);
    } else if |d| > |s| {
      assert d == s + [d[|s|]];
      TimesBoth(s, d[|s|]);
    } else {
      assert d == s;
    }
  }

  lemma TimesBoth(s: seq<Sent>, x: Sent)
    ensures Times(s + [x], SentLockEntering) == Times(s, SentLockEntering) + (if x == SentLockEntering then 1 else 0)
    ensures Times(s + [x], SentActivateLock) == Times(s, SentActivateLock) + (if x == SentActivateLock then 1 else 0)
  {
    TimesMore(s, x, SentLockEntering);
    TimesMore(s, x, SentActivateLock);
  }

  lemma FailedIsLocked(first: Life, l: Life, me: ServerName)
    requires Traced(me, l) && Dated(first, l, l.record.alive)
    ensures !l.erased && l.record.progress.failed ==> l.record.progress.locked
  {
  }

  /** Over every run: one LOCK_ENTERING for each call of entering(), and one ACTIVATE_LOCK for each call of
      activate_lock() while the ticket is ready and not locked. */
  lemma {:induction false} RepeatedExactly(me: ServerName, key: EnteringKey, obtention: int, duration: int,
      unlockDuration: int, events: seq<Event>, n: nat)
    requires n <= |events| && Follows(me, New(me, key, obtention, duration, unlockDuration), events)
    ensures var first := New(me, key, obtention, duration, unlockDuration);
            var s := After(me, first, events, n).record.sent;
            && Times(s, SentLockEntering) == Entries(events, n)
            && Times(s, SentActivateLock) == Questions(me, first, events, n)
  {
    hide Traced, Dated, Marked, Possible, Next, Asks, Follows;
    var first := New(me, key, obtention, duration, unlockDuration);
    if n == 0 {
      NothingSent(me, key, obtention, duration, unlockDuration);
    } else {
      RepeatedExactly(me, key, obtention, duration, unlockDuration, events, n - 1);
      NewDated(me, key, obtention, duration, unlockDuration);
      NewMarked(me, key, obtention, duration, unlockDuration);
      AfterDated(me, first, events, n - 1);
      AfterMarked(me, first, events, n - 1);
      LastPossible(me, first, events, n);
      AliveOf(first, After(me, first, events, n - 1), LastAlive(events, n - 1, obtention));
      FailedIsLocked(first, After(me, first, events, n - 1), me);
      NextRepeats(me, After(me, first, events, n - 1), events[n - 1]);
    }
  }

  // ---------- the copies of the other leaders ----------

  /** What the ticket's client is told by its owner. */
  predicate ForClient(m: Sent) { m.SentLocked? || m.SentLockFailed? || m.SentUnlocking? }

  /** The copy of another leader and the ticket of the owner. */
  predicate Copies(copy: Life, l: Life, owner: ServerName) {
    && copy.erased == l.erased && copy.record.(sent := []) == l.record.(sent := []) && l.record.progress.owner == owner
    && (forall m :: m in copy.record.sent ==> !ForClient(m) && m in l.record.sent)
    && (forall m :: m in l.record.sent ==> ForClient(m) || m == SentUnlocked || m in copy.record.sent)
    && (SentUnlocked in copy.record.sent ==> copy.erased)
  }

  lemma SweepCopies(me: ServerName, owner: ServerName, copy: Life, l: Life, now: int)
    requires me != owner && Copies(copy, l, owner) && !copy.erased
    ensures Copies(Sweep(copy.record, me, now), Sweep(l.record, owner, now), owner)
    ensures Sweep(copy.record, me, now).record.sent == copy.record.sent
  {
  }

  lemma NextCopies(me: ServerName, owner: ServerName, copy: Life, l: Life, e: Event)
    requires me != owner && Copies(copy, l, owner) && Possible(copy, e)
    ensures Copies(Next(me, copy, e), Next(owner, l, e), owner) && Possible(l, e)
    ensures SentUnlocked in Next(me, copy, e).record.sent ==> e.Unlocked?
  {
    if e.ClockChecked? {
      SweepCopies(me, owner, copy, l, e.now);
    }
  }

  /** Over every run: what another leader does to its copy is what the owner does to the ticket, except that the client
      hears nothing of it: no LOCKED, UNLOCKING or LOCK_FAILED, and UNLOCKED only in answer to its own UNLOCK. */
  lemma {:induction false} CopiesAreSilent(me: ServerName, owner: ServerName, l: Life, events: seq<Event>, n: nat)
    requires n <= |events| && me != owner && Follows(me, l, events) && !l.erased && l.record.progress.owner == owner
    requires l.record.sent == []
    ensures Copies(After(me, l, events, n), After(owner, l, events, n), owner)
    ensures SentUnlocked in After(me, l, events, n).record.sent ==> n > 0 && events[n - 1].Unlocked?
  {
    if n > 0 {
      CopiesAreSilent(me, owner, l, events, n - 1);
      LastPossible(me, l, events, n);
      hide Copies, Possible, Next, Follows;
      NextCopies(me, owner, After(me, l, events, n - 1), After(owner, l, events, n - 1), events[n - 1]);
    }
  }
}
