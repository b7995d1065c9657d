/** The life of one ticket at its owner: which messages it sends, how often and in which order. */
module TicketTrace {
  import opened KeyOrder
  import opened TicketProgress
  import opened TicketRecord

  /** What the daemon does with a ticket it owns. */
  datatype Event =
    | Enter
    | LockEnteredArrives(last: nat)
    | MaxTicketArrives(number: nat)
    | TicketAddedArrives(entering: set<EnteringKey>)
    | EnteringRemoved(key: EnteringKey, expired: set<EnteringKey>)
    | Activation
    | Activated(now: int)
    | AliveSet(timeout: int)
    | ClockChecked(now: int)
    | Unlocked

  /** An erased ticket gets no call.  MAX_TICKET only answers a GET_MAX_TICKET that did not
      wrap around, and TICKET_ADDED finds the ticket under its key only once it has one. */
  predicate Possible(l: Life, e: Event) {
    && !l.erased
    && match e
       case MaxTicketArrives(n) => l.record.progress.getMax
           && (l.record.progress.added || !WrapsAround(l.record.progress, n))
       case TicketAddedArrives(_) => l.record.progress.added
       case _ => true
  }

  function Next(me: ServerName, l: Life, e: Event): Life {
    var r := l.record;
    match e
    case Enter => Life(StartEntering(r), false)
    case LockEnteredArrives(last) => Life(StartNumbering(r, last), false)
    case MaxTicketArrives(n) => Life(TakeNumber(r, n), false)
    case TicketAddedArrives(entering) => Life(ReachQuorum(r, entering), false)
    case EnteringRemoved(k, expired) => Life(StopWaitingFor(r, k, expired), false)
    case Activation => Life(AskActivation(r), false)
    case Activated(now) => Life(Lock(r, me, now), false)
    case AliveSet(t) => Life(r.(alive := AliveTimeout(r, t)), false)
    case ClockChecked(now) => Sweep(r, me, now)
    case Unlocked => Life(Drop(r), true)
  }

  /** The ticket after the first `n` events. */
  function After(me: ServerName, l: Life, events: seq<Event>, n: nat): Life
    requires n <= |events|
  {
    if n == 0 then l else Next(me, After(me, l, events, n - 1), events[n - 1])
  }

  predicate Follows(me: ServerName, l: Life, events: seq<Event>) {
    forall n :: 0 <= n < |events| ==> Possible(After(me, l, events, n), events[n])
  }

  /** The owner's new ticket. */
  function New(me: ServerName, key: EnteringKey, obtention: int, duration: int, unlockDuration: int): Life {
    Life(NewRecord(me, key, obtention, duration, unlockDuration), false)
  }

  // ---------- what the trace must look like ----------

  /** The bakery messages in the order of the algorithm; 0 for the others. */
  function Stage(m: Sent): nat {
    match m
    case SentGetMaxTicket => 1
    case SentAddTicket => 2
    case SentLockExiting => 3
    case SentTicketReady => 4
    case SentLocked(_, _) => 5
    case _ => 0
  }

  /** Each bakery message at most once, in the order of the algorithm. */
  predicate InStages(sent: seq<Sent>) {
    forall i, j :: 0 <= i < j < |sent| && Stage(sent[i]) > 0 && Stage(sent[j]) > 0 ==> Stage(sent[i]) < Stage(sent[j])
  }

  predicate Has(sent: seq<Sent>, stage: nat) { exists i :: 0 <= i < |sent| && Stage(sent[i]) == stage }

  predicate AtMostOnce(sent: seq<Sent>, m: Sent) {
    forall i, j :: 0 <= i < j < |sent| ==> !(sent[i] == m && sent[j] == m)
  }

  predicate ProperTrace(sent: seq<Sent>) {
    && InStages(sent)
    && !(SentLockFailed in sent && Has(sent, 5))
    && (forall j :: 0 <= j < |sent| && sent[j] == SentUnlocking ==> Has(sent[..j], 5))
    && AtMostOnce(sent, SentUnlocked) && AtMostOnce(sent, SentUnlocking) && AtMostOnce(sent, SentLockFailed)
  }

  // ---------- the invariant ----------

  /** How far the flags say the ticket went. */
  function Reached(p: Progress): nat {
    if p.locked then 5 else if p.ready then 4 else if p.quorum then 3 else if p.added then 2 else if p.getMax then 1
        else 0
  }

  predicate FlagsInOrder(p: Progress) {
    && (p.locked ==> p.ready) && (p.ready ==> p.quorum) && (p.quorum ==> p.added) && (p.added ==> p.getMax)
  }

  predicate Traced(me: ServerName, l: Life) {
    var r, p, s := l.record, l.record.progress, l.record.sent;
    && p.owner == me && FlagsInOrder(p)
    && (p.failed <==> r.failure != NoFailure)
    && Paced(s, Reached(p))
    && (p.locked <==> Has(s, 5))
    && (SentLockFailed in s ==> l.erased)
    && (SentUnlocking in s ==> p.failed)
    && (SentUnlocked in s ==> l.erased)
    && ProperTrace(s)
  }

  predicate Paced(s: seq<Sent>, stage: nat) {
    forall i :: 0 <= i < |s| ==> Stage(s[i]) <= stage
  }

  /** One more message. */
  lemma OneMore(s: seq<Sent>, m: Sent, stage: nat)
    requires ProperTrace(s) && Paced(s, stage)
    requires Stage(m) == 0 || Stage(m) > stage
    requires m in {SentUnlocked, SentUnlocking, SentLockFailed} ==> m !in s
    requires m == SentUnlocking ==> Has(s, 5)
    requires m == SentLockFailed ==> !Has(s, 5)
    requires Stage(m) == 5 ==> SentLockFailed !in s
    ensures ProperTrace(s + [m]) && Paced(s + [m], Max(stage, Stage(m)))
    ensures Has(s + [m], 5) <==> Has(s, 5) || Stage(m) == 5
    ensures forall x :: x in s + [m] <==> x in s || x == m
  {
    var t := s + [m];
    HasMore(s, m);
    StagesMore(s, m, stage);
    OnceMore(s, m, SentUnlocked);
    OnceMore(s, m, SentUnlocking);
    OnceMore(s, m, SentLockFailed);
    forall j | 0 <= j < |t| && t[j] == SentUnlocking ensures Has(t[..j], 5) {
      assert t[..j] == s[..j];
      assert j == |s| ==> t[..j] == s;
    }
  }

  lemma StagesMore(s: seq<Sent>, m: Sent, stage: nat)
    requires InStages(s) && Paced(s, stage) && (Stage(m) == 0 || Stage(m) > stage)
    ensures InStages(s + [m]) && Paced(s + [m], Max(stage, Stage(m)))
  {
  }

  lemma OnceMore(s: seq<Sent>, m: Sent, x: Sent)
    requires AtMostOnce(s, x) && (m == x ==> m !in s)
    ensures AtMostOnce(s + [m], x)
  {
  }

  lemma HasMore(s: seq<Sent>, m: Sent)
    ensures Has(s + [m], 5) <==> Has(s, 5) || Stage(m) == 5
  {
    var t := s + [m];
    if i :| 0 <= i < |s| && Stage(s[i]) == 5 {
      assert Stage(t[i]) == 5;
    }
    if Stage(m) == 5 {
      assert Stage(t[|s|]) == 5;
    }
  }

  // ---------- preservation ----------

  lemma SweepTraced(me: ServerName, l: Life, now: int)
    requires Traced(me, l) && !l.erased
    ensures Traced(me, Sweep(l.record, me, now))
  {
    hide ProperTrace, Has, Paced;
    var r := l.record;
    if TimedOut(r, now) {
      var f := Fail(r, me, now);
      if |f.sent| > |r.sent| {
        var m := f.sent[|r.sent|];
        assert f.sent == r.sent + [m];
        OneMore(r.sent, m, Reached(r.progress));
      } else {
        assert f.sent == r.sent;
      }
    }
  }

  lemma DropTraced(me: ServerName, l: Life)
    requires Traced(me, l) && !l.erased
    ensures Traced(me, Life(Drop(l.record), true))
  {
    var r := l.record;
    OneMore(r.sent, SentDropTicket, Reached(r.progress));
    if r.failure.NoFailure? {
      OneMore(r.sent + [SentDropTicket], SentUnlocked, Reached(r.progress));
    }
  }

  lemma ForwardTraced(me: ServerName, l: Life, e: Event)
    requires Traced(me, l) && Possible(l, e) && !e.ClockChecked? && !e.Unlocked?
    ensures Traced(me, Next(me, l, e))
  {
    var r, d := l.record, Next(me, l, e).record;
    if |d.sent| > |r.sent| {
      var m := d.sent[|r.sent|];
      assert d.sent == r.sent + [m];
      OneMore(r.sent, m, Reached(r.progress));
    } else {
      assert d.sent == r.sent;
    }
  }

  lemma NextTraced(me: ServerName, l: Life, e: Event)
    requires Traced(me, l) && Possible(l, e)
    ensures Traced(me, Next(me, l, e))
  {
    match e
    case ClockChecked(now) => SweepTraced(me, l, now);
    case Unlocked => DropTraced(me, l);
    case _ => ForwardTraced(me, l, e);
  }

  lemma {:induction false} AfterTraced(me: ServerName, l: Life, events: seq<Event>, n: nat)
    requires n <= |events| && Traced(me, l) && Follows(me, l, events)
    ensures Traced(me, After(me, l, events, n))
  {
    hide Traced, Possible, Next;
    if n > 0 {
      AfterTraced(me, l, events, n - 1);
      assert Possible(After(me, l, events, n - 1), events[n - 1]);
      NextTraced(me, After(me, l, events, n - 1), events[n - 1]);
    }
  }

  lemma NewTraced(me: ServerName, key: EnteringKey, obtention: int, duration: int, unlockDuration: int)
    ensures Traced(me, New(me, key, obtention, duration, unlockDuration))
  {
  }

  /** Over every sequence of calls to a ticket and its owner's clock: the bakery messages and
      LOCKED go out at most once each, in order; LOCKED and the ticket's LOCK_FAILED exclude
      each other; UNLOCKING comes after LOCKED; UNLOCKED goes out at most once; and a locked
      ticket is ready. */
  lemma TraceOfOneTicket(me: ServerName, key: EnteringKey, obtention: int, duration: int, unlockDuration: int,
      events: seq<Event>)
    requires Follows(me, New(me, key, obtention, duration, unlockDuration), events)
    ensures var l := After(me, New(me, key, obtention, duration, unlockDuration), events, |events|);
            && ProperTrace(l.record.sent)
            && (l.record.progress.locked ==> l.record.progress.ready)
            && (l.record.progress.locked <==> Has(l.record.sent, 5))
  {
    NewTraced(me, key, obtention, duration, unlockDuration);
    AfterTraced(me, New(me, key, obtention, duration, unlockDuration), events, |events|);
  }

  /** A client that answers UNLOCKING with an UNLOCK never gets an UNLOCKED: drop_ticket only
      sends it when no failure was recorded before. */
  lemma NoAnswerAfterUnlocking(me: ServerName, l: Life)
    requires Traced(me, l) && SentUnlocking in l.record.sent && Possible(l, Unlocked)
    ensures SentUnlocked !in Next(me, l, Unlocked).record.sent
  {
  }
}
