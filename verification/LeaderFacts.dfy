/** Which handler can do what: a change that is seen identifies the message that caused it. */
module LeaderFacts {
  import opened KeyOrder
  import opened TicketProgress
  import opened Leader

  // ---------- ticket objects ----------

  predicate ReachesQuorum(l: Leader, t: TicketKey)
    requires Tabled(l)
  {
    t in l.tickets && l.entering != {} && !l.copies[t.entering].quorum
  }

  function ExitsAs(l: Leader, c: Progress, key: EnteringKey): Progress {
    if key in l.entering && c.Key() in l.tickets then RemoveEntering(c, key, {}) else c
  }

  /** What the message `m` makes of an existing ticket object `k` of leader `me`. */
  ghost function After(me: ServerName, l: Leader, m: Message, k: EnteringKey): Progress
    requires Tabled(l) && k in l.copies
  {
    var c := l.copies[k];
    match m
    case LockEntering(_) => c
    case LockEntered(j) => if k == j && j in l.entering then Entered(c, GetLast(l.tickets)) else c
    case GetMaxTicket(_) => c
    case MaxTicketIs(j, n) => if k == j && j in l.entering then Numbered(c, n) else c
    case AddTicket(t) => if k == t.entering && t !in l.tickets && k in l.entering then SetTicketNumber(c, t.number)
        else c
    case TicketAdded(t) => if ReachesQuorum(l, t)
        then ExitsAs(l, if k == t.entering then Acknowledged(c, l.entering) else c, t.entering) else c
    case LockExiting(j) => ExitsAs(l, c, j)
    case TicketReady(t) => if k == t.entering && t in l.tickets then SetReady(c) else c
    case ActivateLock(t) => if k == t.entering && FindFirst(l.tickets) == FirstKey(t) then Activated(c) else c
    case LockActivated(t, o) => if k == t.entering && o == FirstKey(t) && t in l.tickets then Activated(c) else c
    case DropTicket(_) => c
    case LockFailed(_) => c
  }

  /** The table `d` has of `k` what the message makes of it. */
  ghost predicate HasBecome(d: Leader, me: ServerName, l: Leader, m: Message, k: EnteringKey)
    requires Tabled(l) && k in l.copies
  {
    k in d.copies && d.copies[k] == After(me, l, m, k)
  }

  lemma ExitAfter(all: set<ServerName>, me: ServerName, l: Leader, j: EnteringKey, k: EnteringKey)
    requires Tabled(l) && k in l.copies
    ensures var d := OnLockExiting(all, me, l, j).leader; k in d.copies && d.copies[k] == ExitsAs(l, l.copies[k], j)
    ensures OnLockExiting(all, me, l, j).leader.copies.Keys == l.copies.Keys
  {
  }

  lemma AddedAfter(all: set<ServerName>, me: ServerName, l: Leader, t: TicketKey, k: EnteringKey)
    requires Tabled(l) && k in l.copies
    ensures HasBecome(OnTicketAdded(all, me, l, t).leader, me, l, Message.TicketAdded(t), k)
  {
    if ReachesQuorum(l, t) {
      var l' := l.(copies := l.copies[t.entering := Acknowledged(l.copies[t.entering], l.entering)]);
      ExitAfter(all, me, l', t.entering, k);
    }
  }

  lemma EnteringAfter(me: ServerName, source: ServerName, l: Leader, j: EnteringKey, k: EnteringKey)
    requires Tabled(l) && k in l.copies && j != k
    ensures HasBecome(OnLockEntering(me, source, l, j).leader, me, l, LockEntering(j), k)
  {
  }

  lemma EnteredAfter(all: set<ServerName>, me: ServerName, l: Leader, j: EnteringKey, k: EnteringKey)
    requires Tabled(l) && k in l.copies
    ensures HasBecome(OnLockEntered(all, me, l, j).leader, me, l, LockEntered(j), k)
  {
  }

  lemma NumberedAfter(all: set<ServerName>, me: ServerName, l: Leader, j: EnteringKey, n: nat, k: EnteringKey)
    requires Tabled(l) && k in l.copies
    ensures HasBecome(OnMaxTicket(all, me, l, j, n).leader, me, l, MaxTicketIs(j, n), k)
  {
  }

  lemma AddAfter(me: ServerName, source: ServerName, l: Leader, t: TicketKey, k: EnteringKey)
    requires Tabled(l) && k in l.copies
    ensures HasBecome(OnAddTicket(me, source, l, t).leader, me, l, AddTicket(t), k)
  {
  }

  lemma ReadyAfter(me: ServerName, l: Leader, t: TicketKey, k: EnteringKey)
    requires Tabled(l) && k in l.copies
    ensures HasBecome(OnTicketReady(l, t).leader, me, l, TicketReady(t), k)
  {
  }

  lemma ActivateAfter(me: ServerName, source: ServerName, l: Leader, t: TicketKey, k: EnteringKey)
    requires Tabled(l) && k in l.copies
    ensures HasBecome(OnActivateLock(me, source, l, t).leader, me, l, ActivateLock(t), k)
  {
  }

  lemma ActivatedAfter(me: ServerName, l: Leader, t: TicketKey, other: First, k: EnteringKey)
    requires Tabled(l) && k in l.copies
    ensures HasBecome(OnLockActivated(me, l, t, other).leader, me, l, LockActivated(t, other), k)
  {
  }

  lemma DropAfter(all: set<ServerName>, me: ServerName, l: Leader, t: TicketKey, k: EnteringKey)
    requires Tabled(l) && k in l.copies
    ensures HasBecome(OnDropTicket(all, me, l, t).leader, me, l, DropTicket(t), k)
  {
  }

  lemma FailedAfter(all: set<ServerName>, me: ServerName, l: Leader, t: TicketKey, k: EnteringKey)
    requires Tabled(l) && k in l.copies
    ensures HasBecome(OnLockFailed(all, me, l, t).leader, me, l, LockFailed(t), k)
  {
  }

  lemma CopyAfter(all: set<ServerName>, l: Leader, p: Packet, k: EnteringKey)
    requires Tabled(l) && k in l.copies
    requires !(p.message.LockEntering? && p.message.key == k)
    ensures var d := Handle(all, l, p).leader; k in d.copies && d.copies[k] == After(p.target, l, p.message, k)
  {
    hide Tabled, ExitsAs, OnLockEntering, OnLockEntered, OnMaxTicket, OnAddTicket, OnTicketAdded, OnLockExiting,
         OnTicketReady, OnActivateLock, OnLockActivated, OnDropTicket, OnLockFailed;
    var me, from := p.target, p.source;
    match p.message
    case LockEntering(j) => EnteringAfter(me, from, l, j, k);
    case LockEntered(j) => EnteredAfter(all, me, l, j, k);
    case GetMaxTicket(_) =>
    case MaxTicketIs(j, n) => NumberedAfter(all, me, l, j, n, k);
    case AddTicket(t) => AddAfter(me, from, l, t, k);
    case TicketAdded(t) => AddedAfter(all, me, l, t, k);
    case LockExiting(j) => ExitAfter(all, me, l, j, k);
    case TicketReady(t) => ReadyAfter(me, l, t, k);
    case ActivateLock(t) => ActivateAfter(me, from, l, t, k);
    case LockActivated(t, other) => ActivatedAfter(me, l, t, other, k);
    case DropTicket(t) => DropAfter(all, me, l, t, k);
    case LockFailed(t) => FailedAfter(all, me, l, t, k);
  }

  lemma AfterNumbering(me: ServerName, l: Leader, m: Message, k: EnteringKey)
    requires Tabled(l) && k in l.copies && !l.copies[k].getMax && After(me, l, m, k).getMax
    ensures m == LockEntered(k) && StartsNumbering(l, k)
    ensures After(me, l, m, k) == Entered(l.copies[k], GetLast(l.tickets))
  {
  }

  lemma AfterAdded(me: ServerName, l: Leader, m: Message, k: EnteringKey)
    requires Tabled(l) && k in l.copies && !l.copies[k].added && After(me, l, m, k).added
    ensures k == m.Entering() && k in l.entering && (m.MaxTicketIs? || m.AddTicket?)
    ensures m.MaxTicketIs? ==> After(me, l, m, k) == Numbered(l.copies[k], m.number)
  {
  }

  lemma AfterQuorum(me: ServerName, l: Leader, m: Message, k: EnteringKey)
    requires Tabled(l) && k in l.copies && !l.copies[k].quorum && After(me, l, m, k).quorum
    ensures m.TicketAdded? && m.ticket.entering == k && ReachesQuorum(l, m.ticket)
    ensures After(me, l, m, k) == ExitsAs(l, Acknowledged(l.copies[k], l.entering), k)
  {
  }

  /** A ticket stops waiting for `j` when `j` leaves the entering table. */
  lemma AfterStill(all: set<ServerName>, l: Leader, p: Packet, k: EnteringKey, j: EnteringKey)
    requires Tabled(l) && k in l.copies && l.copies[k].quorum && j in l.copies[k].still
    requires j !in After(p.target, l, p.message, k).still
    ensures j !in Handle(all, l, p).leader.entering
  {
    match p.message
    case LockExiting(i) => ExitsStill(l, l.copies[k], i, j);
    case TicketAdded(t) => AddedStill(p.target, l, t, k, j);
    case _ => OtherStill(p.target, l, p.message, k);
  }

  lemma ExitsStill(l: Leader, c: Progress, i: EnteringKey, j: EnteringKey)
    requires j in c.still && j !in ExitsAs(l, c, i).still
    ensures i == j && i in l.entering
  {
  }

  lemma AddedStill(me: ServerName, l: Leader, t: TicketKey, k: EnteringKey, j: EnteringKey)
    requires Tabled(l) && k in l.copies && l.copies[k].quorum && j in l.copies[k].still
    requires j !in After(me, l, Message.TicketAdded(t), k).still
    ensures t.entering == j && ReachesQuorum(l, t)
  {
  }

  lemma OtherStill(me: ServerName, l: Leader, m: Message, k: EnteringKey)
    requires Tabled(l) && k in l.copies && l.copies[k].quorum && !m.LockExiting? && !m.TicketAdded?
    ensures After(me, l, m, k).still == l.copies[k].still
  {
  }

  /** The waiting list taken at the quorum is the entering table, without the ticket itself. */
  lemma AfterQuorumStill(all: set<ServerName>, l: Leader, p: Packet, k: EnteringKey, j: EnteringKey)
    requires Tabled(l) && k in l.copies && !l.copies[k].quorum && After(p.target, l, p.message, k).quorum
    requires j != k && j !in After(p.target, l, p.message, k).still
    ensures j !in Handle(all, l, p).leader.entering
  {
    AfterQuorum(p.target, l, p.message, k);
  }

  /** The number a ticket has before it is added only changes when the numbering starts. */
  lemma AfterNumber(me: ServerName, l: Leader, m: Message, k: EnteringKey)
    requires Tabled(l) && k in l.copies && l.copies[k].getMax && !After(me, l, m, k).added
    ensures After(me, l, m, k).number == l.copies[k].number
  {
  }

  /** New ticket objects come from LOCK_ENTERING only. */
  lemma NewCopies(all: set<ServerName>, l: Leader, p: Packet, k: EnteringKey)
    requires Tabled(l) && k in Handle(all, l, p).leader.copies && k !in l.copies
    ensures p.message.LockEntering? && k == p.message.key && k !in l.entering
    ensures Handle(all, l, p).leader.copies[k] == NewTicket(p.source, k)
  {
    match p.message
    case LockEntering(_) =>
    case TicketAdded(_) =>
    case _ =>
  }

  lemma UnlockLeader(all: set<ServerName>, me: ServerName, l: Leader, t: TicketKey)
    requires Tabled(l) && t in l.tickets
    ensures OnUnlock(all, me, l, t).leader
            == l.(tickets := l.tickets - {t}, copies := l.copies[t.entering := Failed(l.copies[t.entering])])
    ensures OnUnlock(all, me, l, t).released == {t.entering} && OnUnlock(all, me, l, t).locked == {}
  {
  }

  // ---------- table entries ----------

  lemma NewTickets(all: set<ServerName>, l: Leader, p: Packet, t: TicketKey)
    requires Tabled(l) && t in Handle(all, l, p).leader.tickets && t !in l.tickets
    ensures p.message.Entering() == t.entering && t.entering in l.entering
    ensures p.message == AddTicket(t) || (p.message.MaxTicketIs? && !l.copies[t.entering].added)
  {
  }

  lemma NewEntering(all: set<ServerName>, l: Leader, p: Packet, k: EnteringKey)
    requires Tabled(l) && k in Handle(all, l, p).leader.entering && k !in l.entering
    ensures p.message == LockEntering(k)
  {
  }

  /** An entering entry ends by LOCK_EXITING, by the owner's quorum or by DROP_TICKET. */
  lemma LostEntering(all: set<ServerName>, l: Leader, p: Packet, k: EnteringKey)
    requires Tabled(l) && k in l.entering && k !in Handle(all, l, p).leader.entering
    ensures p.message.Entering() == k
    ensures p.message.LockExiting? || p.message.DropTicket?
        || (p.message.TicketAdded? && ReachesQuorum(l, p.message.ticket))
  {
  }

  // ---------- messages sent ----------

  ghost predicate Activates(d: Leader, t: TicketKey) {
    FindFirst(d.tickets) == FirstKey(t) && t.entering in d.copies && CanLock(d.copies[t.entering])
  }

  /** Why leader `l`, becoming `d` on the packet `p`, sends `q`. */
  ghost predicate Sends(l: Leader, d: Leader, p: Packet, q: Packet)
    requires Tabled(l)
  {
    && q.source == p.target
    && match q.message
       case LockEntering(_) => false
       case LockEntered(k) => p.message == LockEntering(k) && q.target == p.source
       case GetMaxTicket(k) => p.message == LockEntered(k) && StartsNumbering(l, k)
       case MaxTicketIs(k, n) => p.message == GetMaxTicket(k) && q.target == p.source && n == GetLast(l.tickets)
       case AddTicket(t) => p.message.MaxTicketIs? && p.message.key == t.entering && t.entering in l.entering
           && !l.copies[t.entering].added
       case TicketAdded(t) => p.message == AddTicket(t) && q.target == p.source
       case LockExiting(k) => p.message.TicketAdded? && p.message.ticket.entering == k
           && ReachesQuorum(l, p.message.ticket)
       case TicketReady(_) => p.message.TicketAdded? || p.message.LockExiting?
       case ActivateLock(t) => Activates(d, t)
       case LockActivated(t, o) => p.message == ActivateLock(t) && q.target == p.source && o == FindFirst(l.tickets)
       case DropTicket(_) => false
       case LockFailed(t) => p.message == AddTicket(t) && q.target == p.source
  }

  lemma ActivationSends(all: set<ServerName>, me: ServerName, l: Leader, q: Packet)
    requires Tabled(l) && q in ActivateFirst(all, me, l)
    ensures q.source == me && q.message.ActivateLock? && Activates(l, q.message.ticket)
  {
  }

  lemma ExitSends(all: set<ServerName>, me: ServerName, l: Leader, j: EnteringKey, q: Packet)
    requires Tabled(l) && q in OnLockExiting(all, me, l, j).out
    ensures q.source == me
    ensures q.message.TicketReady? || (q.message.ActivateLock?
        && Activates(OnLockExiting(all, me, l, j).leader, q.message.ticket))
  {
    var d := OnLockExiting(all, me, l, j).leader;
    if q in Readied(all, me, l, j) {
    } else {
      ActivationSends(all, me, d, q);
    }
  }

  lemma AddedSends(all: set<ServerName>, l: Leader, p: Packet, q: Packet)
    requires Tabled(l) && p.message.TicketAdded? && q in OnTicketAdded(all, p.target, l, p.message.ticket).out
    ensures Sends(l, OnTicketAdded(all, p.target, l, p.message.ticket).leader, p, q)
  {
    var t := p.message.ticket;
    var l' := l.(copies := l.copies[t.entering := Acknowledged(l.copies[t.entering], l.entering)]);
    if q in Broadcast(all, p.target, LockExiting(t.entering)) {
    } else {
      ExitSends(all, p.target, l', t.entering, q);
    }
  }

  lemma RemovalSends(all: set<ServerName>, l: Leader, p: Packet, q: Packet)
    requires Tabled(l) && (p.message.DropTicket? || p.message.LockFailed?) && q in Handle(all, l, p).out
    ensures Sends(l, Handle(all, l, p).leader, p, q)
  {
    ActivationSends(all, p.target, l.(tickets := l.tickets - {p.message.ticket}), q);
  }

  lemma OutSends(all: set<ServerName>, l: Leader, p: Packet, q: Packet)
    requires Tabled(l) && q in Handle(all, l, p).out
    ensures Sends(l, Handle(all, l, p).leader, p, q)
  {
    match p.message
    case TicketAdded(_) => AddedSends(all, l, p, q);
    case LockExiting(j) => ExitSends(all, p.target, l, j, q);
    case DropTicket(_) => RemovalSends(all, l, p, q);
    case LockFailed(_) => RemovalSends(all, l, p, q);
    case _ =>
  }

  /** ADD_TICKET goes out once to each leader. */
  lemma AddTicketOnce(all: set<ServerName>, l: Leader, p: Packet, q: Packet)
    requires Tabled(l) && q in Handle(all, l, p).out && q.message.AddTicket?
    ensures Handle(all, l, p).out[q] == 1
  {
    OutSends(all, l, p, q);
  }

  // ---------- the client's LOCKED ----------

  /** LOCKED is sent by the owner, when the ticket can be locked and either is the first of
      the owner's table now or was reported first in a LOCK_ACTIVATED. */
  lemma LockedBecause(all: set<ServerName>, l: Leader, p: Packet, k: EnteringKey)
    requires Tabled(l) && k in Handle(all, l, p).locked
    ensures k in l.copies && CanLock(l.copies[k]) && l.copies[k].owner == p.target
    ensures p.message.ActivateLock? || p.message.LockActivated?
    ensures p.message.ticket.entering == k && p.message.ticket in l.tickets
    ensures p.message.ActivateLock? ==> FindFirst(l.tickets) == FirstKey(p.message.ticket)
    ensures p.message.LockActivated? ==> p.message.other == FirstKey(p.message.ticket)
  {
  }

  // ---------- questions and answers ----------

  /** Every question gets its answer: LOCK_ENTERED, the largest number, TICKET_ADDED or LOCK_FAILED, and the first
      ticket.  TICKET_ADDED answers the ADD_TICKET of a ticket that is entering and not listed yet, and then it is. */
  lemma EveryQuestionIsAnswered(all: set<ServerName>, l: Leader, p: Packet)
    requires Tabled(l)
    ensures var e, me, from := Handle(all, l, p), p.target, p.source;
            match p.message
            case LockEntering(k) => Packet(me, from, LockEntered(k)) in e.out && k in e.leader.entering
            case GetMaxTicket(k) => Packet(me, from, MaxTicketIs(k, GetLast(l.tickets))) in e.out
            case AddTicket(t) =>
              && (t in e.leader.tickets <==> t in l.tickets || t.entering in l.entering)
              && (Packet(me, from, Message.TicketAdded(t)) in e.out <==> t !in l.tickets && t.entering in l.entering)
              && (Packet(me, from, LockFailed(t)) in e.out <==> t in l.tickets || t.entering !in l.entering)
            case ActivateLock(t) => Packet(me, from, LockActivated(t, FindFirst(l.tickets))) in e.out
            case _ => true
  {
  }

  /** A ticket that another leader refused, or that was dropped, is in no table any more, and the next one may be
      activated. */
  lemma RefusedLeaves(all: set<ServerName>, l: Leader, p: Packet, t: TicketKey)
    requires Tabled(l) && (p.message == LockFailed(t) || p.message == DropTicket(t))
    ensures var e := Handle(all, l, p);
            && e.leader.tickets == l.tickets - {t} && t !in e.leader.tickets
            && e.leader.entering == (if p.message.DropTicket? then l.entering - {t.entering} else l.entering)
            && (t in l.tickets || p.message.DropTicket? ==> e.out == ActivateFirst(all, p.target, e.leader))
            && (p.message == LockFailed(t) && t in l.tickets ==> e.released == {t.entering})
  {
  }
}
