/** Every handler keeps the table and packet invariants; one lemma for each handler. */
module BakerySteps {
  import opened KeyOrder
  import opened TicketProgress
  import opened Leader
  import opened Bakery
  import opened BakeryTables
  import opened BakeryPackets

  /** Before a handler runs on leader `me`, which then changed the system as in `e`. */
  ghost predicate Acting(all: set<ServerName>, s: System, s': System, me: ServerName, e: Effect) {
    && Tables(all, s) && me in all && Applied(s, s', me, e)
    && (forall k :: k in s'.owner ==> k in s.owner || (s'.owner[k] == me && k in s'.leaders[me].copies))
  }

  /** What a handler guarantees. */
  ghost predicate Good(all: set<ServerName>, s: System, s': System, e: Effect) {
    && Evolves(s, s') && Tables(all, s') && Packets(all, s', e.out)
  }

  /** A handler that leaves every ticket object but `k` alone. */
  lemma OneCopyTables(all: set<ServerName>, s: System, s': System, me: ServerName, e: Effect, k: EnteringKey)
    requires Acting(all, s, s', me, e)
    requires LeaderEvolves(s.leaders[me], e.leader, s'.released)
    requires forall j :: j in e.leader.copies && j != k ==>
        j in s.leaders[me].copies && e.leader.copies[j] == s.leaders[me].copies[j]
    requires k in e.leader.copies ==> CopyOk(s', me, e.leader, k)
    requires forall j :: j in e.leader.entering ==> j in e.leader.copies
    requires forall t :: t in e.leader.tickets ==> TicketListed(e.leader, t)
    ensures Evolves(s, s') && Tables(all, s')
  {
    EvolvesHere(s, s', me);
    forall j | j in e.leader.copies ensures CopyOk(s', me, e.leader, j) {
      if j != k {
        CopyKept(all, s, s', me, j);
      }
    }
    TablesKept(all, s, s', me);
  }

  /** A handler that changes no ticket object. */
  lemma NoCopyTables(all: set<ServerName>, s: System, s': System, me: ServerName, e: Effect)
    requires Acting(all, s, s', me, e)
    requires e.leader.copies == s.leaders[me].copies
    requires e.leader.entering <= s.leaders[me].entering && e.leader.tickets <= s.leaders[me].tickets
    requires forall t :: t in s.leaders[me].tickets ==> t in e.leader.tickets || t.entering in s'.released
    ensures Evolves(s, s') && Tables(all, s')
  {
    assert TablesOk(s, me, s.leaders[me]);
    EvolvesHere(s, s', me);
    forall t | t in e.leader.tickets ensures TicketListed(e.leader, t) {
      assert TicketListed(s.leaders[me], t);
    }
    forall j | j in e.leader.copies ensures CopyOk(s', me, e.leader, j) {
      CopyKept(all, s, s', me, j);
    }
    TablesKept(all, s, s', me);
  }

  /** The tables after a handler that keeps every table entry. */
  lemma StillListed(all: set<ServerName>, s: System, me: ServerName, t: TicketKey)
    requires Tables(all, s) && me in all && t in s.leaders[me].tickets
    ensures TicketListed(s.leaders[me], t)
  {
    assert TablesOk(s, me, s.leaders[me]);
  }

  /** The receiver's own copy of the ticket a packet is about. */
  lemma CopyHere(all: set<ServerName>, s: System, me: ServerName, k: EnteringKey)
    requires Tables(all, s) && me in all
    ensures Tabled(s.leaders[me])
    ensures k in s.leaders[me].copies ==> CopyOk(s, me, s.leaders[me], k)
  {
    assert TablesOk(s, me, s.leaders[me]);
  }

  // ---------- LOCK, LOCK_ENTERING, LOCK_ENTERED, GET_MAX_TICKET ----------

  lemma LockGood(all: set<ServerName>, s: System, s': System, me: ServerName, k: EnteringKey, e: Effect)
    requires Acting(all, s, s', me, e) && e == OnLock(all, me, s.leaders[me], k)
    requires k !in s.owner && k in s'.owner && s'.owner[k] == me
    ensures Good(all, s, s', e)
  {
    CopyHere(all, s, me, k);
    forall t | t in e.leader.tickets ensures TicketListed(e.leader, t) {
      StillListed(all, s, me, t);
    }
    OneCopyTables(all, s, s', me, e, k);
    BroadcastOk(all, s', me, LockEntering(k));
  }

  lemma LockEnteringGood(all: set<ServerName>, s: System, s': System, p: Packet, e: Effect)
    requires p.message.LockEntering? && PacketOk(all, s, p)
    requires Acting(all, s, s', p.target, e) && e == OnLockEntering(p.target, p.source, s.leaders[p.target],
        p.message.key)
    requires p.message.key !in s.leaders[p.target].copies
    ensures Good(all, s, s', e)
  {
    var me, k := p.target, p.message.key;
    CopyHere(all, s, me, k);
    forall t | t in e.leader.tickets ensures TicketListed(e.leader, t) {
      StillListed(all, s, me, t);
    }
    OneCopyTables(all, s, s', me, e, k);
    ReplyOk(all, s', me, p.source, LockEntered(k));
  }

  lemma LockEnteredTaken(all: set<ServerName>, s: System, s': System, me: ServerName, l: Leader, k: EnteringKey,
        e: Effect)
    requires Acting(all, s, s', me, e) && l == s.leaders[me] && Tabled(l) && StartsNumbering(l, k)
    requires e == OnLockEntered(all, me, l, k) && k in s.owner && s.owner[k] == me && CopyOk(s, me, l, k)
    ensures Good(all, s, s', e)
  {
    hide Tables, TablesOk, PacketOk;
    forall t | t in e.leader.tickets ensures TicketListed(e.leader, t) {
      StillListed(all, s, me, t);
    }
    OneCopyTables(all, s, s', me, e, k);
    BroadcastOk(all, s', me, GetMaxTicket(k));
  }

  lemma LockEnteredGood(all: set<ServerName>, s: System, s': System, p: Packet, e: Effect)
    requires p.message.LockEntered? && PacketOk(all, s, p)
    requires Acting(all, s, s', p.target, e) && Tabled(s.leaders[p.target])
    requires e == OnLockEntered(all, p.target, s.leaders[p.target], p.message.key)
    ensures Good(all, s, s', e)
  {
    var me, k := p.target, p.message.key;
    CopyHere(all, s, me, k);
    if StartsNumbering(s.leaders[me], k) {
      LockEnteredTaken(all, s, s', me, s.leaders[me], k, e);
    } else {
      NoCopyTables(all, s, s', me, e);
    }
  }

  lemma GetMaxTicketGood(all: set<ServerName>, s: System, s': System, p: Packet, e: Effect)
    requires p.message.GetMaxTicket? && PacketOk(all, s, p)
    requires Acting(all, s, s', p.target, e) && e == OnGetMaxTicket(p.target, p.source, s.leaders[p.target],
        p.message.key)
    ensures Good(all, s, s', e)
  {
    NoCopyTables(all, s, s', p.target, e);
    TicketEvolves(all, s, s', p.message.key);
    ReplyOk(all, s', p.target, p.source, MaxTicketIs(p.message.key, GetLast(s.leaders[p.target].tickets)));
  }

  // ---------- MAX_TICKET, ADD_TICKET ----------

  /** A ticket that had no number is added to the table. */
  lemma OneMoreListed(all: set<ServerName>, s: System, me: ServerName, l': Leader, t: TicketKey)
    requires Tables(all, s) && me in all
    requires t.entering in s.leaders[me].copies && !s.leaders[me].copies[t.entering].added
    requires l'.tickets == s.leaders[me].tickets + {t} && TicketListed(l', t)
    requires forall k :: k in s.leaders[me].copies && k != t.entering ==>
        k in l'.copies && l'.copies[k] == s.leaders[me].copies[k]
    ensures forall j :: j in l'.tickets ==> TicketListed(l', j)
  {
    forall j | j in s.leaders[me].tickets ensures TicketListed(l', j) {
      StillListed(all, s, me, j);
    }
  }

  lemma MaxTicketGood(all: set<ServerName>, s: System, s': System, p: Packet, e: Effect)
    requires p.message.MaxTicketIs? && PacketOk(all, s, p)
    requires Acting(all, s, s', p.target, e) && Tabled(s.leaders[p.target])
    requires e == OnMaxTicket(all, p.target, s.leaders[p.target], p.message.key, p.message.number)
    ensures Good(all, s, s', e)
  {
    var me, l, k := p.target, s.leaders[p.target], p.message.key;
    CopyHere(all, s, me, k);
    if k in l.entering && !l.copies[k].added {
      MaxTicketTaken(all, s, s', me, l, k, p.message.number, e);
    } else {
      NoCopyTables(all, s, s', me, e);
    }
  }

  lemma MaxTicketTaken(all: set<ServerName>, s: System, s': System, me: ServerName, l: Leader, k: EnteringKey, n: nat,
        e: Effect)
    requires Acting(all, s, s', me, e) && l == s.leaders[me] && Tabled(l) && k in l.entering && !l.copies[k].added
    requires e == OnMaxTicket(all, me, l, k, n) && k in s.owner && s.owner[k] == me && CopyOk(s, me, l, k)
    requires l.copies[k].getMax
    ensures Good(all, s, s', e)
  {
    hide Tables, TablesOk, PacketOk;
    var t := Numbered(l.copies[k], n);
    OneMoreListed(all, s, me, e.leader, TicketKey(t.number, k));
    OneCopyTables(all, s, s', me, e, k);
    BroadcastOk(all, s', me, AddTicket(t.Key()));
  }

  /** ADD_TICKET refused: the tables do not change. */
  lemma AddTicketRefused(all: set<ServerName>, s: System, s': System, p: Packet, e: Effect)
    requires p.message.AddTicket? && PacketOk(all, s, p)
    requires Acting(all, s, s', p.target, e) && e.leader == s.leaders[p.target]
    requires e.out == Reply(p.target, p.source, LockFailed(p.message.ticket))
    ensures Good(all, s, s', e)
  {
    NoCopyTables(all, s, s', p.target, e);
    AnnouncementKept(all, s, s', p.source, p.message);
    ReplyOk(all, s', p.target, p.source, LockFailed(p.message.ticket));
  }

  lemma AddTicketGood(all: set<ServerName>, s: System, s': System, p: Packet, e: Effect)
    requires p.message.AddTicket? && PacketOk(all, s, p)
    requires Acting(all, s, s', p.target, e) && Tabled(s.leaders[p.target])
    requires e == OnAddTicket(p.target, p.source, s.leaders[p.target], p.message.ticket)
    requires p.message.Entering() in s.leaders[p.target].copies ==>
        !s.leaders[p.target].copies[p.message.Entering()].added
    ensures Good(all, s, s', e)
  {
    var me, l, k := p.target, s.leaders[p.target], p.message.ticket;
    if k in l.tickets || k.entering !in l.entering {
      AddTicketRefused(all, s, s', p, e);
    } else {
      CopyHere(all, s, me, k.entering);
      AddTicketAccepted(all, s, s', p, e);
    }
  }

  /** ADD_TICKET accepted: the copy gets its number. */
  ghost predicate TakesNumber(s: System, p: Packet, e: Effect) {
    p.message.AddTicket? && p.target in s.leaders &&
    var k, l := p.message.ticket, s.leaders[p.target];
    && k.entering in l.copies && !l.copies[k.entering].added && CopyOk(s, p.target, l, k.entering)
    && e.leader == l.(tickets := l.tickets + {k},
        copies := l.copies[k.entering := SetTicketNumber(l.copies[k.entering], k.number)])
    && e.out == Reply(p.target, p.source, Message.TicketAdded(k))
  }

  lemma AddTicketCopy(all: set<ServerName>, s: System, s': System, p: Packet, e: Effect)
    requires PacketOk(all, s, p) && Acting(all, s, s', p.target, e) && TakesNumber(s, p, e)
    ensures CopyOk(s', p.target, e.leader, p.message.ticket.entering)
  {
    var k := p.message.ticket.entering;
    assert s'.owner[k] == s.owner[k] == p.source != p.target;
    assert s'.leaders[p.source] == s.leaders[p.source];
    assert Ticket(s', k) == Ticket(s, k);
    assert IsKey(s, p.message.ticket);
  }

  lemma AddTicketEvolves(all: set<ServerName>, s: System, s': System, p: Packet, e: Effect)
    requires PacketOk(all, s, p) && Acting(all, s, s', p.target, e) && TakesNumber(s, p, e)
    ensures LeaderEvolves(s.leaders[p.target], e.leader, s'.released)
  {
  }

  lemma AddTicketAnswers(all: set<ServerName>, s: System, s': System, p: Packet, e: Effect)
    requires PacketOk(all, s, p) && Acting(all, s, s', p.target, e) && TakesNumber(s, p, e) && Evolves(s, s')
    ensures p.message.Entering() in s'.owner
    ensures Answers(s', p.target, p.source, Message.TicketAdded(p.message.ticket))
  {
    hide TablesOk, Tables, Evolves;
    AnnouncementKept(all, s, s', p.source, p.message);
  }

  lemma AddTicketListed(all: set<ServerName>, s: System, s': System, p: Packet, e: Effect)
    requires Acting(all, s, s', p.target, e) && TakesNumber(s, p, e)
    ensures forall t :: t in e.leader.tickets ==> TicketListed(e.leader, t)
    ensures Tabled(s.leaders[p.target])
  {
    hide Tables, CopyOk;
    CopyHere(all, s, p.target, p.message.ticket.entering);
    OneMoreListed(all, s, p.target, e.leader, p.message.ticket);
  }

  lemma AddTicketAccepted(all: set<ServerName>, s: System, s': System, p: Packet, e: Effect)
    requires PacketOk(all, s, p) && Acting(all, s, s', p.target, e) && TakesNumber(s, p, e)
    ensures Good(all, s, s', e)
  {
    AddTicketCopy(all, s, s', p, e);
    AddTicketEvolves(all, s, s', p, e);
    AddTicketListed(all, s, s', p, e);
    var k := p.message.ticket;
    assert p.source in all && p.target != p.source;
    assert k.entering in e.leader.copies;
    hide Tables, PacketOk, CopyOk, LeaderEvolves, TicketListed, Evolves, Answers, Packets;
    OneCopyTables(all, s, s', p.target, e, k.entering);
    AddTicketAnswers(all, s, s', p, e);
    ReplyOk(all, s', p.target, p.source, Message.TicketAdded(k));
  }

  // ---------- LOCK_EXITING, TICKET_ADDED ----------

  /** What the waiting tickets of a leader's table go through when `key` exits. */
  lemma ExitOne(c: Progress, key: EnteringKey)
    ensures CopyEvolves(c, RemoveEntering(c, key, {}))
    ensures var d := RemoveEntering(c, key, {});
            && d.getMax == c.getMax && d.quorum == c.quorum && d.number == c.number && d.added == c.added
            && (d.ready ==> c.ready || (c.quorum && d.still == {}))
            && (!c.quorum ==> d == c)
  {
  }

  lemma ExitCopies(all: set<ServerName>, s: System, s': System, me: ServerName, key: EnteringKey, e: Effect)
    requires Acting(all, s, s', me, e) && Evolves(s, s')
    requires e.leader.copies == ExitAll(s.leaders[me], key) && e.leader.tickets == s.leaders[me].tickets
    ensures forall k :: k in e.leader.copies ==> CopyOk(s', me, e.leader, k)
  {
    var l := s.leaders[me];
    forall k | k in e.leader.copies ensures CopyOk(s', me, e.leader, k) {
      CopyHere(all, s, me, k);
      ExitOne(l.copies[k], key);
      TicketEvolves(all, s, s', k);
    }
  }

  lemma ExitTables(all: set<ServerName>, s: System, s': System, me: ServerName, key: EnteringKey, e: Effect)
    requires Acting(all, s, s', me, e)
    requires e.leader == s.leaders[me].(entering := s.leaders[me].entering - {key},
        copies := ExitAll(s.leaders[me], key))
    ensures Evolves(s, s') && Tables(all, s')
  {
    var l := s.leaders[me];
    CopyHere(all, s, me, key);
    forall k | k in l.copies ensures CopyEvolves(l.copies[k], e.leader.copies[k]) {
      ExitOne(l.copies[k], key);
    }
    EvolvesHere(s, s', me);
    ExitCopies(all, s, s', me, key, e);
    forall t | t in e.leader.tickets ensures TicketListed(e.leader, t) {
      StillListed(all, s, me, t);
      ExitOne(l.copies[t.entering], key);
    }
    TablesKept(all, s, s', me);
  }

  /** TICKET_READY is only sent by the owner, for a ticket whose waiting list became empty. */
  lemma ReadiedOk(all: set<ServerName>, s: System, s': System, me: ServerName, key: EnteringKey, e: Effect)
    requires Acting(all, s, s', me, e) && Evolves(s, s') && Tables(all, s')
    requires e.leader.copies == ExitAll(s.leaders[me], key) && e.leader.tickets == s.leaders[me].tickets
    requires Tabled(s.leaders[me])
    ensures Packets(all, s', Readied(all, me, s.leaders[me], key))
  {
    var l := s.leaders[me];
    forall p | p in Readied(all, me, l, key) ensures PacketOk(all, s', p) {
      var t := p.message.ticket;
      StillListed(all, s, me, t);
      CopyHere(all, s, me, t.entering);
      ListedKey(all, s', me, t);
      assert e.leader.copies[t.entering].ready;
      assert Announces(s', me, p.message);
    }
  }

  lemma LockExitingGood(all: set<ServerName>, s: System, s': System, me: ServerName, key: EnteringKey, e: Effect)
    requires Acting(all, s, s', me, e) && Tabled(s.leaders[me])
    requires e == OnLockExiting(all, me, s.leaders[me], key)
    ensures Good(all, s, s', e)
  {
    var l := s.leaders[me];
    if key in l.entering {
      ExitTables(all, s, s', me, key, e);
      ReadiedOk(all, s, s', me, key, e);
      TablesAreTabled(all, s', me);
      ActivationOk(all, s', me);
      PacketsJoin(all, s', Readied(all, me, l, key), ActivateFirst(all, me, s'.leaders[me]));
    } else {
      NoCopyTables(all, s, s', me, e);
    }
  }

  /** A listed ticket whose number, quorum and waiting list stay as they are. */
  lemma FlagsTables(all: set<ServerName>, s: System, s': System, me: ServerName, k: TicketKey, c: Progress, e: Effect)
    requires Acting(all, s, s', me, e) && k in s.leaders[me].tickets && k.entering in s.leaders[me].copies
    requires var b := s.leaders[me].copies[k.entering];
        c == b.(ready := c.ready, locked := c.locked, failed := c.failed) && (b.ready ==> c.ready)
    requires c.ready && !s.leaders[me].copies[k.entering].ready ==>
               k.entering in s.owner && s.owner[k.entering] != me && Ticket(s, k.entering).ready
    requires e.leader == s.leaders[me].(copies := s.leaders[me].copies[k.entering := c])
    ensures Evolves(s, s') && Tables(all, s')
  {
    CopyHere(all, s, me, k.entering);
    assert CopyEvolves(s.leaders[me].copies[k.entering], c);
    EvolvesHere(s, s', me);
    TicketEvolves(all, s, s', k.entering);
    forall j | j in e.leader.tickets ensures TicketListed(e.leader, j) {
      StillListed(all, s, me, j);
    }
    OneCopyTables(all, s, s', me, e, k.entering);
  }

  /** Two handlers do their work in two parts; this is the state between them. */
  function Replace(s: System, me: ServerName, l: Leader): System {
    s.(leaders := s.leaders[me := l])
  }

  lemma FirstPart(all: set<ServerName>, s: System, me: ServerName, l: Leader)
    requires Tables(all, s) && me in all
    ensures Acting(all, s, Replace(s, me, l), me, Nothing(l))
  {
  }

  lemma {:induction false} SecondApplied(s: System, s': System, me: ServerName, l: Leader, e: Effect, e2: Effect)
    requires Applied(s, s', me, e)
    requires e2.leader == e.leader && e2.locked == e.locked && e2.released == e.released
    ensures Applied(Replace(s, me, l), s', me, e2)
  {
    assert s.leaders[me := l][me := e.leader] == s.leaders[me := e.leader];
  }

  lemma {:induction false} SecondPart(all: set<ServerName>, s: System, s': System, me: ServerName, l: Leader,
        e: Effect, e2: Effect)
    requires Acting(all, s, s', me, e) && s'.owner == s.owner && Tables(all, Replace(s, me, l))
    requires e2.leader == e.leader && e2.locked == e.locked && e2.released == e.released
    ensures Acting(all, Replace(s, me, l), s', me, e2)
  {
    SecondApplied(s, s', me, l, e, e2);
  }

  /** The first half of msg_ticket_added: the quorum is reached and the waiting list taken. */
  lemma QuorumTables(all: set<ServerName>, s: System, s1: System, me: ServerName, k: TicketKey, e: Effect)
    requires Acting(all, s, s1, me, e) && k in s.leaders[me].tickets && k.entering in s.leaders[me].copies
    requires k.entering in s.owner && s.owner[k.entering] == me
    requires !s.leaders[me].copies[k.entering].quorum
    requires e.leader
         == s.leaders[me].(copies := s.leaders[me].copies[k.entering := Acknowledged(s.leaders[me].copies[k.entering],
             s.leaders[me].entering)])
    ensures Evolves(s, s1) && Tables(all, s1) && Ticket(s1, k.entering).quorum
  {
    CopyHere(all, s, me, k.entering);
    StillListed(all, s, me, k);
    forall j | j in e.leader.tickets ensures TicketListed(e.leader, j) {
      StillListed(all, s, me, j);
    }
    OneCopyTables(all, s, s1, me, e, k.entering);
  }

  /** The second half: the owner's own exit, after the quorum state `s1`. */
  lemma QuorumGood(all: set<ServerName>, s: System, s1: System, s': System, me: ServerName, k: TicketKey, e: Effect)
    requires Evolves(s, s1) && Tables(all, s1) && k.entering in s1.owner && s1.owner[k.entering] == me
    requires Ticket(s1, k.entering).quorum
    requires Acting(all, s1, s', me, e) && Tabled(s1.leaders[me])
        && e == OnLockExiting(all, me, s1.leaders[me], k.entering)
    ensures Evolves(s, s') && Tables(all, s') && Packets(all, s', Broadcast(all, me, LockExiting(k.entering)) + e.out)
  {
    LockExitingGood(all, s1, s', me, k.entering, e);
    EvolvesTransitively(s, s1, s');
    TicketEvolves(all, s1, s', k.entering);
    BroadcastOk(all, s', me, LockExiting(k.entering));
    PacketsJoin(all, s', Broadcast(all, me, LockExiting(k.entering)), e.out);
  }

  /** The leader between the two halves. */
  function Between(l: Leader, k: TicketKey): Leader
    requires k.entering in l.copies
  {
    l.(copies := l.copies[k.entering := Acknowledged(l.copies[k.entering], l.entering)])
  }

  lemma TicketAddedGood(all: set<ServerName>, s: System, s': System, p: Packet, e: Effect)
    requires p.message.TicketAdded? && PacketOk(all, s, p)
    requires Acting(all, s, s', p.target, e) && Tabled(s.leaders[p.target])
    requires e == OnTicketAdded(all, p.target, s.leaders[p.target], p.message.ticket)
    requires s'.owner == s.owner
    ensures Good(all, s, s', e)
  {
    var me, l, k := p.target, s.leaders[p.target], p.message.ticket;
    if k in l.tickets && l.entering != {} && !l.copies[k.entering].quorum {
      var l1 := Between(l, k);
      var s1 := Replace(s, me, l1);
      FirstPart(all, s, me, l1);
      QuorumTables(all, s, s1, me, k, Nothing(l1));
      var e2 := OnLockExiting(all, me, l1, k.entering);
      SecondPart(all, s, s', me, l1, e, e2);
      QuorumGood(all, s, s1, s', me, k, e2);
    } else {
      NoCopyTables(all, s, s', me, e);
    }
  }

  // ---------- TICKET_READY, ACTIVATE_LOCK, LOCK_ACTIVATED ----------

  lemma TicketReadyGood(all: set<ServerName>, s: System, s': System, p: Packet, e: Effect)
    requires p.message.TicketReady? && PacketOk(all, s, p)
    requires Acting(all, s, s', p.target, e) && Tabled(s.leaders[p.target])
    requires e == OnTicketReady(s.leaders[p.target], p.message.ticket)
    ensures Good(all, s, s', e)
  {
    var me, l, k := p.target, s.leaders[p.target], p.message.ticket;
    if k in l.tickets {
      FlagsTables(all, s, s', me, k, SetReady(l.copies[k.entering]), e);
    } else {
      NoCopyTables(all, s, s', me, e);
    }
  }

  lemma LockTables(all: set<ServerName>, s: System, s': System, me: ServerName, k: TicketKey, out: multiset<Packet>,
      e: Effect)
    requires Acting(all, s, s', me, e) && k in s.leaders[me].tickets && k.entering in s.leaders[me].copies
    requires e == Lock(me, s.leaders[me], k, out)
    ensures Evolves(s, s') && Tables(all, s')
  {
    FlagsTables(all, s, s', me, k, Activated(s.leaders[me].copies[k.entering]), e);
  }

  lemma ActivateLockGood(all: set<ServerName>, s: System, s': System, p: Packet, e: Effect)
    requires p.message.ActivateLock? && PacketOk(all, s, p)
    requires Acting(all, s, s', p.target, e) && Tabled(s.leaders[p.target])
    requires e == OnActivateLock(p.target, p.source, s.leaders[p.target], p.message.ticket)
    ensures Good(all, s, s', e)
  {
    var me, l, k := p.target, s.leaders[p.target], p.message.ticket;
    var m := Message.LockActivated(k, FindFirst(l.tickets));
    if FindFirst(l.tickets) == FirstKey(k) {
      LockTables(all, s, s', me, k, Reply(me, p.source, m), e);
    } else {
      NoCopyTables(all, s, s', me, e);
    }
    ActivatedAnswer(all, s, s', p, m);
  }

  lemma ActivatedAnswer(all: set<ServerName>, s: System, s': System, p: Packet, m: Message)
    requires p.message.ActivateLock? && PacketOk(all, s, p) && Tables(all, s) && Evolves(s, s')
    requires m.LockActivated? && m.ticket == p.message.ticket
    ensures Packets(all, s', Reply(p.target, p.source, m))
  {
    TicketEvolves(all, s, s', m.ticket.entering);
    ReplyOk(all, s', p.target, p.source, m);
  }

  lemma LockActivatedGood(all: set<ServerName>, s: System, s': System, p: Packet, e: Effect)
    requires p.message.LockActivated? && PacketOk(all, s, p)
    requires Acting(all, s, s', p.target, e) && Tabled(s.leaders[p.target])
    requires e == OnLockActivated(p.target, s.leaders[p.target], p.message.ticket, p.message.other)
    ensures Good(all, s, s', e)
  {
    var me, l, k := p.target, s.leaders[p.target], p.message.ticket;
    if p.message.other == FirstKey(k) && k in l.tickets {
      LockTables(all, s, s', me, k, multiset{}, e);
    } else {
      NoCopyTables(all, s, s', me, e);
    }
  }

  // ---------- UNLOCK, DROP_TICKET, LOCK_FAILED ----------

  lemma RemoveGood(all: set<ServerName>, s: System, s': System, me: ServerName, k: TicketKey, e: Effect,
      entering: set<EnteringKey>)
    requires Acting(all, s, s', me, e) && Tabled(s.leaders[me])
    requires entering <= s.leaders[me].entering && k.entering in s'.released
    requires e.leader == s.leaders[me].(tickets := s.leaders[me].tickets - {k}, entering := entering)
    requires e.out == ActivateFirst(all, me, s.leaders[me].(tickets := s.leaders[me].tickets - {k}))
    ensures Good(all, s, s', e)
  {
    NoCopyTables(all, s, s', me, e);
    TablesAreTabled(all, s', me);
    ActivationOk(all, s', me);
    assert ActivateFirst(all, me, e.leader) == e.out;
  }

  lemma FailedTables(all: set<ServerName>, s: System, s1: System, me: ServerName, k: TicketKey, e: Effect)
    requires Acting(all, s, s1, me, e) && k in s.leaders[me].tickets && k.entering in s.leaders[me].copies
    requires e.leader
         == s.leaders[me].(copies := s.leaders[me].copies[k.entering := Failed(s.leaders[me].copies[k.entering])])
    ensures Evolves(s, s1) && Tables(all, s1)
  {
    FlagsTables(all, s, s1, me, k, Failed(s.leaders[me].copies[k.entering]), e);
  }

  lemma DroppedGood(all: set<ServerName>, s: System, s1: System, s': System, me: ServerName, k: TicketKey, e: Effect)
    requires Evolves(s, s1) && Tables(all, s1)
    requires Acting(all, s1, s', me, e) && Tabled(s1.leaders[me]) && k in s1.leaders[me].tickets
    requires e == Remove(all, me, s1.leaders[me], k).(released := {k.entering})
    ensures Evolves(s, s') && Tables(all, s') && Packets(all, s', Broadcast(all, me, DropTicket(k)) + e.out)
  {
    RemoveGood(all, s1, s', me, k, e, s1.leaders[me].entering);
    EvolvesTransitively(s, s1, s');
    ListedKey(all, s1, me, k);
    TicketEvolves(all, s1, s', k.entering);
    BroadcastOk(all, s', me, DropTicket(k));
    PacketsJoin(all, s', Broadcast(all, me, DropTicket(k)), e.out);
  }

  lemma UnlockGood(all: set<ServerName>, s: System, s': System, me: ServerName, k: TicketKey, e: Effect)
    requires Acting(all, s, s', me, e) && Tabled(s.leaders[me]) && k in s.leaders[me].tickets
    requires e == OnUnlock(all, me, s.leaders[me], k) && s'.owner == s.owner
    ensures Good(all, s, s', e)
  {
    var l := s.leaders[me];
    var l1 := l.(copies := l.copies[k.entering := Failed(l.copies[k.entering])]);
    FirstPart(all, s, me, l1);
    FailedTables(all, s, Replace(s, me, l1), me, k, Nothing(l1));
    var e2 := Remove(all, me, l1, k).(released := {k.entering});
    SecondPart(all, s, s', me, l1, e, e2);
    DroppedGood(all, s, Replace(s, me, l1), s', me, k, e2);
  }

  lemma DropTicketGood(all: set<ServerName>, s: System, s': System, p: Packet, e: Effect)
    requires p.message.DropTicket? && PacketOk(all, s, p)
    requires Acting(all, s, s', p.target, e) && Tabled(s.leaders[p.target])
    requires e == OnDropTicket(all, p.target, s.leaders[p.target], p.message.ticket)
    ensures Good(all, s, s', e)
  {
    var l, k := s.leaders[p.target], p.message.ticket;
    RemoveGood(all, s, s', p.target, k, e, l.entering - {k.entering});
  }

  lemma LockFailedGood(all: set<ServerName>, s: System, s': System, p: Packet, e: Effect)
    requires p.message.LockFailed? && PacketOk(all, s, p)
    requires Acting(all, s, s', p.target, e) && Tabled(s.leaders[p.target])
    requires e == OnLockFailed(all, p.target, s.leaders[p.target], p.message.ticket)
    ensures Good(all, s, s', e)
  {
    var l, k := s.leaders[p.target], p.message.ticket;
    if k in l.tickets {
      RemoveGood(all, s, s', p.target, k, e, l.entering);
    } else {
      NoCopyTables(all, s, s', p.target, e);
    }
  }
}
