/** What a packet in flight says about the tables. */
module BakeryPackets {
  import opened KeyOrder
  import opened TicketProgress
  import opened Leader
  import opened Bakery
  import opened BakeryTables

  ghost predicate HasCopy(s: System, m: ServerName, k: EnteringKey) {
    m in s.leaders && k in s.leaders[m].copies
  }

  ghost predicate HasNumbered(s: System, m: ServerName, k: EnteringKey) {
    HasCopy(s, m, k) && s.leaders[m].copies[k].added
  }

  ghost predicate Lists(s: System, m: ServerName, t: TicketKey) {
    m in s.leaders && t in s.leaders[m].tickets
  }

  /** The ticket key in a packet is the key its owner gave the ticket. */
  ghost predicate IsKey(s: System, t: TicketKey) {
    Ticket(s, t.entering).added && Ticket(s, t.entering).number == t.number
  }

  /** What a message that goes to every other leader says, whoever receives it. */
  ghost predicate Announces(s: System, me: ServerName, m: Message)
    requires m.Entering() in s.owner
  {
    var k := m.Entering();
    match m
    case LockEntering(_) => me == s.owner[k]
    case GetMaxTicket(_) => me == s.owner[k] && Ticket(s, k).getMax
    case AddTicket(t) => me == s.owner[k] && IsKey(s, t)
    case LockExiting(_) => me == s.owner[k] && Ticket(s, k).quorum
    case TicketReady(t) => me == s.owner[k] && IsKey(s, t) && Ticket(s, k).ready
    case ActivateLock(t) => IsKey(s, t) && Ticket(s, k).ready
    case DropTicket(t) => IsKey(s, t) && k in s.released
    case _ => false
  }

  /** What a reply says; the sender is `me`. */
  ghost predicate Answers(s: System, me: ServerName, to: ServerName, m: Message)
    requires m.Entering() in s.owner
  {
    var k := m.Entering();
    match m
    case LockEntered(_) => to == s.owner[k] && HasCopy(s, me, k)
    case MaxTicketIs(_, _) => to == s.owner[k] && Ticket(s, k).getMax
    case TicketAdded(t) => to == s.owner[k] && IsKey(s, t) && HasNumbered(s, me, k)
                           && (k in s.released || Lists(s, me, t))
    case LockActivated(t, _) => IsKey(s, t) && Ticket(s, k).ready
    case LockFailed(t) => to == s.owner[k] && IsKey(s, t)
    case _ => false
  }

  ghost predicate PacketOk(all: set<ServerName>, s: System, p: Packet) {
    && p.source in all && p.target in all && p.source != p.target && p.message.Entering() in s.owner
    && (Announces(s, p.source, p.message) || Answers(s, p.source, p.target, p.message))
  }

  ghost predicate Packets(all: set<ServerName>, s: System, net: multiset<Packet>) {
    forall p :: p in net ==> PacketOk(all, s, p)
  }

  lemma AnnouncementKept(all: set<ServerName>, s: System, s': System, me: ServerName, m: Message)
    requires Tables(all, s) && Evolves(s, s') && m.Entering() in s.owner && Announces(s, me, m)
    ensures m.Entering() in s'.owner && Announces(s', me, m)
  {
    TicketEvolves(all, s, s', m.Entering());
  }

  lemma AnswerKept(all: set<ServerName>, s: System, s': System, me: ServerName, to: ServerName, m: Message)
    requires Tables(all, s) && Evolves(s, s') && m.Entering() in s.owner && Answers(s, me, to, m)
    ensures m.Entering() in s'.owner && Answers(s', me, to, m)
  {
    TicketEvolves(all, s, s', m.Entering());
    if me in s.leaders {
      assert LeaderEvolves(s.leaders[me], s'.leaders[me], s'.released);
    }
  }

  lemma PacketKept(all: set<ServerName>, s: System, s': System, p: Packet)
    requires Tables(all, s) && Evolves(s, s') && PacketOk(all, s, p)
    ensures PacketOk(all, s', p)
  {
    if Announces(s, p.source, p.message) {
      AnnouncementKept(all, s, s', p.source, p.message);
    } else {
      AnswerKept(all, s, s', p.source, p.target, p.message);
    }
  }

  lemma PacketsKept(all: set<ServerName>, s: System, s': System, net: multiset<Packet>)
    requires Tables(all, s) && Evolves(s, s') && Packets(all, s, net)
    ensures Packets(all, s', net)
  {
    forall p | p in net ensures PacketOk(all, s', p) {
      PacketKept(all, s, s', p);
    }
  }

  // ---------- new packets ----------

  lemma ReplyOk(all: set<ServerName>, s: System, me: ServerName, source: ServerName, m: Message)
    requires me in all && source in all && me != source && m.Entering() in s.owner
    requires Answers(s, me, source, m)
    ensures Packets(all, s, Reply(me, source, m))
  {
  }

  lemma BroadcastOk(all: set<ServerName>, s: System, me: ServerName, m: Message)
    requires me in all && m.Entering() in s.owner && Announces(s, me, m)
    ensures Packets(all, s, Broadcast(all, me, m))
  {
  }

  lemma PacketsJoin(all: set<ServerName>, s: System, a: multiset<Packet>, b: multiset<Packet>)
    requires Packets(all, s, a) && Packets(all, s, b)
    ensures Packets(all, s, a + b)
  {
  }

  // ---------- one leader changes ----------

  /** One leader's tables moved forward and the system with them. */
  lemma EvolvesHere(s: System, s': System, me: ServerName)
    requires me in s.leaders && me in s'.leaders && s'.leaders == s.leaders[me := s'.leaders[me]]
    requires forall k :: k in s.owner ==> k in s'.owner && s'.owner[k] == s.owner[k]
    requires s.released <= s'.released
    requires LeaderEvolves(s.leaders[me], s'.leaders[me], s'.released)
    ensures Evolves(s, s')
  {
  }

  lemma ListedKey(all: set<ServerName>, s: System, m: ServerName, t: TicketKey)
    requires Tables(all, s) && m in all && t in s.leaders[m].tickets
    ensures t.entering in s.owner && t.entering in s.leaders[m].copies && IsKey(s, t)
    ensures s.leaders[m].copies[t.entering].ready ==> Ticket(s, t.entering).ready
  {
    assert TablesOk(s, m, s.leaders[m]);
    assert TicketListed(s.leaders[m], t);
    assert CopyOk(s, m, s.leaders[m], t.entering);
  }

  /** ACTIVATE_LOCK is only sent for a ticket that is ready at its owner. */
  lemma ActivationOk(all: set<ServerName>, s: System, me: ServerName)
    requires Tables(all, s) && me in all && Tabled(s.leaders[me])
    ensures Packets(all, s, ActivateFirst(all, me, s.leaders[me]))
  {
    var l := s.leaders[me];
    var first := FindFirst(l.tickets);
    if first.FirstKey? && CanLock(l.copies[first.key.entering]) {
      ListedKey(all, s, me, first.key);
      var m := ActivateLock(first.key);
      assert m.Entering() == first.key.entering;
      BroadcastOk(all, s, me, m);
    }
  }

  lemma TablesAreTabled(all: set<ServerName>, s: System, me: ServerName)
    requires Tables(all, s) && me in all
    ensures Tabled(s.leaders[me])
  {
    assert TablesOk(s, me, s.leaders[me]);
  }
}
