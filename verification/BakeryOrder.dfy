/** Quorum replication and first come, first served: no assumption on delivery. */
module BakeryOrder {
  import opened Sets
  import opened KeyOrder
  import opened TicketProgress
  import opened Leader
  import opened LeaderFacts
  import opened Bakery
  import opened BakeryTables
  import opened BakeryPackets
  import opened BakerySteps
  import opened BakeryInvariant

  ghost function KeyOf(s: System, k: EnteringKey): TicketKey { TicketKey(Ticket(s, k).number, k) }

  // ---------- what a delivery does to the owner's ticket ----------

  lemma DeliveredTo(all: set<ServerName>, s: System, s': System, p: Packet)
    requires Delivery(all, s, s', p)
    ensures s'.leaders == s.leaders[p.target := Handle(all, s.leaders[p.target], p).leader] && s'.owner == s.owner
  {
  }

  lemma TicketElsewhere(all: set<ServerName>, s: System, s': System, p: Packet, k: EnteringKey)
    requires Tables(all, s) && Delivery(all, s, s', p) && k in s.owner && s.owner[k] != p.target
    ensures Ticket(s', k) == Ticket(s, k)
  {
    DeliveredTo(all, s, s', p);
  }

  lemma TicketHere(all: set<ServerName>, s: System, s': System, p: Packet, k: EnteringKey)
    requires Tables(all, s) && PacketOk(all, s, p) && Delivery(all, s, s', p) && k in s.owner && s.owner[k] == p.target
    ensures k in s.leaders[p.target].copies && s.leaders[p.target].copies[k] == Ticket(s, k)
    ensures Ticket(s', k) == After(p.target, s.leaders[p.target], p.message, k)
  {
    assert !(p.message.LockEntering? && p.message.key == k);
    CopyAfter(all, s.leaders[p.target], p, k);
    DeliveredTo(all, s, s', p);
  }

  lemma NewlyNumbering(all: set<ServerName>, s: System, s': System, p: Packet, k: EnteringKey)
    requires Tables(all, s) && PacketOk(all, s, p) && Delivery(all, s, s', p) && k in s.owner
    requires !Ticket(s, k).getMax && Ticket(s', k).getMax
    ensures s.owner[k] == p.target && p.message == LockEntered(k) && StartsNumbering(s.leaders[p.target], k)
    ensures Ticket(s', k) == Entered(Ticket(s, k), GetLast(s.leaders[p.target].tickets))
  {
    if s.owner[k] != p.target {
      TicketElsewhere(all, s, s', p, k);
      assert false;
    }
    TicketHere(all, s, s', p, k);
    AfterNumbering(p.target, s.leaders[p.target], p.message, k);
  }

  lemma NewlyAdded(all: set<ServerName>, s: System, s': System, p: Packet, k: EnteringKey)
    requires Tables(all, s) && PacketOk(all, s, p) && Delivery(all, s, s', p) && k in s.owner
    requires !Ticket(s, k).added && Ticket(s', k).added
    ensures s.owner[k] == p.target && p.message.MaxTicketIs? && p.message.key == k
    ensures Ticket(s', k) == Numbered(Ticket(s, k), p.message.number)
  {
    if s.owner[k] != p.target {
      TicketElsewhere(all, s, s', p, k);
      assert false;
    }
    TicketHere(all, s, s', p, k);
    AfterAdded(p.target, s.leaders[p.target], p.message, k);
  }

  lemma NewlyQuorate(all: set<ServerName>, s: System, s': System, p: Packet, k: EnteringKey)
    requires Tables(all, s) && PacketOk(all, s, p) && Delivery(all, s, s', p) && k in s.owner
    requires !Ticket(s, k).quorum && Ticket(s', k).quorum
    ensures s.owner[k] == p.target && p.message == Message.TicketAdded(KeyOf(s, k))
        && ReachesQuorum(s.leaders[p.target], KeyOf(s, k))
    ensures Ticket(s', k) == ExitsAs(s.leaders[p.target], Acknowledged(Ticket(s, k), s.leaders[p.target].entering), k)
  {
    if s.owner[k] != p.target {
      TicketElsewhere(all, s, s', p, k);
      assert false;
    }
    TicketHere(all, s, s', p, k);
    AfterQuorum(p.target, s.leaders[p.target], p.message, k);
  }

  // ---------- quorum replication ----------

  /** Leader `a` has the ticket too, and keeps it until it is released. */
  ghost predicate Backup(s: System, k: EnteringKey, a: ServerName)
    requires k in s.owner
  {
    a in s.leaders && a != s.owner[k] && HasNumbered(s, a, k) && (k in s.released || Lists(s, a, KeyOf(s, k)))
  }

  ghost predicate BackedUp(s: System, k: EnteringKey) {
    k in s.owner && Ticket(s, k).quorum ==> exists a :: Backup(s, k, a)
  }

  ghost predicate Replicated(s: System) { forall k :: k in s.owner ==> BackedUp(s, k) }

  lemma BackupKept(all: set<ServerName>, s: System, s': System, k: EnteringKey, a: ServerName)
    requires Tables(all, s) && Evolves(s, s') && k in s.owner && k in s'.owner && Ticket(s, k).added && Backup(s, k, a)
    ensures Backup(s', k, a)
  {
    TicketEvolves(all, s, s', k);
    assert LeaderEvolves(s.leaders[a], s'.leaders[a], s'.released);
  }

  lemma OldBackup(all: set<ServerName>, s: System, s': System, k: EnteringKey)
    requires Tables(all, s) && Evolves(s, s') && k in s.owner && Ticket(s, k).quorum && BackedUp(s, k)
    ensures BackedUp(s', k)
  {
    CopyHere(all, s, s.owner[k], k);
    var a :| Backup(s, k, a);
    BackupKept(all, s, s', k, a);
  }

  lemma NewBackup(all: set<ServerName>, s: System, s': System, p: Packet, k: EnteringKey)
    requires Base(all, s) && Delivery(all, s, s', p) && Evolves(s, s') && k in s.owner
    requires !Ticket(s, k).quorum && Ticket(s', k).quorum
    ensures BackedUp(s', k)
  {
    assert PacketOk(all, s, p);
    NewlyQuorate(all, s, s', p, k);
    assert Backup(s, k, p.source);
    BackupKept(all, s, s', k, p.source);
  }

  lemma DeliveryReplicated(all: set<ServerName>, s: System, s': System, p: Packet)
    requires Base(all, s) && Replicated(s) && Delivery(all, s, s', p) && Evolves(s, s') && Base(all, s')
    ensures Replicated(s')
  {
    forall k | k in s'.owner ensures BackedUp(s', k) {
      if Ticket(s, k).quorum {
        OldBackup(all, s, s', k);
      } else if Ticket(s', k).quorum {
        NewBackup(all, s, s', p, k);
      }
    }
  }

  /** Two tickets that differ at most in the failure flag. */
  predicate SameProgress(c: Progress, d: Progress) { d == c.(failed := d.failed) }

  /** A leader changed, but not what it says about `k`. */
  lemma TicketSame(s: System, s': System, me: ServerName, l: Leader, k: EnteringKey)
    requires k in s.owner && k in s'.owner && s'.owner[k] == s.owner[k] && s.owner[k] in s.leaders
    requires k in s.leaders[s.owner[k]].copies && me in s.leaders && s'.leaders == s.leaders[me := l]
    requires k in s.leaders[me].copies ==> k in l.copies && SameProgress(s.leaders[me].copies[k], l.copies[k])
    ensures SameProgress(Ticket(s, k), Ticket(s', k))
  {
  }

  lemma IntroduceTicket(all: set<ServerName>, s: System, s': System, me: ServerName, j: EnteringKey, k: EnteringKey)
    requires Tables(all, s) && k in s.owner && Introduce(all, s, s', me, j)
    ensures k in s'.owner && s'.owner[k] == s.owner[k] && SameProgress(Ticket(s, k), Ticket(s', k))
  {
    var e := OnLock(all, me, s.leaders[me], j);
    IntroduceActs(all, s, s', me, j, e);
    TicketSame(s, s', me, e.leader, k);
  }

  lemma UnlockTicket(all: set<ServerName>, s: System, s': System, me: ServerName, t: TicketKey, k: EnteringKey)
    requires Tables(all, s) && k in s.owner && Unlock(all, s, s', me, t)
    ensures k in s'.owner && s'.owner[k] == s.owner[k] && SameProgress(Ticket(s, k), Ticket(s', k))
  {
    UnlockLeader(all, me, s.leaders[me], t);
    var e := OnUnlock(all, me, s.leaders[me], t);
    assert s'.leaders == s.leaders[me := e.leader] && s'.owner == s.owner;
    TicketSame(s, s', me, e.leader, k);
  }

  /** A LOCK or an UNLOCK. */
  ghost predicate ClientStep(all: set<ServerName>, s: System, s': System) {
    (exists me, j :: Introduce(all, s, s', me, j)) || (exists me, t :: Unlock(all, s, s', me, t))
  }

  lemma ClientTicket(all: set<ServerName>, s: System, s': System, k: EnteringKey)
    requires Tables(all, s) && k in s.owner && ClientStep(all, s, s')
    ensures k in s'.owner && s'.owner[k] == s.owner[k] && SameProgress(Ticket(s, k), Ticket(s', k))
  {
    if me, j :| Introduce(all, s, s', me, j) {
      IntroduceTicket(all, s, s', me, j, k);
    } else {
      var me, t :| Unlock(all, s, s', me, t);
      UnlockTicket(all, s, s', me, t, k);
    }
  }

  /** A new request has not progressed. */
  lemma ClientNew(all: set<ServerName>, s: System, s': System, k: EnteringKey)
    requires Tables(all, s) && k !in s.owner && k in s'.owner && ClientStep(all, s, s')
    ensures Ticket(s', k) == NewTicket(s'.owner[k], k)
  {
    if me, j :| Introduce(all, s, s', me, j) {
      IntroduceActs(all, s, s', me, j, OnLock(all, me, s.leaders[me], j));
    }
  }

  lemma {:induction false} ClientHistory(all: set<ServerName>, s: System, s': System)
    requires ClientStep(all, s, s')
    ensures s'.before == s.before && s'.locked == s.locked
  {
  }

  lemma ClientKeepsBase(all: set<ServerName>, s: System, s': System)
    requires Base(all, s) && ClientStep(all, s, s')
    ensures Base(all, s') && Evolves(s, s') && s'.before == s.before && s'.locked == s.locked
  {
    ClientHistory(all, s, s');
    if me, j :| Introduce(all, s, s', me, j) {
      IntroduceKeepsBase(all, s, s', me, j);
    } else {
      var me, t :| Unlock(all, s, s', me, t);
      UnlockKeepsBase(all, s, s', me, t);
    }
  }

  lemma ClientReplicated(all: set<ServerName>, s: System, s': System)
    requires Base(all, s) && Replicated(s) && ClientStep(all, s, s')
    ensures Replicated(s')
  {
    ClientKeepsBase(all, s, s');
    forall k | k in s'.owner ensures BackedUp(s', k) {
      if k !in s.owner {
        ClientNew(all, s, s', k);
      } else {
        ClientTicket(all, s, s', k);
        if Ticket(s, k).quorum {
          OldBackup(all, s, s', k);
        }
      }
    }
  }

  lemma ForgetReplicated(all: set<ServerName>, s: System, s': System, k: EnteringKey)
    requires Base(all, s) && Replicated(s) && Forget(s, s', k)
    ensures Replicated(s')
  {
    forall j | j in s'.owner ensures BackedUp(s', j) {
      assert j != k && BackedUp(s, j);
      ForgetKeeps(all, s, s', k, s.owner[j], j);
      if Ticket(s, j).quorum {
        var a :| Backup(s, j, a);
        ForgetKeeps(all, s, s', k, a, j);
        assert Backup(s', j, a);
      }
    }
  }

  // ---------- first come, first served ----------

  /** Every answer that ticket `l` may still get counts ticket `e`. */
  ghost predicate WillSee(s: System, e: EnteringKey, l: EnteringKey) {
    forall p :: p in s.net && p.message.Entering() == l ==>
      && (p.message.GetMaxTicket? ==> Lists(s, p.target, KeyOf(s, e)))
      && (p.message.MaxTicketIs? ==> Ticket(s, e).number <= p.message.number)
  }

  /** The number of `l` is larger than that of `e`, or is bound to become so. */
  ghost predicate Sees(s: System, e: EnteringKey, l: EnteringKey) {
    if Ticket(s, l).added then Ticket(s, e).number < Ticket(s, l).number
    else Ticket(s, l).getMax && (Ticket(s, e).number <= Ticket(s, l).number || WillSee(s, e, l))
  }

  ghost predicate Served(s: System, e: EnteringKey, l: EnteringKey) {
    e in s.owner && l in s.owner && (e !in s.released ==> Ticket(s, e).quorum && Sees(s, e, l))
  }

  /** Whoever had its quorum when `l` asked for the largest number comes before `l`. */
  ghost predicate InOrder(s: System) {
    forall l, e :: l in s.before && e in s.before[l] ==> Served(s, e, l)
  }

  lemma LastIsLargest(l: Leader, t: TicketKey)
    requires t in l.tickets
    ensures t.number <= GetLast(l.tickets)
  {
  }

  /** WillSee survives a delivery: the receiver of GET_MAX_TICKET still lists the ticket. */
  lemma WillSeeKept(all: set<ServerName>, s: System, s': System, p: Packet, e: EnteringKey, l: EnteringKey)
    requires Base(all, s) && Delivery(all, s, s', p) && Evolves(s, s') && Base(all, s')
    requires e in s.owner && Ticket(s, e).added && e !in s'.released && l in s.owner && Ticket(s, l).getMax
    requires WillSee(s, e, l)
    ensures WillSee(s', e, l)
  {
    TicketEvolves(all, s, s', e);
    DeliveryActs(all, s, s', p);
    forall q | q in s'.net && q.message.Entering() == l
      ensures q.message.GetMaxTicket? ==> Lists(s', q.target, KeyOf(s', e))
      ensures q.message.MaxTicketIs? ==> Ticket(s', e).number <= q.message.number
    {
      if q in s.net {
        assert Evolves(s, s');
        if q.message.GetMaxTicket? {
          assert LeaderEvolves(s.leaders[q.target], s'.leaders[q.target], s'.released);
        }
      } else {
        OutSends(all, s.leaders[p.target], p, q);
        CopyHere(all, s, s.owner[l], l);
        if q.message.MaxTicketIs? {
          LastIsLargest(s.leaders[p.target], KeyOf(s, e));
        }
      }
    }
  }

  /** Once the order of two tickets is settled it stays settled. */
  lemma SeesKept(all: set<ServerName>, s: System, s': System, p: Packet, e: EnteringKey, l: EnteringKey)
    requires Base(all, s) && Delivery(all, s, s', p) && Evolves(s, s') && Base(all, s')
    requires e in s.owner && Ticket(s, e).added && e !in s'.released && l in s.owner
    requires Sees(s, e, l)
    ensures Sees(s', e, l)
  {
    TicketEvolves(all, s, s', e);
    TicketEvolves(all, s, s', l);
    assert PacketOk(all, s, p);
    if !Ticket(s, l).added {
      CopyHere(all, s, s.owner[l], l);
      if Ticket(s', l).added {
        NewlyAdded(all, s, s', p, l);
      } else {
        SameNumber(all, s, s', p, l);
        if WillSee(s, e, l) {
          WillSeeKept(all, s, s', p, e, l);
        }
      }
    }
  }

  lemma SameNumber(all: set<ServerName>, s: System, s': System, p: Packet, l: EnteringKey)
    requires Tables(all, s) && PacketOk(all, s, p) && Delivery(all, s, s', p) && l in s.owner
    requires Ticket(s, l).getMax && !Ticket(s', l).added
    ensures Ticket(s', l).number == Ticket(s, l).number
  {
    if s.owner[l] == p.target {
      TicketHere(all, s, s', p, l);
      AfterNumber(p.target, s.leaders[p.target], p.message, l);
    } else {
      TicketElsewhere(all, s, s', p, l);
    }
  }

  /** With at most three leaders, two that list a ticket leave no third pair without it. */
  lemma ThreeLeaders(all: set<ServerName>, a: ServerName, b: ServerName, c: ServerName, r: ServerName)
    requires |all| <= 3 && a in all && b in all && c in all && r in all && a != b && a != c && b != c
    ensures r == a || r == b || r == c
  {
    if r != a && r != b && r != c {
      var four := {a, b, c, r};
      assert |four| == 4;
      SubsetSize(four, all);
    }
  }

  /** A ticket that starts numbering sees every ticket that has its quorum: the tables of
      its own leader and of the leaders it asks include one of the two that list it. */
  lemma NumberingSees(all: set<ServerName>, s: System, s': System, p: Packet, e: EnteringKey, l: EnteringKey)
    requires |all| <= 3 && Base(all, s) && Replicated(s) && Delivery(all, s, s', p) && Evolves(s, s') && Base(all, s')
    requires e in Quorate(s) && e !in s'.released
    requires l in s.owner && !Ticket(s, l).getMax && Ticket(s', l).getMax
    ensures Sees(s', e, l)
  {
    assert PacketOk(all, s, p);
    NewlyNumbering(all, s, s', p, l);
    CopyHere(all, s, s.owner[e], e);
    CopyHere(all, s, s.owner[l], l);
    TicketEvolves(all, s, s', e);
    if Lists(s, p.target, KeyOf(s, e)) {
      LastIsLargest(s.leaders[p.target], KeyOf(s, e));
    } else {
      NumberingAsks(all, s, s', p, e, l);
    }
  }

  lemma NumberingAsks(all: set<ServerName>, s: System, s': System, p: Packet, e: EnteringKey, l: EnteringKey)
    requires |all| <= 3 && Base(all, s) && Replicated(s) && Delivery(all, s, s', p) && Evolves(s, s') && Base(all, s')
    requires e in Quorate(s) && e !in s'.released && !Lists(s, p.target, KeyOf(s, e))
    requires l in s.owner && !Ticket(s, l).getMax && p.message == LockEntered(l) && s.owner[l] == p.target
    ensures WillSee(s', e, l)
  {
    forall q | q in s'.net && q.message.Entering() == l
      ensures q.message.GetMaxTicket? ==> Lists(s', q.target, KeyOf(s', e))
      ensures !q.message.MaxTicketIs?
    {
      NumberingPacket(all, s, s', p, l, q);
      if q.message.GetMaxTicket? {
        NumberingTarget(all, s, s', p, e, q);
      }
    }
  }

  lemma NumberingTarget(all: set<ServerName>, s: System, s': System, p: Packet, e: EnteringKey, q: Packet)
    requires |all| <= 3 && Base(all, s) && Replicated(s) && Evolves(s, s')
    requires e in Quorate(s) && e !in s'.released && !Lists(s, p.target, KeyOf(s, e))
    requires q.message.GetMaxTicket? && PacketOk(all, s', q) && p.target in all && s'.owner[q.message.key] == p.target
    ensures Lists(s', q.target, KeyOf(s', e))
  {
    OwnerLists(all, s, e);
    EveryoneElseLists(all, s, e, p.target, q.target);
    TicketEvolves(all, s, s', e);
    assert LeaderEvolves(s.leaders[q.target], s'.leaders[q.target], s'.released);
  }

  lemma OwnerLists(all: set<ServerName>, s: System, e: EnteringKey)
    requires Tables(all, s) && e in Quorate(s)
    ensures Lists(s, s.owner[e], KeyOf(s, e)) && Ticket(s, e).added
  {
    CopyHere(all, s, s.owner[e], e);
  }

  /** A quorate ticket that leader `me` does not list is listed by all the others. */
  lemma EveryoneElseLists(all: set<ServerName>, s: System, e: EnteringKey, me: ServerName, r: ServerName)
    requires |all| <= 3 && Tables(all, s) && Replicated(s) && e in Quorate(s)
    requires me in all && r in all && r != me && !Lists(s, me, KeyOf(s, e))
    ensures Lists(s, r, KeyOf(s, e))
  {
    OwnerLists(all, s, e);
    assert BackedUp(s, e);
    var a :| Backup(s, e, a);
    var o := s.owner[e];
    assert Lists(s, a, KeyOf(s, e)) && a != o;
    ThreeLeaders(all, me, o, a, r);
  }

  lemma NumberingPacket(all: set<ServerName>, s: System, s': System, p: Packet, l: EnteringKey, q: Packet)
    requires Base(all, s) && Delivery(all, s, s', p) && p.message == LockEntered(l) && l in s.owner
        && !Ticket(s, l).getMax
    requires q in s'.net && q.message.Entering() == l
    ensures !q.message.MaxTicketIs?
  {
    DeliveryActs(all, s, s', p);
    if q in s.net {
      assert PacketOk(all, s, q);
    } else {
      OutSends(all, s.leaders[p.target], p, q);
    }
  }

  lemma DeliveredBefore(all: set<ServerName>, s: System, s': System, p: Packet, l: EnteringKey)
    requires Base(all, s) && Delivery(all, s, s', p) && l in s'.before
    ensures (l in s.before && s'.before[l] == s.before[l])
         || (p.message == LockEntered(l) && StartsNumbering(s.leaders[p.target], l) && s'.before[l] == Quorate(s))
  {
  }

  lemma StartsHere(all: set<ServerName>, s: System, s': System, p: Packet, l: EnteringKey)
    requires Base(all, s) && Delivery(all, s, s', p) && p.message == LockEntered(l)
        && StartsNumbering(s.leaders[p.target], l)
    ensures l in s.owner && !Ticket(s, l).getMax && Ticket(s', l).getMax
  {
    assert PacketOk(all, s, p);
    TicketHere(all, s, s', p, l);
  }

  lemma DeliveryInOrder(all: set<ServerName>, s: System, s': System, p: Packet)
    requires |all| <= 3 && Base(all, s) && Replicated(s) && InOrder(s)
    requires Delivery(all, s, s', p) && Evolves(s, s') && Base(all, s')
    ensures InOrder(s')
  {
    forall l, e | l in s'.before && e in s'.before[l] ensures Served(s', e, l) {
      DeliveredBefore(all, s, s', p, l);
      DeliveryServed(all, s, s', p, e, l);
    }
  }

  lemma DeliveryServed(all: set<ServerName>, s: System, s': System, p: Packet, e: EnteringKey, l: EnteringKey)
    requires |all| <= 3 && Base(all, s) && Replicated(s) && Delivery(all, s, s', p) && Evolves(s, s') && Base(all, s')
    requires Served(s, e, l) || (e in Quorate(s) && p.message == LockEntered(l)
        && StartsNumbering(s.leaders[p.target], l))
    ensures Served(s', e, l)
  {
    if e !in s'.released {
      TicketEvolves(all, s, s', e);
      if Served(s, e, l) {
        CopyHere(all, s, s.owner[e], e);
        SeesKept(all, s, s', p, e, l);
      } else {
        StartsHere(all, s, s', p, l);
        NumberingSees(all, s, s', p, e, l);
      }
    } else {
      if !Served(s, e, l) {
        StartsHere(all, s, s', p, l);
      }
    }
  }

  lemma ClientSends(all: set<ServerName>, s: System, s': System, q: Packet)
    requires Base(all, s) && ClientStep(all, s, s') && q in s'.net
    ensures q in s.net || q.message.LockEntering? || q.message.DropTicket? || q.message.ActivateLock?
    ensures q !in s.net && q.message.ActivateLock? ==>
        q.source in s'.leaders && Activates(s'.leaders[q.source], q.message.ticket)
  {
    if q !in s.net {
      if me, j :| Introduce(all, s, s', me, j) {
      } else {
        var me, t :| Unlock(all, s, s', me, t);
        UnlockSends(all, me, s.leaders[me], t, q);
      }
    }
  }

  lemma ClientSeesPacket(all: set<ServerName>, s: System, s': System, e: EnteringKey, l: EnteringKey, q: Packet)
    requires Base(all, s) && ClientStep(all, s, s') && Evolves(s, s')
    requires e in s.owner && Ticket(s, e).added && e !in s'.released && WillSee(s, e, l)
    requires q in s'.net && q.message.Entering() == l
    ensures q.message.GetMaxTicket? ==> Lists(s', q.target, KeyOf(s', e))
    ensures q.message.MaxTicketIs? ==> Ticket(s', e).number <= q.message.number
  {
    ClientTicket(all, s, s', e);
    ClientSends(all, s, s', q);
    if q.target in s.leaders {
      assert LeaderEvolves(s.leaders[q.target], s'.leaders[q.target], s'.released);
    }
  }

  lemma ClientSees(all: set<ServerName>, s: System, s': System, e: EnteringKey, l: EnteringKey)
    requires Base(all, s) && ClientStep(all, s, s') && Evolves(s, s')
    requires e in s.owner && l in s.owner && Ticket(s, e).added && e !in s'.released && Sees(s, e, l)
    ensures Sees(s', e, l)
  {
    ClientTicket(all, s, s', e);
    ClientTicket(all, s, s', l);
    if WillSee(s, e, l) {
      hide Base, ClientStep, Evolves;
      forall q | q in s'.net && q.message.Entering() == l
        ensures q.message.GetMaxTicket? ==> Lists(s', q.target, KeyOf(s', e))
        ensures q.message.MaxTicketIs? ==> Ticket(s', e).number <= q.message.number
      {
        ClientSeesPacket(all, s, s', e, l, q);
      }
    }
  }

  lemma ClientInOrder(all: set<ServerName>, s: System, s': System)
    requires Base(all, s) && InOrder(s) && ClientStep(all, s, s')
    ensures InOrder(s')
  {
    ClientKeepsBase(all, s, s');
    forall l, e | l in s'.before && e in s'.before[l] ensures Served(s', e, l) {
      assert Served(s, e, l);
      if e !in s'.released {
        CopyHere(all, s, s.owner[e], e);
        ClientTicket(all, s, s', e);
        ClientSees(all, s, s', e, l);
      }
    }
  }

  lemma ForgetSees(all: set<ServerName>, s: System, s': System, k: EnteringKey, e: EnteringKey, l: EnteringKey)
    requires Base(all, s) && Forget(s, s', k) && e != k && l != k && Sees(s, e, l)
    ensures Sees(s', e, l)
  {
    ForgetKeeps(all, s, s', k, "", e);
    ForgetKeeps(all, s, s', k, "", l);
    if WillSee(s, e, l) {
      forall q | q in s'.net && q.message.Entering() == l
        ensures q.message.GetMaxTicket? ==> Lists(s', q.target, KeyOf(s', e))
        ensures q.message.MaxTicketIs? ==> Ticket(s', e).number <= q.message.number
      {
        ForgetKeeps(all, s, s', k, q.target, e);
      }
    }
  }

  lemma ForgetInOrder(all: set<ServerName>, s: System, s': System, k: EnteringKey)
    requires Base(all, s) && InOrder(s) && Forget(s, s', k)
    ensures InOrder(s')
  {
    forall l, e | l in s'.before && e in s'.before[l] ensures Served(s', e, l) {
      assert Served(s, e, l);
      ForgetKeeps(all, s, s', k, "", e);
      ForgetKeeps(all, s, s', k, "", l);
      if e !in s'.released {
        ForgetSees(all, s, s', k, e, l);
      }
    }
  }

  // ---------- all runs ----------

  ghost predicate Ordered(all: set<ServerName>, s: System) {
    Base(all, s) && Replicated(s) && InOrder(s)
  }

  lemma ClientKeepsOrdered(all: set<ServerName>, s: System, s': System)
    requires Ordered(all, s) && ClientStep(all, s, s')
    ensures Ordered(all, s')
  {
    ClientKeepsBase(all, s, s');
    ClientReplicated(all, s, s');
    ClientInOrder(all, s, s');
  }

  lemma StepKeepsOrdered(all: set<ServerName>, s: System, s': System, disciplined: bool)
    requires |all| <= 3 && Ordered(all, s) && Step(all, s, s', disciplined, true)
    ensures Ordered(all, s')
  {
    if p :| Delivery(all, s, s', p) {
      DeliveryKeepsBase(all, s, s', p);
      DeliveryReplicated(all, s, s', p);
      DeliveryInOrder(all, s, s', p);
    } else if me, t :| Unlock(all, s, s', me, t) {
      ClientKeepsOrdered(all, s, s');
    } else {
      var me, k :| Request(all, s, s', me, k) && Unmentioned(s, k);
      var forgotten := Forgotten(s, k);
      RequestInHalves(all, s, s', me, k);
      ForgetKeepsBase(all, s, forgotten, k);
      ForgetReplicated(all, s, forgotten, k);
      ForgetInOrder(all, s, forgotten, k);
      ClientKeepsOrdered(all, forgotten, s');
    }
  }

  /** Two successive states of a run. */
  lemma RunSteps(all: set<ServerName>, run: seq<System>, disciplined: bool, careful: bool, i: nat)
    requires Run(all, run, disciplined, careful) && 0 < i < |run|
    ensures Step(all, run[i - 1], run[i], disciplined, careful)
  {
    assert Step(all, run[i - 1], run[i - 1 + 1], disciplined, careful);
  }

  lemma InitOrdered(all: set<ServerName>, s: System)
    requires Init(all, s)
    ensures Ordered(all, s)
  {
    InitBase(all, s);
  }

  lemma {:induction false} RunOrdered(all: set<ServerName>, run: seq<System>, disciplined: bool, i: nat)
    requires |all| <= 3 && Run(all, run, disciplined, true) && i < |run|
    ensures Ordered(all, run[i])
  {
    if i == 0 {
      InitOrdered(all, run[0]);
    } else {
      hide Ordered, Step;
      RunOrdered(all, run, disciplined, i - 1);
      RunSteps(all, run, disciplined, true, i);
      StepKeepsOrdered(all, run[i - 1], run[i], disciplined);
    }
  }

  /** First come, first served.  If `e` had its TICKET_ADDED quorum when `l` asked for the
      largest number, and `e` was not removed since, the number of `l` is the larger one --
      whatever the order in which the packets travelled. */
  lemma FirstComeFirstServed(all: set<ServerName>, run: seq<System>, i: nat, e: EnteringKey, l: EnteringKey)
    requires |all| <= 3 && Run(all, run, false, true) && i < |run|
    requires l in run[i].before && e in run[i].before[l] && e !in run[i].released
    requires Ticket(run[i], l).added
    ensures Ticket(run[i], e).number < Ticket(run[i], l).number
    ensures KeyBefore(KeyOf(run[i], e), KeyOf(run[i], l))
  {
    RunOrdered(all, run, false, i);
    assert Served(run[i], e, l);
  }

  /** Quorum replication.  A ticket past its quorum is in a second leader's hands with the
      owner's number, and in its table until it is released; and any two leaders that list
      the ticket list it under the same key. */
  lemma QuorumReplication(all: set<ServerName>, run: seq<System>, i: nat, k: EnteringKey)
    requires |all| <= 3 && Run(all, run, false, true) && i < |run| && k in run[i].owner
    ensures Ticket(run[i], k).quorum ==>
        exists a :: Backup(run[i], k, a) && run[i].leaders[a].copies[k].number == Ticket(run[i], k).number
    ensures forall m, t :: Lists(run[i], m, t) && t.entering == k ==> t == KeyOf(run[i], k)
  {
    var s := run[i];
    RunOrdered(all, run, false, i);
    if Ticket(s, k).quorum {
      assert BackedUp(s, k);
      var a :| Backup(s, k, a);
      CopyHere(all, s, a, k);
    }
    forall m, t | Lists(s, m, t) && t.entering == k ensures t == KeyOf(s, k) {
      ListedKey(all, s, m, t);
    }
  }

  /** LOCKED is only sent for a ticket that has its quorum. */
  ghost predicate LockedQuorate(s: System) { forall k :: k in s.locked ==> k in s.owner && Ticket(s, k).quorum }

  lemma NewLockHasQuorum(all: set<ServerName>, s: System, p: Packet, k: EnteringKey)
    requires Base(all, s) && p.target in s.leaders && Tabled(s.leaders[p.target])
    requires k in Handle(all, s.leaders[p.target], p).locked
    ensures k in s.owner && Ticket(s, k).quorum
  {
    LockedBecause(all, s.leaders[p.target], p, k);
    CopyHere(all, s, p.target, k);
  }

  lemma LockHadQuorum(all: set<ServerName>, s: System, s': System, p: Packet, k: EnteringKey)
    requires Base(all, s) && Evolves(s, s') && LockedQuorate(s) && Delivery(all, s, s', p) && k in s'.locked
    ensures k in s'.owner && Ticket(s', k).quorum
  {
    if k !in s.locked {
      NewLockHasQuorum(all, s, p, k);
    }
    TicketEvolves(all, s, s', k);
  }

  lemma DeliveryLocksQuorate(all: set<ServerName>, s: System, s': System, p: Packet)
    requires Base(all, s) && Evolves(s, s') && LockedQuorate(s) && Delivery(all, s, s', p)
    ensures LockedQuorate(s')
  {
    forall k | k in s'.locked ensures k in s'.owner && Ticket(s', k).quorum {
      LockHadQuorum(all, s, s', p, k);
    }
  }

  lemma StepLocksQuorate(all: set<ServerName>, s: System, s': System, disciplined: bool)
    requires Base(all, s) && LockedQuorate(s) && Step(all, s, s', disciplined, true)
    ensures LockedQuorate(s')
  {
    StepKeepsBase(all, s, s', disciplined);
    if p :| Delivery(all, s, s', p) {
      DeliveryKeepsBase(all, s, s', p);
      DeliveryLocksQuorate(all, s, s', p);
    } else if me, t :| Unlock(all, s, s', me, t) {
      ClientKeepsBase(all, s, s');
      ClientLocksQuorate(all, s, s');
    } else {
      var me, k :| Request(all, s, s', me, k) && Unmentioned(s, k);
      var forgotten := Forgotten(s, k);
      RequestInHalves(all, s, s', me, k);
      ForgetKeepsBase(all, s, forgotten, k);
      forall j | j in forgotten.locked ensures j in forgotten.owner && Ticket(forgotten, j).quorum {
        ForgetKeeps(all, s, forgotten, k, "", j);
      }
      ClientLocksQuorate(all, forgotten, s');
    }
  }

  lemma ClientLocksQuorate(all: set<ServerName>, s: System, s': System)
    requires Base(all, s) && LockedQuorate(s) && ClientStep(all, s, s')
    ensures LockedQuorate(s')
  {
    ClientKeepsBase(all, s, s');
    forall k | k in s'.locked ensures k in s'.owner && Ticket(s', k).quorum {
      TicketEvolves(all, s, s', k);
    }
  }

  lemma InitLocksQuorate(all: set<ServerName>, s: System)
    requires Init(all, s)
    ensures LockedQuorate(s)
  {
  }

  lemma {:induction false} RunLocksQuorate(all: set<ServerName>, run: seq<System>, disciplined: bool, i: nat)
    requires |all| <= 3 && Run(all, run, disciplined, true) && i < |run|
    ensures LockedQuorate(run[i])
  {
    if i == 0 {
      InitLocksQuorate(all, run[0]);
    } else {
      hide Base, LockedQuorate, Step;
      RunSteps(all, run, disciplined, true, i);
      RunOrdered(all, run, disciplined, i - 1);
      RunLocksQuorate(all, run, disciplined, i - 1);
      StepLocksQuorate(all, run[i - 1], run[i], disciplined);
    }
  }

  /** What a client that has LOCKED can rely on when the owner goes down: a second leader has the
      ticket, and lists it under the owner's key until the ticket is released. */
  lemma LockedIsReplicated(all: set<ServerName>, run: seq<System>, i: nat, k: EnteringKey)
    requires |all| <= 3 && Run(all, run, false, true) && i < |run| && k in run[i].locked
    ensures k in run[i].owner
    ensures exists a :: Backup(run[i], k, a) && run[i].leaders[a].copies[k].number == Ticket(run[i], k).number
  {
    RunLocksQuorate(all, run, false, i);
    QuorumReplication(all, run, i, k);
  }
}
