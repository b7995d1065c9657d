/** Where a ticket is while it enters, for disciplined deliveries (see Bakery.Disciplined). */
module BakeryPlaces {
  import opened KeyOrder
  import opened TicketProgress
  import opened Leader
  import opened LeaderFacts
  import opened Bakery
  import opened BakeryTables
  import opened BakeryPackets
  import opened BakerySteps
  import opened BakeryInvariant
  import opened BakeryOrder

  // ---------- where a ticket is ----------

  ghost predicate IsEntering(s: System, m: ServerName, k: EnteringKey) {
    m in s.leaders && k in s.leaders[m].entering
  }

  ghost predicate InFlight(s: System, m: ServerName, message: Message) {
    exists p :: p in s.net && p.target == m && p.message == message
  }

  /** A leader that got LOCK_ENTERING has the ticket entering until it lists it for good. */
  ghost predicate Placed(s: System, m: ServerName, k: EnteringKey) {
    || InFlight(s, m, LockEntering(k))
    || (HasCopy(s, m, k) && (k in s.released || IsEntering(s, m, k)
        || (Ticket(s, k).quorum && Lists(s, m, KeyOf(s, k)))))
  }

  /** Once numbered, a ticket is listed everywhere, or its ADD_TICKET is still under way. */
  ghost predicate Delivered(s: System, m: ServerName, k: EnteringKey) {
    Ticket(s, k).added ==> InFlight(s, m, AddTicket(KeyOf(s, k))) || Lists(s, m, KeyOf(s, k)) || k in s.released
  }

  /** Nobody learns of the ticket after it asked for the largest number. */
  ghost predicate Announced(s: System, k: EnteringKey) {
    Ticket(s, k).getMax ==> forall p :: p in s.net && p.message.LockEntering? ==> p.message.key != k
  }

  ghost predicate Places(all: set<ServerName>, s: System) {
    forall k, m :: k in s.owner && m in all ==> Placed(s, m, k) && Delivered(s, m, k) && Announced(s, k)
  }

  // ---------- the places are kept ----------

  lemma StaysInFlight(all: set<ServerName>, s: System, s': System, p: Packet, m: ServerName, message: Message)
    requires Delivery(all, s, s', p) && InFlight(s, m, message) && !(p.target == m && p.message == message)
    ensures InFlight(s', m, message)
  {
    var q :| q in s.net && q.target == m && q.message == message;
    assert q in s.net - multiset{p};
    assert q in s'.net;
  }

  lemma ListsKept(all: set<ServerName>, s: System, s': System, m: ServerName, k: EnteringKey)
    requires Tables(all, s) && Evolves(s, s') && k in s.owner && Ticket(s, k).added && Lists(s, m, KeyOf(s, k))
    ensures Lists(s', m, KeyOf(s', k)) || k in s'.released
  {
    TicketEvolves(all, s, s', k);
    assert LeaderEvolves(s.leaders[m], s'.leaders[m], s'.released);
  }

  /** Where a LOCK_ENTERING packet goes. */
  lemma EnteringArrives(all: set<ServerName>, s: System, s': System, p: Packet, k: EnteringKey)
    requires Base(all, s) && Delivery(all, s, s', p) && p.message == LockEntering(k)
    ensures HasCopy(s', p.target, k) && IsEntering(s', p.target, k)
  {
    DeliveredTo(all, s, s', p);
    CopyHere(all, s, p.target, k);
  }

  /** What ends an entering entry has the ticket listed there, or released. */
  lemma EnteringLeaves(all: set<ServerName>, s: System, s': System, p: Packet, m: ServerName, k: EnteringKey)
    requires Base(all, s) && Delivery(all, s, s', p) && Disciplined(s, p) && Evolves(s, s') && Base(all, s')
    requires k in s.owner && m in all && Delivered(s, m, k)
    requires IsEntering(s, m, k) && !IsEntering(s', m, k)
    ensures k in s'.released || (Ticket(s', k).quorum && Lists(s', m, KeyOf(s', k)))
  {
    assert PacketOk(all, s, p);
    DeliveredTo(all, s, s', p);
    TicketEvolves(all, s, s', k);
    assert m == p.target;
    LostEntering(all, s.leaders[m], p, k);
    CopyHere(all, s, s.owner[k], k);
    if p.message.LockExiting? {
      assert !InFlight(s, m, AddTicket(KeyOf(s, k)));
      if k !in s.released {
        ListsKept(all, s, s', m, k);
      }
    } else if p.message.TicketAdded? {
      TicketHere(all, s, s', p, k);
      ListsKept(all, s, s', m, k);
    }
  }

  lemma DeliveryPlaced(all: set<ServerName>, s: System, s': System, p: Packet, m: ServerName, k: EnteringKey)
    requires Base(all, s) && Delivery(all, s, s', p) && Disciplined(s, p) && Evolves(s, s') && Base(all, s')
    requires k in s.owner && m in all && Placed(s, m, k) && Delivered(s, m, k)
    ensures Placed(s', m, k)
  {
    if InFlight(s, m, LockEntering(k)) {
      if p.target == m && p.message == LockEntering(k) {
        EnteringArrives(all, s, s', p, k);
      } else {
        StaysInFlight(all, s, s', p, m, LockEntering(k));
      }
    } else {
      assert LeaderEvolves(s.leaders[m], s'.leaders[m], s'.released);
      if IsEntering(s, m, k) {
        if !IsEntering(s', m, k) {
          EnteringLeaves(all, s, s', p, m, k);
        }
      } else if k !in s.released {
        CopyHere(all, s, s.owner[k], k);
        TicketEvolves(all, s, s', k);
        ListsKept(all, s, s', m, k);
      }
    }
  }

  /** ADD_TICKET finds the ticket entering, listed already, or gone. */
  lemma AddTicketArrives(all: set<ServerName>, s: System, s': System, p: Packet, k: EnteringKey)
    requires Base(all, s) && Delivery(all, s, s', p) && Evolves(s, s') && k in s.owner
    requires p.message == AddTicket(KeyOf(s, k)) && Placed(s, p.target, k) && Announced(s, k)
    ensures Lists(s', p.target, KeyOf(s, k)) || k in s'.released
  {
    assert PacketOk(all, s, p);
    CopyHere(all, s, s.owner[k], k);
    DeliveredTo(all, s, s', p);
    if k !in s.released && !IsEntering(s, p.target, k) {
      ListsKept(all, s, s', p.target, k);
      TicketEvolves(all, s, s', k);
    }
  }

  /** The owner that numbers its ticket lists it and tells every other leader. */
  lemma NumberedIsDelivered(all: set<ServerName>, s: System, s': System, p: Packet, m: ServerName, k: EnteringKey)
    requires Base(all, s) && Delivery(all, s, s', p) && k in s.owner && m in all
    requires !Ticket(s, k).added && Ticket(s', k).added
    ensures Delivered(s', m, k)
  {
    assert PacketOk(all, s, p);
    NewlyAdded(all, s, s', p, k);
    DeliveryActs(all, s, s', p);
    TicketHere(all, s, s', p, k);
    var t := KeyOf(s', k);
    AfterAdded(p.target, s.leaders[p.target], p.message, k);
    if m == p.target {
      assert t in Handle(all, s.leaders[m], p).leader.tickets;
    } else {
      var q := Packet(p.target, m, AddTicket(t));
      assert q in Broadcast(all, p.target, AddTicket(t));
      assert q in s'.net;
    }
  }

  lemma DeliveryDelivered(all: set<ServerName>, s: System, s': System, p: Packet, m: ServerName, k: EnteringKey)
    requires Base(all, s) && Delivery(all, s, s', p) && Evolves(s, s')
    requires k in s.owner && m in all && Placed(s, m, k) && Delivered(s, m, k) && Announced(s, k)
    ensures Delivered(s', m, k)
  {
    if !Ticket(s, k).added {
      if Ticket(s', k).added {
        NumberedIsDelivered(all, s, s', p, m, k);
      }
    } else {
      TicketEvolves(all, s, s', k);
      if k in s'.released {
      } else if Lists(s, m, KeyOf(s, k)) {
        ListsKept(all, s, s', m, k);
      } else if p.target == m && p.message == AddTicket(KeyOf(s, k)) {
        AddTicketArrives(all, s, s', p, k);
      } else {
        StaysInFlight(all, s, s', p, m, AddTicket(KeyOf(s, k)));
      }
    }
  }

  lemma DeliveryAnnounced(all: set<ServerName>, s: System, s': System, p: Packet, k: EnteringKey)
    requires Base(all, s) && Delivery(all, s, s', p) && Disciplined(s, p) && k in s.owner && Announced(s, k)
    ensures Announced(s', k)
  {
    DeliveryActs(all, s, s', p);
    if Ticket(s', k).getMax {
      if !Ticket(s, k).getMax {
        NewlyNumbering(all, s, s', p, k);
      }
      forall q | q in s'.net && q.message.LockEntering? ensures q.message.key != k {
        if q !in s.net {
          OutSends(all, s.leaders[p.target], p, q);
        }
      }
    }
  }

  lemma DeliveryPlace(all: set<ServerName>, s: System, s': System, p: Packet, m: ServerName, k: EnteringKey)
    requires Base(all, s) && Delivery(all, s, s', p) && Disciplined(s, p) && Evolves(s, s') && Base(all, s')
    requires k in s.owner && m in all && Placed(s, m, k) && Delivered(s, m, k) && Announced(s, k)
    ensures Placed(s', m, k) && Delivered(s', m, k) && Announced(s', k)
  {
    hide Base, Delivery, Disciplined, Evolves, Placed, Delivered, Announced;
    DeliveryPlaced(all, s, s', p, m, k);
    DeliveryDelivered(all, s, s', p, m, k);
    DeliveryAnnounced(all, s, s', p, k);
  }

  lemma DeliveryKeepsOwners(all: set<ServerName>, s: System, s': System, p: Packet)
    requires Delivery(all, s, s', p)
    ensures s'.owner == s.owner
  {
    hide Handle;
  }

  lemma PlaceHere(all: set<ServerName>, s: System, m: ServerName, k: EnteringKey)
    requires Places(all, s) && k in s.owner && m in all
    ensures Placed(s, m, k) && Delivered(s, m, k) && Announced(s, k)
  {
  }

  lemma PlacesEverywhere(all: set<ServerName>, s: System)
    requires forall k, m :: k in s.owner && m in all ==> Placed(s, m, k) && Delivered(s, m, k) && Announced(s, k)
    ensures Places(all, s)
  {
  }

  lemma DeliveryPlaceHere(all: set<ServerName>, s: System, s': System, p: Packet, m: ServerName, k: EnteringKey)
    requires Base(all, s) && Places(all, s) && Delivery(all, s, s', p) && Disciplined(s, p) && Evolves(s, s')
        && Base(all, s') && k in s.owner && m in all
    ensures Placed(s', m, k) && Delivered(s', m, k) && Announced(s', k)
  {
    hide Base, Places, Delivery, Disciplined, Evolves, Placed, Delivered, Announced;
    PlaceHere(all, s, m, k);
    DeliveryPlace(all, s, s', p, m, k);
  }

  lemma DeliveryPlaces(all: set<ServerName>, s: System, s': System, p: Packet)
    requires Base(all, s) && Places(all, s) && Delivery(all, s, s', p) && Disciplined(s, p) && Evolves(s, s')
        && Base(all, s')
    ensures Places(all, s')
  {
    hide Base, Places, Delivery, Disciplined, Evolves, Placed, Delivered, Announced;
    DeliveryKeepsOwners(all, s, s', p);
    forall k, m | k in s'.owner && m in all ensures Placed(s', m, k) && Delivered(s', m, k) && Announced(s', k) {
      DeliveryPlaceHere(all, s, s', p, m, k);
    }
    PlacesEverywhere(all, s');
  }

  // ---------- clients and forgetting ----------

  lemma StillInFlight(all: set<ServerName>, s: System, s': System, m: ServerName, message: Message)
    requires ClientStep(all, s, s') && InFlight(s, m, message)
    ensures InFlight(s', m, message)
  {
    var q :| q in s.net && q.target == m && q.message == message;
    assert q in s'.net;
  }

  lemma ClientEntering(all: set<ServerName>, s: System, s': System, m: ServerName, k: EnteringKey)
    requires Tables(all, s) && ClientStep(all, s, s') && IsEntering(s, m, k)
    ensures IsEntering(s', m, k)
  {
    if me, j :| Introduce(all, s, s', me, j) {
      IntroduceActs(all, s, s', me, j, OnLock(all, me, s.leaders[me], j));
    } else {
      var me, t :| Unlock(all, s, s', me, t);
      UnlockLeader(all, me, s.leaders[me], t);
    }
  }

  lemma ClientOld(all: set<ServerName>, s: System, s': System, m: ServerName, k: EnteringKey)
    requires Base(all, s) && ClientStep(all, s, s') && Evolves(s, s') && m in all && k in s.owner
    requires Placed(s, m, k) && Delivered(s, m, k) && Announced(s, k)
    ensures Placed(s', m, k) && Delivered(s', m, k)
  {
    ClientTicket(all, s, s', k);
    CopyHere(all, s, s.owner[k], k);
    if Ticket(s, k).added && Lists(s, m, KeyOf(s, k)) {
      ListsKept(all, s, s', m, k);
    }
    if InFlight(s, m, AddTicket(KeyOf(s, k))) {
      StillInFlight(all, s, s', m, AddTicket(KeyOf(s, k)));
    }
    if InFlight(s, m, LockEntering(k)) {
      StillInFlight(all, s, s', m, LockEntering(k));
    } else {
      assert LeaderEvolves(s.leaders[m], s'.leaders[m], s'.released);
      if IsEntering(s, m, k) {
        ClientEntering(all, s, s', m, k);
      }
    }
  }

  lemma ClientAnnounced(all: set<ServerName>, s: System, s': System, k: EnteringKey)
    requires Base(all, s) && ClientStep(all, s, s') && k in s.owner && Announced(s, k)
    ensures Announced(s', k)
  {
    ClientTicket(all, s, s', k);
    forall q | q in s'.net && q.message.LockEntering? && Ticket(s', k).getMax ensures q.message.key != k {
      if q !in s.net {
        NewEnteringPacket(all, s, s', q);
      }
    }
  }

  lemma NewEnteringPacket(all: set<ServerName>, s: System, s': System, q: Packet)
    requires Base(all, s) && ClientStep(all, s, s') && q in s'.net && q !in s.net && q.message.LockEntering?
    ensures q.message.key !in s.owner
  {
    if me, j :| Introduce(all, s, s', me, j) {
    } else {
      var me, t :| Unlock(all, s, s', me, t);
      UnlockSends(all, me, s.leaders[me], t, q);
    }
  }

  /** A new request is announced to every other leader. */
  lemma ClientPlacesNew(all: set<ServerName>, s: System, s': System, m: ServerName, k: EnteringKey)
    requires Base(all, s) && ClientStep(all, s, s') && k !in s.owner && k in s'.owner && m in all
    ensures Placed(s', m, k) && Delivered(s', m, k) && Announced(s', k)
  {
    ClientNew(all, s, s', k);
    if me, j :| Introduce(all, s, s', me, j) {
      var e := OnLock(all, me, s.leaders[me], j);
      IntroduceActs(all, s, s', me, j, e);
      if m == me {
        assert IsEntering(s', m, k);
      } else {
        var q := Packet(me, m, LockEntering(k));
        assert q in e.out;
        assert q in s'.net;
      }
    }
  }

  lemma ClientPlaces(all: set<ServerName>, s: System, s': System)
    requires Base(all, s) && Places(all, s) && ClientStep(all, s, s')
    ensures Places(all, s')
  {
    ClientKeepsBase(all, s, s');
    forall k, m | k in s'.owner && m in all ensures Placed(s', m, k) && Delivered(s', m, k) && Announced(s', k) {
      if k in s.owner {
        assert Placed(s, m, k) && Delivered(s, m, k) && Announced(s, k);
        ClientOld(all, s, s', m, k);
        ClientAnnounced(all, s, s', k);
      } else {
        ClientPlacesNew(all, s, s', m, k);
      }
    }
  }

  lemma ForgetPlaces(all: set<ServerName>, s: System, s': System, k: EnteringKey)
    requires Base(all, s) && Places(all, s) && Forget(s, s', k)
    ensures Places(all, s')
  {
    forall j, m | j in s'.owner && m in all ensures Placed(s', m, j) && Delivered(s', m, j) && Announced(s', j) {
      assert Placed(s, m, j) && Delivered(s, m, j) && Announced(s, j);
      ForgetKeeps(all, s, s', k, m, j);
      assert forall message :: InFlight(s', m, message) <==> InFlight(s, m, message);
    }
  }
}
