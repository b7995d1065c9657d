/** The bakery waiting invariant and mutual exclusion. */
module BakeryExclusion {
  import opened KeyOrder
  import opened TicketProgress
  import opened Leader
  import opened LeaderFacts
  import opened Bakery
  import opened BakeryTables
  import opened BakeryPackets
  import opened BakerySteps
  import opened BakeryInvariant
  import opened BakeryOrder
  import opened BakeryPlaces

  // ---------- waiting ----------

  /** At leader `m` the competitor `x` has its place for good: it is listed there, or it was
      released and can no longer be added there. */
  ghost predicate PastThePost(s: System, m: ServerName, x: EnteringKey) {
    || (Ticket(s, x).added && Lists(s, m, KeyOf(s, x)))
    || (x in s.released && (HasNumbered(s, m, x) || !IsEntering(s, m, x)))
  }

  /** The order of `e` and its competitor `x` is settled where `e` waits. */
  ghost predicate Settled(s: System, e: EnteringKey, x: EnteringKey) {
    e in s.owner && (Sees(s, e, x) || PastThePost(s, s.owner[e], x))
  }

  ghost predicate Competes(s: System, e: EnteringKey, x: EnteringKey) {
    && e in Quorate(s) && x in s.owner && x != e && Ticket(s, x).getMax && x !in Ticket(s, e).still
  }

  /** A ticket with its quorum only has to wait for the tickets in f_still_entering. */
  ghost predicate Waiting(s: System) {
    forall e, x :: Competes(s, e, x) ==> Settled(s, e, x)
  }

  lemma NotEnteringIsPast(all: set<ServerName>, s: System, m: ServerName, x: EnteringKey)
    requires Base(all, s) && Places(all, s) && m in all && x in s.owner && Ticket(s, x).getMax && !IsEntering(s, m, x)
    ensures PastThePost(s, m, x)
  {
    assert Placed(s, m, x) && Announced(s, x);
    CopyHere(all, s, s.owner[x], x);
  }

  lemma NotReentered(all: set<ServerName>, s: System, s': System, p: Packet, m: ServerName, x: EnteringKey)
    requires Base(all, s) && Delivery(all, s, s', p) && Announced(s, x) && Ticket(s, x).getMax
    requires m in all && !IsEntering(s, m, x)
    ensures !IsEntering(s', m, x)
  {
    DeliveredTo(all, s, s', p);
    assert p in s.net;
    if IsEntering(s', m, x) {
      NewEntering(all, s.leaders[m], p, x);
    }
  }

  lemma ListedIsPast(all: set<ServerName>, s: System, s': System, m: ServerName, x: EnteringKey)
    requires Tables(all, s) && Evolves(s, s') && x in s.owner && m in all
    requires Ticket(s, x).added && Lists(s, m, KeyOf(s, x))
    ensures PastThePost(s', m, x)
  {
    TicketEvolves(all, s, s', x);
    StillListed(all, s, m, KeyOf(s, x));
    assert LeaderEvolves(s.leaders[m], s'.leaders[m], s'.released);
    ListsKept(all, s, s', m, x);
  }

  lemma PastKept(all: set<ServerName>, s: System, s': System, p: Packet, m: ServerName, x: EnteringKey)
    requires Base(all, s) && Places(all, s) && Delivery(all, s, s', p) && Evolves(s, s') && Base(all, s')
    requires m in all && x in s.owner && Ticket(s, x).getMax && PastThePost(s, m, x)
    ensures PastThePost(s', m, x)
  {
    if Ticket(s, x).added && Lists(s, m, KeyOf(s, x)) {
      ListedIsPast(all, s, s', m, x);
    } else if HasNumbered(s, m, x) {
      assert LeaderEvolves(s.leaders[m], s'.leaders[m], s'.released);
    } else {
      assert Placed(s, m, x) && Announced(s, x);
      NotReentered(all, s, s', p, m, x);
    }
  }

  lemma SettledKept(all: set<ServerName>, s: System, s': System, p: Packet, e: EnteringKey, x: EnteringKey)
    requires Base(all, s) && Places(all, s) && Delivery(all, s, s', p) && Evolves(s, s') && Base(all, s')
    requires e in Quorate(s) && e !in s'.released && x in s.owner && Ticket(s, x).getMax && Settled(s, e, x)
    ensures Settled(s', e, x)
  {
    CopyHere(all, s, s.owner[e], e);
    if Sees(s, e, x) {
      SeesKept(all, s, s', p, e, x);
    } else {
      PastKept(all, s, s', p, s.owner[e], x);
    }
  }

  /** A competitor that `e` does not wait for any more has left the entering table of its owner. */
  lemma NoLongerWaiting(all: set<ServerName>, s: System, s': System, p: Packet, e: EnteringKey, x: EnteringKey)
    requires Base(all, s) && Delivery(all, s, s', p) && Evolves(s, s')
    requires e in s.owner && x != e && Ticket(s', e).quorum && x !in Ticket(s', e).still
    requires !Ticket(s, e).quorum || x in Ticket(s, e).still
    ensures !IsEntering(s', s.owner[e], x)
  {
    assert PacketOk(all, s, p);
    if s.owner[e] != p.target {
      TicketElsewhere(all, s, s', p, e);
      assert false;
    }
    var l := s.leaders[p.target];
    TicketHere(all, s, s', p, e);
    DeliveredTo(all, s, s', p);
    if Ticket(s, e).quorum {
      AfterStill(all, l, p, e, x);
    } else {
      AfterQuorumStill(all, l, p, e, x);
    }
  }

  lemma DeliverySettled(all: set<ServerName>, s: System, s': System, p: Packet, e: EnteringKey, x: EnteringKey)
    requires |all| <= 3 && Ordered(all, s) && Places(all, s) && Waiting(s)
    requires Delivery(all, s, s', p) && Evolves(s, s') && Base(all, s') && Places(all, s')
    requires Competes(s', e, x) && e in s.owner && x in s.owner
    ensures Settled(s', e, x)
  {
    TicketEvolves(all, s, s', e);
    assert PacketOk(all, s, p);
    if !Ticket(s, x).getMax {
      NewlyNumbering(all, s, s', p, x);
      if !Ticket(s, e).quorum {
        NewlyQuorate(all, s, s', p, e);
        assert false;
      }
      NumberingSees(all, s, s', p, e, x);
    } else if Ticket(s, e).quorum && x !in Ticket(s, e).still {
      assert Competes(s, e, x);
      SettledKept(all, s, s', p, e, x);
    } else {
      NoLongerWaiting(all, s, s', p, e, x);
      NotEnteringIsPast(all, s', s.owner[e], x);
    }
  }

  lemma DeliveryWaiting(all: set<ServerName>, s: System, s': System, p: Packet)
    requires |all| <= 3 && Ordered(all, s) && Places(all, s) && Waiting(s)
    requires Delivery(all, s, s', p) && Evolves(s, s') && Base(all, s') && Places(all, s')
    ensures Waiting(s')
  {
    DeliveredTo(all, s, s', p);
    forall e, x | Competes(s', e, x) ensures Settled(s', e, x) {
      DeliverySettled(all, s, s', p, e, x);
    }
  }

  // ---------- waiting, the other steps ----------

  lemma ClientPast(all: set<ServerName>, s: System, s': System, m: ServerName, x: EnteringKey)
    requires Base(all, s) && ClientStep(all, s, s') && Evolves(s, s') && Base(all, s')
    requires m in all && x in s.owner && PastThePost(s, m, x)
    ensures PastThePost(s', m, x)
  {
    if Ticket(s, x).added && Lists(s, m, KeyOf(s, x)) {
      ListedIsPast(all, s, s', m, x);
    } else if HasNumbered(s, m, x) {
      assert LeaderEvolves(s.leaders[m], s'.leaders[m], s'.released);
    } else {
      ClientNotEntering(all, s, s', m, x);
    }
  }

  lemma ClientNotEntering(all: set<ServerName>, s: System, s': System, m: ServerName, x: EnteringKey)
    requires Tables(all, s) && ClientStep(all, s, s') && x in s.owner && m in all && !IsEntering(s, m, x)
    ensures !IsEntering(s', m, x)
  {
    if me, j :| Introduce(all, s, s', me, j) {
      IntroduceActs(all, s, s', me, j, OnLock(all, me, s.leaders[me], j));
    } else {
      var me, t :| Unlock(all, s, s', me, t);
      UnlockLeader(all, me, s.leaders[me], t);
    }
  }

  lemma ClientWaiting(all: set<ServerName>, s: System, s': System)
    requires Base(all, s) && Waiting(s) && ClientStep(all, s, s')
    ensures Waiting(s')
  {
    ClientKeepsBase(all, s, s');
    forall e, x | Competes(s', e, x) ensures Settled(s', e, x) {
      ClientCompetes(all, s, s', e, x);
      CopyHere(all, s, s.owner[e], e);
      if Sees(s, e, x) {
        ClientSees(all, s, s', e, x);
      } else {
        ClientPast(all, s, s', s.owner[e], x);
      }
    }
  }

  lemma ClientCompetes(all: set<ServerName>, s: System, s': System, e: EnteringKey, x: EnteringKey)
    requires Base(all, s) && Waiting(s) && ClientStep(all, s, s') && Evolves(s, s') && Competes(s', e, x)
    ensures Competes(s, e, x) && Settled(s, e, x) && s'.owner[e] == s.owner[e]
  {
    if e !in s.owner {
      ClientNew(all, s, s', e);
    }
    if x !in s.owner {
      ClientNew(all, s, s', x);
    }
    ClientTicket(all, s, s', e);
    ClientTicket(all, s, s', x);
  }

  lemma ForgetWaiting(all: set<ServerName>, s: System, s': System, k: EnteringKey)
    requires Base(all, s) && Waiting(s) && Forget(s, s', k)
    ensures Waiting(s')
  {
    forall e, x | Competes(s', e, x) ensures Settled(s', e, x) {
      assert e != k && x != k;
      ForgetKeeps(all, s, s', k, s.owner[e], e);
      ForgetKeeps(all, s, s', k, s.owner[e], x);
      assert Competes(s, e, x);
      if Sees(s, e, x) {
        ForgetSees(all, s, s', k, e, x);
      }
    }
  }

  // ---------- the way is clear ----------

  /** No competitor is ahead of `e`, and none will be. */
  ghost predicate Behind(s: System, e: EnteringKey, x: EnteringKey) {
    || x in s.released
    || !Ticket(s, x).getMax
    || Sees(s, e, x)
    || (Ticket(s, x).added && KeyBefore(KeyOf(s, e), KeyOf(s, x)))
  }

  ghost predicate Clear(s: System, e: EnteringKey) {
    && e in s.owner && Ticket(s, e).ready
    && (e !in s.released ==> forall x :: x in s.owner && x != e ==> Behind(s, e, x))
  }

  /** The owner asks the other leaders to activate a ticket, and they answer, only once the
      way is clear; and so it is when LOCKED is sent. */
  ghost predicate Claims(s: System, p: Packet) {
    || (p.message.ActivateLock? && p.message.ticket.entering in s.owner
        && p.source == s.owner[p.message.ticket.entering])
    || (p.message.LockActivated? && p.message.ticket.entering in s.owner
        && p.target == s.owner[p.message.ticket.entering])
  }

  ghost predicate Cleared(s: System) {
    && (forall p :: p in s.net && Claims(s, p) ==> Clear(s, p.message.ticket.entering))
    && (forall k :: k in s.locked ==> Clear(s, k))
  }

  /** The ticket its owner finds first, once ready, has a clear way. */
  lemma FirstIsClear(all: set<ServerName>, s: System, t: TicketKey)
    requires Base(all, s) && Waiting(s) && t.entering in s.owner && Ticket(s, t.entering).ready
    requires IsFirst(s.leaders[s.owner[t.entering]].tickets, t)
    ensures Clear(s, t.entering)
  {
    var e, me := t.entering, s.owner[t.entering];
    CopyHere(all, s, me, e);
    ListedKey(all, s, me, t);
    if e !in s.released {
      forall x | x in s.owner && x != e ensures Behind(s, e, x) {
        if Ticket(s, x).getMax {
          assert Competes(s, e, x);
          assert Settled(s, e, x);
        }
      }
    }
  }

  lemma ClearKept(all: set<ServerName>, s: System, s': System, p: Packet, e: EnteringKey)
    requires |all| <= 3 && Ordered(all, s) && Delivery(all, s, s', p) && Evolves(s, s') && Base(all, s')
    requires Clear(s, e)
    ensures Clear(s', e)
  {
    TicketEvolves(all, s, s', e);
    CopyHere(all, s, s.owner[e], e);
    DeliveredTo(all, s, s', p);
    if e !in s'.released {
      forall x | x in s'.owner && x != e ensures Behind(s', e, x) {
        assert Behind(s, e, x);
        BehindKept(all, s, s', p, e, x);
      }
    }
  }

  lemma BehindKept(all: set<ServerName>, s: System, s': System, p: Packet, e: EnteringKey, x: EnteringKey)
    requires |all| <= 3 && Ordered(all, s) && Delivery(all, s, s', p) && Evolves(s, s') && Base(all, s')
    requires e in Quorate(s) && e !in s'.released && x in s.owner && Ticket(s, e).added && Behind(s, e, x)
    ensures Behind(s', e, x)
  {
    TicketEvolves(all, s, s', e);
    TicketEvolves(all, s, s', x);
    if x !in s.released {
      if !Ticket(s, x).getMax {
        if Ticket(s', x).getMax {
          NumberingSees(all, s, s', p, e, x);
        }
      } else if Sees(s, e, x) {
        SeesKept(all, s, s', p, e, x);
      }
    }
  }

  lemma ClientClear(all: set<ServerName>, s: System, s': System, e: EnteringKey)
    requires Base(all, s) && ClientStep(all, s, s') && Evolves(s, s') && Clear(s, e)
    ensures Clear(s', e)
  {
    ClientTicket(all, s, s', e);
    CopyHere(all, s, s.owner[e], e);
    if e !in s'.released {
      forall x | x in s'.owner && x != e ensures Behind(s', e, x) {
        if x in s.owner {
          assert Behind(s, e, x);
          ClientTicket(all, s, s', x);
          if Sees(s, e, x) {
            ClientSees(all, s, s', e, x);
          }
        } else {
          ClientNew(all, s, s', x);
        }
      }
    }
  }

  lemma ForgetClear(all: set<ServerName>, s: System, s': System, k: EnteringKey, e: EnteringKey)
    requires Base(all, s) && Forget(s, s', k) && e != k && Clear(s, e)
    ensures Clear(s', e)
  {
    ForgetKeeps(all, s, s', k, "", e);
    if e !in s'.released {
      forall x | x in s'.owner && x != e ensures Behind(s', e, x) {
        assert x != k && Behind(s, e, x);
        ForgetKeeps(all, s, s', k, "", x);
        if Sees(s, e, x) {
          ForgetSees(all, s, s', k, e, x);
        }
      }
    }
  }

  // ---------- claims ----------

  /** An activation the owner sends on finding its ticket first. */
  lemma ActivationIsClear(all: set<ServerName>, s: System, me: ServerName, t: TicketKey)
    requires Base(all, s) && Waiting(s) && me in all && Activates(s.leaders[me], t)
    requires t.entering in s.owner && s.owner[t.entering] == me
    ensures Clear(s, t.entering)
  {
    FirstIsClear(all, s, t);
  }

  lemma OldClaim(all: set<ServerName>, s: System, s': System, p: Packet, q: Packet)
    requires |all| <= 3 && Ordered(all, s) && Cleared(s)
    requires Delivery(all, s, s', p) && Evolves(s, s') && Base(all, s')
    requires q in s.net && Claims(s', q)
    ensures Clear(s', q.message.ticket.entering)
  {
    DeliveryActs(all, s, s', p);
    ClearKept(all, s, s', p, q.message.ticket.entering);
  }

  /** LOCK_ACTIVATED answers a claim. */
  lemma AnsweredClaim(all: set<ServerName>, s: System, s': System, p: Packet, q: Packet)
    requires |all| <= 3 && Ordered(all, s) && Cleared(s)
    requires Delivery(all, s, s', p) && Evolves(s, s') && Base(all, s') && PacketOk(all, s, p)
    requires q.message.LockActivated? && p.message == ActivateLock(q.message.ticket)
    requires Claims(s', q) && q.target == p.source
    ensures Clear(s', q.message.ticket.entering)
  {
    DeliveryActs(all, s, s', p);
    assert p in s.net && Claims(s, p);
    ClearKept(all, s, s', p, q.message.ticket.entering);
  }

  lemma DeliveryClaim(all: set<ServerName>, s: System, s': System, p: Packet, q: Packet)
    requires |all| <= 3 && Ordered(all, s) && Cleared(s)
    requires Delivery(all, s, s', p) && Evolves(s, s') && Base(all, s') && Waiting(s')
    requires q in s'.net && Claims(s', q)
    ensures Clear(s', q.message.ticket.entering)
  {
    DeliveryActs(all, s, s', p);
    if q in s.net {
      OldClaim(all, s, s', p, q);
    } else {
      OutSends(all, s.leaders[p.target], p, q);
      if q.message.ActivateLock? {
        ActivationIsClear(all, s', p.target, q.message.ticket);
      } else {
        AnsweredClaim(all, s, s', p, q);
      }
    }
  }

  lemma DeliveryLocked(all: set<ServerName>, s: System, s': System, p: Packet, k: EnteringKey)
    requires |all| <= 3 && Ordered(all, s) && Cleared(s) && Waiting(s)
    requires Delivery(all, s, s', p) && Evolves(s, s') && Base(all, s')
    requires k in s'.locked
    ensures Clear(s', k)
  {
    DeliveryActs(all, s, s', p);
    if k !in s.locked {
      var l := s.leaders[p.target];
      LockedBecause(all, l, p, k);
      CopyHere(all, s, p.target, k);
      if p.message.ActivateLock? {
        FirstIsClear(all, s, p.message.ticket);
      } else {
        assert p in s.net && Claims(s, p);
      }
    }
    ClearKept(all, s, s', p, k);
  }

  lemma ClientCleared(all: set<ServerName>, s: System, s': System)
    requires Base(all, s) && Cleared(s) && ClientStep(all, s, s') && Waiting(s')
    ensures Cleared(s')
  {
    ClientKeepsBase(all, s, s');
    forall p | p in s'.net && Claims(s', p) ensures Clear(s', p.message.ticket.entering) {
      ClientClaim(all, s, s', p);
    }
    forall k | k in s'.locked ensures Clear(s', k) {
      ClientClear(all, s, s', k);
    }
  }

  lemma ClientClaim(all: set<ServerName>, s: System, s': System, p: Packet)
    requires Base(all, s) && Cleared(s) && ClientStep(all, s, s') && Evolves(s, s') && Base(all, s') && Waiting(s')
    requires p in s'.net && Claims(s', p)
    ensures Clear(s', p.message.ticket.entering)
  {
    ClientSends(all, s, s', p);
    if p in s.net {
      assert PacketOk(all, s, p);
      ClientTicket(all, s, s', p.message.ticket.entering);
      assert Claims(s, p);
      ClientClear(all, s, s', p.message.ticket.entering);
    } else {
      ActivationIsClear(all, s', p.source, p.message.ticket);
    }
  }

  lemma ForgetCleared(all: set<ServerName>, s: System, s': System, k: EnteringKey)
    requires Base(all, s) && Cleared(s) && Forget(s, s', k)
    ensures Cleared(s')
  {
    forall p | p in s'.net && Claims(s', p) ensures Clear(s', p.message.ticket.entering) {
      assert p.message.Entering() != k;
      ForgetKeeps(all, s, s', k, "", p.message.Entering());
      assert Claims(s, p);
      ForgetClear(all, s, s', k, p.message.Entering());
    }
    forall j | j in s'.locked ensures Clear(s', j) {
      ForgetClear(all, s, s', k, j);
    }
  }

  // ---------- all runs ----------

  /** A refused ADD_TICKET is one of a ticket that its client unlocked already: nothing else ends a
      ticket. */
  ghost predicate Unfailed(s: System) {
    && s.released <= s.unlocked
    && forall p :: p in s.net && p.message.LockFailed? ==> p.message.ticket.entering in s.released
  }

  lemma DeliveryUnfailed(all: set<ServerName>, s: System, s': System, p: Packet)
    requires Base(all, s) && Places(all, s) && Unfailed(s) && Delivery(all, s, s', p) && Evolves(s, s')
    ensures Unfailed(s')
  {
    DeliveryHistory(all, s, s', p);
    NothingReleased(all, s.leaders[p.target], p, s.released);
    forall q | q in s'.net && q.message.LockFailed? ensures q.message.ticket.entering in s.released {
      if q !in s.net {
        OutSends(all, s.leaders[p.target], p, q);
        RefusedIsReleased(all, s, p, q);
      }
    }
  }

  lemma {:induction false} DeliveryHistory(all: set<ServerName>, s: System, s': System, p: Packet)
    requires Delivery(all, s, s', p)
    ensures var e := Handle(all, s.leaders[p.target], p);
            && s'.net == s.net - multiset{p} + e.out && s'.released == s.released + e.released
            && s'.unlocked == s.unlocked
  {
  }

  lemma {:induction false} NothingReleased(all: set<ServerName>, l: Leader, p: Packet, released: set<EnteringKey>)
    requires Tabled(l) && (p.message.LockFailed? ==> p.message.ticket.entering in released)
    ensures Handle(all, l, p).released <= released
  {
  }

  /** ADD_TICKET is refused only when the ticket was released. */
  lemma RefusedIsReleased(all: set<ServerName>, s: System, p: Packet, q: Packet)
    requires Base(all, s) && Places(all, s) && p in s.net && p.message.AddTicket? && p.target in s.leaders
    requires Tabled(s.leaders[p.target]) && q in Handle(all, s.leaders[p.target], p).out && q.message.LockFailed?
    ensures q.message.ticket == p.message.ticket && p.message.ticket.entering in s.released
  {
    var k, m := p.message.ticket.entering, p.target;
    assert PacketOk(all, s, p) && FreshPacket(s, p);
    assert Placed(s, m, k) && Announced(s, k);
    CopyHere(all, s, s.owner[k], k);
    assert TablesOk(s, m, s.leaders[m]);
  }

  ghost predicate Safe(all: set<ServerName>, s: System) {
    Ordered(all, s) && Places(all, s) && Waiting(s) && Cleared(s) && Unfailed(s)
  }

  lemma DeliverySafe(all: set<ServerName>, s: System, s': System, p: Packet)
    requires |all| <= 3 && Safe(all, s) && Delivery(all, s, s', p) && Disciplined(s, p)
    ensures Safe(all, s')
  {
    DeliveryKeepsBase(all, s, s', p);
    DeliveryReplicated(all, s, s', p);
    DeliveryInOrder(all, s, s', p);
    DeliveryPlaces(all, s, s', p);
    DeliveryWaiting(all, s, s', p);
    DeliveryUnfailed(all, s, s', p);
    forall q | q in s'.net && Claims(s', q) ensures Clear(s', q.message.ticket.entering) {
      DeliveryClaim(all, s, s', p, q);
    }
    forall k | k in s'.locked ensures Clear(s', k) {
      DeliveryLocked(all, s, s', p, k);
    }
  }

  lemma ClientUnfailed(all: set<ServerName>, s: System, s': System)
    requires Base(all, s) && Unfailed(s) && ClientStep(all, s, s')
    ensures Unfailed(s')
  {
    ClientKeepsBase(all, s, s');
    forall q | q in s'.net && q.message.LockFailed? ensures q.message.ticket.entering in s'.released {
      ClientSends(all, s, s', q);
    }
  }

  lemma ClientSafe(all: set<ServerName>, s: System, s': System)
    requires |all| <= 3 && Safe(all, s) && ClientStep(all, s, s')
    ensures Safe(all, s')
  {
    ClientKeepsOrdered(all, s, s');
    ClientPlaces(all, s, s');
    ClientWaiting(all, s, s');
    ClientCleared(all, s, s');
    ClientUnfailed(all, s, s');
  }

  lemma ForgetSafe(all: set<ServerName>, s: System, s': System, k: EnteringKey)
    requires |all| <= 3 && Safe(all, s) && Forget(s, s', k)
    ensures Safe(all, s')
  {
    ForgetKeepsBase(all, s, s', k);
    ForgetReplicated(all, s, s', k);
    ForgetInOrder(all, s, s', k);
    ForgetPlaces(all, s, s', k);
    ForgetWaiting(all, s, s', k);
    ForgetCleared(all, s, s', k);
    ForgetUnfailed(s, s', k);
  }

  lemma ForgetUnfailed(s: System, s': System, k: EnteringKey)
    requires Unfailed(s) && Forget(s, s', k)
    ensures Unfailed(s')
  {
    forall q | q in s'.net && q.message.LockFailed? ensures q.message.ticket.entering in s'.released {
      assert q.message.Entering() != k;
    }
  }

  lemma StepKeepsSafe(all: set<ServerName>, s: System, s': System)
    requires |all| <= 3 && Safe(all, s) && Step(all, s, s', true, true)
    ensures Safe(all, s')
  {
    if p :| Delivery(all, s, s', p) && Disciplined(s, p) {
      DeliverySafe(all, s, s', p);
    } else if me, t :| Unlock(all, s, s', me, t) {
      ClientSafe(all, s, s');
    } else {
      var me, k :| Request(all, s, s', me, k) && Unmentioned(s, k);
      RequestInHalves(all, s, s', me, k);
      ForgetSafe(all, s, Forgotten(s, k), k);
      ClientSafe(all, Forgotten(s, k), s');
    }
  }

  lemma InitSafe(all: set<ServerName>, s: System)
    requires Init(all, s)
    ensures Safe(all, s)
  {
    InitBase(all, s);
  }

  lemma {:induction false} RunSafe(all: set<ServerName>, run: seq<System>, i: nat)
    requires |all| <= 3 && Run(all, run, true, true) && i < |run|
    ensures Safe(all, run[i])
  {
    if i == 0 {
      InitSafe(all, run[0]);
    } else {
      RunSafe(all, run, i - 1);
      StepKeepsSafe(all, run[i - 1], run[i]);
    }
  }

  lemma OneHolder(all: set<ServerName>, s: System, a: EnteringKey, b: EnteringKey)
    requires Safe(all, s) && a in Held(s) && b in Held(s)
    ensures a == b
  {
    assert Clear(s, a) && Clear(s, b);
    CopyHere(all, s, s.owner[a], a);
    CopyHere(all, s, s.owner[b], b);
    if a != b {
      assert Behind(s, a, b) && Behind(s, b, a);
      KeyBeforeStrictTotal(KeyOf(s, a), KeyOf(s, b), KeyOf(s, a));
    }
  }

  /** Mutual exclusion: at every point of every run, at most one client holds the lock,
      whichever leaders own the tickets. */
  lemma MutualExclusion(all: set<ServerName>, run: seq<System>, i: nat, a: EnteringKey, b: EnteringKey)
    requires |all| <= 3 && Run(all, run, true, true) && i < |run|
    requires a in Held(run[i]) && b in Held(run[i])
    ensures a == b
  {
    RunSafe(all, run, i);
    OneHolder(all, run[i], a, b);
  }

  // ---------- the waiting invariant ----------

  /** A ticket that a delivery adds to the owner's table of `e` comes after `e`. */
  lemma LaterIsLarger(all: set<ServerName>, s: System, s': System, p: Packet, e: EnteringKey, t: TicketKey)
    requires |all| <= 3 && Safe(all, s) && Delivery(all, s, s', p) && Disciplined(s, p)
    requires e in Quorate(s) && Ticket(s, e).ready && e !in s'.released
    requires Lists(s', s.owner[e], t) && !Lists(s, s.owner[e], t)
    ensures KeyBefore(KeyOf(s, e), t)
  {
    var o, x := s.owner[e], t.entering;
    DeliverySafe(all, s, s', p);
    DeliveryKeepsBase(all, s, s', p);
    DeliveredTo(all, s, s', p);
    assert o == p.target && PacketOk(all, s, p);
    NewTickets(all, s.leaders[o], p, t);
    CopyHere(all, s, o, e);
    CopyHere(all, s, s.owner[x], x);
    ListedKey(all, s', o, t);
    TicketEvolves(all, s, s', e);
    assert FreshPacket(s, p);
    if x == e {
      CopyHere(all, s, o, x);
    } else {
      assert Competes(s, e, x);
      assert Settled(s, e, x) && !PastThePost(s, o, x);
      SeesKept(all, s, s', p, e, x);
    }
  }

  /** The bakery waiting invariant: once a ticket is ready at its owner, and until it is
      released, every ticket added later to that owner's table has a strictly larger key. */
  lemma WaitingInvariant(all: set<ServerName>, run: seq<System>, i: nat, e: EnteringKey, t: TicketKey)
    requires |all| <= 3 && Run(all, run, true, true) && i + 1 < |run|
    requires e in run[i].owner && Ticket(run[i], e).ready && e !in run[i + 1].released
    requires Lists(run[i + 1], run[i].owner[e], t) && !Lists(run[i], run[i].owner[e], t)
    ensures KeyBefore(KeyOf(run[i], e), t)
  {
    var s, s' := run[i], run[i + 1];
    RunSafe(all, run, i);
    CopyHere(all, s, s.owner[e], e);
    assert Step(all, s, s', true, true);
    if p :| Delivery(all, s, s', p) && Disciplined(s, p) {
      DeliveryKeepsBase(all, s, s', p);
      LaterIsLarger(all, s, s', p, e, t);
    } else {
      NoNewTickets(all, s, s', s.owner[e], t);
    }
  }

  lemma NoNewTickets(all: set<ServerName>, s: System, s': System, m: ServerName, t: TicketKey)
    requires Base(all, s) && m in all && Lists(s', m, t)
    requires (exists me, u :: Unlock(all, s, s', me, u)) || exists me, k :: Request(all, s, s', me, k)
    ensures Lists(s, m, t)
  {
    if me, u :| Unlock(all, s, s', me, u) {
      UnlockLeader(all, me, s.leaders[me], u);
    }
  }
}
