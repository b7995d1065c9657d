/** The base invariant of the protocol, over every run, with no assumption on delivery. */
module BakeryInvariant {
  import opened KeyOrder
  import opened TicketProgress
  import opened Leader
  import opened LeaderFacts
  import opened Bakery
  import opened BakeryTables
  import opened BakeryPackets
  import opened BakerySteps

  /** LOCK_ENTERING and ADD_TICKET reach each leader once, and before they do, that leader
      has no copy of the ticket, or no number for it. */
  ghost predicate FreshPacket(s: System, p: Packet) {
    && (p.message.LockEntering? ==> s.net[p] == 1 && !HasCopy(s, p.target, p.message.key))
    && (p.message.AddTicket? ==> s.net[p] == 1 && !HasNumbered(s, p.target, p.message.ticket.entering))
  }

  ghost predicate FreshPackets(s: System) {
    forall p :: p in s.net ==> FreshPacket(s, p)
  }

  ghost predicate Base(all: set<ServerName>, s: System) {
    Tables(all, s) && Packets(all, s, s.net) && FreshPackets(s)
  }

  // ---------- delivery ----------

  lemma EnteringIsNotAdded(all: set<ServerName>, l: Leader, p: Packet, k: EnteringKey)
    requires Tabled(l) && p.message == LockEntering(k) && k in l.copies && !l.copies[k].added
    ensures k in Handle(all, l, p).leader.copies && !Handle(all, l, p).leader.copies[k].added
  {
  }

  /** The copies that a delivery gives its receiver, or gives a number. */
  lemma DeliveryCopies(all: set<ServerName>, s: System, s': System, p: Packet, m: ServerName, k: EnteringKey)
    requires Delivery(all, s, s', p)
    ensures HasCopy(s', m, k) ==> HasCopy(s, m, k) || (m == p.target && p.message == LockEntering(k))
    ensures HasNumbered(s', m, k) ==>
        HasNumbered(s, m, k) ||
        (m == p.target && p.message.Entering() == k && (p.message.MaxTicketIs? || p.message.AddTicket?))
  {
    hide Handle;
    var l := s.leaders[p.target];
    if m == p.target && HasCopy(s', m, k) {
      if k !in l.copies {
        NewCopies(all, l, p, k);
      } else if HasNumbered(s', m, k) && !l.copies[k].added {
        if p.message.LockEntering? && p.message.key == k {
          EnteringIsNotAdded(all, l, p, k);
        } else {
          CopyAfter(all, l, p, k);
        }
      }
    }
  }

  lemma OldPacketFresh(all: set<ServerName>, s: System, s': System, p: Packet, q: Packet)
    requires Base(all, s) && Delivery(all, s, s', p)
    requires q in s.net - multiset{p} && q !in Handle(all, s.leaders[p.target], p).out
    ensures FreshPacket(s', q)
  {
    assert FreshPacket(s, q) && FreshPacket(s, p) && PacketOk(all, s, p) && PacketOk(all, s, q);
    DeliveryCopies(all, s, s', p, q.target, q.message.Entering());
    assert q.message.LockEntering? && p.message == q.message && p.target == q.target ==> p == q;
    assert q.message.AddTicket? && p.message.AddTicket? && p.message.Entering() == q.message.Entering() && p.target == q.target ==> p == q;
  }

  /** ADD_TICKET is sent by the owner, which had not numbered its ticket. */
  lemma NewAddOwner(all: set<ServerName>, s: System, p: Packet, q: Packet)
    requires Tables(all, s) && p.target in all && Tabled(s.leaders[p.target]) && PacketOk(all, s, p)
    requires q in Handle(all, s.leaders[p.target], p).out && q.message.AddTicket?
    ensures q.source == p.target && q.message.Entering() in s.owner && s.owner[q.message.Entering()] == p.target
    ensures !Ticket(s, q.message.Entering()).added
  {
    OutSends(all, s.leaders[p.target], p, q);
    hide Handle, Tables;
    CopyHere(all, s, p.target, q.message.Entering());
  }

  lemma NotNumberedYet(all: set<ServerName>, s: System, m: ServerName, k: EnteringKey)
    requires Tables(all, s) && k in s.owner && !Ticket(s, k).added && m != s.owner[k] && m in all
    ensures !HasNumbered(s, m, k)
  {
    CopyHere(all, s, m, k);
  }

  lemma NewAddFresh(all: set<ServerName>, s: System, s': System, p: Packet, q: Packet)
    requires Base(all, s) && Delivery(all, s, s', p) && q in Handle(all, s.leaders[p.target], p).out
    requires q.message.AddTicket? && PacketOk(all, s, p) && q.target in all && q.source != q.target
    ensures s'.net[q] == 1 && !HasNumbered(s', q.target, q.message.ticket.entering)
  {
    var l, k := s.leaders[p.target], q.message.ticket.entering;
    DeliveryActs(all, s, s', p);
    hide Handle, PacketOk, Tables, Delivery;
    NewAddOwner(all, s, p, q);
    AddTicketOnce(all, l, p, q);
    NotAddedNoPacket(all, s, k, q);
    NotNumberedYet(all, s, q.target, k);
    DeliveryCopies(all, s, s', p, q.target, k);
  }

  lemma NewPacketFresh(all: set<ServerName>, s: System, s': System, p: Packet, q: Packet)
    requires Base(all, s) && Delivery(all, s, s', p) && PacketOk(all, s', q)
    requires q in Handle(all, s.leaders[p.target], p).out
    ensures FreshPacket(s', q)
  {
    DeliveredPacket(all, s, p);
    assert q.target in all && q.source != q.target;
    hide PacketOk, Handle;
    OutSends(all, s.leaders[p.target], p, q);
    if q.message.AddTicket? {
      NewAddFresh(all, s, s', p, q);
    }
  }

  /** Before the owner numbered its ticket, no ADD_TICKET is in flight and no other leader has a number for it. */
  lemma NotAddedNoPacket(all: set<ServerName>, s: System, k: EnteringKey, q: Packet)
    requires Base(all, s) && k in s.owner && !Ticket(s, k).added
    requires q.message.AddTicket? && q.message.ticket.entering == k
    ensures q !in s.net
  {
    assert q in s.net ==> PacketOk(all, s, q);
  }

  // ---------- every step ----------

  lemma DeliveredPacket(all: set<ServerName>, s: System, p: Packet)
    requires Base(all, s) && p in s.net
    ensures PacketOk(all, s, p) && FreshPacket(s, p)
  {
  }

  lemma DeliveryApplies(all: set<ServerName>, s: System, s': System, p: Packet)
    requires Delivery(all, s, s', p)
    ensures Applied(s, s', p.target, Handle(all, s.leaders[p.target], p)) && s'.owner == s.owner
    ensures s'.net == s.net - multiset{p} + Handle(all, s.leaders[p.target], p).out
  {
    hide Handle, Throws, SecondObject, Quorate;
  }

  lemma DeliveryActs(all: set<ServerName>, s: System, s': System, p: Packet)
    requires Base(all, s) && Delivery(all, s, s', p)
    ensures PacketOk(all, s, p) && FreshPacket(s, p)
    ensures Acting(all, s, s', p.target, Handle(all, s.leaders[p.target], p)) && s'.owner == s.owner
    ensures s'.net == s.net - multiset{p} + Handle(all, s.leaders[p.target], p).out
  {
    DeliveredPacket(all, s, p);
    DeliveryApplies(all, s, s', p);
    hide Handle, PacketOk, FreshPacket, TablesOk, Deliver;
  }

  lemma DeliveryGood(all: set<ServerName>, s: System, s': System, p: Packet)
    requires Base(all, s) && Delivery(all, s, s', p)
    ensures Good(all, s, s', Handle(all, s.leaders[p.target], p))
  {
    DeliveryActs(all, s, s', p);
    var e := Handle(all, s.leaders[p.target], p);
    match p.message
    case LockEntering(_) => LockEnteringGood(all, s, s', p, e);
    case LockEntered(_) => LockEnteredGood(all, s, s', p, e);
    case GetMaxTicket(_) => GetMaxTicketGood(all, s, s', p, e);
    case MaxTicketIs(_, _) => MaxTicketGood(all, s, s', p, e);
    case AddTicket(_) => AddTicketGood(all, s, s', p, e);
    case TicketAdded(_) => TicketAddedGood(all, s, s', p, e);
    case LockExiting(k) => LockExitingGood(all, s, s', p.target, k, e);
    case TicketReady(_) => TicketReadyGood(all, s, s', p, e);
    case ActivateLock(_) => ActivateLockGood(all, s, s', p, e);
    case LockActivated(_, _) => LockActivatedGood(all, s, s', p, e);
    case DropTicket(_) => DropTicketGood(all, s, s', p, e);
    case LockFailed(_) => LockFailedGood(all, s, s', p, e);
  }

  lemma DeliveryKeepsBase(all: set<ServerName>, s: System, s': System, p: Packet)
    requires Base(all, s) && Delivery(all, s, s', p)
    ensures Base(all, s') && Evolves(s, s')
  {
    var e := Handle(all, s.leaders[p.target], p);
    DeliveryActs(all, s, s', p);
    DeliveryGood(all, s, s', p);
    var rest := s.net - multiset{p};
    PacketsKept(all, s, s', rest);
    PacketsJoin(all, s', rest, e.out);
    forall q | q in s'.net ensures FreshPacket(s', q) {
      if q in e.out {
        NewPacketFresh(all, s, s', p, q);
      } else {
        OldPacketFresh(all, s, s', p, q);
      }
    }
  }

  lemma IntroduceActs(all: set<ServerName>, s: System, s': System, me: ServerName, k: EnteringKey, e: Effect)
    requires Tables(all, s) && Introduce(all, s, s', me, k) && e == OnLock(all, me, s.leaders[me], k)
    ensures Acting(all, s, s', me, e)
    ensures s'.owner == s.owner[k := me]
  {
    assert s' == Apply(s, me, s.net, e).(owner := s.owner[k := me]);
    assert s'.leaders == s.leaders[me := e.leader];
    assert k in e.leader.copies;
  }

  lemma IntroduceKeepsBase(all: set<ServerName>, s: System, s': System, me: ServerName, k: EnteringKey)
    requires Base(all, s) && Introduce(all, s, s', me, k)
    ensures Base(all, s') && Evolves(s, s')
  {
    var e := OnLock(all, me, s.leaders[me], k);
    IntroduceActs(all, s, s', me, k, e);
    LockGood(all, s, s', me, k, e);
    PacketsKept(all, s, s', s.net);
    PacketsJoin(all, s', s.net, e.out);
    forall q | q in s'.net ensures FreshPacket(s', q) {
      IntroducePacketFresh(all, s, s', me, k, q);
    }
  }

  lemma IntroducePacketFresh(all: set<ServerName>, s: System, s': System, me: ServerName, k: EnteringKey, q: Packet)
    requires Base(all, s) && Introduce(all, s, s', me, k) && q in s'.net
    ensures FreshPacket(s', q)
  {
    var out := Broadcast(all, me, LockEntering(k));
    assert s'.net == s.net + out;
    if q in s.net {
      assert PacketOk(all, s, q) && FreshPacket(s, q);
      assert q !in out;
    } else {
      CopyHere(all, s, q.target, k);
    }
  }

  /** UNLOCK gives nobody a copy or a number. */
  lemma UnlockCopies(all: set<ServerName>, s: System, s': System, me: ServerName, t: TicketKey, m: ServerName,
        k: EnteringKey)
    requires Unlock(all, s, s', me, t)
    ensures HasCopy(s', m, k) ==> HasCopy(s, m, k)
    ensures HasNumbered(s', m, k) ==> HasNumbered(s, m, k)
  {
  }

  lemma UnlockNet(all: set<ServerName>, s: System, s': System, me: ServerName, t: TicketKey)
    requires Unlock(all, s, s', me, t)
    ensures s'.net == s.net + OnUnlock(all, me, s.leaders[me], t).out
  {
    hide OnUnlock;
  }

  lemma StillFresh(s: System, s': System, out: multiset<Packet>, q: Packet)
    requires FreshPacket(s, q) && s'.net == s.net + out && q !in out
    requires HasCopy(s', q.target, q.message.Entering()) ==> HasCopy(s, q.target, q.message.Entering())
    requires HasNumbered(s', q.target, q.message.Entering()) ==> HasNumbered(s, q.target, q.message.Entering())
    ensures FreshPacket(s', q)
  {
    hide HasCopy, HasNumbered;
  }

  lemma UnlockPacketFresh(all: set<ServerName>, s: System, s': System, me: ServerName, t: TicketKey, q: Packet)
    requires Base(all, s) && Unlock(all, s, s', me, t) && q in s'.net
    ensures FreshPacket(s', q)
  {
    hide Base, OnUnlock;
    UnlockNet(all, s, s', me, t);
    UnlockCopies(all, s, s', me, t, q.target, q.message.Entering());
    if q in OnUnlock(all, me, s.leaders[me], t).out {
      UnlockSends(all, me, s.leaders[me], t, q);
    } else {
      DeliveredPacket(all, s, q);
      StillFresh(s, s', OnUnlock(all, me, s.leaders[me], t).out, q);
    }
  }

  lemma UnlockKeepsBase(all: set<ServerName>, s: System, s': System, me: ServerName, t: TicketKey)
    requires Base(all, s) && Unlock(all, s, s', me, t)
    ensures Base(all, s') && Evolves(s, s')
  {
    var e := OnUnlock(all, me, s.leaders[me], t);
    hide OnUnlock, FreshPacket, PacketOk, TablesOk;
    UnlockGood(all, s, s', me, t, e);
    PacketsKept(all, s, s', s.net);
    PacketsJoin(all, s', s.net, e.out);
    forall q | q in s'.net ensures FreshPacket(s', q) {
      UnlockPacketFresh(all, s, s', me, t, q);
    }
  }

  lemma UnlockSends(all: set<ServerName>, me: ServerName, l: Leader, t: TicketKey, q: Packet)
    requires Tabled(l) && t in l.tickets
    requires q in OnUnlock(all, me, l, t).out
    ensures q.source == me
    ensures q.message == DropTicket(t) || (q.message.ActivateLock?
        && Activates(OnUnlock(all, me, l, t).leader, q.message.ticket))
  {
    if q !in Broadcast(all, me, DropTicket(t)) {
      ActivationSends(all, me, OnUnlock(all, me, l, t).leader, q);
    }
  }

  // ---------- the end of a request ----------

  /** Everything that is not about the forgotten request is as before. */
  lemma ForgetKeeps(all: set<ServerName>, s: System, s': System, k: EnteringKey, m: ServerName, j: EnteringKey)
    requires Tables(all, s) && Forget(s, s', k) && j != k
    ensures Ticket(s', j) == Ticket(s, j)
    ensures HasCopy(s', m, j) <==> HasCopy(s, m, j)
    ensures HasCopy(s, m, j) ==> s'.leaders[m].copies[j] == s.leaders[m].copies[j]
    ensures m in all ==> m in s'.leaders && s'.leaders[m].tickets == s.leaders[m].tickets
    ensures m in all ==> s'.leaders[m].entering == s.leaders[m].entering
    ensures j in s'.owner <==> j in s.owner
    ensures j in s.owner ==> s'.owner[j] == s.owner[j]
    ensures j in s'.released <==> j in s.released
  {
  }

  lemma ForgetKeepsTables(all: set<ServerName>, s: System, s': System, k: EnteringKey)
    requires Tables(all, s) && Forget(s, s', k)
    ensures Tables(all, s')
  {
    assert s'.leaders.Keys == all;
    forall j | j in s'.owner ensures s'.owner[j] in all && j in s'.leaders[s'.owner[j]].copies {
      ForgetKeeps(all, s, s', k, s.owner[j], j);
    }
    forall m | m in all ensures TablesOk(s', m, s'.leaders[m]) {
      ForgetKeepsLeader(all, s, s', k, m);
    }
  }

  lemma ForgetKeepsLeader(all: set<ServerName>, s: System, s': System, k: EnteringKey, m: ServerName)
    requires Tables(all, s) && Forget(s, s', k) && m in all && m in s'.leaders
    ensures TablesOk(s', m, s'.leaders[m])
  {
    var l, l' := s.leaders[m], s'.leaders[m];
    assert TablesOk(s, m, l);
    forall j | j in l'.copies ensures CopyOk(s', m, l', j) {
      assert j != k;
      ForgetKeeps(all, s, s', k, m, j);
      assert CopyOk(s, m, l, j);
    }
    forall t | t in l'.tickets ensures TicketListed(l', t) {
      assert TicketListed(l, t);
    }
  }

  lemma ForgetKeepsPacketOk(all: set<ServerName>, s: System, s': System, k: EnteringKey, p: Packet)
    requires Tables(all, s) && Forget(s, s', k) && p in s.net && PacketOk(all, s, p)
    ensures PacketOk(all, s', p)
  {
    var j := p.message.Entering();
    assert j != k;
    ForgetKeeps(all, s, s', k, p.source, j);
    if Announces(s, p.source, p.message) {
      assert Announces(s', p.source, p.message);
    } else {
      assert Answers(s', p.source, p.target, p.message);
    }
  }

  lemma ForgetKeepsFresh(all: set<ServerName>, s: System, s': System, k: EnteringKey, p: Packet)
    requires Tables(all, s) && Forget(s, s', k) && p in s.net && FreshPacket(s, p)
    ensures FreshPacket(s', p)
  {
    assert p.message.Entering() != k;
    ForgetKeeps(all, s, s', k, p.target, p.message.Entering());
  }

  lemma ForgetKeepsBase(all: set<ServerName>, s: System, s': System, k: EnteringKey)
    requires Base(all, s) && Forget(s, s', k)
    ensures Base(all, s')
  {
    ForgetKeepsTables(all, s, s', k);
    forall p | p in s'.net ensures PacketOk(all, s', p) && FreshPacket(s', p) {
      ForgetKeepsPacketOk(all, s, s', k, p);
      ForgetKeepsFresh(all, s, s', k, p);
    }
  }

  // ---------- all runs ----------

  lemma StepKeepsBase(all: set<ServerName>, s: System, s': System, disciplined: bool)
    requires Base(all, s) && Step(all, s, s', disciplined, true)
    ensures Base(all, s')
  {
    if p :| Delivery(all, s, s', p) {
      DeliveryKeepsBase(all, s, s', p);
    } else if me, t :| Unlock(all, s, s', me, t) {
      UnlockKeepsBase(all, s, s', me, t);
    } else {
      var me, k :| Request(all, s, s', me, k) && Unmentioned(s, k);
      RequestInHalves(all, s, s', me, k);
      ForgetKeepsBase(all, s, Forgotten(s, k), k);
      IntroduceKeepsBase(all, Forgotten(s, k), s', me, k);
    }
  }

  lemma InitBase(all: set<ServerName>, s: System)
    requires Init(all, s)
    ensures Base(all, s)
  {
  }

  /** No reachable state lets set_ticket_number throw: the only exception left is the wrap-around.
      And no LOCK_ENTERING finds an older ticket of the same client, so that `SecondObject` leaves
      out nothing that happens. */
  lemma NoSecondNumber(all: set<ServerName>, s: System, p: Packet)
    requires Base(all, s) && p in s.net && p.target in s.leaders && Tabled(s.leaders[p.target])
    ensures Throws(s.leaders[p.target], p.message) ==> p.message.MaxTicketIs?
    ensures !SecondObject(s.leaders[p.target], p.message)
  {
    assert PacketOk(all, s, p) && FreshPacket(s, p);
    CopyHere(all, s, p.target, p.message.Entering());
  }

  // ---------- careful clients ----------

  /** A request that was never made, or is forgotten, is mentioned nowhere. */
  lemma NewIsUnmentioned(all: set<ServerName>, s: System, k: EnteringKey)
    requires Base(all, s) && k !in s.owner
    ensures Unmentioned(s, k)
  {
    forall p | p in s.net ensures p.message.Entering() != k {
      assert PacketOk(all, s, p);
    }
    forall m | m in s.leaders ensures Free(s.leaders[m], k) {
      assert TablesOk(s, m, s.leaders[m]);
      assert k in s.leaders[m].copies ==> CopyOk(s, m, s.leaders[m], k);
    }
  }

  /** Every LOCK of this step is the first one of its client. */
  ghost predicate OnlyNew(all: set<ServerName>, s: System, s': System) {
    forall me, k :: Request(all, s, s', me, k) ==> k !in s.owner
  }

  lemma {:induction false} FirstTimersKeepBase(all: set<ServerName>, run: seq<System>, disciplined: bool, i: nat)
    requires Run(all, run, disciplined, false) && i < |run|
    requires forall n :: 0 <= n < |run| - 1 ==> OnlyNew(all, run[n], run[n + 1])
    ensures Base(all, run[i])
  {
    if i == 0 {
      InitBase(all, run[0]);
    } else {
      FirstTimersKeepBase(all, run, disciplined, i - 1);
      assert Step(all, run[i - 1], run[i - 1 + 1], disciplined, false) && OnlyNew(all, run[i - 1], run[i - 1 + 1]);
      NewStepIsCareful(all, run[i - 1], run[i], disciplined);
      StepKeepsBase(all, run[i - 1], run[i], disciplined);
    }
  }

  lemma {:induction false} NewStepIsCareful(all: set<ServerName>, s: System, s': System, disciplined: bool)
    requires Base(all, s) && Step(all, s, s', disciplined, false) && OnlyNew(all, s, s')
    ensures Step(all, s, s', disciplined, true)
  {
    if me, k :| Request(all, s, s', me, k) {
      NewIsUnmentioned(all, s, k);
    }
  }

  /** Clients that use a new entering key for every LOCK are careful. */
  lemma {:induction false} FirstTimersAreCareful(all: set<ServerName>, run: seq<System>, disciplined: bool)
    requires Run(all, run, disciplined, false) && forall n :: 0 <= n < |run| - 1 ==> OnlyNew(all, run[n], run[n + 1])
    ensures Run(all, run, disciplined, true)
  {
    forall n | 0 <= n < |run| - 1 ensures Step(all, run[n], run[n + 1], disciplined, true) {
      FirstTimersKeepBase(all, run, disciplined, n);
      NewStepIsCareful(all, run[n], run[n + 1], disciplined);
    }
  }
}
