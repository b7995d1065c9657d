/** With two leaders every delivery order is disciplined. */
module BakeryTwo {
  import opened Sets
  import opened KeyOrder
  import opened TicketProgress
  import opened Leader
  import opened LeaderFacts
  import opened Bakery
  import opened BakeryTables
  import opened BakeryPackets
  import opened BakerySteps
  import opened BakeryInvariant
  import opened BakeryOrder
  import opened BakeryPlaces
  import opened BakeryExclusion

  /** No LOCK_ENTERING (or no ADD_TICKET) of ticket `k` is in flight. */
  ghost predicate NotAsked(s: System, k: EnteringKey, entering: bool) {
    forall q :: q in s.net && (if entering then q.message.LockEntering? else q.message.AddTicket?) ==>
        q.message.Entering() != k
  }

  /** A question and its answer are never in flight together, nor after the owner moved on. */
  ghost predicate Alternates(s: System, p: Packet) {
    var k := p.message.Entering();
    && (p.message.LockEntering? ==> !Ticket(s, k).getMax)
    && (p.message.LockEntered? ==> s.net[p] == 1 && !Ticket(s, k).getMax && NotAsked(s, k, true))
    && (p.message.AddTicket? ==> !Ticket(s, k).quorum)
    && (p.message.TicketAdded? ==> s.net[p] == 1 && !Ticket(s, k).quorum && NotAsked(s, k, false))
  }

  ghost predicate Alternating(s: System) {
    forall p :: p in s.net ==> Alternates(s, p)
  }

  lemma OtherOne(all: set<ServerName>, a: ServerName, b: ServerName, c: ServerName)
    requires |all| == 2 && a in all && b in all && c in all && a != b && a != c
    ensures b == c
  {
    if b != c {
      var three := {a, b, c};
      assert |three| == 3;
      SubsetSize(three, all);
    }
  }

  /** Between two leaders a kind of message about one ticket has one possible packet. */
  lemma SamePacket(all: set<ServerName>, s: System, p: Packet, q: Packet)
    requires |all| == 2 && PacketOk(all, s, p) && PacketOk(all, s, q) && p.message.Entering() == q.message.Entering()
    requires || (p.message.LockEntering? && q.message.LockEntering?)
        || (p.message.LockEntered? && q.message.LockEntered?)
             || (p.message.AddTicket? && q.message.AddTicket?) || (p.message.TicketAdded? && q.message.TicketAdded?)
    ensures p == q
  {
    var o := s.owner[p.message.Entering()];
    OtherOne(all, o, if p.source == o then p.target else p.source, if q.source == o then q.target else q.source);
  }

  lemma DisciplinedByNature(all: set<ServerName>, s: System, p: Packet)
    requires Base(all, s) && Alternating(s) && p in s.net
    ensures Disciplined(s, p)
  {
    assert PacketOk(all, s, p) && Alternates(s, p);
    if p.message.LockExiting? {
      forall q | q in s.net && q.message.AddTicket?
          && q.target == p.target ensures q.message.ticket.entering != p.message.key {
        assert Alternates(s, q);
      }
    }
  }

  // ---------- preservation ----------

  lemma GoneAfter(all: set<ServerName>, s: System, s': System, p: Packet, q: Packet)
    requires Base(all, s) && Delivery(all, s, s', p) && q in s'.net && s.net[p] == 1 && q == p
    ensures q in Handle(all, s.leaders[p.target], p).out
  {
    DeliveryActs(all, s, s', p);
  }

  /** The owner moved on because of the one answer in flight. */
  lemma OwnerMoved(all: set<ServerName>, s: System, s': System, p: Packet, q: Packet)
    requires |all| == 2 && Base(all, s) && Alternating(s) && Delivery(all, s, s', p)
    requires q in s.net && q in s'.net && q !in Handle(all, s.leaders[p.target], p).out
    ensures q.message.LockEntering? || q.message.LockEntered? ==> !Ticket(s', q.message.key).getMax
    ensures q.message.AddTicket? || q.message.TicketAdded? ==> !Ticket(s', q.message.ticket.entering).quorum
  {
    var k := q.message.Entering();
    assert PacketOk(all, s, p) && PacketOk(all, s, q) && Alternates(s, p) && Alternates(s, q);
    DeliveryActs(all, s, s', p);
    if !Ticket(s, k).getMax && Ticket(s', k).getMax && (q.message.LockEntering? || q.message.LockEntered?) {
      NewlyNumbering(all, s, s', p, k);
      if q.message.LockEntered? {
        SamePacket(all, s, p, q);
        GoneAfter(all, s, s', p, q);
      }
    }
    if !Ticket(s, k).quorum && Ticket(s', k).quorum && (q.message.AddTicket? || q.message.TicketAdded?) {
      NewlyQuorate(all, s, s', p, k);
      if q.message.TicketAdded? {
        SamePacket(all, s, p, q);
        GoneAfter(all, s, s', p, q);
      }
    }
  }

  lemma OldAlternates(all: set<ServerName>, s: System, s': System, p: Packet, q: Packet)
    requires |all| == 2 && Base(all, s) && Alternating(s) && Delivery(all, s, s', p)
    requires q in s.net && q in s'.net && q !in Handle(all, s.leaders[p.target], p).out
    ensures Alternates(s', q)
  {
    OwnerMoved(all, s, s', p, q);
    DeliveryActs(all, s, s', p);
    assert Alternates(s, q);
    var k := q.message.Entering();
    assert PacketOk(all, s, q) && PacketOk(all, s, p);
    forall r | r in s'.net && r !in s.net && (r.message.LockEntering?
        || (r.message.AddTicket? && q.message.TicketAdded?))
      ensures !r.message.LockEntering? && r.message.Entering() != k
    {
      OutSends(all, s.leaders[p.target], p, r);
      CopyHere(all, s, p.target, r.message.Entering());
    }
  }

  lemma NewAlternates(all: set<ServerName>, s: System, s': System, p: Packet, q: Packet)
    requires |all| == 2 && Base(all, s) && Alternating(s) && Delivery(all, s, s', p) && Base(all, s') && Evolves(s, s')
    requires q in Handle(all, s.leaders[p.target], p).out
    ensures Alternates(s', q)
  {
    var l, k := s.leaders[p.target], q.message.Entering();
    OutSends(all, l, p, q);
    DeliveryActs(all, s, s', p);
    assert PacketOk(all, s, p) && Alternates(s, p) && PacketOk(all, s', q);
    if q.message.LockEntered? {
      NewAnswer(all, s, s', p, q);
      if Ticket(s', k).getMax {
        NewlyNumbering(all, s, s', p, k);
      }
    } else if q.message.TicketAdded? {
      NewAnswer(all, s, s', p, q);
      if Ticket(s', k).quorum {
        NewlyQuorate(all, s, s', p, k);
      }
    } else if q.message.AddTicket? {
      CopyHere(all, s, p.target, k);
      if Ticket(s', k).quorum {
        NewlyQuorate(all, s, s', p, k);
      }
    }
  }

  /** The answer replaces the question. */
  ghost predicate AnswerTo(p: Packet, q: Packet) {
    && p.message.Entering() == q.message.Entering()
    && ((p.message.LockEntering? && q.message.LockEntered?) || (p.message.AddTicket? && q.message.TicketAdded?))
  }

  lemma NewAnswerOnce(all: set<ServerName>, s: System, s': System, p: Packet, q: Packet)
    requires |all| == 2 && Base(all, s) && Alternating(s) && Delivery(all, s, s', p)
    requires q in Handle(all, s.leaders[p.target], p).out && AnswerTo(p, q)
    ensures s'.net[q] == 1
  {
    DeliveryActs(all, s, s', p);
    assert q in s.net ==> Alternates(s, q);
    hide Handle, Base, Delivery, Acting, Alternating;
    AnswerOnce(all, s.leaders[p.target], p, q);
  }

  lemma NewAnswer(all: set<ServerName>, s: System, s': System, p: Packet, q: Packet)
    requires |all| == 2 && Base(all, s) && Alternating(s) && Delivery(all, s, s', p)
    requires q in Handle(all, s.leaders[p.target], p).out && AnswerTo(p, q)
    ensures s'.net[q] == 1 && NotAsked(s', q.message.Entering(), p.message.LockEntering?)
  {
    NewAnswerOnce(all, s, s', p, q);
    var entering := p.message.LockEntering?;
    forall r | r in s'.net && (if entering then r.message.LockEntering? else r.message.AddTicket?)
      ensures r.message.Entering() != q.message.Entering()
    {
      if r.message.Entering() == p.message.Entering() {
        QuestionGone(all, s, s', p, r);
      }
    }
  }

  lemma QuestionGone(all: set<ServerName>, s: System, s': System, p: Packet, r: Packet)
    requires |all| == 2 && Base(all, s) && Delivery(all, s, s', p) && p.message.Entering() == r.message.Entering()
    requires (p.message.LockEntering? && r.message.LockEntering?) || (p.message.AddTicket? && r.message.AddTicket?)
    ensures r !in s'.net
  {
    DeliveryActs(all, s, s', p);
    if r in Handle(all, s.leaders[p.target], p).out {
      OutSends(all, s.leaders[p.target], p, r);
    } else if r in s.net {
      assert PacketOk(all, s, r);
      SamePacket(all, s, p, r);
    }
  }

  lemma AnswerOnce(all: set<ServerName>, l: Leader, p: Packet, q: Packet)
    requires Tabled(l) && q in Handle(all, l, p).out && (p.message.LockEntering? || p.message.AddTicket?)
    ensures Handle(all, l, p).out[q] == 1
  {
  }

  lemma DeliveryAlternating(all: set<ServerName>, s: System, s': System, p: Packet)
    requires |all| == 2 && Base(all, s) && Alternating(s) && Delivery(all, s, s', p)
    ensures Alternating(s')
  {
    DeliveryKeepsBase(all, s, s', p);
    DeliveryActs(all, s, s', p);
    forall q | q in s'.net ensures Alternates(s', q) {
      if q in Handle(all, s.leaders[p.target], p).out {
        NewAlternates(all, s, s', p, q);
      } else {
        OldAlternates(all, s, s', p, q);
      }
    }
  }

  // ---------- the other steps ----------

  lemma UnlockIsQuiet(all: set<ServerName>, me: ServerName, l: Leader, t: TicketKey, q: Packet)
    requires Tabled(l) && t in l.tickets && !q.message.DropTicket? && !q.message.ActivateLock?
    ensures q !in OnUnlock(all, me, l, t).out
  {
    hide OnUnlock, Tabled;
    if q in OnUnlock(all, me, l, t).out {
      UnlockSends(all, me, l, t, q);
    }
  }

  lemma ClientNet(all: set<ServerName>, s: System, s': System, q: Packet)
    requires Base(all, s) && ClientStep(all, s, s') && !q.message.LockEntering? && !q.message.DropTicket?
        && !q.message.ActivateLock?
    ensures s'.net[q] == s.net[q]
  {
    if me, j :| Introduce(all, s, s', me, j) {
    } else {
      var me, t :| Unlock(all, s, s', me, t);
      UnlockIsQuiet(all, me, s.leaders[me], t, q);
      assert s'.net == s.net + OnUnlock(all, me, s.leaders[me], t).out;
    }
  }

  lemma ClientAlternates(all: set<ServerName>, s: System, s': System, q: Packet)
    requires Base(all, s) && Alternating(s) && ClientStep(all, s, s') && Base(all, s') && q in s'.net
    ensures Alternates(s', q)
  {
    var k := q.message.Entering();
    if q in s.net {
      assert PacketOk(all, s, q) && Alternates(s, q);
      ClientTicket(all, s, s', k);
      if q.message.LockEntered? || q.message.TicketAdded? {
        ClientNet(all, s, s', q);
      }
      forall r | r in s'.net && r !in s.net ensures (r.message.LockEntering? ==> r.message.key != k)
          && !r.message.AddTicket? {
        ClientSends(all, s, s', r);
        if r.message.LockEntering? {
          NewEnteringPacket(all, s, s', r);
        }
      }
    } else {
      ClientSends(all, s, s', q);
      assert PacketOk(all, s', q);
      if q.message.LockEntering? {
        NewEnteringPacket(all, s, s', q);
        ClientNew(all, s, s', k);
      }
    }
  }

  lemma ForgetAlternates(all: set<ServerName>, s: System, s': System, k: EnteringKey, q: Packet)
    requires Base(all, s) && Alternating(s) && Forget(s, s', k) && q in s'.net
    ensures Alternates(s', q)
  {
    assert q.message.Entering() != k && Alternates(s, q);
    ForgetKeeps(all, s, s', k, "", q.message.Entering());
  }

  lemma ClientAlternating(all: set<ServerName>, s: System, s': System)
    requires |all| == 2 && Base(all, s) && Alternating(s) && ClientStep(all, s, s')
    ensures Alternating(s')
  {
    ClientKeepsBase(all, s, s');
    forall q | q in s'.net ensures Alternates(s', q) {
      ClientAlternates(all, s, s', q);
    }
  }

  lemma StepAlternating(all: set<ServerName>, s: System, s': System)
    requires |all| == 2 && Base(all, s) && Alternating(s) && Step(all, s, s', false, true)
    ensures Alternating(s') && Base(all, s') && Step(all, s, s', true, true)
  {
    StepKeepsBase(all, s, s', false);
    if p :| Delivery(all, s, s', p) {
      DeliveryAlternating(all, s, s', p);
      DisciplinedByNature(all, s, p);
    } else if me, t :| Unlock(all, s, s', me, t) {
      ClientAlternating(all, s, s');
    } else {
      var me, k :| Request(all, s, s', me, k) && Unmentioned(s, k);
      var forgotten := Forgotten(s, k);
      RequestInHalves(all, s, s', me, k);
      ForgetKeepsBase(all, s, forgotten, k);
      forall q | q in forgotten.net ensures Alternates(forgotten, q) {
        ForgetAlternates(all, s, forgotten, k, q);
      }
      ClientAlternating(all, forgotten, s');
    }
  }

  // ---------- all runs ----------

  lemma InitAlternating(all: set<ServerName>, s: System)
    requires Init(all, s)
    ensures Base(all, s) && Alternating(s)
  {
    InitBase(all, s);
  }

  lemma {:induction false} RunAlternating(all: set<ServerName>, run: seq<System>, i: nat)
    requires |all| == 2 && Run(all, run, false, true) && i < |run|
    ensures Base(all, run[i]) && Alternating(run[i])
  {
    if i == 0 {
      InitAlternating(all, run[0]);
    } else {
      RunAlternating(all, run, i - 1);
      StepAlternating(all, run[i - 1], run[i]);
    }
  }

  /** Two leaders need nothing from the transport: any run of theirs is a disciplined one. */
  lemma TwoLeadersAreDisciplined(all: set<ServerName>, run: seq<System>)
    requires |all| == 2 && Run(all, run, false, true)
    ensures Run(all, run, true, true)
  {
    forall i | 0 <= i < |run| - 1 ensures Step(all, run[i], run[i + 1], true, true) {
      RunAlternating(all, run, i);
      StepAlternating(all, run[i], run[i + 1]);
    }
  }

  /** Mutual exclusion between two leaders, packets delivered in any order. */
  lemma MutualExclusionOfTwo(all: set<ServerName>, run: seq<System>, i: nat, a: EnteringKey, b: EnteringKey)
    requires |all| == 2 && Run(all, run, false, true) && i < |run|
    requires a in Held(run[i]) && b in Held(run[i])
    ensures a == b
  {
    TwoLeadersAreDisciplined(all, run);
    MutualExclusion(all, run, i, a, b);
  }
}
