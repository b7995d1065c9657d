/** What every step keeps: the copies of a ticket agree, a ticket only moves forward, and
    it stays in a table until it is released. */
module BakeryTables {
  import opened KeyOrder
  import opened TicketProgress
  import opened Leader
  import opened Bakery

  // ---------- evolution of one ticket, one leader, the system ----------

  ghost predicate CopyEvolves(c: Progress, d: Progress) {
    && d.owner == c.owner && d.entering == c.entering
    && (c.getMax ==> d.getMax)
    && (c.added ==> d.added && d.number == c.number)
    && (c.quorum ==> d.quorum && d.still <= c.still)
    && (c.ready ==> d.ready)
  }

  ghost predicate LeaderEvolves(l: Leader, l': Leader, released: set<EnteringKey>) {
    && (forall k :: k in l.copies ==> k in l'.copies && CopyEvolves(l.copies[k], l'.copies[k]))
    && (forall t :: t in l.tickets ==> t in l'.tickets || t.entering in released)
  }

  ghost predicate Evolves(s: System, s': System) {
    && s'.leaders.Keys == s.leaders.Keys
    && (forall k :: k in s.owner ==> k in s'.owner && s'.owner[k] == s.owner[k])
    && s.released <= s'.released
    && (forall m :: m in s.leaders ==> LeaderEvolves(s.leaders[m], s'.leaders[m], s'.released))
  }

  lemma EvolvesTransitively(s: System, s1: System, s2: System)
    requires Evolves(s, s1) && Evolves(s1, s2)
    ensures Evolves(s, s2)
  {
    forall m | m in s.leaders ensures LeaderEvolves(s.leaders[m], s2.leaders[m], s2.released) {
      assert LeaderEvolves(s.leaders[m], s1.leaders[m], s1.released);
      assert LeaderEvolves(s1.leaders[m], s2.leaders[m], s2.released);
    }
  }

  // ---------- the table invariant ----------

  /** The owner's own ticket. */
  ghost predicate OwnerOk(s: System, l: Leader, k: EnteringKey)
    requires k in l.copies
  {
    var c := l.copies[k];
    && (c.added ==> c.getMax)
    && (c.quorum ==> c.added)
    && (c.ready ==> c.quorum && c.still == {})
    && (c.added && k !in s.released ==> c.Key() in l.tickets)
  }

  /** Another leader's copy: it never runs ahead of the owner and has the owner's number. */
  ghost predicate ReplicaOk(s: System, l: Leader, k: EnteringKey)
    requires k in l.copies
  {
    var c, t := l.copies[k], Ticket(s, k);
    && !c.getMax && !c.quorum
    && (c.added ==> t.added && t.number == c.number)
    && (!c.added ==> c.number == 0)
    && (c.ready ==> t.ready)
  }

  ghost predicate CopyOk(s: System, m: ServerName, l: Leader, k: EnteringKey)
    requires k in l.copies
  {
    && k in s.owner && l.copies[k].owner == s.owner[k] && l.copies[k].entering == k
    && (if s.owner[k] == m then OwnerOk(s, l, k) else ReplicaOk(s, l, k))
  }

  ghost predicate TicketListed(l: Leader, t: TicketKey) {
    t.entering in l.copies && l.copies[t.entering].added && l.copies[t.entering].number == t.number
  }

  ghost predicate TablesOk(s: System, m: ServerName, l: Leader) {
    && (forall k :: k in l.entering ==> k in l.copies)
    && (forall t :: t in l.tickets ==> TicketListed(l, t))
    && (forall k :: k in l.copies ==> CopyOk(s, m, l, k))
  }

  ghost predicate Tables(all: set<ServerName>, s: System) {
    && s.leaders.Keys == all
    && (forall k :: k in s.owner ==> s.owner[k] in all && k in s.leaders[s.owner[k]].copies)
    && (forall m :: m in all ==> TablesOk(s, m, s.leaders[m]))
  }

  // ---------- generic consequences ----------

  lemma TicketEvolves(all: set<ServerName>, s: System, s': System, k: EnteringKey)
    requires Tables(all, s) && Evolves(s, s') && k in s.owner
    ensures CopyEvolves(Ticket(s, k), Ticket(s', k))
  {
    var m := s.owner[k];
    assert LeaderEvolves(s.leaders[m], s'.leaders[m], s'.released);
  }

  /** A copy that did not change stays right. */
  lemma CopyKept(all: set<ServerName>, s: System, s': System, m: ServerName, k: EnteringKey)
    requires Tables(all, s) && Evolves(s, s') && m in all
    requires k in s.leaders[m].copies && k in s'.leaders[m].copies
    requires s'.leaders[m].copies[k] == s.leaders[m].copies[k]
    ensures CopyOk(s', m, s'.leaders[m], k)
  {
    assert TablesOk(s, m, s.leaders[m]);
    assert CopyOk(s, m, s.leaders[m], k);
    assert LeaderEvolves(s.leaders[m], s'.leaders[m], s'.released);
    TicketEvolves(all, s, s', k);
  }

  lemma LeaderKept(all: set<ServerName>, s: System, s': System, m: ServerName)
    requires Tables(all, s) && Evolves(s, s') && m in all && s'.leaders[m] == s.leaders[m]
    ensures TablesOk(s', m, s'.leaders[m])
  {
    assert TablesOk(s, m, s.leaders[m]);
    forall k | k in s.leaders[m].copies ensures CopyOk(s', m, s'.leaders[m], k) {
      CopyKept(all, s, s', m, k);
    }
  }

  /** Enough for a change of one leader: its own tables are right and evolved. */
  lemma TablesKept(all: set<ServerName>, s: System, s': System, me: ServerName)
    requires Tables(all, s) && me in all && Evolves(s, s')
    requires forall m :: m in all && m != me ==> s'.leaders[m] == s.leaders[m]
    requires TablesOk(s', me, s'.leaders[me])
    requires forall k :: k in s'.owner ==> k in s.owner || (s'.owner[k] == me && k in s'.leaders[me].copies)
    ensures Tables(all, s')
  {
    forall m | m in all ensures TablesOk(s', m, s'.leaders[m]) {
      if m != me {
        LeaderKept(all, s, s', m);
      }
    }
    forall k | k in s'.owner ensures s'.owner[k] in all && k in s'.leaders[s'.owner[k]].copies {
      if k in s.owner {
        var m := s.owner[k];
        assert LeaderEvolves(s.leaders[m], s'.leaders[m], s'.released);
      }
    }
  }
}
