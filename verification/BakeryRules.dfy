/** Which rules the transport and the clients have to keep for mutual exclusion. */
module BakeryRules {
  import opened KeyOrder
  import opened TicketProgress
  import opened Leader
  import opened Bakery
  import opened BakeryExclusion
  import opened BakeryOrder
  import opened BakeryTwo
  import opened Queues
  import BakeryThree
  import BakeryReuse
  import BakeryTurns
  import opened Latecomers
  import Dialogue

  /** In no run by these rules two clients hold the lock. */
  ghost predicate Exclusive(all: set<ServerName>, r: Rules) {
    forall h, j, k :: Played(all, h, r) && j in Held(Last(h).s) && k in Held(Last(h).s) ==> j == k
  }

  /** Keeping more rules is no problem. */
  lemma {:induction false} Stricter(all: set<ServerName>, h: seq<Game>, r: Rules, weaker: Rules)
    requires Played(all, h, r)
    requires (weaker.disciplined ==> r.disciplined) && (weaker.careful ==> r.careful) && (weaker.fifo ==> r.fifo)
    ensures Played(all, h, weaker)
  {
    forall i | 0 <= i < |h| - 1 ensures GameStep(all, h[i], h[i + 1], weaker) {
      StricterStep(all, h[i], h[i + 1], r, weaker);
    }
  }

  lemma {:induction false} StricterStep(all: set<ServerName>, g: Game, g': Game, r: Rules, weaker: Rules)
    requires GameStep(all, g, g', r)
    requires (weaker.disciplined ==> r.disciplined) && (weaker.careful ==> r.careful) && (weaker.fifo ==> r.fifo)
    ensures GameStep(all, g, g', weaker)
  {
    if p, i :| Receives(all, g, g', p, i, r) {
      assert Receives(all, g, g', p, i, weaker);
    } else if me, k :| Asks(all, g, g', me, k, r) {
      assert Asks(all, g, g', me, k, weaker);
    }
  }

  /** One failing run is enough. */
  lemma {:induction false} Fails(all: set<ServerName>, h: seq<Game>, r: Rules, weaker: Rules, j: EnteringKey,
        k: EnteringKey)
    requires Played(all, h, r) && j != k && Held(Last(h).s) == {j, k}
    requires (weaker.disciplined ==> r.disciplined) && (weaker.careful ==> r.careful) && (weaker.fifo ==> r.fifo)
    ensures !Exclusive(all, weaker)
  {
    Stricter(all, h, r, weaker);
    assert j in Held(Last(h).s) && k in Held(Last(h).s);
  }

  lemma {:induction false} CarefulIsExclusive(all: set<ServerName>, r: Rules)
    requires r.careful && ((|all| <= 3 && r.disciplined) || |all| == 2)
    ensures Exclusive(all, r)
  {
    forall h, j, k | Played(all, h, r) && j in Held(Last(h).s) && k in Held(Last(h).s) ensures j == k {
      PlayedIsRun(all, h, r);
      assert Systems(h)[|h| - 1] == Last(h).s;
      if |all| == 2 {
        RunMore(all, Systems(h), r.disciplined);
        MutualExclusionOfTwo(all, Systems(h), |h| - 1, j, k);
      } else {
        MutualExclusion(all, Systems(h), |h| - 1, j, k);
      }
    }
  }

  lemma {:induction false} RunMore(all: set<ServerName>, run: seq<System>, disciplined: bool)
    requires Run(all, run, disciplined, true)
    ensures Run(all, run, false, true)
  {
    forall i | 0 <= i < |run| - 1 ensures Step(all, run[i], run[i + 1], false, true) {
      assert Step(all, run[i], run[i + 1], disciplined, true);
    }
  }

  /** Three leaders: mutual exclusion holds in all runs if and only if the transport is
      disciplined and the clients are careful; that every link keeps the order does not help. */
  lemma {:induction false} ThreeLeadersNeedBoth(a: ServerName, b: ServerName, c: ServerName, r: Rules)
    requires a != b && b != c && a != c
    ensures Exclusive({a, b, c}, r) <==> r.disciplined && r.careful
  {
    if r.disciplined && r.careful {
      CarefulIsExclusive({a, b, c}, r);
    } else if !r.disciplined {
      var h := BakeryThree.TwoHolders(a, b, c, "1", "2");
      Fails({a, b, c}, h, BakeryThree.ORDERED, r, "1", "2");
    } else {
      var h := BakeryReuse.TwoHoldersOfThree(a, b, c, "1", "2");
      Fails({a, b, c}, h, BakeryReuse.HASTY, r, "2", "1");
    }
  }

  /** Two leaders need no discipline: mutual exclusion holds in all runs if and only if the clients
      are careful, whatever order the links keep. */
  lemma {:induction false} TwoLeadersNeedCare(a: ServerName, b: ServerName, r: Rules)
    requires a != b
    ensures Exclusive({a, b}, r) <==> r.careful
  {
    if r.careful {
      CarefulIsExclusive({a, b}, r);
    } else {
      var h := BakeryReuse.TwoHoldersOfTwo(a, b, "1", "2");
      Fails({a, b}, h, BakeryReuse.HASTY, r, "2", "1");
    }
  }

  // ---------- replication ----------

  /** In every run by these rules, a second leader has each ticket for which LOCKED was sent, and
      lists it until the ticket is released. */
  ghost predicate Replicated(all: set<ServerName>, r: Rules) {
    forall h, k :: Played(all, h, r) && k in Last(h).s.locked ==>
      k in Last(h).s.owner && exists m :: Backup(Last(h).s, k, m)
  }

  lemma {:induction false} CarefulIsReplicated(all: set<ServerName>, r: Rules)
    requires |all| <= 3 && r.careful
    ensures Replicated(all, r)
  {
    forall h, k | Played(all, h, r) && k in Last(h).s.locked
      ensures k in Last(h).s.owner && exists m :: Backup(Last(h).s, k, m)
    {
      PlayedIsRun(all, h, r);
      RunMore(all, Systems(h), r.disciplined);
      assert Systems(h)[|h| - 1] == Last(h).s;
      LockedIsReplicated(all, Systems(h), |h| - 1, k);
    }
  }

  lemma {:induction false} LosesTicket(all: set<ServerName>, h: seq<Game>, r: Rules, weaker: Rules, k: EnteringKey)
    requires Played(all, h, r) && BakeryReuse.Unreplicated(Last(h).s, k)
    requires (weaker.disciplined ==> r.disciplined) && (weaker.careful ==> r.careful) && (weaker.fifo ==> r.fifo)
    ensures !Replicated(all, weaker)
  {
    Stricter(all, h, r, weaker);
    assert k in Last(h).s.locked;
  }

  lemma {:induction false} TwoOrThree(all: set<ServerName>) returns (a: ServerName, b: ServerName, c: ServerName)
    requires |all| == 2 || |all| == 3
    ensures a != b && (|all| == 2 ==> all == {a, b}) && (|all| == 3 ==> a != c && b != c && all == {a, b, c})
  {
    a :| a in all;
    var rest := all - {a};
    assert |rest| == |all| - 1 && all == rest + {a};
    b :| b in rest;
    var last := rest - {b};
    assert |last| == |rest| - 1 && rest == last + {b};
    if |all| == 2 {
      assert last == {} && all == {a, b};
      c := a;
    } else {
      c :| c in last;
      assert |last - {c}| == 0;
      assert last == {c};
    }
  }

  /** Whatever the transport does: what LOCKED promises survives the loss of its leader in all runs
      of two or three leaders if and only if the clients are careful. */
  lemma {:induction false} ReplicationNeedsCare(all: set<ServerName>, r: Rules)
    requires |all| == 2 || |all| == 3
    ensures Replicated(all, r) <==> r.careful
  {
    if r.careful {
      CarefulIsReplicated(all, r);
    } else {
      var a, b, c := TwoOrThree(all);
      if |all| == 2 {
        var h := BakeryReuse.TwoHoldersOfTwo(a, b, "1", "2");
        LosesTicket(all, h, BakeryReuse.HASTY, r, if Before("2", "1") then "2" else "1");
      } else {
        var h := BakeryReuse.LockedByLateAnswers(a, b, c, "1");
        LosesTicket(all, h, BakeryReuse.HASTY, r, "1");
      }
    }
  }

  // ---------- first come, first served ----------

  /** In no run by these rules a client overtakes another one that had its quorum first. */
  ghost predicate InTurn(all: set<ServerName>, r: Rules) {
    forall h, e, l :: Played(all, h, r) ==> !BakeryTurns.OutOfTurn(Last(h).s, e, l)
  }

  lemma {:induction false} CarefulIsInTurn(all: set<ServerName>, r: Rules)
    requires |all| <= 3 && r.careful
    ensures InTurn(all, r)
  {
    forall h, e, l | Played(all, h, r) ensures !BakeryTurns.OutOfTurn(Last(h).s, e, l) {
      PlayedIsRun(all, h, r);
      RunMore(all, Systems(h), r.disciplined);
      assert Systems(h)[|h| - 1] == Last(h).s;
      if BakeryTurns.OutOfTurn(Last(h).s, e, l) {
        FirstComeFirstServed(all, Systems(h), |h| - 1, e, l);
      }
    }
  }

  /** Whatever the transport does: three leaders serve in the order of the quorums in all runs if and
      only if the clients are careful. */
  lemma {:induction false} TurnsNeedCare(a: ServerName, b: ServerName, c: ServerName, r: Rules)
    requires a != b && b != c && a != c
    ensures InTurn({a, b, c}, r) <==> r.careful
  {
    if r.careful {
      CarefulIsInTurn({a, b, c}, r);
    } else {
      var h := BakeryTurns.ServedOutOfTurn(a, b, c, "1", "2");
      Stricter({a, b, c}, h, BakeryReuse.HASTY, r);
    }
  }

  // ---------- the waiting invariant ----------

  /** In no run by these rules a smaller ticket reaches an owner whose own ticket is ready. */
  ghost predicate Waits(all: set<ServerName>, r: Rules) {
    forall h, g, g', e, t :: Played(all, h, r) && EndsWith(h, g, g') ==> !Overtaken(g.s, g'.s, e, t)
  }

  lemma {:induction false} NotOvertaken(all: set<ServerName>, run: seq<System>, i: nat, e: EnteringKey, t: TicketKey)
    requires |all| <= 3 && Run(all, run, true, true) && i + 1 < |run|
    ensures !Overtaken(run[i], run[i + 1], e, t)
  {
    hide Run;
    if Overtaken(run[i], run[i + 1], e, t) {
      WaitingInvariant(all, run, i, e, t);
    }
  }

  lemma {:induction false} LastTwo(h: seq<Game>, g: Game, g': Game)
    requires EndsWith(h, g, g')
    ensures Systems(h)[|h| - 2] == g.s && Systems(h)[|h| - 2 + 1] == g'.s
  {
  }

  lemma {:induction false} CarefulWaits(all: set<ServerName>, r: Rules)
    requires |all| <= 3 && r.careful && r.disciplined
    ensures Waits(all, r)
  {
    hide Played, Run, Overtaken, EndsWith;
    forall h, g, g', e, t | Played(all, h, r) && EndsWith(h, g, g') ensures !Overtaken(g.s, g'.s, e, t) {
      EndIsLong(h, g, g');
      PlayedIsRun(all, h, r);
      LastTwo(h, g, g');
      NotOvertaken(all, Systems(h), |h| - 2, e, t);
    }
  }

  lemma EndIsLong(h: seq<Game>, g: Game, g': Game)
    requires EndsWith(h, g, g')
    ensures |h| >= 2
  {
  }

  lemma {:induction false} Overtakes(all: set<ServerName>, h: seq<Game>, r: Rules, weaker: Rules, g: Game, g': Game,
        e: EnteringKey, t: TicketKey)
    requires Played(all, h, r) && EndsWith(h, g, g') && Overtaken(g.s, g'.s, e, t)
    requires (weaker.disciplined ==> r.disciplined) && (weaker.careful ==> r.careful) && (weaker.fifo ==> r.fifo)
    ensures !Waits(all, weaker)
  {
    Stricter(all, h, r, weaker);
  }

  /** Three leaders: the waiting invariant holds in all runs if and only if the transport is
      disciplined and the clients are careful. */
  lemma {:induction false} WaitingNeedsBoth(a: ServerName, b: ServerName, c: ServerName, r: Rules)
    requires a != b && b != c && a != c
    ensures Waits({a, b, c}, r) <==> r.disciplined && r.careful
  {
    if r.disciplined && r.careful {
      CarefulWaits({a, b, c}, r);
    } else {
      assert Before("1", "2");
      if !r.disciplined {
        var h, g, g' := BakeryThree.StrangerOvertakes(a, b, c, "2", "1");
        Overtakes({a, b, c}, h, BakeryThree.ORDERED, r, g, g', "2", Dialogue.Number1("1"));
      } else {
        var h, g, g' := BakeryTurns.HastyOvertakes(a, b, c, "1", "2");
        Overtakes({a, b, c}, h, BakeryReuse.HASTY, r, g, g', "2", Dialogue.Number1("1"));
      }
    }
  }
}
