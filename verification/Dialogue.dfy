/** The dialogue between the owner of a ticket and another leader, one delivery at a time.

    The owner `x` has no other ticket and the other leader `y` only has copies.  These moves are
    what the failing runs of BakeryThree.dfy and BakeryReuse.dfy are made of. */
module Dialogue {
  import opened KeyOrder
  import opened TicketProgress
  import opened Leader
  import opened Bakery
  import opened Queues
  import opened QueueMoves

  // ---------- the tables of an owner and of another leader ----------

  function Asking(x: ServerName, k: EnteringKey): Progress { NewTicket(x, k).(getMax := true) }

  function Numbering(x: ServerName, k: EnteringKey): Progress { Asking(x, k).(number := 1, added := true) }

  function Number1(k: EnteringKey): TicketKey { TicketKey(1, k) }

  function Nobody(): Leader { Leader({}, {}, map[]) }

  function OwnerEntering(x: ServerName, k: EnteringKey): Leader { Leader({k}, {}, map[k := NewTicket(x, k)]) }

  function OwnerAsking(x: ServerName, k: EnteringKey): Leader { Leader({k}, {}, map[k := Asking(x, k)]) }

  function OwnerNumbered(x: ServerName, k: EnteringKey): Leader { Leader({k}, {Number1(k)}, map[k := Numbering(x, k)]) }

  function Waited(x: ServerName, k: EnteringKey): Progress { Numbering(x, k).(quorum := true, ready := true) }

  function OwnerReady(x: ServerName, k: EnteringKey): Leader { Leader({}, {Number1(k)}, map[k := Waited(x, k)]) }

  function OwnerLocked(x: ServerName, k: EnteringKey): Leader {
    Leader({}, {Number1(k)}, map[k := Waited(x, k).(locked := true)])
  }

  function OwnerDone(x: ServerName, k: EnteringKey): Leader {
    Leader({}, {}, map[k := Waited(x, k).(locked := true, failed := true)])
  }

  function Copied(x: ServerName, k: EnteringKey): Progress { NewTicket(x, k).(number := 1, added := true) }

  function WithCopy(l: Leader, k: EnteringKey, p: Progress): Leader { l.(copies := l.copies[k := p]) }

  function CopyEntering(l: Leader, x: ServerName, k: EnteringKey): Leader {
    WithCopy(l, k, NewTicket(x, k)).(entering := l.entering + {k})
  }

  function Added(l: Leader, x: ServerName, k: EnteringKey): Leader {
    WithCopy(l, k, Copied(x, k)).(tickets := l.tickets + {Number1(k)})
  }

  function Left(l: Leader, k: EnteringKey): Leader { l.(entering := l.entering - {k}) }

  /** No ticket waits for others here, and the first one cannot be locked. */
  ghost predicate Idle(l: Leader)
    requires Tabled(l)
  {
    && (forall j :: j in l.copies ==> !l.copies[j].quorum)
    && forall t :: IsFirst(l.tickets, t) ==> !CanLock(l.copies[t.entering])
  }

  lemma NoNumber(tickets: set<TicketKey>)
    requires tickets == {}
    ensures GetLast(tickets) == 0
  {
  }

  lemma FirstOf(tickets: set<TicketKey>, t: TicketKey)
    requires IsFirst(tickets, t)
    ensures FindFirst(tickets) == FirstKey(t)
  {
    var first := FindFirst(tickets);
    KeyBeforeStrictTotal(first.key, t, first.key);
  }

  // ---------- what a move leaves alone ----------

  /** The message `m` is at `i` on the link from `x` to `y`, and it is its turn. */
  ghost predicate Next(all: set<ServerName>, r: Rules, g: Game, x: ServerName, y: ServerName, i: nat, m: Message) {
    && x in all && y in all && x != y && y in g.s.leaders && i < |On(g, x, y)| && On(g, x, y)[i] == m &&
        (r.fifo ==> i == 0)
  }

  // ---------- the other leader ----------

  lemma {:induction false} Enters(all: set<ServerName>, h: seq<Game>, r: Rules, g: Game, x: ServerName, y: ServerName,
        i: nat, k: EnteringKey, l: Leader)
    returns (more: seq<Game>, g': Game)
    requires Now(all, h, r) == Here(g) && Next(all, r, g, x, y, i, LockEntering(k))
    requires g.s.leaders[y] == l && Tabled(l) && Free(l, k)
    ensures Now(all, more, r) == Here(g') && Became(g.s, g'.s, y, CopyEntering(l, x, k))
    ensures Replied(g, g', x, y, i, LockEntered(k))
  {
    hide Now, On, AreTails, Told, Taken, Replied, Became, Got;
    var e := Effect(CopyEntering(l, x, k), Reply(y, x, LockEntered(k)), {}, {});
    assert OnLockEntering(y, x, l, k) == e;
    more, g' := Replies(all, h, r, g, x, y, i, LockEntering(k), e, LockEntered(k));
  }

  lemma {:induction false} Answers(all: set<ServerName>, h: seq<Game>, r: Rules, g: Game, x: ServerName,
        y: ServerName, i: nat, k: EnteringKey, l: Leader, n: nat)
    returns (more: seq<Game>, g': Game)
    requires Now(all, h, r) == Here(g) && Next(all, r, g, x, y, i, GetMaxTicket(k))
    requires g.s.leaders[y] == l && Tabled(l) && GetLast(l.tickets) == n
    ensures Now(all, more, r) == Here(g') && Became(g.s, g'.s, y, l) && Replied(g, g', x, y, i, MaxTicketIs(k, n))
  {
    hide Now, On, AreTails, Told, Taken, Replied, Became, Got;
    var e := Nothing(l).(out := Reply(y, x, MaxTicketIs(k, n)));
    more, g' := Replies(all, h, r, g, x, y, i, GetMaxTicket(k), e, MaxTicketIs(k, n));
  }

  lemma {:induction false} Adds(all: set<ServerName>, h: seq<Game>, r: Rules, g: Game, x: ServerName, y: ServerName,
        i: nat, k: EnteringKey, l: Leader)
    returns (more: seq<Game>, g': Game)
    requires Now(all, h, r) == Here(g) && Next(all, r, g, x, y, i, AddTicket(Number1(k)))
    requires g.s.leaders[y] == l && Tabled(l) && k in l.entering && l.copies[k] == NewTicket(x, k)
    requires Number1(k) !in l.tickets
    ensures Now(all, more, r) == Here(g') && more == h + [g'] && Became(g.s, g'.s, y, Added(l, x, k))
    ensures Replied(g, g', x, y, i, Message.TicketAdded(Number1(k)))
  {
    hide Now, On, AreTails, Told, Taken, Replied, Became, Got;
    var e := Effect(Added(l, x, k), Reply(y, x, Message.TicketAdded(Number1(k))), {}, {});
    assert OnAddTicket(y, x, l, Number1(k)) == e;
    more, g' := Replies(all, h, r, g, x, y, i, AddTicket(Number1(k)), e, Message.TicketAdded(Number1(k)));
  }

  /** An idle leader does nothing more when a ticket exits. */
  lemma {:induction false} NothingExits(all: set<ServerName>, y: ServerName, l: Leader, k: EnteringKey)
    requires Tabled(l) && Idle(l) && k in l.entering
    ensures OnLockExiting(all, y, l, k) == Effect(Left(l, k), multiset{}, {}, {})
  {
    assert ExitAll(l, k) == l.copies;
    var l' := l.(entering := l.entering - {k}, copies := ExitAll(l, k));
    assert l' == Left(l, k);
    assert forall t :: t in l.tickets ==> !BecomesReady(l, t, k);
    assert Readied(all, y, l, k) == multiset{};
    assert ActivateFirst(all, y, l') == multiset{};
  }

  lemma {:induction false} Leaves(all: set<ServerName>, h: seq<Game>, r: Rules, g: Game, x: ServerName, y: ServerName,
        i: nat, k: EnteringKey, l: Leader)
    returns (more: seq<Game>, g': Game)
    requires Now(all, h, r) == Here(g) && Next(all, r, g, x, y, i, LockExiting(k)) && (r.disciplined ==> NoAdd(g, y, k))
    requires g.s.leaders[y] == l && Tabled(l) && Idle(l) && k in l.entering
    ensures Now(all, more, r) == Here(g') && Became(g.s, g'.s, y, Left(l, k)) && Taken(g, g', x, y, i)
  {
    hide Now, On, AreTails, Told, Taken, Replied, Became, Got;
    NothingExits(all, y, l, k);
    ExitIsHandled(all, l, x, y, k);
    MayLeave(all, h, r, g, x, y, k);
    NoTails(all, y);
    hide Handle, OnLockExiting, Now, AreTails, Idle;
    more, g' := Tells(all, h, r, g, x, y, i, LockExiting(k), Effect(Left(l, k), multiset{}, {}, {}), []);
    ToldNothing(all, g, g', x, y, i);
  }

  lemma {:induction false} HearsReady(all: set<ServerName>, h: seq<Game>, r: Rules, g: Game, x: ServerName,
        y: ServerName, i: nat, k: EnteringKey, l: Leader)
    returns (more: seq<Game>, g': Game)
    requires Now(all, h, r) == Here(g) && Next(all, r, g, x, y, i, TicketReady(Number1(k)))
    requires g.s.leaders[y] == l && Tabled(l) && Number1(k) in l.tickets
    ensures Now(all, more, r) == Here(g') && Became(g.s, g'.s, y, WithCopy(l, k, SetReady(l.copies[k])))
    ensures Taken(g, g', x, y, i)
  {
    hide Now, On, AreTails, Told, Taken, Replied, Became, Got;
    NoTails(all, y);
    more, g' := Tells(all, h, r, g, x, y, i, TicketReady(Number1(k)), Nothing(WithCopy(l, k, SetReady(l.copies[k]))),
                      []);
    ToldNothing(all, g, g', x, y, i);
  }

  lemma {:induction false} Activates(all: set<ServerName>, h: seq<Game>, r: Rules, g: Game, x: ServerName,
        y: ServerName, i: nat, k: EnteringKey, l: Leader)
    returns (more: seq<Game>, g': Game)
    requires Now(all, h, r) == Here(g) && Next(all, r, g, x, y, i, ActivateLock(Number1(k)))
    requires g.s.leaders[y] == l && Tabled(l) && IsFirst(l.tickets, Number1(k)) && CanLock(l.copies[k])
    requires l.copies[k].owner != y
    ensures Now(all, more, r) == Here(g') && Became(g.s, g'.s, y, WithCopy(l, k, l.copies[k].(locked := true)))
    ensures Replied(g, g', x, y, i, LockActivated(Number1(k), FirstKey(Number1(k))))
  {
    hide Now, On, AreTails, Told, Taken, Replied, Became, Got;
    FirstOf(l.tickets, Number1(k));
    var e := Effect(WithCopy(l, k, l.copies[k].(locked := true)),
                    Reply(y, x, LockActivated(Number1(k), FirstKey(Number1(k)))), {}, {});
    assert OnActivateLock(y, x, l, Number1(k)) == e;
    more, g' := Replies(all, h, r, g, x, y, i, ActivateLock(Number1(k)), e,
                        LockActivated(Number1(k), FirstKey(Number1(k))));
  }

  lemma {:induction false} Drops(all: set<ServerName>, h: seq<Game>, r: Rules, g: Game, x: ServerName, y: ServerName,
        i: nat, k: EnteringKey, l: Leader)
    returns (more: seq<Game>, g': Game)
    requires Now(all, h, r) == Here(g) && Next(all, r, g, x, y, i, DropTicket(Number1(k)))
    requires g.s.leaders[y] == l && Tabled(l) && l.tickets == {Number1(k)}
    ensures Now(all, more, r) == Here(g') && Became(g.s, g'.s, y, Left(l, k).(tickets := {})) && Taken(g, g', x, y, i)
  {
    hide Now, On, AreTails, Told, Taken, Replied, Became, Got;
    var e := Effect(Left(l, k).(tickets := {}), multiset{}, {}, {});
    assert l.tickets - {Number1(k)} == {};
    assert OnDropTicket(all, y, l, Number1(k)) == e;
    NoTails(all, y);
    more, g' := Tells(all, h, r, g, x, y, i, DropTicket(Number1(k)), e, []);
    ToldNothing(all, g, g', x, y, i);
  }

  // ---------- the owner ----------

  lemma {:induction false} MayAsk(all: set<ServerName>, h: seq<Game>, r: Rules, g: Game, x: ServerName, y: ServerName,
        k: EnteringKey)
    requires Now(all, h, r) == Here(g) && (r.disciplined ==> forall u, v :: LockEntering(k) !in On(g, u, v))
    ensures r.disciplined ==> Disciplined(g.s, Packet(y, x, LockEntered(k)))
  {
    if r.disciplined {
      QuietEntering(g, y, x, k);
    }
  }

  lemma {:induction false} StartsAsking(all: set<ServerName>, x: ServerName, k: EnteringKey, l: Leader)
    requires Tabled(l) && k in l.entering && l.copies[k] == NewTicket(x, k) && l.tickets == {}
    ensures OnLockEntered(all, x, l, k)
         == Effect(WithCopy(l, k, Asking(x, k)), Broadcast(all, x, GetMaxTicket(k)), {}, {})
  {
    NoNumber({});
    assert TicketProgress.Entered(NewTicket(x, k), 0) == Asking(x, k);
  }

  lemma {:induction false} Asks(all: set<ServerName>, h: seq<Game>, r: Rules, g: Game, x: ServerName, y: ServerName,
        i: nat, k: EnteringKey, l: Leader)
    returns (more: seq<Game>, g': Game)
    requires Now(all, h, r) == Here(g) && Next(all, r, g, y, x, i, LockEntered(k)) && g.s.leaders[x] == l && Tabled(l)
    requires k in l.entering && l.copies[k] == NewTicket(x, k) && l.tickets == {}
    requires r.disciplined ==> forall u, v :: LockEntering(k) !in On(g, u, v)
    ensures Now(all, more, r) == Here(g') && Became(g.s, g'.s, x, WithCopy(l, k, Asking(x, k)))
    ensures Told(all, g, g', y, x, i, [GetMaxTicket(k)]) && g'.s.before == g.s.before[k := Quorate(g.s)]
  {
    hide Now, On, AreTails, Told, Taken, Replied, Became, Got;
    hide OnLockEntered, Now;
    StartsAsking(all, x, k, l);
    var e := Effect(WithCopy(l, k, Asking(x, k)), Broadcast(all, x, GetMaxTicket(k)), {}, {});
    MayAsk(all, h, r, g, x, y, k);
    OneTail(all, x, GetMaxTicket(k));
    more, g' := Tells(all, h, r, g, y, x, i, LockEntered(k), e, [GetMaxTicket(k)]);
  }

  /** The owner with its first number in the table. */
  function WithNumber(l: Leader, x: ServerName, k: EnteringKey): Leader {
    WithCopy(l, k, Numbering(x, k)).(tickets := l.tickets + {Number1(k)})
  }

  lemma {:induction false} Numbers(all: set<ServerName>, h: seq<Game>, r: Rules, g: Game, x: ServerName,
        y: ServerName, i: nat, k: EnteringKey, l: Leader)
    returns (more: seq<Game>, g': Game)
    requires Now(all, h, r) == Here(g) && Next(all, r, g, y, x, i, MaxTicketIs(k, 0)) && g.s.leaders[x] == l
    requires Tabled(l)
    requires k in l.entering && l.copies[k] == Asking(x, k)
    ensures Now(all, more, r) == Here(g') && Became(g.s, g'.s, x, WithNumber(l, x, k))
    ensures Told(all, g, g', y, x, i, [AddTicket(Number1(k))]) && g'.s.before == g.s.before
  {
    hide Now, On, AreTails, Told, Taken, Replied, Became, Got;
    assert Numbered(Asking(x, k), 0) == Numbering(x, k);
    OneTail(all, x, AddTicket(Number1(k)));
    var e := Effect(WithNumber(l, x, k), Broadcast(all, x, AddTicket(Number1(k))), {}, {});
    assert OnMaxTicket(all, x, l, k, 0) == e;
    more, g' := Tells(all, h, r, g, y, x, i, MaxTicketIs(k, 0), e, [AddTicket(Number1(k))]);
  }

  /** What the owner sends when it has its quorum and waits for nobody else. */
  function QuorumNews(k: EnteringKey): seq<Message> {
    [LockExiting(k), TicketReady(Number1(k)), ActivateLock(Number1(k))]
  }

  /** The owner only waits for its own ticket. */
  lemma {:induction false} OwnerExits(all: set<ServerName>, x: ServerName, k: EnteringKey)
    ensures var e := OnTicketAdded(all, x, OwnerNumbered(x, k), Number1(k));
            && e.leader == OwnerReady(x, k) && e.locked == {} && e.released == {}
            && e.out == Broadcast(all, x, LockExiting(k)) +
                (Broadcast(all, x, TicketReady(Number1(k))) + Broadcast(all, x, ActivateLock(Number1(k))))
  {
    var l := OwnerNumbered(x, k);
    var l1 := l.(copies := l.copies[k := Acknowledged(l.copies[k], l.entering)]);
    var l2 := l1.(entering := {}, copies := ExitAll(l1, k));
    assert l1.entering - {k} == {} && l1.copies[k].still == {k} && {k} - {k} - {} == {};
    assert l2 == OwnerReady(x, k);
    FirstOf(l2.tickets, Number1(k));
    assert BecomesReady(l1, Number1(k), k);
    assert ActivateFirst(all, x, l2) == Broadcast(all, x, ActivateLock(Number1(k)));
    OneReadied(all, x, l1, k);
  }

  lemma {:induction false} OneReadied(all: set<ServerName>, x: ServerName, l: Leader, k: EnteringKey)
    requires Tabled(l) && l.tickets == {Number1(k)} && BecomesReady(l, Number1(k), k)
    ensures Readied(all, x, l, k) == Broadcast(all, x, TicketReady(Number1(k)))
  {
    var a := set t, other | t in l.tickets && other in all && other != x &&
        BecomesReady(l, t, k) :: Packet(x, other, TicketReady(t));
    var b := set other | other in all && other != x :: Packet(x, other, TicketReady(Number1(k)));
    assert a == b;
  }

  lemma NewsInTurn(k: EnteringKey)
    ensures InTurn([LockExiting(k)]) && InTurn([LockExiting(k), TicketReady(Number1(k))])
  {
  }

  lemma {:induction false} QuorumTails(all: set<ServerName>, x: ServerName, k: EnteringKey)
    ensures AreTails(all, x,
        Broadcast(all, x, LockExiting(k)) +
        (Broadcast(all, x, TicketReady(Number1(k))) + Broadcast(all, x, ActivateLock(Number1(k)))),
                     ToAll(all, x, QuorumNews(k)))
  {
    var a, b, c := Broadcast(all, x, LockExiting(k)), Broadcast(all, x, TicketReady(Number1(k))), Broadcast(all, x,
                             ActivateLock(Number1(k)));
    NewsInTurn(k);
    hide InTurn, AreTails, Broadcast;
    OneTail(all, x, LockExiting(k));
    MoreTails(all, x, a, [LockExiting(k)], TicketReady(Number1(k)));
    assert [LockExiting(k)] + [TicketReady(Number1(k))] == [LockExiting(k), TicketReady(Number1(k))];
    MoreTails(all, x, a + b, [LockExiting(k), TicketReady(Number1(k))], ActivateLock(Number1(k)));
    assert [LockExiting(k), TicketReady(Number1(k))] + [ActivateLock(Number1(k))] == QuorumNews(k);
    assert a + b + c == a + (b + c);
  }

  lemma AddedIsHandled(all: set<ServerName>, l: Leader, x: ServerName, y: ServerName, t: TicketKey)
    requires Tabled(l)
    ensures Handle(all, l, Packet(y, x, Message.TicketAdded(t))) == OnTicketAdded(all, x, l, t)
  {
  }

  lemma {:induction false} AddedIsNext(all: set<ServerName>, r: Rules, g: Game, x: ServerName, y: ServerName, i: nat,
        l: Leader, t: TicketKey)
    requires Next(all, r, g, x, y, i, Message.TicketAdded(t)) && g.s.leaders[y] == l && Tabled(l)
    ensures Can(all, r, g, x, y, i, Message.TicketAdded(t), OnTicketAdded(all, y, l, t))
  {
    hide On, OnTicketAdded;
    AddedIsHandled(all, l, y, x, t);
  }

  lemma {:induction false} HasQuorum(all: set<ServerName>, h: seq<Game>, r: Rules, g: Game, x: ServerName,
        y: ServerName, i: nat, k: EnteringKey)
    returns (more: seq<Game>, g': Game)
    requires Now(all, h, r) == Here(g) && Next(all, r, g, y, x, i, Message.TicketAdded(Number1(k)))
    requires g.s.leaders[x] == OwnerNumbered(x, k)
    ensures Now(all, more, r) == Here(g') && Became(g.s, g'.s, x, OwnerReady(x, k))
    ensures Told(all, g, g', y, x, i, QuorumNews(k))
  {
    hide Now, On, AreTails, Told, Taken, Replied, Became, Got;
    var e := OnTicketAdded(all, x, OwnerNumbered(x, k), Number1(k));
    AddedIsHandled(all, OwnerNumbered(x, k), x, y, Number1(k));
    OwnerExits(all, x, k);
    QuorumTails(all, x, k);
    more, g' := Tells(all, h, r, g, y, x, i, Message.TicketAdded(Number1(k)), e, QuorumNews(k));
  }

  lemma {:induction false} GetsLocked(all: set<ServerName>, h: seq<Game>, r: Rules, g: Game, x: ServerName,
        y: ServerName, i: nat, k: EnteringKey, l: Leader)
    returns (more: seq<Game>, g': Game)
    requires Now(all, h, r) == Here(g) && Next(all, r, g, y, x, i, LockActivated(Number1(k), FirstKey(Number1(k))))
    requires g.s.leaders[x] == l && Tabled(l) && Number1(k) in l.tickets && CanLock(l.copies[k])
    requires l.copies[k].owner == x
    ensures Now(all, more, r) == Here(g') && Got(g.s, g'.s, x, WithCopy(l, k, l.copies[k].(locked := true)), k)
    ensures Taken(g, g', y, x, i)
  {
    hide Now, On, AreTails, Told, Taken, Replied, Became, Got;
    var e := Effect(WithCopy(l, k, l.copies[k].(locked := true)), multiset{}, {k}, {});
    assert OnLockActivated(x, l, Number1(k), FirstKey(Number1(k))) == e;
    NoTails(all, x);
    more, g' := Tells(all, h, r, g, y, x, i, LockActivated(Number1(k), FirstKey(Number1(k))), e, []);
    ToldNothing(all, g, g', y, x, i);
  }

  /** A late message changes nothing. */
  lemma {:induction false} Ignores(all: set<ServerName>, h: seq<Game>, r: Rules, g: Game, x: ServerName,
        y: ServerName, i: nat, m: Message, l: Leader)
    returns (more: seq<Game>, g': Game)
    requires Now(all, h, r) == Here(g) && Next(all, r, g, x, y, i, m) && g.s.leaders[y] == l && Tabled(l)
    requires !Throws(l, m) && !SecondObject(l, m) && Handle(all, l, Packet(x, y, m)) == Nothing(l) && !m.LockExiting?
    requires r.disciplined && m.LockEntered? ==> forall u, v :: LockEntering(m.key) !in On(g, u, v)
    ensures Now(all, more, r) == Here(g') && Became(g.s, g'.s, y, l) && Taken(g, g', x, y, i)
  {
    hide Now, On, AreTails, Told, Taken, Replied, Became, Got;
    if m.LockEntered? {
      MayAsk(all, h, r, g, y, x, m.key);
    }
    NoTails(all, y);
    more, g' := Tells(all, h, r, g, x, y, i, m, Nothing(l), []);
    ToldNothing(all, g, g', x, y, i);
  }

  // ---------- two owners at once ----------

  /** A table with the tickets of `w` and `o`. */
  function Duo(entering: set<EnteringKey>, tickets: set<TicketKey>, w: EnteringKey, pw: Progress, o: EnteringKey,
        po: Progress): Leader {
    Leader(entering, tickets, map[w := pw, o := po])
  }

  /** The owner's ticket that still waits for `o`. */
  function Waiting(y: ServerName, w: EnteringKey, o: EnteringKey): Progress {
    Numbering(y, w).(quorum := true, still := {o})
  }

  function Crowded(y: ServerName, w: EnteringKey, x: ServerName, o: EnteringKey): Leader {
    Duo({w, o}, {Number1(w), Number1(o)}, w, Numbering(y, w), o, Copied(x, o))
  }

  function OneWaits(y: ServerName, w: EnteringKey, x: ServerName, o: EnteringKey): Leader {
    Duo({o}, {Number1(w), Number1(o)}, w, Waiting(y, w, o), o, Copied(x, o))
  }

  function NoneWaits(y: ServerName, w: EnteringKey, x: ServerName, o: EnteringKey): Leader {
    Duo({}, {Number1(w), Number1(o)}, w, Waited(y, w), o, Copied(x, o))
  }

  lemma {:induction false} NobodyActivates(all: set<ServerName>, y: ServerName, l: Leader)
    requires Tabled(l) && forall j :: j in l.copies ==> !l.copies[j].ready
    ensures ActivateFirst(all, y, l) == multiset{}
  {
  }

  function Acked(y: ServerName, w: EnteringKey, x: ServerName, o: EnteringKey): Leader {
    Duo({w, o}, {Number1(w), Number1(o)}, w, Numbering(y, w).(quorum := true, still := {w, o}), o, Copied(x, o))
  }

  lemma {:induction false} OwnExit(all: set<ServerName>, y: ServerName, w: EnteringKey, x: ServerName, o: EnteringKey)
    requires w != o
    ensures OnLockExiting(all, y, Acked(y, w, x, o), w) == Effect(OneWaits(y, w, x, o), multiset{} + multiset{}, {}, {})
  {
    var l := Acked(y, w, x, o);
    assert {w, o} - {w} - {} == {o} && {w, o} - {w} == {o};
    assert ExitAll(l, w) == OneWaits(y, w, x, o).copies;
    assert Readied(all, y, l, w) == multiset{};
    NobodyActivates(all, y, OneWaits(y, w, x, o));
  }

  lemma {:induction false} WaitsForOther(all: set<ServerName>, y: ServerName, w: EnteringKey, x: ServerName,
        o: EnteringKey)
    requires w != o
    ensures OnTicketAdded(all, y, Crowded(y, w, x, o), Number1(w))
         == Effect(OneWaits(y, w, x, o), Broadcast(all, y, LockExiting(w)), {}, {})
  {
    var l := Crowded(y, w, x, o);
    var l1 := l.(copies := l.copies[w := Acknowledged(l.copies[w], l.entering)]);
    assert l1 == Acked(y, w, x, o);
    OwnExit(all, y, w, x, o);
    assert Broadcast(all, y, LockExiting(w)) + (multiset{} + multiset{}) == Broadcast(all, y, LockExiting(w));
  }

  lemma {:induction false} QuorumWaits(all: set<ServerName>, h: seq<Game>, r: Rules, g: Game, x: ServerName,
        y: ServerName, i: nat, w: EnteringKey, o: EnteringKey)
    returns (more: seq<Game>, g': Game)
    requires Now(all, h, r) == Here(g) && Next(all, r, g, x, y, i, Message.TicketAdded(Number1(w))) && w != o
    requires g.s.leaders[y] == Crowded(y, w, x, o)
    ensures Now(all, more, r) == Here(g') && Became(g.s, g'.s, y, OneWaits(y, w, x, o))
    ensures Told(all, g, g', x, y, i, [LockExiting(w)])
  {
    hide Now, On, AreTails, Told, Taken, Replied, Became, Got;
    var e := OnTicketAdded(all, y, Crowded(y, w, x, o), Number1(w));
    WaitsForOther(all, y, w, x, o);
    AddedIsNext(all, r, g, x, y, i, Crowded(y, w, x, o), Number1(w));
    OneTail(all, y, LockExiting(w));
    hide OnTicketAdded, Crowded, OneWaits, Broadcast, ToAll, Can;
    more, g' := Tells(all, h, r, g, x, y, i, Message.TicketAdded(Number1(w)), e, [LockExiting(w)]);
  }

  /** What an owner says when the other one leaves: only the first ticket is activated. */
  function ExitNews(w: EnteringKey, o: EnteringKey): seq<Message> {
    if Before(w, o) then [TicketReady(Number1(w)), ActivateLock(Number1(w))] else [TicketReady(Number1(w))]
  }

  lemma {:induction false} FirstOfTwo(w: EnteringKey, o: EnteringKey)
    requires w != o
    ensures FindFirst({Number1(w), Number1(o)}) == FirstKey(if Before(w, o) then Number1(w) else Number1(o))
  {
    BeforeTotal(w, o);
    if Before(w, o) {
      assert KeyBefore(Number1(w), Number1(o));
      FirstOf({Number1(w), Number1(o)}, Number1(w));
    } else {
      assert KeyBefore(Number1(o), Number1(w));
      FirstOf({Number1(w), Number1(o)}, Number1(o));
    }
  }

  lemma {:induction false} FirstActivates(all: set<ServerName>, y: ServerName, w: EnteringKey, x: ServerName,
        o: EnteringKey)
    requires w != o
    ensures ActivateFirst(all, y, NoneWaits(y, w, x, o))
         == if Before(w, o) then Broadcast(all, y, ActivateLock(Number1(w))) else multiset{}
  {
    FirstOfTwo(w, o);
  }

  lemma {:induction false} OneOfTwoReadied(all: set<ServerName>, y: ServerName, w: EnteringKey, x: ServerName,
        o: EnteringKey)
    requires w != o
    ensures Readied(all, y, OneWaits(y, w, x, o), o) == Broadcast(all, y, TicketReady(Number1(w)))
  {
    var l := OneWaits(y, w, x, o);
    assert {o} - {o} - {} == {};
    assert BecomesReady(l, Number1(w), o) && !BecomesReady(l, Number1(o), o);
    var a := set t, other | t in l.tickets && other in all && other != y &&
        BecomesReady(l, t, o) :: Packet(y, other, TicketReady(t));
    var b := set other | other in all && other != y :: Packet(y, other, TicketReady(Number1(w)));
    assert a == b;
  }

  lemma {:induction false} LastLeaves(all: set<ServerName>, y: ServerName, w: EnteringKey, x: ServerName,
        o: EnteringKey)
    requires w != o
    ensures OnLockExiting(all, y, OneWaits(y, w, x, o), o)
         == Effect(NoneWaits(y, w, x, o),
                   Broadcast(all, y, TicketReady(Number1(w))) + if Before(w, o)
                       then Broadcast(all, y, ActivateLock(Number1(w))) else multiset{}, {}, {})
  {
    var l := OneWaits(y, w, x, o);
    assert {o} - {o} - {} == {};
    assert l.(entering := l.entering - {o}, copies := ExitAll(l, o)) == NoneWaits(y, w, x, o);
    OneOfTwoReadied(all, y, w, x, o);
    FirstActivates(all, y, w, x, o);
  }

  /** The packets of that news. */
  function ExitPackets(all: set<ServerName>, y: ServerName, w: EnteringKey, o: EnteringKey): multiset<Packet> {
    Broadcast(all, y, TicketReady(Number1(w))) + if Before(w, o) then Broadcast(all, y, ActivateLock(Number1(w)))
        else multiset{}
  }

  lemma {:induction false} BothTails(all: set<ServerName>, y: ServerName, w: EnteringKey)
    ensures AreTails(all, y, Broadcast(all, y, TicketReady(Number1(w))) + Broadcast(all, y, ActivateLock(Number1(w))),
                     ToAll(all, y, [TicketReady(Number1(w)), ActivateLock(Number1(w))]))
  {
    OneInTurn(TicketReady(Number1(w)));
    hide InTurn, AreTails, Broadcast;
    OneTail(all, y, TicketReady(Number1(w)));
    MoreTails(all, y, Broadcast(all, y, TicketReady(Number1(w))), [TicketReady(Number1(w))], ActivateLock(Number1(w)));
    assert [TicketReady(Number1(w))] + [ActivateLock(Number1(w))] ==
        [TicketReady(Number1(w)), ActivateLock(Number1(w))];
  }

  lemma {:induction false} ExitTails(all: set<ServerName>, y: ServerName, w: EnteringKey, o: EnteringKey)
    ensures AreTails(all, y, ExitPackets(all, y, w, o), ToAll(all, y, ExitNews(w, o)))
  {
    if Before(w, o) {
      BothTails(all, y, w);
    } else {
      OneTail(all, y, TicketReady(Number1(w)));
      assert Broadcast(all, y, TicketReady(Number1(w))) + multiset{} == Broadcast(all, y, TicketReady(Number1(w)));
    }
  }

  lemma {:induction false} OtherLeaves(all: set<ServerName>, h: seq<Game>, r: Rules, g: Game, x: ServerName,
        y: ServerName, i: nat, w: EnteringKey, o: EnteringKey)
    returns (more: seq<Game>, g': Game)
    requires Now(all, h, r) == Here(g) && Next(all, r, g, x, y, i, LockExiting(o)) && w != o
    requires (r.disciplined ==> NoAdd(g, y, o))
    requires g.s.leaders[y] == OneWaits(y, w, x, o)
    ensures Now(all, more, r) == Here(g') && Became(g.s, g'.s, y, NoneWaits(y, w, x, o))
    ensures Told(all, g, g', x, y, i, ExitNews(w, o))
  {
    hide Now, On, AreTails, Told, Taken, Replied, Became, Got;
    var e := Effect(NoneWaits(y, w, x, o), ExitPackets(all, y, w, o), {}, {});
    CanLeave(all, h, r, g, x, y, i, w, o);
    ExitTails(all, y, w, o);
    more, g' := Tells(all, h, r, g, x, y, i, LockExiting(o), e, ExitNews(w, o));
  }

  lemma ExitIsHandled(all: set<ServerName>, l: Leader, x: ServerName, y: ServerName, k: EnteringKey)
    requires Tabled(l)
    ensures Handle(all, l, Packet(x, y, LockExiting(k))) == OnLockExiting(all, y, l, k)
  {
  }

  lemma {:induction false} MayLeave(all: set<ServerName>, h: seq<Game>, r: Rules, g: Game, x: ServerName,
        y: ServerName, k: EnteringKey)
    requires Now(all, h, r) == Here(g) && (r.disciplined ==> NoAdd(g, y, k))
    ensures r.disciplined ==> Disciplined(g.s, Packet(x, y, LockExiting(k)))
  {
    if r.disciplined {
      QuietAdding(g, x, y, k);
    }
  }

  lemma {:induction false} CanLeave(all: set<ServerName>, h: seq<Game>, r: Rules, g: Game, x: ServerName,
        y: ServerName, i: nat, w: EnteringKey, o: EnteringKey)
    requires Now(all, h, r) == Here(g) && Next(all, r, g, x, y, i, LockExiting(o)) && w != o
    requires (r.disciplined ==> NoAdd(g, y, o))
    requires g.s.leaders[y] == OneWaits(y, w, x, o)
    ensures Can(all, r, g, x, y, i, LockExiting(o), Effect(NoneWaits(y, w, x, o), ExitPackets(all, y, w, o), {}, {}))
  {
    hide Now, Handle, OnLockExiting;
    LastLeaves(all, y, w, x, o);
    ExitIsHandled(all, OneWaits(y, w, x, o), x, y, o);
    MayLeave(all, h, r, g, x, y, o);
  }

  // ---------- activations by the other leader ----------

  /** A table without the ticket of `j`. */
  function Dropped(l: Leader, j: EnteringKey): Leader { Left(l, j).(tickets := l.tickets - {Number1(j)}) }

  lemma {:induction false} NextActivates(all: set<ServerName>, y: ServerName, l: Leader, k: EnteringKey)
    requires Tabled(l) && l.tickets == {Number1(k)} && CanLock(l.copies[k])
    ensures ActivateFirst(all, y, l) == Broadcast(all, y, ActivateLock(Number1(k)))
  {
    FirstOf(l.tickets, Number1(k));
  }

  lemma {:induction false} DropActivates(all: set<ServerName>, y: ServerName, l: Leader, j: EnteringKey, k: EnteringKey)
    requires Tabled(l) && l.tickets == {Number1(j), Number1(k)} && j != k && CanLock(l.copies[k])
    ensures OnDropTicket(all, y, l, Number1(j)) ==
        Effect(Dropped(l, j), Broadcast(all, y, ActivateLock(Number1(k))), {}, {})
  {
    assert l.tickets - {Number1(j)} == {Number1(k)};
    NextActivates(all, y, l.(tickets := {Number1(k)}), k);
  }

  /** DROP_TICKET of the one ticket, and the next one is activated. */
  lemma {:induction false} DropsFirst(all: set<ServerName>, h: seq<Game>, r: Rules, g: Game, x: ServerName,
        y: ServerName, i: nat, j: EnteringKey, k: EnteringKey, l: Leader)
    returns (more: seq<Game>, g': Game)
    requires Now(all, h, r) == Here(g) && Next(all, r, g, x, y, i, DropTicket(Number1(j))) && g.s.leaders[y] == l
    requires Tabled(l) && l.tickets == {Number1(j), Number1(k)} && j != k && CanLock(l.copies[k])
    ensures Now(all, more, r) == Here(g') && Became(g.s, g'.s, y, Dropped(l, j))
    ensures Told(all, g, g', x, y, i, [ActivateLock(Number1(k))])
  {
    hide Now, On, AreTails, Told, Taken, Replied, Became, Got;
    DropActivates(all, y, l, j, k);
    var e := OnDropTicket(all, y, l, Number1(j));
    hide OnDropTicket;
    OneTail(all, y, ActivateLock(Number1(k)));
    more, g' := Tells(all, h, r, g, x, y, i, DropTicket(Number1(j)), e, [ActivateLock(Number1(k))]);
  }

  /** The owner takes the activation of the other leader for its own lock, and answers. */
  lemma {:induction false} LocksAndAnswers(all: set<ServerName>, h: seq<Game>, r: Rules, g: Game, x: ServerName,
        y: ServerName, i: nat, k: EnteringKey, l: Leader)
    returns (more: seq<Game>, g': Game)
    requires Now(all, h, r) == Here(g) && Next(all, r, g, x, y, i, ActivateLock(Number1(k))) && g.s.leaders[y] == l
    requires Tabled(l) && IsFirst(l.tickets, Number1(k)) && CanLock(l.copies[k]) && l.copies[k].owner == y
    ensures Now(all, more, r) == Here(g') && Got(g.s, g'.s, y, WithCopy(l, k, l.copies[k].(locked := true)), k)
    ensures Replied(g, g', x, y, i, LockActivated(Number1(k), FirstKey(Number1(k))))
  {
    hide Now, On, AreTails, Told, Taken, Replied, Became, Got;
    FirstOf(l.tickets, Number1(k));
    var answer := LockActivated(Number1(k), FirstKey(Number1(k)));
    var e := Effect(WithCopy(l, k, l.copies[k].(locked := true)), Reply(y, x, answer), {k}, {});
    assert OnActivateLock(y, x, l, Number1(k)) == e;
    more, g' := Replies(all, h, r, g, x, y, i, ActivateLock(Number1(k)), e, answer);
  }

  // ---------- UNLOCK ----------

  lemma {:induction false} Unlocking(all: set<ServerName>, x: ServerName, k: EnteringKey)
    ensures OnUnlock(all, x, OwnerLocked(x, k), Number1(k))
         == Effect(OwnerDone(x, k), Broadcast(all, x, DropTicket(Number1(k))), {}, {k})
  {
    var l := OwnerLocked(x, k);
    assert l.tickets - {Number1(k)} == {};
    assert l.copies[k := Failed(l.copies[k])] == OwnerDone(x, k).copies;
    assert Broadcast(all, x, DropTicket(Number1(k))) + multiset{} == Broadcast(all, x, DropTicket(Number1(k)));
  }

  /** A client of `x` sent UNLOCK of `k`, and `x` has the table `l` after it. */
  ghost predicate GaveUp(s: System, s': System, x: ServerName, k: EnteringKey, l: Leader) {
    s'.leaders == s.leaders[x := l] && s'.locked == s.locked && s'.unlocked == s.unlocked + {k}
  }

  lemma {:induction false} UnlockedFace(s: System, s': System, x: ServerName, k: EnteringKey, e: Effect)
    requires e.locked == {} && s' == Unlocked(s, x, Number1(k), e)
    ensures GaveUp(s, s', x, k, e.leader)
  {
    assert s.locked + {} == s.locked;
  }

  lemma {:induction false} GivesUp(all: set<ServerName>, h: seq<Game>, r: Rules, g: Game, x: ServerName, k: EnteringKey)
    returns (more: seq<Game>, g': Game)
    requires Now(all, h, r) == Here(g) && x in all && g.s.leaders[x] == OwnerLocked(x, k)
    ensures Now(all, more, r) == Here(g') && GaveUp(g.s, g'.s, x, k, OwnerDone(x, k))
    ensures Said(all, g, g', x, [DropTicket(Number1(k))])
  {
    var e := OnUnlock(all, x, OwnerLocked(x, k), Number1(k));
    Unlocking(all, x, k);
    OneTail(all, x, DropTicket(Number1(k)));
    more, g' := Unlocks(all, h, r, g, x, Number1(k), e, [DropTicket(Number1(k))]);
    UnlockedFace(g.s, g'.s, x, k, e);
  }

  /** The table after an UNLOCK of `j` at a leader that also has the ticket of `k`. */
  function Unlocked1(l: Leader, j: EnteringKey, k: EnteringKey): Leader
    requires j in l.copies
  {
    WithCopy(l, j, Failed(l.copies[j])).(tickets := {Number1(k)})
  }

  lemma {:induction false} UnlockActivates(all: set<ServerName>, x: ServerName, l: Leader, j: EnteringKey,
        k: EnteringKey)
    requires Tabled(l) && l.tickets == {Number1(j), Number1(k)} && j != k && CanLock(l.copies[k])
    ensures OnUnlock(all, x, l, Number1(j))
         == Effect(Unlocked1(l, j, k),
             Broadcast(all, x, DropTicket(Number1(j))) + Broadcast(all, x, ActivateLock(Number1(k))), {}, {j})
  {
    assert l.tickets - {Number1(j)} == {Number1(k)};
    NextActivates(all, x, Unlocked1(l, j, k), k);
  }

  lemma {:induction false} DropTails(all: set<ServerName>, x: ServerName, j: EnteringKey, k: EnteringKey)
    ensures AreTails(all, x, Broadcast(all, x, DropTicket(Number1(j))) + Broadcast(all, x, ActivateLock(Number1(k))),
                     ToAll(all, x, [DropTicket(Number1(j)), ActivateLock(Number1(k))]))
  {
    OneInTurn(DropTicket(Number1(j)));
    hide InTurn, AreTails, Broadcast;
    OneTail(all, x, DropTicket(Number1(j)));
    MoreTails(all, x, Broadcast(all, x, DropTicket(Number1(j))), [DropTicket(Number1(j))], ActivateLock(Number1(k)));
    assert [DropTicket(Number1(j))] + [ActivateLock(Number1(k))] == [DropTicket(Number1(j)), ActivateLock(Number1(k))];
  }

  /** UNLOCK of the one ticket, and the next one is activated. */
  lemma {:induction false} GivesUpFirst(all: set<ServerName>, h: seq<Game>, r: Rules, g: Game, x: ServerName,
        j: EnteringKey, k: EnteringKey, l: Leader)
    returns (more: seq<Game>, g': Game)
    requires Now(all, h, r) == Here(g) && x in all && g.s.leaders.Keys == all && g.s.leaders[x] == l
    requires Tabled(l) && l.tickets == {Number1(j), Number1(k)} && j != k && CanLock(l.copies[k])
    ensures Now(all, more, r) == Here(g') && GaveUp(g.s, g'.s, x, j, Unlocked1(l, j, k))
    ensures Said(all, g, g', x, [DropTicket(Number1(j)), ActivateLock(Number1(k))])
  {
    hide Now, On, AreTails;
    UnlockActivates(all, x, l, j, k);
    DropTails(all, x, j, k);
    var e := OnUnlock(all, x, l, Number1(j));
    hide OnUnlock;
    more, g' := Unlocks(all, h, r, g, x, Number1(j), e, [DropTicket(Number1(j)), ActivateLock(Number1(k))]);
    UnlockedFace(g.s, g'.s, x, j, e);
  }

  // ---------- LOCK ----------

  /** A client of `x` sent LOCK, and `x` has the table `l` after it. */
  ghost predicate Began(s: System, s': System, x: ServerName, k: EnteringKey, l: Leader) {
    && s'.leaders.Keys == s.leaders.Keys && s'.locked == s.locked - {k} && s'.unlocked == s.unlocked - {k}
    && s'.owner == s.owner[k := x] && s'.released == s.released - {k}
    && forall m :: m in s.leaders ==> s'.leaders[m] == if m == x then l else WithoutCopy(s.leaders[m], k)
  }

  lemma {:induction false} SendsLock(all: set<ServerName>, h: seq<Game>, r: Rules, g: Game, x: ServerName,
        k: EnteringKey)
    returns (more: seq<Game>, g': Game)
    requires Now(all, h, r) == Here(g) && x in all && Free(g.s.leaders[x], k)
    requires r.careful ==> Unmentioned(g.s, k)
    ensures Now(all, more, r) == Here(g')
    ensures Began(g.s, g'.s, x, k, CopyEntering(WithoutCopy(g.s.leaders[x], k), x, k))
    ensures Said(all, g, g', x, [LockEntering(k)])
  {
    Everyone(all, h, r, g);
    hide Now, On, Said, Unmentioned, CopyEntering;
    more, g' := QueueMoves.Locks(all, h, r, g, x, k);
    BeganBy(all, g.s, x, k);
  }

  lemma Everyone(all: set<ServerName>, h: seq<Game>, r: Rules, g: Game)
    requires Now(all, h, r) == Here(g)
    ensures g.s.leaders.Keys == all
  {
  }

  lemma BeganBy(all: set<ServerName>, s: System, x: ServerName, k: EnteringKey)
    requires x in s.leaders
    ensures Began(s, Introduced(all, Forgotten(s, k), x, k), x, k, CopyEntering(WithoutCopy(s.leaders[x], k), x, k))
  {
    assert (s.owner - {k})[k := x] == s.owner[k := x];
  }

  lemma EntersAlone(x: ServerName, k: EnteringKey)
    ensures CopyEntering(Nobody(), x, k) == OwnerEntering(x, k)
  {
  }

  lemma NothingToForget(l: Leader, k: EnteringKey)
    requires k !in l.copies
    ensures WithoutCopy(l, k) == l
  {
    assert l.copies - {k} == l.copies;
  }

  /** Only a copy of `k` is left. */
  predicate Bare(l: Leader, k: EnteringKey) { l.entering == {} && l.tickets == {} && l.copies.Keys <= {k} }

  lemma NothingLeft(l: Leader, k: EnteringKey)
    requires Bare(l, k)
    ensures Free(l, k) && WithoutCopy(l, k) == Nobody()
  {
    assert l.copies - {k} == map[];
  }
}
