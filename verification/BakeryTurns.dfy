/** A client that does not wait until its former request is forgotten can come before a client that
    was there earlier.

    Late answers of the leader `c` give the second request of `k` number 1, although `j` had its
    quorum with number 1 before that request asked for the largest number. */
module BakeryTurns {
  import opened KeyOrder
  import opened TicketProgress
  import opened Leader
  import opened Bakery
  import opened BakeryOrder
  import opened Queues
  import opened QueueMoves
  import opened Dialogue
  import opened Stages
  import opened Rounds
  import opened TwoOwners
  import opened BakeryReuse
  import opened Latecomers

  /** The first leader and the second one change places. */
  lemma {:induction false} Swapped(h: seq<Game>, g: Game, a: ServerName, b: ServerName, c: ServerName, bd: Board)
    requires BoardOf(h, g, a, b, c) == bd && bd.Board?
    ensures BoardOf(h, g, b, a, c)
         == Board(bd.lb, bd.la, bd.lc, bd.ba, bd.ab, bd.bc, bd.cb, bd.ac, bd.ca, bd.locked, bd.unlocked)
  {
    hide BoardOf;
    Rotated(h, g, a, b, c, bd);
    Exchanged(h, g, b, c, a,
              Board(bd.lb, bd.lc, bd.la, bd.bc, bd.cb, bd.ba, bd.ab, bd.ca, bd.ac, bd.locked, bd.unlocked));
  }

  /** The third leader has heard of both. */
  function Both3(a: ServerName, b: ServerName, k: EnteringKey, j: EnteringKey): Leader {
    CopyEntering(Knows(a, k), b, j)
  }

  /** Both owners have sent LOCK_ENTERING to everybody; `a` has heard of `j`, but not `b` of `k`. */
  function OneHeard(a: ServerName, b: ServerName, k: EnteringKey, j: EnteringKey): Board {
    Board(CopyEntering(OwnerEntering(a, k), b, j), OwnerEntering(b, j), Both3(a, b, k, j),
          [LockEntering(k)] + [LockEntered(j)], [], [], Answers3(k) + [LockEntered(k)], [], [LockEntered(j)], {}, {})
  }

  lemma {:induction false} FirstHearsSecond(h0: seq<Game>, g0: Game, a: ServerName, b: ServerName, c: ServerName,
        k: EnteringKey, j: EnteringKey)
    returns (h: seq<Game>, g: Game)
    requires BoardOf(h0, g0, a, b, c) == BothHeard(a, b, k, j) && BothOwn(g0, a, b, k, j) && j != k
    ensures BoardOf(h, g, a, b, c) == OneHeard(a, b, k, j) && BothOwn(g, a, b, k, j)
  {
    hide BoardOf;
    var bd := BothHeard(a, b, k, j);
    Swapped(h0, g0, a, b, c, bd);
    var flipped := Board(bd.lb, bd.la, bd.lc, bd.ba, bd.ab, bd.bc, bd.cb, bd.ac, bd.ca, bd.locked, bd.unlocked);
    h, g := SecondHears(h0, g0, b, a, c, j, flipped);
    Swapped(h, g, b, a, c,
            flipped.(lb := CopyEntering(flipped.lb, b, j), ab := [], ba := flipped.ba + [LockEntered(j)]));
  }

  /** What an owner tells everybody from LOCK_ENTERED to its quorum. */
  function QuorumStory(j: EnteringKey): seq<Message> { [GetMaxTicket(j)] + [AddTicket(Number1(j))] + QuorumNews(j) }

  /** One other leader is enough for the quorum. */
  lemma {:induction false} QuorumWithOne(f: Talk, h: seq<Game>, g: Game, j: EnteringKey, ly: Leader)
    returns (more: seq<Game>, g': Game)
    requires StageOf(f, h, g) == At(OwnerEntering(f.x, j), ly, [], [LockEntered(j)], {})
    requires Tabled(ly) && j in ly.entering && ly.copies[j] == NewTicket(f.x, j) && ly.tickets == {}
    requires Unsent(f, At(ly, ly, [], [], {}), LockEntering(j)) && f.tx == []
    ensures StageOf(f.(tx := QuorumStory(j)), more, g')
         == At(OwnerReady(f.x, j), Added(ly, f.x, j), QuorumNews(j), [], {})
  {
    hide StageOf;
    Flipped(f, h, g, At(OwnerEntering(f.x, j), ly, [], [LockEntered(j)], {}));
    more, g' := OwnerAsks(Flip(f), h, g, j, ly, {});
    var f1 := f.(tx := f.tx + [GetMaxTicket(j)]);
    more, g' := OtherAnswers(f1, more, g', j, ly, {});
    more, g' := GetsQuorum(f1, more, g', j, ly, {});
    assert [] + [GetMaxTicket(j)] + [AddTicket(Number1(j))] + QuorumNews(j) == QuorumStory(j);
  }

  /** The owner `b` is ready; `a` has not heard of its number. */
  function SecondReady(a: ServerName, b: ServerName, k: EnteringKey, j: EnteringKey): Board {
    Board(CopyEntering(OwnerEntering(a, k), b, j), OwnerReady(b, j), Added(Both3(a, b, k, j), b, j),
          [LockEntering(k)] + [LockEntered(j)], QuorumStory(j), [], Answers3(k) + [LockEntered(k)], QuorumNews(j), [],
          {}, {})
  }

  /** A message that is not on the links of the third leader is not on any other link. */
  lemma {:induction false} SecondTalks(h: seq<Game>, g: Game, a: ServerName, b: ServerName, c: ServerName,
        k: EnteringKey, j: EnteringKey)
    requires BoardOf(h, g, a, b, c) == OneHeard(a, b, k, j) && j != k
    ensures var f, lc := First2(g, b, c, a), Both3(a, b, k, j);
            && StageOf(f, h, g) == At(OwnerEntering(b, j), lc, [], [LockEntered(j)], {})
            && Unsent(f, At(lc, lc, [], [], {}), LockEntering(j))
  {
    hide BoardOf, StageOf, Unsent, On;
    var bd := OneHeard(a, b, k, j);
    Rotated(h, g, a, b, c, bd);
    BoardTalks(h, g, b, c, a, FromSecond(bd));
    BoardHasNot(h, g, b, c, a, FromSecond(bd), LockEntering(j));
    IsUnsent(First2(g, b, c, a), At(Both3(a, b, k, j), Both3(a, b, k, j), [], [], {}), LockEntering(j));
  }

  lemma ThirdIsFresh(a: ServerName, b: ServerName, k: EnteringKey, j: EnteringKey)
    ensures var l := Both3(a, b, k, j); Tabled(l) && j in l.entering && l.copies[j] == NewTicket(b, j) && l.tickets == {}
  {
  }

  /** The three leaders when `b` has its quorum, seen from `b`. */
  lemma {:induction false} SecondGotQuorum(h0: seq<Game>, g0: Game, h: seq<Game>, g: Game, a: ServerName, b: ServerName,
        c: ServerName, k: EnteringKey, j: EnteringKey)
    requires BoardOf(h0, g0, a, b, c) == OneHeard(a, b, k, j)
    requires StageOf(First2(g0, b, c, a).(tx := QuorumStory(j)), h, g)
          == At(OwnerReady(b, j), Added(Both3(a, b, k, j), b, j), QuorumNews(j), [], {})
    ensures BoardOf(h, g, b, c, a) == FromSecond(SecondReady(a, b, k, j))
    ensures g.s.owner == g0.s.owner && g.s.released == g0.s.released
  {
    hide BoardOf, StageOf, Both3, QuorumStory, QuorumNews;
    var bd := OneHeard(a, b, k, j);
    Rotated(h0, g0, a, b, c, bd);
    BoardAfter(h0, g0, h, g, b, c, a, FromSecond(bd), First2(g0, b, c, a).(tx := QuorumStory(j)),
               At(OwnerReady(b, j), Added(Both3(a, b, k, j), b, j), QuorumNews(j), [], {}));
    assert [] + QuorumStory(j) == QuorumStory(j) && bd.ca + [] == bd.ca;
  }

  lemma {:induction false} SecondGetsQuorum(h0: seq<Game>, g0: Game, a: ServerName, b: ServerName, c: ServerName,
        k: EnteringKey, j: EnteringKey)
    returns (h: seq<Game>, g: Game)
    requires BoardOf(h0, g0, a, b, c) == OneHeard(a, b, k, j) && BothOwn(g0, a, b, k, j) && j != k
    ensures BoardOf(h, g, a, b, c) == SecondReady(a, b, k, j) && BothOwn(g, a, b, k, j)
  {
    hide BoardOf, StageOf, Unsent, Both3, QuorumStory, QuorumNews;
    SecondTalks(h0, g0, a, b, c, k, j);
    ThirdIsFresh(a, b, k, j);
    h, g := QuorumWithOne(First2(g0, b, c, a), h0, g0, j, Both3(a, b, k, j));
    SecondGotQuorum(h0, g0, h, g, a, b, c, k, j);
    var bd := FromSecond(SecondReady(a, b, k, j));
    Rotated(h, g, b, c, a, bd);
    Rotated(h, g, c, a, b, FromSecond(bd));
  }

  /** Now `b` hears of `k`, too, and everybody has. */
  function AllHeard(a: ServerName, b: ServerName, k: EnteringKey, j: EnteringKey): Board {
    Board(CopyEntering(OwnerEntering(a, k), b, j), CopyEntering(OwnerReady(b, j), a, k), Added(Both3(a, b, k, j), b, j),
          [LockEntered(j)], QuorumStory(j) + [LockEntered(k)], [], Answers3(k) + [LockEntered(k)], QuorumNews(j), [],
          {}, {})
  }

  lemma {:induction false} SecondHearsFirst(h0: seq<Game>, g0: Game, a: ServerName, b: ServerName, c: ServerName,
        k: EnteringKey, j: EnteringKey)
    returns (h: seq<Game>, g: Game)
    requires BoardOf(h0, g0, a, b, c) == SecondReady(a, b, k, j) && BothOwn(g0, a, b, k, j) && j != k
    ensures BoardOf(h, g, a, b, c) == AllHeard(a, b, k, j) && BothOwn(g, a, b, k, j)
  {
    var bd, f := SecondReady(a, b, k, j), First2(g0, a, b, c);
    BoardTalks(h0, g0, a, b, c, bd);
    hide BoardOf, StageOf;
    assert Cut([LockEntering(k)] + [LockEntered(j)], 0) == [LockEntered(j)];
    h, g := Stages.Enters(f, h0, g0, At(bd.la, bd.lb, bd.ab, bd.ba, bd.locked), 0, k);
    BoardAfter(h0, g0, h, g, a, b, c, bd, f,
               At(bd.la, CopyEntering(OwnerReady(b, j), a, k), [LockEntered(j)], QuorumStory(j) + [LockEntered(k)],
                   {}));
    assert bd.ac + [] == bd.ac && bd.bc + [] == bd.bc;
  }

  /** The late answers of `c` are the next that `a` takes from it. */
  lemma {:induction false} LateTalks(h: seq<Game>, g: Game, a: ServerName, b: ServerName, c: ServerName,
        k: EnteringKey, j: EnteringKey)
    requires BoardOf(h, g, a, b, c) == AllHeard(a, b, k, j) && j != k
    ensures var f, bd := Talk({a, b, c}, HASTY, g, c, a, [], []), AllHeard(a, b, k, j);
            var st := At(bd.lc, bd.la, Answers3(k) + [LockEntered(k)], [], {});
            StageOf(f, h, g) == st && Unsent(f, st, LockEntering(k))
  {
    hide BoardOf, StageOf, Unsent, On;
    var bd := AllHeard(a, b, k, j);
    Rotated(h, g, a, b, c, bd);
    Rotated(h, g, b, c, a, FromSecond(bd));
    BoardTalks(h, g, c, a, b, FromSecond(FromSecond(bd)));
    BoardHasNot(h, g, c, a, b, FromSecond(FromSecond(bd)), LockEntering(k));
    assert {c, a, b} == {a, b, c};
    IsUnsent(Talk({a, b, c}, HASTY, g, c, a, [], []), At(bd.lc, bd.la, Answers3(k) + [LockEntered(k)], [], {}),
             LockEntering(k));
  }

  lemma EntersWith(a: ServerName, b: ServerName, k: EnteringKey, j: EnteringKey)
    requires j != k
    ensures var l := CopyEntering(OwnerEntering(a, k), b, j);
            Tabled(l) && k in l.entering && l.copies[k] == NewTicket(a, k) && l.tickets == {}
  {
  }

  /** The table of the owner with that number. */
  function LateNumbered(ly: Leader, y: ServerName, k: EnteringKey): Leader {
    WithNumber(WithCopy(ly, k, Dialogue.Asking(y, k)), y, k)
  }

  /** What it tells everybody. */
  function LateNews(k: EnteringKey): seq<Message> { [] + [GetMaxTicket(k)] + [AddTicket(Number1(k))] }

  /** The second request of `k` gets the number 1. */
  lemma {:induction false} NumberedLate(f: Talk, h0: seq<Game>, g0: Game, k: EnteringKey, lx: Leader, ly: Leader)
    returns (h: seq<Game>, g: Game)
    requires StageOf(f, h0, g0) == At(lx, ly, Answers3(k) + [LockEntered(k)], [], {}) && f.ty == []
    requires Unsent(f, At(lx, ly, Answers3(k) + [LockEntered(k)], [], {}), LockEntering(k))
    requires Tabled(ly) && k in ly.entering && ly.copies[k] == NewTicket(f.y, k) && ly.tickets == {}
    ensures StageOf(f.(ty := LateNews(k)), h, g)
         == At(lx, LateNumbered(ly, f.y, k), Cut(Echo(k) + [LockEntered(k)], 0), LateNews(k), {})
    ensures g.s.before == g0.s.before[k := Quorate(g0.s)]
  {
    hide StageOf;
    AnswersCut(k);
    h, g := Stages.Asks(f, h0, g0, At(lx, ly, Answers3(k) + [LockEntered(k)], [], {}), 0, k);
    var f1 := f.(ty := f.ty + [GetMaxTicket(k)]);
    var ly1 := WithCopy(ly, k, Dialogue.Asking(f.y, k));
    h, g := Stages.Numbers(f1, h, g, At(lx, ly1, Echo(k) + [LockEntered(k)], [] + [GetMaxTicket(k)], {}), 0, k);
  }

  /** `e` had its quorum when `l` asked for the largest number, and yet the number of `l` is not larger. */
  ghost predicate OutOfTurn(s: System, e: EnteringKey, l: EnteringKey) {
    && l in s.before && e in s.before[l] && e !in s.released && Ticket(s, l).added
    && Ticket(s, e).number >= Ticket(s, l).number
  }

  lemma {:induction false} QuorumIsQuorate(s: System, b: ServerName, j: EnteringKey, a: ServerName, k: EnteringKey)
    requires b in s.leaders && s.leaders[b] == CopyEntering(OwnerReady(b, j), a, k) && j != k
    requires j in s.owner && s.owner[j] == b && j !in s.released
    ensures j in Quorate(s)
  {
  }

  lemma {:induction false} BothNumber1(s: System, a: ServerName, b: ServerName, k: EnteringKey, j: EnteringKey)
    requires a in s.leaders && b in s.leaders && s.leaders[b] == CopyEntering(OwnerReady(b, j), a, k) && j != k
    requires k in s.leaders[a].copies && s.leaders[a].copies[k] == Numbering(a, k)
    requires k in s.owner && s.owner[k] == a && j in s.owner && s.owner[j] == b && j !in s.released
    requires k in s.before && j in s.before[k]
    ensures OutOfTurn(s, j, k)
  {
  }

  lemma {:induction false} UpToLateAnswers(a: ServerName, b: ServerName, c: ServerName, k: EnteringKey, j: EnteringKey)
    returns (h: seq<Game>, g: Game)
    requires a != b && b != c && a != c && j != k
    ensures BoardOf(h, g, a, b, c) == AllHeard(a, b, k, j) && BothOwn(g, a, b, k, j)
  {
    hide BoardOf;
    h, g := FirstAsks(a, b, c, k);
    h, g := FirstLocks(h, g, a, b, c, k);
    h, g := FirstEnds(h, g, a, b, c, k);
    h, g := BothReachThird(h, g, a, b, c, k, j);
    h, g := FirstHearsSecond(h, g, a, b, c, k, j);
    h, g := SecondGetsQuorum(h, g, a, b, c, k, j);
    h, g := SecondHearsFirst(h, g, a, b, c, k, j);
  }

  /** Three leaders: even with disciplined deliveries on ordered links, a hasty client can get a
      number that is not larger than that of a client with an earlier quorum. */
  lemma {:induction false} ServedOutOfTurn(a: ServerName, b: ServerName, c: ServerName, k: EnteringKey, j: EnteringKey)
    returns (h: seq<Game>)
    requires a != b && b != c && a != c && j != k
    ensures Played({a, b, c}, h, HASTY) && OutOfTurn(Last(h).s, j, k)
  {
    var g;
    h, g := UpToLateAnswers(a, b, c, k, j);
    LateTalks(h, g, a, b, c, k, j);
    BoardLeaders(h, g, a, b, c);
    EntersWith(a, b, k, j);
    QuorumIsQuorate(g.s, b, j, a, k);
    hide StageOf, BoardOf, Unsent, Quorate, OutOfTurn;
    var start, bd, f := g, AllHeard(a, b, k, j), Talk({a, b, c}, HASTY, g, c, a, [], []);
    h, g := NumberedLate(f, h, g, k, bd.lc, bd.la);
    Seen(f.(ty := LateNews(k)), h, g);
    assert g.s.leaders[b] == start.s.leaders[b];
    BothNumber1(g.s, a, b, k, j);
  }

  // ---------- the waiting invariant ----------

  /** `k` has its number, and its ADD_TICKET is on the way to `b`. */
  function OnTheWay(a: ServerName, b: ServerName, k: EnteringKey, j: EnteringKey): Board {
    Board(LateNumbered(CopyEntering(OwnerEntering(a, k), b, j), a, k), CopyEntering(OwnerReady(b, j), a, k),
          Added(Both3(a, b, k, j), b, j), [LockEntered(j)] + LateNews(k), QuorumStory(j) + [LockEntered(k)],
              LateNews(k),
          Cut(Echo(k) + [LockEntered(k)], 0), QuorumNews(j), [], {}, {})
  }

  lemma {:induction false} UpToNumber(h0: seq<Game>, g0: Game, a: ServerName, b: ServerName, c: ServerName,
        k: EnteringKey, j: EnteringKey)
    returns (h: seq<Game>, g: Game)
    requires BoardOf(h0, g0, a, b, c) == AllHeard(a, b, k, j) && BothOwn(g0, a, b, k, j) && j != k
    ensures BoardOf(h, g, a, b, c) == OnTheWay(a, b, k, j) && BothOwn(g, a, b, k, j)
  {
    hide StageOf, BoardOf, Unsent, Quorate;
    var bd := AllHeard(a, b, k, j);
    LateTalks(h0, g0, a, b, c, k, j);
    EntersWith(a, b, k, j);
    h, g := NumberedLate(Talk({a, b, c}, HASTY, g0, c, a, [], []), h0, g0, k, bd.lc, bd.la);
    Rotated(h0, g0, a, b, c, bd);
    Rotated(h0, g0, b, c, a, FromSecond(bd));
    LateBoard(h0, g0, h, g, a, b, c, k, j);
    Rotated(h, g, c, a, b, FromSecond(FromSecond(OnTheWay(a, b, k, j))));
  }

  lemma {:induction false} LateBoard(h0: seq<Game>, g0: Game, h: seq<Game>, g: Game, a: ServerName, b: ServerName,
        c: ServerName, k: EnteringKey, j: EnteringKey)
    requires BoardOf(h0, g0, c, a, b) == FromSecond(FromSecond(AllHeard(a, b, k, j)))
    requires StageOf(Talk({a, b, c}, HASTY, g0, c, a, [], []).(ty := LateNews(k)), h, g)
          == At(Added(Both3(a, b, k, j), b, j), LateNumbered(CopyEntering(OwnerEntering(a, k), b, j), a, k),
                Cut(Echo(k) + [LockEntered(k)], 0), LateNews(k), {})
    ensures BoardOf(h, g, c, a, b) == FromSecond(FromSecond(OnTheWay(a, b, k, j)))
    ensures g.s.owner == g0.s.owner && g.s.released == g0.s.released
  {
    hide BoardOf, StageOf, Both3, QuorumStory, QuorumNews, LateNews, LateNumbered;
    var bd := FromSecond(FromSecond(AllHeard(a, b, k, j)));
    assert {c, a, b} == {a, b, c};
    BoardAfter(h0, g0, h, g, c, a, b, bd, First2(g0, c, a, b).(ty := LateNews(k)),
               At(Added(Both3(a, b, k, j), b, j), LateNumbered(CopyEntering(OwnerEntering(a, k), b, j), a, k),
                  Cut(Echo(k) + [LockEntered(k)], 0), LateNews(k), {}));
    assert bd.ac + [] == bd.ac;
  }

  lemma {:induction false} IsUnaware(a: ServerName, b: ServerName, k: EnteringKey, j: EnteringKey)
    requires j != k
    ensures var l := CopyEntering(OwnerReady(b, j), a, k);
            Unaware(l, a, k, j) && j !in l.entering && !Throws(l, LockEntered(j)) && !SecondObject(l, LockEntered(j))
  {
  }

  lemma {:induction false} IgnoresEntered(all: set<ServerName>, l: Leader, x: ServerName, y: ServerName, j: EnteringKey)
    requires Tabled(l) && j !in l.entering
    ensures Handle(all, l, Packet(x, y, LockEntered(j))) == Nothing(l)
  {
  }

  lemma LateNewsAre(k: EnteringKey, j: EnteringKey)
    ensures Cut([LockEntered(j)] + LateNews(k), 0) == [GetMaxTicket(k), AddTicket(Number1(k))] + []
  {
  }

  /** The dialogue of the two owners. */
  lemma {:induction false} OwnersTalk(h: seq<Game>, g: Game, a: ServerName, b: ServerName, c: ServerName,
        k: EnteringKey, j: EnteringKey)
    requires BoardOf(h, g, a, b, c) == OnTheWay(a, b, k, j) && j != k
    ensures var bd := OnTheWay(a, b, k, j); var st := At(bd.la, bd.lb, bd.ab, bd.ba, {});
            StageOf(First2(g, a, b, c), h, g) == st && Unsent(First2(g, a, b, c), st, LockEntering(j))
  {
    hide BoardOf, StageOf, Unsent, On;
    var bd := OnTheWay(a, b, k, j);
    BoardTalks(h, g, a, b, c, bd);
    BoardHasNot(h, g, a, b, c, bd, LockEntering(j));
    IsUnsent(First2(g, a, b, c), At(bd.la, bd.lb, bd.ab, bd.ba, {}), LockEntering(j));
  }

  /** Three leaders: a smaller ticket of a hasty client can overtake one that is ready. */
  lemma {:induction false} HastyOvertakes(a: ServerName, b: ServerName, c: ServerName, k: EnteringKey, j: EnteringKey)
    returns (h: seq<Game>, g: Game, g': Game)
    requires a != b && b != c && a != c && Before(k, j)
    ensures Played({a, b, c}, h, HASTY) && EndsWith(h, g, g') && Overtaken(g.s, g'.s, j, Number1(k))
  {
    KeysDiffer(k, j);
    h, g := UpToLateAnswers(a, b, c, k, j);
    h, g := UpToNumber(h, g, a, b, c, k, j);
    OwnersTalk(h, g, a, b, c, k, j);
    hide StageOf, BoardOf, Unsent, Overtaken, EndsWith;
    var f, bd, ly := First2(g, a, b, c), OnTheWay(a, b, k, j), CopyEntering(OwnerReady(b, j), a, k);
    IsUnaware(a, b, k, j);
    IgnoresEntered(f.all, ly, a, b, j);
    h, g := Stages.Ignores(f, h, g, At(bd.la, ly, bd.ab, bd.ba, {}), 0, LockEntered(j));
    LateNewsAre(k, j);
    h, g, g' := LateOvertakes(f, h, g, k, j, bd.la, ly, bd.ba, [], {});
  }
}
