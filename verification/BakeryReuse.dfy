/** A client that locks again while packets of its former request are still in flight.

    msg_lock only looks at the leader's own tables, and the numbers start at 1 again when a table
    is empty, so that the new ticket can have the key of the old one.  Then a late answer to the
    old ticket counts for the new one, and two clients hold the lock: with three leaders and with
    two, even when deliveries are disciplined and every link keeps the order of sending. */
module BakeryReuse {
  import opened KeyOrder
  import opened TicketProgress
  import opened Leader
  import opened Bakery
  import opened Queues
  import opened QueueMoves
  import opened Dialogue
  import opened Stages
  import opened Rounds
  import opened TwoOwners
  import opened BakeryPackets
  import opened BakeryOrder

  /** Disciplined deliveries on ordered links, but hasty clients. */
  const HASTY := Rules(true, false, true)

  // ---------- two leaders ----------

  /** Two leaders: everything there is. */
  ghost function PairOf(h: seq<Game>, g: Game, a: ServerName, b: ServerName): Stage {
    StageOf(Talk({a, b}, HASTY, g, a, b, [], []), h, g)
  }

  lemma {:induction false} PairBegins(h: seq<Game>, g: Game, a: ServerName, b: ServerName, f: Talk, st: Stage)
    requires StageOf(f, h, g) == st && st.At? && f.all == {a, b} && f.r == HASTY && f.x == a && f.y == b
    ensures PairOf(h, g, a, b) == st && g.s.unlocked == f.start.s.unlocked
  {
    Begins({a, b}, HASTY, h, g, a, b);
  }

  /** The two leaders change places. */
  lemma {:induction false} PairSwapped(h: seq<Game>, g: Game, a: ServerName, b: ServerName, st: Stage)
    requires PairOf(h, g, a, b) == st && st.At?
    ensures PairOf(h, g, b, a) == FlipStage(st)
  {
    assert {b, a} == {a, b};
    Flipped(Talk({a, b}, HASTY, g, a, b, [], []), h, g, st);
  }

  /** Two leaders have no other links. */
  lemma {:induction false} PairIsOrderly(h: seq<Game>, g: Game, a: ServerName, b: ServerName)
    requires PairOf(h, g, a, b).At?
    ensures Orderly(Talk({a, b}, HASTY, g, a, b, [], []))
  {
    LinksOf({a, b});
    forall u, v, m | m in On(g, u, v) && !(u == a && v == b) && !(u == b && v == a) ensures false {
    }
  }

  lemma {:induction false} PairStarts(a: ServerName, b: ServerName) returns (h: seq<Game>, g: Game)
    requires a != b
    ensures PairOf(h, g, a, b) == At(Nobody(), Nobody(), [], [], {}) && g.s.unlocked == {}
  {
    h := Starting({a, b}, HASTY);
    g := Now({a, b}, h, HASTY).game;
    LinksOf({a, b});
    Begins({a, b}, HASTY, h, g, a, b);
  }

  /** LOCK at `a`. */
  lemma {:induction false} PairAsks(h0: seq<Game>, g0: Game, a: ServerName, b: ServerName, k: EnteringKey, st: Stage)
    returns (h: seq<Game>, g: Game)
    requires a != b && PairOf(h0, g0, a, b) == st && st.At? && Free(st.lx, k) && WithoutCopy(st.ly, k) == st.ly
    ensures PairOf(h, g, a, b)
         == st.(lx := CopyEntering(WithoutCopy(st.lx, k), a, k), xy := st.xy + [LockEntering(k)],
                                   locked := st.locked - {k})
    ensures g.s.unlocked == g0.s.unlocked - {k} && g.s.owner == g0.s.owner[k := a] && k !in g.s.released
  {
    h, g := SendsLock({a, b}, h0, HASTY, g0, a, k);
    Begins({a, b}, HASTY, h, g, a, b);
  }

  /** The first LOCK at `a`. */
  lemma {:induction false} PairAsksFirst(h0: seq<Game>, g0: Game, a: ServerName, b: ServerName, k: EnteringKey,
        st: Stage)
    returns (h: seq<Game>, g: Game)
    requires a != b && PairOf(h0, g0, a, b) == st && st.At? && st.lx == Nobody() && k !in st.ly.copies && st.xy == []
    requires st.locked == {} && g0.s.unlocked == {}
    ensures PairOf(h, g, a, b) == st.(lx := OwnerEntering(a, k), xy := [LockEntering(k)]) && g.s.unlocked == {}
  {
    hide PairOf;
    NothingToForget(Nobody(), k);
    NothingToForget(st.ly, k);
    EntersAlone(a, k);
    h, g := PairAsks(h0, g0, a, b, k, st);
    assert [] + [LockEntering(k)] == [LockEntering(k)] && {} - {k} == {};
  }

  /** Both clients ask. */
  lemma {:induction false} PairBegun(a: ServerName, b: ServerName, k: EnteringKey, j: EnteringKey)
    returns (h: seq<Game>, g: Game)
    requires a != b && j != k
    ensures PairOf(h, g, a, b)
         == At(OwnerEntering(a, k), OwnerEntering(b, j), [LockEntering(k)], [LockEntering(j)], {})
    ensures g.s.unlocked == {}
  {
    hide PairOf;
    var st := At(Nobody(), Nobody(), [], [], {});
    h, g := PairStarts(a, b);
    h, g := PairAsksFirst(h, g, a, b, k, st);
    st := st.(lx := OwnerEntering(a, k), xy := [LockEntering(k)]);
    PairSwapped(h, g, a, b, st);
    h, g := PairAsksFirst(h, g, b, a, j, FlipStage(st));
    PairSwapped(h, g, b, a, FlipStage(st).(lx := OwnerEntering(b, j), xy := [LockEntering(j)]));
  }

  lemma {:induction false} PairGranted(a: ServerName, b: ServerName, k: EnteringKey, j: EnteringKey)
    returns (h: seq<Game>, g: Game, lx: Leader)
    requires a != b && j != k && Before(j, k) && !Before(k, j)
    ensures PairOf(h, g, a, b) == At(lx, NoneWaits(b, j, a, k), Granted(k, j), [], {}) && ReadyBehind(lx, a, k, j)
    ensures g.s.unlocked == {}
  {
    h, g := PairBegun(a, b, k, j);
    PairIsOrderly(h, g, a, b);
    var f := Talk({a, b}, HASTY, g, a, b, [], []);
    hide StageOf;
    h, g, f, lx := RoundToGrant(f, h, g, k, j);
    PairBegins(h, g, a, b, f, At(lx, NoneWaits(b, j, a, k), Granted(k, j), [], {}));
  }

  /** What `a` says when the client of `j` gives up. */
  function Regranted(k: EnteringKey, j: EnteringKey): seq<Message> {
    [TicketReady(Number1(k)), Late(j), DropTicket(Number1(j)), ActivateLock(Number1(k))]
  }

  /** The owner's table when only its own ticket is left. */
  ghost predicate Left1(l: Leader, x: ServerName, k: EnteringKey) {
    Tabled(l) && l.tickets == {Number1(k)} && l.copies[k] == Waited(x, k)
  }

  lemma {:induction false} PairStands(h: seq<Game>, g: Game, a: ServerName, b: ServerName, st: Stage)
    requires PairOf(h, g, a, b) == st && st.At?
    ensures Now({a, b}, h, HASTY) == Here(g) && g.s.leaders.Keys == {a, b} && g.s.leaders[a] == st.lx
  {
  }

  lemma {:induction false} GivesWay(l: Leader, a: ServerName, k: EnteringKey, j: EnteringKey)
    requires ReadyBehind(l, a, k, j) && j != k
    ensures Tabled(l) && l.tickets == {Number1(j), Number1(k)} && CanLock(l.copies[k])
    ensures Left1(Unlocked1(l, j, k), a, k) && Unlocked1(l, j, k).entering == {}
  {
  }

  /** The client of `j` sends UNLOCK, and `a` is the leader that gets it. */
  lemma {:induction false} PairGivesUp(h0: seq<Game>, g0: Game, a: ServerName, b: ServerName, k: EnteringKey,
        j: EnteringKey, lx0: Leader, ly: Leader)
    returns (h: seq<Game>, g: Game, lx: Leader)
    requires a != b && j != k && PairOf(h0, g0, a, b) == At(lx0, ly, Granted(k, j), [], {}) && ReadyBehind(lx0, a, k, j)
    requires g0.s.unlocked == {}
    ensures PairOf(h, g, a, b) == At(lx, ly, Regranted(k, j), [], {}) && Left1(lx, a, k) && lx.entering == {}
    ensures g.s.unlocked == {j}
  {
    PairStands(h0, g0, a, b, At(lx0, ly, Granted(k, j), [], {}));
    GivesWay(lx0, a, k, j);
    hide PairOf, Now, On, Said, GaveUp, ReadyBehind, Unlocked1, Left1, Tabled, CanLock;
    lx := Unlocked1(lx0, j, k);
    h, g := GivesUpFirst({a, b}, h0, HASTY, g0, a, j, k, lx0);
    PairGaveUp(h0, g0, h, g, a, b, k, j, lx0, ly, lx);
  }

  lemma {:induction false} PairGaveUp(h0: seq<Game>, g0: Game, h: seq<Game>, g: Game, a: ServerName, b: ServerName,
        k: EnteringKey, j: EnteringKey, lx0: Leader, ly: Leader, lx: Leader)
    requires a != b && PairOf(h0, g0, a, b) == At(lx0, ly, Granted(k, j), [], {}) && g0.s.unlocked == {}
    requires Now({a, b}, h, HASTY) == Here(g) && GaveUp(g0.s, g.s, a, j, lx)
    requires Said({a, b}, g0, g, a, [DropTicket(Number1(j)), ActivateLock(Number1(k))])
    ensures PairOf(h, g, a, b) == At(lx, ly, Regranted(k, j), [], {}) && g.s.unlocked == {j}
  {
    hide Now, On, OtherLinks;
    assert Granted(k, j) + [DropTicket(Number1(j)), ActivateLock(Number1(k))] == Regranted(k, j) && {} + {j} == {j};
    Begins({a, b}, HASTY, h, g, a, b);
  }

  /** The client of `j` has sent LOCK again, to `x`. */
  ghost predicate Restarted(g: Game, x: ServerName, j: EnteringKey) {
    j in g.s.owner && g.s.owner[j] == x && j !in g.s.released
  }

  /** The same client sends LOCK again. */
  lemma {:induction false} PairAsksAgain(h0: seq<Game>, g0: Game, a: ServerName, b: ServerName, k: EnteringKey,
        j: EnteringKey, lx0: Leader, ly: Leader)
    returns (h: seq<Game>, g: Game, lx: Leader)
    requires a != b && j != k && PairOf(h0, g0, a, b) == At(lx0, ly, Regranted(k, j), [], {}) && Left1(lx0, a, k)
    requires lx0.entering == {} && Number1(j) in ly.tickets && g0.s.unlocked == {j}
    ensures PairOf(h, g, a, b) == At(lx, ly, Regranted(k, j) + [LockEntering(j)], [], {}) && Left1(lx, a, k)
    ensures g.s.unlocked == {} && Restarted(g, a, j)
  {
    hide PairOf;
    lx := CopyEntering(WithoutCopy(lx0, j), a, j);
    assert {j} - {j} == {} && {} - {j} == {};
    h, g := PairAsks(h0, g0, a, b, j, At(lx0, ly, Regranted(k, j), [], {}));
  }

  /** Up to the second LOCK. */
  lemma {:induction false} PairTwice(a: ServerName, b: ServerName, k: EnteringKey, j: EnteringKey)
    returns (h: seq<Game>, g: Game, lx: Leader)
    requires a != b && j != k && Before(j, k) && !Before(k, j)
    ensures PairOf(h, g, a, b) == At(lx, NoneWaits(b, j, a, k), Regranted(k, j) + [LockEntering(j)], [], {})
    ensures Left1(lx, a, k) && g.s.unlocked == {} && Restarted(g, a, j)
  {
    hide PairOf;
    h, g, lx := PairGranted(a, b, k, j);
    h, g, lx := PairGivesUp(h, g, a, b, k, j, lx, NoneWaits(b, j, a, k));
    h, g, lx := PairAsksAgain(h, g, a, b, k, j, lx, NoneWaits(b, j, a, k));
  }

  lemma DropLeavesOne(b: ServerName, j: EnteringKey, a: ServerName, k: EnteringKey)
    requires j != k
    ensures Tabled(Got2(b, j, a, k)) && Got2(b, j, a, k).tickets == {Number1(j), Number1(k)}
    ensures CanLock(Got2(b, j, a, k).copies[k])
  {
  }

  /** What `b` has still to take. */
  function Rest(k: EnteringKey, j: EnteringKey): seq<Message> {
    [DropTicket(Number1(j)), ActivateLock(Number1(k)), LockEntering(j)]
  }

  /** `b` takes DROP_TICKET and activates the other ticket. */
  lemma {:induction false} PairDrops(f: Talk, h0: seq<Game>, g0: Game, k: EnteringKey, j: EnteringKey, lx: Leader)
    returns (h: seq<Game>, g: Game, f': Talk)
    requires j != k
    requires StageOf(f, h0, g0)
          == At(lx, Got2(f.y, j, f.x, k), Rest(k, j), [], {j})
    ensures f' == f.(ty := f'.ty)
    ensures StageOf(f', h, g)
         == At(lx, Dropped(Got2(f.y, j, f.x, k), j), [ActivateLock(Number1(k)), LockEntering(j)],
            [ActivateLock(Number1(k))], {j})
  {
    hide StageOf;
    DropLeavesOne(f.y, j, f.x, k);
    assert Cut(Rest(k, j), 0) == [ActivateLock(Number1(k)), LockEntering(j)];
    assert [] + [ActivateLock(Number1(k))] == [ActivateLock(Number1(k))];
    h, g := Stages.DropsFirst(f, h0, g0, At(lx, Got2(f.y, j, f.x, k), Rest(k, j), [], {j}), 0, j, k);
    f' := f.(ty := f.ty + [ActivateLock(Number1(k))]);
  }

  lemma Left1IsFirst(l: Leader, x: ServerName, k: EnteringKey)
    requires Left1(l, x, k)
    ensures Tabled(l) && IsFirst(l.tickets, Number1(k)) && CanLock(l.copies[k]) && l.copies[k].owner == x
  {
  }

  /** The end of a dialogue: the other leader has the table `ly`. */
  ghost predicate Later(f: Talk, g: Game, ly: Leader) {
    && g.s.unlocked == f.start.s.unlocked && g.s.owner == f.start.s.owner && g.s.released == f.start.s.released
    && g.s.leaders.Keys == f.start.s.leaders.Keys && f.y in g.s.leaders && g.s.leaders[f.y] == ly
  }

  /** `a` takes that activation: the client of `k` gets LOCKED too. */
  lemma {:induction false} PairHoldsK(f: Talk, h0: seq<Game>, g0: Game, k: EnteringKey, j: EnteringKey, lx: Leader,
        ly: Leader, xy: seq<Message>)
    returns (h: seq<Game>, g: Game)
    requires StageOf(f, h0, g0) == At(lx, ly, xy, [ActivateLock(Number1(k))], {j}) && Left1(lx, f.x, k)
    ensures Now(f.all, h, f.r) == Here(g) && g.s.locked == {j, k} && Later(f, g, ly)
  {
    hide StageOf;
    Left1IsFirst(lx, f.x, k);
    Flipped(f, h0, g0, At(lx, ly, xy, [ActivateLock(Number1(k))], {j}));
    h, g := Stages.LocksAndAnswers(Flip(f), h0, g0, At(ly, lx, [ActivateLock(Number1(k))], xy, {j}), 0, k);
    Ends(Flip(f), h, g);
    assert {j} + {k} == {j, k};
  }

  lemma {:induction false} PairEnds(f: Talk, h0: seq<Game>, g0: Game, k: EnteringKey, j: EnteringKey, lx: Leader)
    returns (h: seq<Game>, g: Game)
    requires j != k && Left1(lx, f.x, k)
    requires StageOf(f, h0, g0) == At(lx, NoneWaits(f.y, j, f.x, k), Regranted(k, j) + [LockEntering(j)], [], {})
    ensures Now(f.all, h, f.r) == Here(g) && g.s.locked == {j, k}
    ensures Later(f, g, Dropped(Got2(f.y, j, f.x, k), j))
  {
    hide StageOf, Left1;
    var f';
    assert Regranted(k, j) + [LockEntering(j)] == Granted(k, j) + Rest(k, j);
    h, g := TurnToLock(f, h0, g0, j, k, lx, Rest(k, j));
    h, g, f' := PairDrops(f, h, g, k, j, lx);
    h, g := PairHoldsK(f', h, g, k, j, lx, Dropped(Got2(f.y, j, f.x, k), j),
        [ActivateLock(Number1(k)), LockEntering(j)]);
  }

  lemma KeysDiffer(j: EnteringKey, k: EnteringKey)
    requires Before(j, k)
    ensures j != k && !Before(k, j)
  {
    BeforeIrreflexive(j);
    if Before(k, j) {
      BeforeTransitive(j, k, j);
    }
  }

  lemma {:induction false} PairInOrder(a: ServerName, b: ServerName, k: EnteringKey, j: EnteringKey)
    returns (h: seq<Game>)
    requires a != b && Before(j, k)
    ensures Played({a, b}, h, HASTY) && Held(Last(h).s) == {j, k} && Unreplicated(Last(h).s, j)
  {
    KeysDiffer(j, k);
    var g, lx;
    h, g, lx := PairTwice(a, b, k, j);
    PairLeaders(h, g, a, b);
    var f := Talk({a, b}, HASTY, g, a, b, [], []);
    hide StageOf;
    h, g := PairEnds(f, h, g, k, j, lx);
    assert {j, k} - {} == {j, k};
    NotListed(g.s, a, b, j, Dropped(Got2(b, j, a, k), j));
  }

  lemma {:induction false} PairLeaders(h: seq<Game>, g: Game, a: ServerName, b: ServerName)
    requires PairOf(h, g, a, b).At?
    ensures g.s.leaders.Keys == {a, b}
  {
  }

  /** LOCKED was sent, but no second leader lists the ticket. */
  ghost predicate Unreplicated(s: System, k: EnteringKey) {
    k in s.locked && k in s.owner && forall m :: !Backup(s, k, m)
  }

  lemma {:induction false} NotListed(s: System, a: ServerName, b: ServerName, j: EnteringKey, l: Leader)
    requires s.leaders.Keys == {a, b} && s.leaders[b] == l && j in s.locked
    requires j in s.owner && s.owner[j] == a && j !in s.released
    requires forall t :: t in l.tickets ==> t.entering != j
    ensures Unreplicated(s, j)
  {
  }

  /** Two leaders: even with disciplined deliveries on ordered links, two clients can hold the lock
      when a client does not wait until its former request is forgotten. */
  lemma {:induction false} TwoHoldersOfTwo(a: ServerName, b: ServerName, k: EnteringKey, j: EnteringKey)
    returns (h: seq<Game>)
    requires a != b && j != k
    ensures Played({a, b}, h, HASTY) && Held(Last(h).s) == {j, k}
    ensures Unreplicated(Last(h).s, if Before(j, k) then j else k)
  {
    BeforeTotal(j, k);
    if Before(j, k) {
      h := PairInOrder(a, b, k, j);
    } else {
      h := PairInOrder(a, b, j, k);
      assert {k, j} == {j, k};
    }
  }

  // ---------- three leaders ----------

  /** Three leaders: the tables, the links, and the locks. */
  datatype Board = NoBoard | Board(la: Leader, lb: Leader, lc: Leader, ab: seq<Message>, ba: seq<Message>,
    ac: seq<Message>, ca: seq<Message>, bc: seq<Message>, cb: seq<Message>, locked: set<EnteringKey>,
        unlocked: set<EnteringKey>)

  ghost function BoardOf(h: seq<Game>, g: Game, a: ServerName, b: ServerName, c: ServerName): Board {
    if a != b && b != c && a != c && Now({a, b, c}, h, HASTY) == Here(g) && g.s.leaders.Keys == {a, b, c}
    then Board(g.s.leaders[a], g.s.leaders[b], g.s.leaders[c], On(g, a, b), On(g, b, a), On(g, a, c), On(g, c, a),
               On(g, b, c), On(g, c, b), g.s.locked, g.s.unlocked)
    else NoBoard
  }

  /** The last two leaders change places. */
  lemma {:induction false} Exchanged(h: seq<Game>, g: Game, a: ServerName, b: ServerName, c: ServerName, bd: Board)
    requires BoardOf(h, g, a, b, c) == bd && bd.Board?
    ensures BoardOf(h, g, a, c, b)
         == Board(bd.la, bd.lc, bd.lb, bd.ac, bd.ca, bd.ab, bd.ba, bd.cb, bd.bc, bd.locked, bd.unlocked)
  {
    assert {a, c, b} == {a, b, c};
  }

  /** The board, seen from the second leader. */
  function FromSecond(bd: Board): Board
    requires bd.Board?
  {
    Board(bd.lb, bd.lc, bd.la, bd.bc, bd.cb, bd.ba, bd.ab, bd.ca, bd.ac, bd.locked, bd.unlocked)
  }

  /** The first leader becomes the last one. */
  lemma {:induction false} Rotated(h: seq<Game>, g: Game, a: ServerName, b: ServerName, c: ServerName, bd: Board)
    requires BoardOf(h, g, a, b, c) == bd && bd.Board?
    ensures BoardOf(h, g, b, c, a) == FromSecond(bd)
  {
    assert {b, c, a} == {a, b, c};
  }

  /** A dialogue of the first two. */
  function First2(g: Game, a: ServerName, b: ServerName, c: ServerName): Talk {
    Talk({a, b, c}, HASTY, g, a, b, [], [])
  }

  lemma {:induction false} BoardTalks(h: seq<Game>, g: Game, a: ServerName, b: ServerName, c: ServerName, bd: Board)
    requires BoardOf(h, g, a, b, c) == bd && bd.Board?
    ensures StageOf(First2(g, a, b, c), h, g) == At(bd.la, bd.lb, bd.ab, bd.ba, bd.locked)
  {
    Begins({a, b, c}, HASTY, h, g, a, b);
  }

  /** The board after a dialogue of the first two. */
  lemma {:induction false} BoardAfter(begin: seq<Game>, start: Game, h: seq<Game>, g: Game, a: ServerName,
        b: ServerName, c: ServerName,
      bd: Board, f: Talk, st: Stage)
    requires BoardOf(begin, start, a, b, c) == bd && bd.Board? && f == First2(start, a, b, c).(tx := f.tx, ty := f.ty)
    requires StageOf(f, h, g) == st && st.At?
    ensures BoardOf(h, g, a, b, c)
         == bd.(la := st.lx, lb := st.ly, ab := st.xy, ba := st.yx, ac := bd.ac + f.tx, bc := bd.bc + f.ty,
            locked := st.locked)
    ensures g.s.owner == start.s.owner && g.s.released == start.s.released
  {
    hide Now, On, OtherLinks, OtherLeaders;
    BoardThird(start, g, a, b, c, f);
  }

  /** The links and the table of the third leader. */
  lemma {:induction false} BoardThird(start: Game, g: Game, a: ServerName, b: ServerName, c: ServerName, f: Talk)
    requires OtherLinks(f, g) && OtherLeaders(f, g) && f == First2(start, a, b, c).(tx := f.tx, ty := f.ty)
    requires a != b && b != c && a != c && start.s.leaders.Keys == {a, b, c}
    ensures On(g, c, a) == On(start, c, a) && On(g, c, b) == On(start, c, b)
    ensures On(g, a, c) == On(start, a, c) + f.tx && On(g, b, c) == On(start, b, c) + f.ty
    ensures g.s.leaders.Keys == {a, b, c} && g.s.leaders[c] == start.s.leaders[c]
    ensures g.s.owner == start.s.owner && g.s.released == start.s.released && g.s.unlocked == start.s.unlocked
  {
    hide On;
    assert On(start, c, a) + [] == On(start, c, a) && On(start, c, b) + [] == On(start, c, b);
  }

  lemma {:induction false} BoardLinks(h: seq<Game>, g: Game, a: ServerName, b: ServerName, c: ServerName, bd: Board)
    requires BoardOf(h, g, a, b, c) == bd && bd.Board?
    ensures On(g, a, c) == bd.ac && On(g, b, c) == bd.bc && On(g, c, a) == bd.ca && On(g, c, b) == bd.cb
    ensures forall u, v :: On(g, u, v) != [] && !(u == a && v == b) && !(u == b && v == a) ==>
              (u == a && v == c) || (u == b && v == c) || (u == c && v == a) || (u == c && v == b)
  {
    LinksOf({a, b, c});
  }

  lemma {:induction false} BoardLeaders(h: seq<Game>, g: Game, a: ServerName, b: ServerName, c: ServerName)
    requires BoardOf(h, g, a, b, c).Board?
    ensures a != b && b != c && a != c && g.s.leaders.Keys == {a, b, c} && g.s.leaders[b] == BoardOf(h, g, a, b, c).lb
  {
  }

  lemma {:induction false} BoardHasNot(h: seq<Game>, g: Game, a: ServerName, b: ServerName, c: ServerName, bd: Board,
        m: Message)
    requires BoardOf(h, g, a, b, c) == bd && bd.Board? && m !in bd.ac && m !in bd.bc && m !in bd.ca && m !in bd.cb
    ensures forall u, v :: !(u == a && v == b) && !(u == b && v == a) ==> m !in On(g, u, v)
  {
    BoardLinks(h, g, a, b, c, bd);
    hide BoardOf, On;
    forall u, v | !(u == a && v == b) && !(u == b && v == a) ensures m !in On(g, u, v) {
      assert m in On(g, u, v) ==> On(g, u, v) != [];
    }
  }

  lemma {:induction false} IsUnsent(f: Talk, st: Stage, m: Message)
    requires st.At? && m !in st.xy && m !in st.yx && f.tx == [] && f.ty == []
    requires forall u, v :: !(u == f.x && v == f.y) && !(u == f.y && v == f.x) ==> m !in On(f.start, u, v)
    ensures Unsent(f, st, m)
  {
    hide On;
  }

  /** Nothing on the links of the third leader is waited for. */
  lemma {:induction false} BoardIsOrderly(h: seq<Game>, g: Game, a: ServerName, b: ServerName, c: ServerName, bd: Board)
    requires BoardOf(h, g, a, b, c) == bd && bd.Board?
    requires (forall m :: m in bd.ac || m in bd.bc ==> !m.LockEntering?) && Plain(bd.ca) && Plain(bd.cb)
    ensures Orderly(First2(g, a, b, c))
  {
    hide BoardOf;
    BoardLinks(h, g, a, b, c, bd);
    forall u, v, m | m in On(g, u, v) && !(u == a && v == b) && !(u == b && v == a)
      ensures !m.LockEntering? && (v == a || v == b ==> !m.AddTicket?)
    {
      assert On(g, u, v) != [];
    }
  }

  /** LOCK at `a`, when the tables have nothing but an old copy. */
  lemma {:induction false} BoardAsks(h0: seq<Game>, g0: Game, a: ServerName, b: ServerName, c: ServerName,
        k: EnteringKey, bd: Board)
    returns (h: seq<Game>, g: Game)
    requires BoardOf(h0, g0, a, b, c) == bd && bd.Board? && Bare(bd.la, k) && Bare(bd.lb, k) && Bare(bd.lc, k)
    ensures BoardOf(h, g, a, b, c)
         == bd.(la := OwnerEntering(a, k), lb := Nobody(), lc := Nobody(), ab := bd.ab + [LockEntering(k)],
                                          ac := bd.ac + [LockEntering(k)], locked := bd.locked - {k},
                                              unlocked := bd.unlocked - {k})
    ensures g.s.owner == g0.s.owner[k := a] && g.s.released == g0.s.released - {k}
  {
    NothingLeft(bd.la, k);
    NothingLeft(bd.lb, k);
    NothingLeft(bd.lc, k);
    EntersAlone(a, k);
    h, g := SendsLock({a, b, c}, h0, HASTY, g0, a, k);
  }

  /** LOCK of another client at `b`. */
  lemma {:induction false} BoardAsksToo(h0: seq<Game>, g0: Game, a: ServerName, b: ServerName, c: ServerName,
        j: EnteringKey, bd: Board)
    returns (h: seq<Game>, g: Game)
    requires BoardOf(h0, g0, a, b, c) == bd && bd.Board? && bd.lb == Nobody() && j !in bd.la.copies
    requires j !in bd.lc.copies
    ensures BoardOf(h, g, a, b, c)
         == bd.(lb := OwnerEntering(b, j), ba := bd.ba + [LockEntering(j)], bc := bd.bc + [LockEntering(j)],
                                          locked := bd.locked - {j}, unlocked := bd.unlocked - {j})
    ensures g.s.owner == g0.s.owner[j := b] && g.s.released == g0.s.released - {j}
  {
    NothingToForget(bd.la, j);
    NothingToForget(bd.lb, j);
    NothingToForget(bd.lc, j);
    EntersAlone(b, j);
    h, g := SendsLock({a, b, c}, h0, HASTY, g0, b, j);
  }

  /** UNLOCK at `a`. */
  lemma {:induction false} BoardGives(h0: seq<Game>, g0: Game, a: ServerName, b: ServerName, c: ServerName,
        k: EnteringKey, bd: Board)
    returns (h: seq<Game>, g: Game)
    requires BoardOf(h0, g0, a, b, c) == bd && bd.Board? && bd.la == OwnerLocked(a, k)
    ensures BoardOf(h, g, a, b, c)
         == bd.(la := OwnerDone(a, k), ab := bd.ab + [DropTicket(Number1(k))], ac := bd.ac + [DropTicket(Number1(k))],
                                          unlocked := bd.unlocked + {k})
  {
    h, g := GivesUp({a, b, c}, h0, HASTY, g0, a, k);
  }

  /** LOCK_ENTERING of `a` reaches the second leader. */
  lemma {:induction false} SecondHears(h0: seq<Game>, g0: Game, a: ServerName, b: ServerName, c: ServerName,
        k: EnteringKey, bd: Board)
    returns (h: seq<Game>, g: Game)
    requires BoardOf(h0, g0, a, b, c) == bd && bd.Board? && bd.ab == [LockEntering(k)] && Tabled(bd.lb)
    requires Free(bd.lb, k)
    ensures BoardOf(h, g, a, b, c) == bd.(lb := CopyEntering(bd.lb, a, k), ab := [], ba := bd.ba + [LockEntered(k)])
    ensures g.s.owner == g0.s.owner && g.s.released == g0.s.released
  {
    BoardTalks(h0, g0, a, b, c, bd);
    h, g := Stages.Enters(First2(g0, a, b, c), h0, g0, At(bd.la, bd.lb, bd.ab, bd.ba, bd.locked), 0, k);
    assert Cut([LockEntering(k)], 0) == [] && bd.ac + [] == bd.ac && bd.bc + [] == bd.bc;
    BoardAfter(h0, g0, h, g, a, b, c, bd, First2(g0, a, b, c),
               At(bd.la, CopyEntering(bd.lb, a, k), [], bd.ba + [LockEntered(k)], bd.locked));
  }

  /** LOCK_ENTERING of `a` reaches the third leader. */
  lemma {:induction false} ThirdHears(h0: seq<Game>, g0: Game, a: ServerName, b: ServerName, c: ServerName,
        k: EnteringKey, bd: Board)
    returns (h: seq<Game>, g: Game)
    requires BoardOf(h0, g0, a, b, c) == bd && bd.Board? && bd.ac == [LockEntering(k)] && Tabled(bd.lc)
    requires Free(bd.lc, k)
    ensures BoardOf(h, g, a, b, c) == bd.(lc := CopyEntering(bd.lc, a, k), ac := [], ca := bd.ca + [LockEntered(k)])
    ensures g.s.owner == g0.s.owner && g.s.released == g0.s.released
  {
    Exchanged(h0, g0, a, b, c, bd);
    var bd1 := Board(bd.la, bd.lc, bd.lb, bd.ac, bd.ca, bd.ab, bd.ba, bd.cb, bd.bc, bd.locked, bd.unlocked);
    h, g := SecondHears(h0, g0, a, c, b, k, bd1);
    Exchanged(h, g, a, c, b, bd1.(lb := CopyEntering(bd.lc, a, k), ab := [], ba := bd.ca + [LockEntered(k)]));
  }

  /** LOCK_ENTERING of `b` reaches the third leader. */
  lemma {:induction false} ThirdHearsToo(h0: seq<Game>, g0: Game, a: ServerName, b: ServerName, c: ServerName,
        j: EnteringKey, bd: Board)
    returns (h: seq<Game>, g: Game)
    requires BoardOf(h0, g0, a, b, c) == bd && bd.Board? && bd.bc == [LockEntering(j)] && Tabled(bd.lc)
    requires Free(bd.lc, j)
    ensures BoardOf(h, g, a, b, c) == bd.(lc := CopyEntering(bd.lc, b, j), bc := [], cb := bd.cb + [LockEntered(j)])
    ensures g.s.owner == g0.s.owner && g.s.released == g0.s.released
  {
    Rotated(h0, g0, a, b, c, bd);
    var bd1 := Board(bd.lb, bd.lc, bd.la, bd.bc, bd.cb, bd.ba, bd.ab, bd.ca, bd.ac, bd.locked, bd.unlocked);
    h, g := SecondHears(h0, g0, b, c, a, j, bd1);
    var bd2 := bd1.(lb := CopyEntering(bd.lc, b, j), ab := [], ba := bd.cb + [LockEntered(j)]);
    Rotated(h, g, b, c, a, bd2);
    Rotated(h, g, c, a, b,
            Board(bd2.lb, bd2.lc, bd2.la, bd2.bc, bd2.cb, bd2.ba, bd2.ab, bd2.ca, bd2.ac, bd2.locked, bd2.unlocked));
  }

  // ---------- the first request ----------

  /** What the owner has told everybody up to LOCKED. */
  function Told(k: EnteringKey): seq<Message> { [GetMaxTicket(k)] + LockNews(k) }

  /** The request is locked; the third leader has only heard LOCK_ENTERING. */
  function FirstHeld(a: ServerName, k: EnteringKey): Board {
    Board(OwnerLocked(a, k), Agrees(a, k), Knows(a, k), [], [], Told(k), [LockEntered(k)], [], [], {k}, {})
  }

  lemma {:induction false} BoardStarts(a: ServerName, b: ServerName, c: ServerName) returns (h: seq<Game>, g: Game)
    requires a != b && b != c && a != c
    ensures BoardOf(h, g, a, b, c) == Board(Nobody(), Nobody(), Nobody(), [], [], [], [], [], [], {}, {})
  {
    h := Starting({a, b, c}, HASTY);
    g := Now({a, b, c}, h, HASTY).game;
    LinksOf({a, b, c});
  }

  lemma {:induction false} FirstAsks(a: ServerName, b: ServerName, c: ServerName, k: EnteringKey)
    returns (h: seq<Game>, g: Game)
    requires a != b && b != c && a != c
    ensures BoardOf(h, g, a, b, c)
         == Board(OwnerEntering(a, k), Nobody(), Knows(a, k), [LockEntering(k)], [], [], [LockEntered(k)], [], [], {},
             {})
  {
    h, g := BoardStarts(a, b, c);
    hide BoardOf;
    var bd := Board(Nobody(), Nobody(), Nobody(), [], [], [], [], [], [], {}, {});
    h, g := BoardAsks(h, g, a, b, c, k, bd);
    assert [] + [LockEntering(k)] == [LockEntering(k)] && {} - {k} == {};
    bd := bd.(la := OwnerEntering(a, k), ab := [LockEntering(k)], ac := [LockEntering(k)]);
    h, g := ThirdHears(h, g, a, b, c, k, bd);
    assert [] + [LockEntered(k)] == [LockEntered(k)];
  }

  lemma {:induction false} FirstLocks(h0: seq<Game>, g0: Game, a: ServerName, b: ServerName, c: ServerName,
        k: EnteringKey)
    returns (h: seq<Game>, g: Game)
    requires BoardOf(h0, g0, a, b, c)
          == Board(OwnerEntering(a, k), Nobody(), Knows(a, k), [LockEntering(k)], [], [], [LockEntered(k)], [], [], {},
              {})
    ensures BoardOf(h, g, a, b, c) == FirstHeld(a, k)
  {
    var bd := Board(OwnerEntering(a, k), Nobody(), Knows(a, k), [LockEntering(k)], [], [], [LockEntered(k)], [], [],
                    {}, {});
    BoardTalks(h0, g0, a, b, c, bd);
    BoardIsOrderly(h0, g0, a, b, c, bd);
    var f := First2(g0, a, b, c);
    h, g, f := DialogueLocks(f, h0, g0, k);
    assert [] + f.tx == f.tx && [] + f.ty == f.ty;
    BoardAfter(h0, g0, h, g, a, b, c, bd, f, At(OwnerLocked(a, k), Agrees(a, k), [], [], {k}));
  }

  /** Two leaders that nobody disturbs, from LOCK to LOCKED. */
  lemma {:induction false} DialogueLocks(f: Talk, h0: seq<Game>, g0: Game, k: EnteringKey)
    returns (h: seq<Game>, g: Game, f': Talk)
    requires StageOf(f, h0, g0) == At(OwnerEntering(f.x, k), Nobody(), [LockEntering(k)], [], {}) && Orderly(f)
    requires f.tx == [] && f.ty == []
    ensures f' == f.(tx := Told(k)) && StageOf(f', h, g) == At(OwnerLocked(f.x, k), Agrees(f.x, k), [], [], {k})
  {
    hide StageOf;
    FairUnsent(f, At(Nobody(), Nobody(), [], [], {}), k);
    FairSettled(f, At(Knows(f.x, k), Knows(f.x, k), [], [], {}), k);
    h, g := GetsNumber(f, h0, g0, k, Nobody(), {});
    f' := f.(tx := Told(k));
    var f1 := f.(tx := [GetMaxTicket(k)]);
    assert [] + [GetMaxTicket(k)] == [GetMaxTicket(k)] && {} + {k} == {k};
    FirstTicket(f.x, k, Knows(f.x, k));
    h, g := GetsHeld(f1, h, g, k, Knows(f.x, k), {});
  }

  /** The late answers of the third leader. */
  function Answers3(k: EnteringKey): seq<Message> { [LockEntered(k)] + Echo(k) }

  /** The request is over; nobody has taken the answers of the third leader. */
  function FirstOver(a: ServerName, k: EnteringKey): Board {
    Board(OwnerDone(a, k), Past(a, k), Past(a, k), [], [], [], Answers3(k), [], [], {k}, {k})
  }

  lemma {:induction false} SecondDrops(h0: seq<Game>, g0: Game, a: ServerName, b: ServerName, c: ServerName,
        k: EnteringKey, bd: Board)
    returns (h: seq<Game>, g: Game)
    requires BoardOf(h0, g0, a, b, c) == bd && bd.Board? && bd.lb == Agrees(a, k) && bd.ab == [DropTicket(Number1(k))]
    ensures BoardOf(h, g, a, b, c) == bd.(lb := Past(a, k), ab := [])
  {
    var f := First2(g0, a, b, c);
    BoardTalks(h0, g0, a, b, c, bd);
    AgreesAlone(a, k);
    h, g := Stages.Drops(f, h0, g0, At(bd.la, bd.lb, bd.ab, bd.ba, bd.locked), 0, k);
    assert Cut([DropTicket(Number1(k))], 0) == [] && bd.ac + [] == bd.ac && bd.bc + [] == bd.bc;
    BoardAfter(h0, g0, h, g, a, b, c, bd, f, At(bd.la, Past(a, k), [], bd.ba, bd.locked));
  }

  lemma {:induction false} SecondCatchesUp(h0: seq<Game>, g0: Game, a: ServerName, b: ServerName, c: ServerName,
        k: EnteringKey, bd: Board)
    returns (h: seq<Game>, g: Game)
    requires BoardOf(h0, g0, a, b, c) == bd && bd.Board? && bd.lb == Knows(a, k) && bd.ab == Story(k)
    requires bd.ac == [] && bd.bc == [] && bd.ca == [] && bd.cb == []
    ensures BoardOf(h, g, a, b, c) == bd.(lb := Past(a, k), ab := [], ba := bd.ba + Echo(k))
  {
    var f := First2(g0, a, b, c);
    BoardTalks(h0, g0, a, b, c, bd);
    BoardIsOrderly(h0, g0, a, b, c, bd);
    FairSettled(f, At(bd.la, bd.la, [], [], {}), k);
    h, g := CatchesUp(f, h0, g0, k, bd.la, bd.ba, bd.locked);
    assert bd.ac + [] == bd.ac && bd.bc + [] == bd.bc;
    BoardAfter(h0, g0, h, g, a, b, c, bd, f, At(bd.la, Past(a, k), [], bd.ba + Echo(k), bd.locked));
  }

  lemma {:induction false} FirstEnds(h0: seq<Game>, g0: Game, a: ServerName, b: ServerName, c: ServerName,
        k: EnteringKey)
    returns (h: seq<Game>, g: Game)
    requires BoardOf(h0, g0, a, b, c) == FirstHeld(a, k)
    ensures BoardOf(h, g, a, b, c) == FirstOver(a, k)
  {
    hide BoardOf;
    var bd := FirstHeld(a, k);
    h, g := BoardGives(h0, g0, a, b, c, k, bd);
    assert Told(k) + [DropTicket(Number1(k))] == Story(k) &&
        [] + [DropTicket(Number1(k))] == [DropTicket(Number1(k))] && {} + {k} == {k};
    bd := bd.(la := OwnerDone(a, k), ab := [DropTicket(Number1(k))], ac := Story(k), unlocked := {k});
    h, g := SecondDrops(h, g, a, b, c, k, bd);
    bd := bd.(lb := Past(a, k), ab := []);
    Exchanged(h, g, a, b, c, bd);
    h, g := SecondCatchesUp(h, g, a, c, b, k,
                            Board(bd.la, bd.lc, bd.lb, bd.ac, bd.ca, bd.ab, bd.ba, bd.cb, bd.bc, bd.locked,
                            bd.unlocked));
    Exchanged(h, g, a, c, b, Board(bd.la, Past(a, k), bd.lb, [], Answers3(k), [], [], [], [], {k}, {k}));
  }

  // ---------- the second request, and one of another client ----------

  /** Both clients have sent LOCK, and the third leader has heard both LOCK_ENTERING. */
  function BothHeard(a: ServerName, b: ServerName, k: EnteringKey, j: EnteringKey): Board {
    Board(OwnerEntering(a, k), OwnerEntering(b, j), CopyEntering(Knows(a, k), b, j), [LockEntering(k)],
        [LockEntering(j)],
          [], Answers3(k) + [LockEntered(k)], [], [LockEntered(j)], {}, {})
  }

  /** The last LOCK of `k` came to `a`, and that of `j` to `b`. */
  ghost predicate BothOwn(g: Game, a: ServerName, b: ServerName, k: EnteringKey, j: EnteringKey) {
    k in g.s.owner && g.s.owner[k] == a && j in g.s.owner && g.s.owner[j] == b && j !in g.s.released
  }

  lemma {:induction false} BothSend(h0: seq<Game>, g0: Game, a: ServerName, b: ServerName, c: ServerName,
        k: EnteringKey, j: EnteringKey)
    returns (h: seq<Game>, g: Game)
    requires BoardOf(h0, g0, a, b, c) == FirstOver(a, k) && j != k
    ensures BoardOf(h, g, a, b, c)
         == Board(OwnerEntering(a, k), OwnerEntering(b, j), Nobody(), [LockEntering(k)], [LockEntering(j)],
                                            [LockEntering(k)], Answers3(k), [LockEntering(j)], [], {}, {})
    ensures BothOwn(g, a, b, k, j)
  {
    hide BoardOf;
    AgreesAlone(a, k);
    h, g := BoardAsks(h0, g0, a, b, c, k, FirstOver(a, k));
    assert [] + [LockEntering(k)] == [LockEntering(k)] && [] + [LockEntering(j)] == [LockEntering(j)] &&
        {k} - {k} == {} && {} - {j} == {};
    h, g := BoardAsksToo(h, g, a, b, c, j, Board(OwnerEntering(a, k), Nobody(), Nobody(), [LockEntering(k)], [],
                                                 [LockEntering(k)], Answers3(k), [], [], {}, {}));
  }

  lemma {:induction false} BothReachThird(h0: seq<Game>, g0: Game, a: ServerName, b: ServerName, c: ServerName,
        k: EnteringKey, j: EnteringKey)
    returns (h: seq<Game>, g: Game)
    requires BoardOf(h0, g0, a, b, c) == FirstOver(a, k) && j != k
    ensures BoardOf(h, g, a, b, c) == BothHeard(a, b, k, j)
    ensures BothOwn(g, a, b, k, j)
  {
    hide BoardOf;
    h, g := BothSend(h0, g0, a, b, c, k, j);
    var bd := Board(OwnerEntering(a, k), OwnerEntering(b, j), Nobody(), [LockEntering(k)], [LockEntering(j)],
                    [LockEntering(k)], Answers3(k), [LockEntering(j)], [], {}, {});
    h, g := ThirdHears(h, g, a, b, c, k, bd);
    bd := bd.(lc := Knows(a, k), ac := [], ca := Answers3(k) + [LockEntered(k)]);
    h, g := ThirdHearsToo(h, g, a, b, c, j, bd);
    assert [] + [LockEntered(j)] == [LockEntered(j)];
  }

  lemma BothHeardIsPlain(a: ServerName, b: ServerName, k: EnteringKey, j: EnteringKey)
    ensures Plain(BothHeard(a, b, k, j).ca) && Plain(BothHeard(a, b, k, j).cb)
  {
  }

  lemma {:induction false} BothHeardTalks(h: seq<Game>, g: Game, a: ServerName, b: ServerName, c: ServerName,
        k: EnteringKey, j: EnteringKey)
    requires BoardOf(h, g, a, b, c) == BothHeard(a, b, k, j)
    ensures StageOf(First2(g, a, b, c), h, g)
         == At(OwnerEntering(a, k), OwnerEntering(b, j), [LockEntering(k)], [LockEntering(j)], {})
    ensures Orderly(First2(g, a, b, c)) && a != b
  {
    BothHeardIsPlain(a, b, k, j);
    BoardTalks(h, g, a, b, c, BothHeard(a, b, k, j));
    BoardIsOrderly(h, g, a, b, c, BothHeard(a, b, k, j));
  }

  lemma {:induction false} NothingEntersOn(f: Talk, g: Game, u: ServerName, v: ServerName, k: EnteringKey)
    requires OtherLinks(f, g) && Orderly(f) && !(u == f.x && v == f.y) && !(u == f.y && v == f.x)
    ensures LockEntering(k) !in On(g, u, v)
  {
    var m := LockEntering(k);
    assert m in On(f.start, u, v) ==> !m.LockEntering?;
    assert m in f.tx || m in f.ty ==> !m.LockEntering?;
  }

  /** Nothing enters after the dialogue. */
  lemma {:induction false} NothingEnters(f: Talk, g: Game, k: EnteringKey)
    requires OtherLinks(f, g) && Orderly(f) && On(g, f.x, f.y) == [] && On(g, f.y, f.x) == []
    ensures forall u, v :: LockEntering(k) !in On(g, u, v)
  {
    forall u, v ensures LockEntering(k) !in On(g, u, v) {
      if !(u == f.x && v == f.y) && !(u == f.y && v == f.x) {
        NothingEntersOn(f, g, u, v, k);
      }
    }
  }

  /** One of the two owners is locked, the other one is ready. */
  lemma {:induction false} OneIsLocked(h0: seq<Game>, g0: Game, a: ServerName, b: ServerName, c: ServerName,
        k: EnteringKey, j: EnteringKey)
    returns (h: seq<Game>, g: Game, f: Talk, lx: Leader, ly: Leader)
    requires BoardOf(h0, g0, a, b, c) == BothHeard(a, b, k, j) && Before(j, k)
    ensures f == First2(g0, a, b, c).(tx := f.tx, ty := f.ty) && Orderly(f)
    ensures StageOf(f, h, g) == At(lx, ly, [], [], {j}) && ReadyBehind(lx, a, k, j)
  {
    hide StageOf, BoardOf;
    KeysDiffer(j, k);
    BothHeardTalks(h0, g0, a, b, c, k, j);
    h, g, f, lx, ly := Round(First2(g0, a, b, c), h0, g0, k, j);
  }

  /** What the owner has in front of it before the late answers. */
  lemma {:induction false} ThirdTalks(h0: seq<Game>, g0: Game, a: ServerName, b: ServerName, c: ServerName,
        k: EnteringKey, j: EnteringKey)
    returns (h: seq<Game>, g: Game, f: Talk, lx: Leader, ly: Leader, yx: seq<Message>)
    requires BoardOf(h0, g0, a, b, c) == BothHeard(a, b, k, j) && Before(j, k)
    ensures f == Talk({a, b, c}, HASTY, g, c, a, [], []) && Unsent(f, At(lx, ly, [], yx, {}), LockEntering(k))
    ensures StageOf(f, h, g) == At(lx, ly, Answers3(k) + [LockEntered(k)], yx, {j}) && ReadyBehind(ly, a, k, j)
    ensures g.s.unlocked == {}
  {
    var f0, la, lb;
    h, g, f0, la, lb := OneIsLocked(h0, g0, a, b, c, k, j);
    NothingEnters(f0, g, k);
    BoardAfter(h0, g0, h, g, a, b, c, BothHeard(a, b, k, j), f0, At(la, lb, [], [], {j}));
    Begins({a, b, c}, HASTY, h, g, c, a);
    f := Talk({a, b, c}, HASTY, g, c, a, [], []);
    lx, ly, yx := g.s.leaders[c], la, On(g, a, c);
  }

  /** The first message on the link has no effect on `y`. */
  ghost predicate Deaf(f: Talk, l: Leader, m: Message) {
    && Tabled(l) && !Throws(l, m) && !SecondObject(l, m) && !m.LockExiting?
    && Handle(f.all, l, Packet(f.x, f.y, m)) == Nothing(l)
  }

  lemma {:induction false} DeafToOld(f: Talk, l: Leader, k: EnteringKey, j: EnteringKey)
    requires ReadyBehind(l, f.y, k, j)
    ensures Deaf(f, l, LockEntered(k)) && Deaf(f, l, MaxTicketIs(k, 0))
  {
  }

  lemma {:induction false} DeafToAdded(f: Talk, l: Leader, k: EnteringKey, j: EnteringKey)
    requires ReadyBehind(l, f.y, k, j)
    ensures Deaf(f, l, Message.TicketAdded(Number1(k)))
  {
    AddedIsHandled(f.all, l, f.y, f.x, Number1(k));
  }

  lemma {:induction false} Passes(f: Talk, h0: seq<Game>, g0: Game, m: Message, rest: seq<Message>, lx: Leader,
        ly: Leader, yx: seq<Message>, locked: set<EnteringKey>)
    returns (h: seq<Game>, g: Game)
    requires StageOf(f, h0, g0) == At(lx, ly, [m] + rest, yx, locked) && Deaf(f, ly, m)
    requires m.LockEntered? ==> Unsent(f, At(lx, ly, [m] + rest, yx, locked), LockEntering(m.key))
    ensures StageOf(f, h, g) == At(lx, ly, rest, yx, locked)
  {
    assert Cut([m] + rest, 0) == rest;
    h, g := Stages.Ignores(f, h0, g0, At(lx, ly, [m] + rest, yx, locked), 0, m);
  }

  function AfterAdded(k: EnteringKey): seq<Message> { [Late(k)] + [LockEntered(k)] }

  function AfterMax(k: EnteringKey): seq<Message> { [Message.TicketAdded(Number1(k))] + AfterAdded(k) }

  function AfterEntered(k: EnteringKey): seq<Message> { [MaxTicketIs(k, 0)] + AfterMax(k) }

  lemma SplitAnswers(f: Talk, lx: Leader, ly: Leader, yx: seq<Message>, k: EnteringKey, locked: set<EnteringKey>)
    requires Unsent(f, At(lx, ly, [], yx, {}), LockEntering(k))
    ensures Answers3(k) + [LockEntered(k)] == [LockEntered(k)] + AfterEntered(k)
    ensures Unsent(f, At(lx, ly, [LockEntered(k)] + AfterEntered(k), yx, locked), LockEntering(k))
  {
  }

  /** The owner ignores all but the last of the late answers, and that one locks its ticket. */
  lemma {:induction false} LateAnswers(f: Talk, h0: seq<Game>, g0: Game, k: EnteringKey, j: EnteringKey, lx: Leader,
        ly: Leader, yx: seq<Message>)
    returns (h: seq<Game>, g: Game)
    requires StageOf(f, h0, g0) == At(lx, ly, Answers3(k) + [LockEntered(k)], yx, {j}) && ReadyBehind(ly, f.y, k, j)
    requires j != k
    requires Unsent(f, At(lx, ly, [], yx, {}), LockEntering(k))
    ensures Now(f.all, h, f.r) == Here(g) && g.s.locked == {j, k} && g.s.unlocked == f.start.s.unlocked
  {
    SplitAnswers(f, lx, ly, yx, k, {j});
    DeafToOld(f, ly, k, j);
    DeafToAdded(f, ly, k, j);
    h, g := Passes(f, h0, g0, LockEntered(k), AfterEntered(k), lx, ly, yx, {j});
    h, g := Passes(f, h, g, MaxTicketIs(k, 0), AfterMax(k), lx, ly, yx, {j});
    h, g := Passes(f, h, g, Message.TicketAdded(Number1(k)), AfterAdded(k), lx, ly, yx, {j});
    h, g := LateLock(f, h, g, k, j, lx, ly, yx);
  }

  lemma {:induction false} LateLock(f: Talk, h0: seq<Game>, g0: Game, k: EnteringKey, j: EnteringKey, lx: Leader,
        ly: Leader, yx: seq<Message>)
    returns (h: seq<Game>, g: Game)
    requires StageOf(f, h0, g0) == At(lx, ly, AfterAdded(k), yx, {j})
    requires ReadyBehind(ly, f.y, k, j) && j != k
    ensures Now(f.all, h, f.r) == Here(g) && g.s.locked == {j, k} && g.s.unlocked == f.start.s.unlocked
  {
    hide StageOf;
    h, g := Stages.GetsLocked(f, h0, g0, At(lx, ly, AfterAdded(k), yx, {j}), 0, k);
    Ends(f, h, g);
    assert {j} + {k} == {j, k};
  }

  /** The second request, from the end of the first one. */
  lemma {:induction false} SecondTime(h0: seq<Game>, g0: Game, a: ServerName, b: ServerName, c: ServerName,
        k: EnteringKey, j: EnteringKey)
    returns (h: seq<Game>, g: Game)
    requires BoardOf(h0, g0, a, b, c) == FirstOver(a, k) && Before(j, k) && j != k
    ensures Now({a, b, c}, h, HASTY) == Here(g) && g.s.locked == {j, k} && g.s.unlocked == {}
  {
    var f, lx, ly, yx;
    h, g := BothReachThird(h0, g0, a, b, c, k, j);
    h, g, f, lx, ly, yx := ThirdTalks(h, g, a, b, c, k, j);
    h, g := LateAnswers(f, h, g, k, j, lx, ly, yx);
  }

  lemma {:induction false} ThreeInOrder(a: ServerName, b: ServerName, c: ServerName, k: EnteringKey, j: EnteringKey)
    returns (h: seq<Game>)
    requires a != b && b != c && a != c && Before(j, k)
    ensures Played({a, b, c}, h, HASTY) && Held(Last(h).s) == {j, k}
  {
    hide BoardOf;
    KeysDiffer(j, k);
    var g;
    h, g := FirstAsks(a, b, c, k);
    h, g := FirstLocks(h, g, a, b, c, k);
    h, g := FirstEnds(h, g, a, b, c, k);
    h, g := SecondTime(h, g, a, b, c, k, j);
    assert {j, k} - {} == {j, k};
  }

  /** Three leaders: even with disciplined deliveries on ordered links, two clients can hold the
      lock when a client does not wait until its former request is forgotten. */
  lemma {:induction false} TwoHoldersOfThree(a: ServerName, b: ServerName, c: ServerName, k: EnteringKey,
        j: EnteringKey)
    returns (h: seq<Game>)
    requires a != b && b != c && a != c && j != k
    ensures Played({a, b, c}, h, HASTY) && Held(Last(h).s) == {j, k}
  {
    BeforeTotal(j, k);
    if Before(j, k) {
      h := ThreeInOrder(a, b, c, k, j);
    } else {
      h := ThreeInOrder(a, b, c, j, k);
      assert {k, j} == {j, k};
    }
  }

  // ---------- three leaders: a lock that no other leader knows ----------

  function Relocks(a: ServerName, k: EnteringKey): Board {
    Board(OwnerEntering(a, k), Knows(a, k), Knows(a, k), [], [LockEntered(k)], [], Answers3(k) + [LockEntered(k)], [],
          [], {}, {})
  }

  /** The second LOCK reaches the other two leaders. */
  lemma {:induction false} RelockIsHeard(h0: seq<Game>, g0: Game, a: ServerName, b: ServerName, c: ServerName,
        k: EnteringKey)
    returns (h: seq<Game>, g: Game)
    requires BoardOf(h0, g0, a, b, c) == FirstOver(a, k)
    ensures BoardOf(h, g, a, b, c) == Relocks(a, k) && k in g.s.owner && g.s.owner[k] == a
  {
    hide BoardOf;
    AgreesAlone(a, k);
    h, g := BoardAsks(h0, g0, a, b, c, k, FirstOver(a, k));
    assert [] + [LockEntering(k)] == [LockEntering(k)] && {k} - {k} == {};
    var bd := Board(OwnerEntering(a, k), Nobody(), Nobody(), [LockEntering(k)], [], [LockEntering(k)], Answers3(k), [],
                    [], {}, {});
    h, g := SecondHears(h, g, a, b, c, k, bd);
    assert [] + [LockEntered(k)] == [LockEntered(k)];
    h, g := ThirdHears(h, g, a, b, c, k, bd.(lb := Knows(a, k), ab := [], ba := [LockEntered(k)]));
  }

  /** The owner and the third leader, whose late answers are first in the queue. */
  lemma {:induction false} RelockTalks(h: seq<Game>, g: Game, a: ServerName, b: ServerName, c: ServerName,
        k: EnteringKey)
    requires BoardOf(h, g, a, b, c) == Relocks(a, k)
    ensures var f := Talk({a, b, c}, HASTY, g, c, a, [], []);
            var st := At(Knows(a, k), OwnerEntering(a, k), Answers3(k) + [LockEntered(k)], [], {});
            StageOf(f, h, g) == st && Unsent(f, st, LockEntering(k))
    ensures a != b && b != c && a != c && g.s.leaders.Keys == {a, b, c} && g.s.leaders[b] == Knows(a, k)
  {
    hide BoardOf, StageOf, Unsent, On;
    var bd, m := Relocks(a, k), LockEntering(k);
    Rotated(h, g, a, b, c, bd);
    Rotated(h, g, b, c, a, FromSecond(bd));
    BoardTalks(h, g, c, a, b, FromSecond(FromSecond(bd)));
    BoardHasNot(h, g, c, a, b, FromSecond(FromSecond(bd)), m);
    assert {c, a, b} == {a, b, c};
    IsUnsent(Talk({a, b, c}, HASTY, g, c, a, [], []),
        At(Knows(a, k), OwnerEntering(a, k), Answers3(k) + [LockEntered(k)], [], {}), m);
    BoardLeaders(h, g, a, b, c);
  }

  lemma AnswersCut(k: EnteringKey)
    ensures Cut(Answers3(k) + [LockEntered(k)], 0) == Echo(k) + [LockEntered(k)]
    ensures Cut(Echo(k) + [LockEntered(k)], 0) == [Message.TicketAdded(Number1(k)), Late(k), LockEntered(k)]
    ensures Cut([Message.TicketAdded(Number1(k)), Late(k), LockEntered(k)], 0) == [Late(k), LockEntered(k)]
    ensures Cut([Late(k), LockEntered(k)], 0) == [LockEntered(k)]
  {
  }

  lemma OwnerTables(a: ServerName, k: EnteringKey)
    ensures WithCopy(OwnerEntering(a, k), k, Asking(a, k)) == OwnerAsking(a, k)
    ensures WithNumber(OwnerAsking(a, k), a, k) == OwnerNumbered(a, k)
    ensures WithCopy(OwnerReady(a, k), k, Waited(a, k).(locked := true)) == OwnerLocked(a, k)
  {
  }

  /** The owner takes the late answers for answers to the new request, up to the number. */
  lemma {:induction false} LateNumber(f: Talk, h0: seq<Game>, g0: Game, k: EnteringKey)
    returns (h: seq<Game>, g: Game, f': Talk, yx: seq<Message>)
    requires StageOf(f, h0, g0)
          == At(Knows(f.y, k), OwnerEntering(f.y, k), Answers3(k) + [LockEntered(k)], [], {})
    requires Unsent(f, At(Knows(f.y, k), OwnerEntering(f.y, k), Answers3(k) + [LockEntered(k)], [], {}),
        LockEntering(k))
    ensures f' == f.(ty := f'.ty)
    ensures StageOf(f', h, g)
         == At(Knows(f.y, k), OwnerNumbered(f.y, k), [Message.TicketAdded(Number1(k)), Late(k), LockEntered(k)], yx, {})
  {
    hide StageOf;
    var lx := Knows(f.y, k);
    AnswersCut(k);
    OwnerTables(f.y, k);
    h, g := Stages.Asks(f, h0, g0, At(lx, OwnerEntering(f.y, k), Answers3(k) + [LockEntered(k)], [], {}), 0, k);
    var f1, yx1 := f.(ty := f.ty + [GetMaxTicket(k)]), [] + [GetMaxTicket(k)];
    h, g := Stages.Numbers(f1, h, g, At(lx, OwnerAsking(f.y, k), Echo(k) + [LockEntered(k)], yx1, {}), 0, k);
    f', yx := f1.(ty := f1.ty + [AddTicket(Number1(k))]), yx1 + [AddTicket(Number1(k))];
  }

  /** ... and from the quorum to LOCKED. */
  lemma {:induction false} LateQuorum(f: Talk, h0: seq<Game>, g0: Game, k: EnteringKey, yx: seq<Message>)
    returns (h: seq<Game>, g: Game)
    requires StageOf(f, h0, g0)
          == At(Knows(f.y, k), OwnerNumbered(f.y, k), [Message.TicketAdded(Number1(k)), Late(k), LockEntered(k)], yx,
              {})
    ensures Now(f.all, h, f.r) == Here(g) && g.s.locked == {k} && OtherLeaders(f, g)
    ensures g.s.leaders.Keys == f.start.s.leaders.Keys && f.x in g.s.leaders && g.s.leaders[f.x] == Knows(f.y, k)
  {
    hide StageOf;
    var lx := Knows(f.y, k);
    AnswersCut(k);
    h, g := Stages.HasQuorum(f, h0, g0,
                             At(lx, OwnerNumbered(f.y, k), [Message.TicketAdded(Number1(k)), Late(k), LockEntered(k)],
                             yx, {}), 0, k);
    var f1 := f.(ty := f.ty + QuorumNews(k));
    var st := At(lx, OwnerReady(f.y, k), [Late(k), LockEntered(k)], yx + QuorumNews(k), {});
    h, g := Stages.GetsLocked(f1, h, g, st, 0, k);
    Ends(f1, h, g);
    assert {} + {k} == {k};
  }

  lemma {:induction false} NotNumbered(s: System, a: ServerName, b: ServerName, c: ServerName, k: EnteringKey)
    requires s.leaders.Keys == {a, b, c} && s.leaders[b] == Knows(a, k) && s.leaders[c] == Knows(a, k)
    requires k in s.locked && k in s.owner && s.owner[k] == a
    ensures Unreplicated(s, k)
  {
  }

  /** Three leaders: the late answers of one leader alone can lock a hasty client, and no leader but
      the owner has a ticket then. */
  lemma {:induction false} LockedByLateAnswers(a: ServerName, b: ServerName, c: ServerName, k: EnteringKey)
    returns (h: seq<Game>)
    requires a != b && b != c && a != c
    ensures Played({a, b, c}, h, HASTY) && Unreplicated(Last(h).s, k)
  {
    hide BoardOf;
    var g, f, yx;
    h, g := FirstAsks(a, b, c, k);
    h, g := FirstLocks(h, g, a, b, c, k);
    h, g := FirstEnds(h, g, a, b, c, k);
    h, g := RelockIsHeard(h, g, a, b, c, k);
    RelockTalks(h, g, a, b, c, k);
    hide StageOf;
    var start := g;
    h, g, f, yx := LateNumber(Talk({a, b, c}, HASTY, g, c, a, [], []), h, g, k);
    h, g := LateQuorum(f, h, g, k, yx);
    assert g.s.leaders[b] == start.s.leaders[b];
    NotNumbered(g.s, a, b, c, k);
  }
}
