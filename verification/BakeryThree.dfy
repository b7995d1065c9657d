/** Three leaders do need more from the transport than links that keep their order: without it two
    clients can hold the lock.

    In the run of this module every link delivers in the order of sending, and no client locks
    twice.  The packets between the two owners are still under way at the end. */
module BakeryThree {
  import opened KeyOrder
  import opened TicketProgress
  import opened Leader
  import opened Bakery
  import opened Queues
  import opened QueueMoves
  import opened Dialogue
  import opened Stages
  import opened Rounds
  import opened Latecomers

  /** Ordered links and careful clients, but no discipline. */
  const ORDERED := Rules(false, true, true)

  // ---------- the first LOCK of a client ----------

  /** Nothing in flight and no table mentions the request. */
  ghost predicate Unheard(g: Game, k: EnteringKey) {
    && (forall u, v, m :: m in On(g, u, v) ==> m.Entering() != k)
    && (forall m :: m in g.s.leaders ==> k !in g.s.leaders[m].copies && Free(g.s.leaders[m], k))
  }

  lemma {:induction false} UnheardIsUnmentioned(g: Game, k: EnteringKey)
    requires Matches(g) && Unheard(g, k)
    ensures Unmentioned(g.s, k)
  {
    forall p | p in g.s.net ensures p.message.Entering() != k {
      InFlightIsQueued(g, p);
      assert p.message in On(g, p.source, p.target);
    }
  }

  /** A client sends its first LOCK. */
  lemma {:induction false} Starts(all: set<ServerName>, h: seq<Game>, g: Game, x: ServerName, k: EnteringKey)
    returns (more: seq<Game>, g': Game)
    requires Now(all, h, ORDERED) == Here(g) && x in all && g.s.leaders[x] == Nobody() && Unheard(g, k)
    requires k !in g.s.locked && k !in g.s.unlocked
    ensures Now(all, more, ORDERED) == Here(g')
    ensures g'.s.leaders == g.s.leaders[x := OwnerEntering(x, k)] && g'.s.locked == g.s.locked
    ensures g'.s.unlocked == g.s.unlocked && g'.s.owner == g.s.owner[k := x] && g'.s.released == g.s.released - {k}
    ensures Said(all, g, g', x, [LockEntering(k)])
  {
    UnheardIsUnmentioned(g, k);
    NothingToForget(Nobody(), k);
    EntersAlone(x, k);
    more, g' := SendsLock(all, h, ORDERED, g, x, k);
    forall m | m in g.s.leaders ensures g'.s.leaders[m] == g.s.leaders[x := OwnerEntering(x, k)][m] {
      NothingToForget(g.s.leaders[m], k);
    }
  }

  // ---------- the failing run ----------

  /** The three leaders, the links between them, and the locks. */
  datatype Scene = NoScene | Scene(la: Leader, lb: Leader, lc: Leader, ac: seq<Message>, ca: seq<Message>,
    bc: seq<Message>, cb: seq<Message>, ab: seq<Message>, ba: seq<Message>, locked: set<EnteringKey>,
    unlocked: set<EnteringKey>)

  ghost function SceneOf(h: seq<Game>, g: Game, a: ServerName, b: ServerName, c: ServerName): Scene {
    if a != b && b != c && a != c && Now({a, b, c}, h, ORDERED) == Here(g) && g.s.leaders.Keys == {a, b, c}
    then Scene(g.s.leaders[a], g.s.leaders[b], g.s.leaders[c], On(g, a, c), On(g, c, a), On(g, b, c),
               On(g, c, b), On(g, a, b), On(g, b, a), g.s.locked, g.s.unlocked)
    else NoScene
  }

  /** Everything in flight is about these requests. */
  ghost predicate OnlyAbout(g: Game, keys: set<EnteringKey>) {
    forall u, v, m :: m in On(g, u, v) ==> m.Entering() in keys
  }

  lemma {:induction false} FirstScene(a: ServerName, b: ServerName, c: ServerName) returns (h: seq<Game>, g: Game)
    requires a != b && b != c && a != c
    ensures SceneOf(h, g, a, b, c) == Scene(Nobody(), Nobody(), Nobody(), [], [], [], [], [], [], {}, {}) &&
        OnlyAbout(g, {})
  {
    var all := {a, b, c};
    h := Starting(all, ORDERED);
    g := Now(all, h, ORDERED).game;
    LinksOf(all);
    assert forall u, v :: On(g, u, v) == [];
  }

  /** A request that nothing mentions in a scene. */
  ghost predicate NewIn(sc: Scene, k: EnteringKey)
    requires sc.Scene?
  {
    && k !in sc.locked && k !in sc.unlocked && k !in sc.la.copies && k !in sc.lc.copies
    && Free(sc.la, k) && Free(sc.lc, k)
  }

  lemma {:induction false} NewIsUnheard(h: seq<Game>, g: Game, a: ServerName, b: ServerName, c: ServerName,
        k: EnteringKey, keys: set<EnteringKey>, sc: Scene)
    requires SceneOf(h, g, a, b, c) == sc && sc.Scene? && sc.lb == Nobody() && OnlyAbout(g, keys) && k !in keys
    requires NewIn(sc, k)
    ensures Unheard(g, k) && k !in g.s.locked && k !in g.s.unlocked
    ensures Now({a, b, c}, h, ORDERED) == Here(g) && b in {a, b, c} && g.s.leaders[b] == Nobody()
  {
    hide On, Now;
    forall m | m in g.s.leaders ensures k !in g.s.leaders[m].copies && Free(g.s.leaders[m], k) {
      assert m == a || m == b || m == c;
    }
  }

  lemma {:induction false} StillOnlyAbout(all: set<ServerName>, g: Game, g': Game, x: ServerName, k: EnteringKey,
        keys: set<EnteringKey>)
    requires OnlyAbout(g, keys)
    requires Said(all, g, g', x, [LockEntering(k)])
    ensures OnlyAbout(g', keys + {k})
  {
    forall u, v, m | m in On(g', u, v) ensures m.Entering() in keys + {k} {
    }
  }

  /** The scene after a LOCK at `b`. */
  lemma {:induction false} SceneOfStart(h: seq<Game>, g: Game, more: seq<Game>, g': Game, a: ServerName, b: ServerName,
        c: ServerName, k: EnteringKey, sc: Scene)
    requires SceneOf(h, g, a, b, c) == sc && sc.Scene? && sc.bc == [] && Now({a, b, c}, more, ORDERED) == Here(g')
    requires g'.s.leaders == g.s.leaders[b := OwnerEntering(b, k)] && g'.s.locked == g.s.locked
    requires g'.s.unlocked == g.s.unlocked
    requires Said({a, b, c}, g, g', b, [LockEntering(k)])
    ensures SceneOf(more, g', a, b, c)
         == sc.(lb := OwnerEntering(b, k), bc := [LockEntering(k)], ba := sc.ba + [LockEntering(k)])
  {
    hide Now, On;
    assert [] + [LockEntering(k)] == [LockEntering(k)];
  }

  /** The owner `b` starts. */
  lemma {:induction false} SceneStarts(h: seq<Game>, g: Game, a: ServerName, b: ServerName, c: ServerName,
        k: EnteringKey, keys: set<EnteringKey>, sc: Scene)
    returns (more: seq<Game>, g': Game)
    requires SceneOf(h, g, a, b, c) == sc && sc.Scene? && sc.lb == Nobody() && sc.bc == [] && OnlyAbout(g, keys)
    requires k !in keys && NewIn(sc, k)
    ensures SceneOf(more, g', a, b, c)
         == sc.(lb := OwnerEntering(b, k), bc := [LockEntering(k)], ba := sc.ba + [LockEntering(k)])
    ensures OnlyAbout(g', keys + {k}) && g'.s.owner == g.s.owner[k := b] && g'.s.released == g.s.released - {k}
  {
    hide SceneOf, Now, On, OnlyAbout;
    NewIsUnheard(h, g, a, b, c, k, keys, sc);
    more, g' := Starts({a, b, c}, h, g, b, k);
    SceneOfStart(h, g, more, g', a, b, c, k, sc);
    StillOnlyAbout({a, b, c}, g, g', b, k, keys);
  }

  ghost predicate AllAbout(ms: seq<Message>, k: EnteringKey) { forall m :: m in ms ==> m.Entering() == k }

  /** The dialogue of the owner `b` with the third leader, which tells nobody else anything. */
  function Owner(start: Game, a: ServerName, b: ServerName, c: ServerName, told: seq<Message>): Talk {
    Talk({a, b, c}, ORDERED, start, b, c, told, [])
  }

  lemma {:induction false} StillAbout(f: Talk, g: Game, k: EnteringKey, keys: set<EnteringKey>)
    requires OtherLinks(f, g) && OnlyAbout(f.start, keys) && k in keys && AllAbout(f.tx, k) && AllAbout(f.ty, k)
    requires AllAbout(On(g, f.x, f.y), k) && AllAbout(On(g, f.y, f.x), k)
    ensures OnlyAbout(g, keys)
  {
    forall u, v, m | m in On(g, u, v) ensures m.Entering() in keys {
      if !(u == f.x && v == f.y) && !(u == f.y && v == f.x) {
        assert m in On(f.start, u, v) || m in f.tx || m in f.ty;
      }
    }
  }

  lemma {:induction false} LinksOfOther(start: Game, g: Game, a: ServerName, b: ServerName, c: ServerName,
      told: seq<Message>)
    requires OtherLinks(Owner(start, a, b, c, told), g) && a != b && b != c && a != c
    ensures On(g, a, c) == On(start, a, c) && On(g, c, a) == On(start, c, a)
    ensures On(g, a, b) == On(start, a, b) && On(g, b, a) == On(start, b, a) + told
  {
    assert On(g, a, c) == On(start, a, c) + [] && On(g, c, a) == On(start, c, a) + [];
    assert On(g, a, b) == On(start, a, b) + [];
  }

  /** A dialogue of `b` with the third leader, seen from the scene. */
  lemma {:induction false} SceneAfter(h: seq<Game>, start: Game, g: Game, a: ServerName, b: ServerName, c: ServerName,
        told: seq<Message>,
      begin: seq<Game>, sc: Scene, st: Stage)
    requires SceneOf(begin, start, a, b, c) == sc && sc.Scene?
    requires Now({a, b, c}, h, ORDERED) == Here(g) && OtherLinks(Owner(start, a, b, c, told), g)
    requires OtherLeaders(Owner(start, a, b, c, told), g)
    requires st == At(g.s.leaders[b], g.s.leaders[c], On(g, b, c), On(g, c, b), g.s.locked)
    ensures SceneOf(h, g, a, b, c)
         == sc.(lb := st.lx, lc := st.ly, bc := st.xy, cb := st.yx, ba := sc.ba + told, locked := st.locked)
  {
    hide OtherLinks;
    LinksOfOther(start, g, a, b, c, told);
    assert g.s.leaders[a] == start.s.leaders[a];
  }

  lemma {:induction false} SceneMoves(h: seq<Game>, start: Game, g: Game, a: ServerName, b: ServerName, c: ServerName,
        k: EnteringKey, keys: set<EnteringKey>,
      told: seq<Message>, begin: seq<Game>, sc: Scene, st: Stage)
    requires SceneOf(begin, start, a, b, c) == sc && sc.Scene? && OnlyAbout(start, keys) && k in keys
    requires StageOf(Owner(start, a, b, c, told), h, g) == st && st.At?
    requires AllAbout(told, k) && AllAbout(st.xy, k) && AllAbout(st.yx, k)
    ensures SceneOf(h, g, a, b, c)
         == sc.(lb := st.lx, lc := st.ly, bc := st.xy, cb := st.yx, ba := sc.ba + told, locked := st.locked)
    ensures OnlyAbout(g, keys) && g.s.owner == start.s.owner && g.s.released == start.s.released
  {
    StillAbout(Owner(start, a, b, c, told), g, k, keys);
    SceneAfter(h, start, g, a, b, c, told, begin, sc, st);
  }

  /** The two owners change roles. */
  lemma {:induction false} Swapped(h: seq<Game>, g: Game, a: ServerName, b: ServerName, c: ServerName, sc: Scene)
    requires SceneOf(h, g, a, b, c) == sc && sc.Scene?
    ensures SceneOf(h, g, b, a, c)
         == Scene(sc.lb, sc.la, sc.lc, sc.bc, sc.cb, sc.ac, sc.ca, sc.ba, sc.ab, sc.locked, sc.unlocked)
  {
    assert {b, a, c} == {a, b, c};
  }

  lemma {:induction false} SceneTalks(h: seq<Game>, g: Game, a: ServerName, b: ServerName, c: ServerName, sc: Scene)
    requires SceneOf(h, g, a, b, c) == sc && sc.Scene?
    ensures StageOf(Owner(g, a, b, c, []), h, g) == At(sc.lb, sc.lc, sc.bc, sc.cb, sc.locked)
  {
    Begins({a, b, c}, ORDERED, h, g, b, c);
  }

  /** LOCK at `b`, up to the answer of the third leader. */
  lemma {:induction false} SceneEnters(h: seq<Game>, g: Game, a: ServerName, b: ServerName, c: ServerName,
        k: EnteringKey, keys: set<EnteringKey>, sc: Scene)
    returns (more: seq<Game>, g': Game)
    requires SceneOf(h, g, a, b, c) == sc && sc.Scene? && sc.lb == Nobody() && sc.bc == [] && sc.cb == []
    requires OnlyAbout(g, keys) && k !in keys && NewIn(sc, k)
    requires Tabled(sc.lc) && sc.lc.tickets == {}
    ensures SceneOf(more, g', a, b, c)
         == sc.(lb := OwnerAsking(b, k), lc := CopyEntering(sc.lc, b, k), cb := [MaxTicketIs(k, 0)],
                ba := sc.ba + [LockEntering(k)] + [GetMaxTicket(k)])
    ensures OnlyAbout(g', keys + {k}) && g'.s.owner == g.s.owner[k := b] && g'.s.released == g.s.released - {k}
  {
    hide SceneOf, StageOf, OnlyAbout;
    more, g' := SceneStarts(h, g, a, b, c, k, keys, sc);
    var begin, start := more, g';
    SceneTalks(more, g', a, b, c,
        sc.(lb := OwnerEntering(b, k), bc := [LockEntering(k)], ba := sc.ba + [LockEntering(k)]));
    more, g' := GetsNumber(Owner(start, a, b, c, []), more, g', k, sc.lc, sc.locked);
    assert [] + [GetMaxTicket(k)] == [GetMaxTicket(k)];
    SceneMoves(more, start, g', a, b, c, k, keys + {k}, [GetMaxTicket(k)], begin,
        sc.(lb := OwnerEntering(b, k), bc := [LockEntering(k)], ba := sc.ba + [LockEntering(k)]),
               At(OwnerAsking(b, k), CopyEntering(sc.lc, b, k), [], [MaxTicketIs(k, 0)], sc.locked));
  }

  lemma NewsAbout(k: EnteringKey)
    ensures [] + LockNews(k) == LockNews(k) && AllAbout(LockNews(k), k) && AllAbout([], k)
  {
  }

  /** From that answer to LOCKED. */
  lemma {:induction false} SceneLocks(h: seq<Game>, g: Game, a: ServerName, b: ServerName, c: ServerName,
        k: EnteringKey, keys: set<EnteringKey>, sc: Scene)
    returns (more: seq<Game>, g': Game)
    requires SceneOf(h, g, a, b, c) == sc && sc.Scene? && OnlyAbout(g, keys) && k in keys
    requires sc.lb == OwnerAsking(b, k) && sc.bc == [] && sc.cb == [MaxTicketIs(k, 0)]
    requires Tabled(sc.lc) && k in sc.lc.entering && sc.lc.copies[k] == NewTicket(b, k) && Number1(k) !in sc.lc.tickets
    requires Idle(Added(sc.lc, b, k)) && IsFirst(sc.lc.tickets + {Number1(k)}, Number1(k))
    ensures SceneOf(more, g', a, b, c)
         == sc.(lb := OwnerLocked(b, k), lc := Done(Added(sc.lc, b, k), b, k), cb := [], ba := sc.ba + LockNews(k),
                locked := sc.locked + {k})
    ensures OnlyAbout(g', keys) && g'.s.owner == g.s.owner && g'.s.released == g.s.released
  {
    hide SceneOf, StageOf, OnlyAbout;
    SceneTalks(h, g, a, b, c, sc);
    NewsAbout(k);
    more, g' := GetsHeld(Owner(g, a, b, c, []), h, g, k, sc.lc, sc.locked);
    SceneMoves(more, g, g', a, b, c, k, keys, LockNews(k), h, sc,
               At(OwnerLocked(b, k), Done(Added(sc.lc, b, k), b, k), [], [], sc.locked + {k}));
  }

  lemma LaterIsFirst(x: ServerName, j: EnteringKey, k: EnteringKey, lc: Leader)
    requires Tabled(lc) && lc.tickets == {Number1(j)} && Before(k, j) && forall i :: i in lc.copies ==>
        !lc.copies[i].quorum
    ensures Tabled(Added(lc, x, k)) && Idle(Added(lc, x, k)) && IsFirst(lc.tickets + {Number1(k)}, Number1(k))
  {
    assert lc.tickets + {Number1(k)} == {Number1(j), Number1(k)};
    assert KeyBefore(Number1(k), Number1(j));
    KeyBeforeStrictTotal(Number1(k), Number1(j), Number1(k));
  }

  /** The third leader after both LOCK_ENTERING. */
  function Third(a: ServerName, b: ServerName, k1: EnteringKey, k2: EnteringKey): Leader {
    CopyEntering(CopyEntering(Nobody(), b, k2), a, k1)
  }

  /** What an owner has told everybody before the answers. */
  function Asked(k: EnteringKey): seq<Message> { [LockEntering(k)] + [GetMaxTicket(k)] }

  function BothAsking(a: ServerName, b: ServerName, k1: EnteringKey, k2: EnteringKey): Scene {
    Scene(OwnerAsking(b, k2), OwnerAsking(a, k1), Third(a, b, k1, k2), [], [MaxTicketIs(k2, 0)], [],
          [MaxTicketIs(k1, 0)], Asked(k2), Asked(k1), {}, {})
  }

  function OneLocked(a: ServerName, b: ServerName, k1: EnteringKey, k2: EnteringKey): Scene {
    Scene(OwnerLocked(a, k1), OwnerAsking(b, k2), Done(Added(Third(a, b, k1, k2), a, k1), a, k1), [], [], [],
          [MaxTicketIs(k2, 0)], Asked(k1) + LockNews(k1), Asked(k2), {k1}, {})
  }

  ghost predicate Owners(g: Game, a: ServerName, b: ServerName, k1: EnteringKey, k2: EnteringKey) {
    k1 in g.s.owner && g.s.owner[k1] == a && k1 !in g.s.released && k2 in g.s.owner && g.s.owner[k2] == b
  }

  /** Both owners have the answer of the third leader, which had no ticket when it gave it. */
  lemma {:induction false} BothEnter(a: ServerName, b: ServerName, c: ServerName, k1: EnteringKey, k2: EnteringKey)
    returns (h: seq<Game>, g: Game)
    requires a != b && b != c && a != c && k1 != k2
    ensures SceneOf(h, g, b, a, c) == BothAsking(a, b, k1, k2)
    ensures OnlyAbout(g, {k1, k2}) && Owners(g, a, b, k1, k2)
  {
    hide SceneOf;
    h, g := FirstScene(a, b, c);
    var sc := Scene(Nobody(), Nobody(), Nobody(), [], [], [], [], [], [], {}, {});
    assert [] + [LockEntering(k2)] + [GetMaxTicket(k2)] == Asked(k2) &&
        [] + [LockEntering(k1)] + [GetMaxTicket(k1)] == Asked(k1);
    h, g := SceneEnters(h, g, a, b, c, k2, {}, sc);
    sc := sc.(lb := OwnerAsking(b, k2), lc := CopyEntering(Nobody(), b, k2), cb := [MaxTicketIs(k2, 0)],
              ba := Asked(k2));
    Swapped(h, g, a, b, c, sc);
    sc := Scene(sc.lb, Nobody(), sc.lc, [], sc.cb, [], [], sc.ba, [], {}, {});
    h, g := SceneEnters(h, g, b, a, c, k1, {} + {k2}, sc);
    assert {} + {k2} + {k1} == {k1, k2};
  }

  lemma {:induction false} FirstLocks(h0: seq<Game>, g0: Game, a: ServerName, b: ServerName, c: ServerName,
        k1: EnteringKey, k2: EnteringKey)
    returns (h: seq<Game>, g: Game)
    requires k1 != k2 && SceneOf(h0, g0, b, a, c) == BothAsking(a, b, k1, k2) && OnlyAbout(g0, {k1, k2})
    ensures SceneOf(h, g, a, b, c) == OneLocked(a, b, k1, k2) && OnlyAbout(g, {k1, k2})
    ensures g.s.owner == g0.s.owner && g.s.released == g0.s.released
  {
    hide SceneOf;
    var sc := BothAsking(a, b, k1, k2);
    FirstTicket(a, k1, sc.lc);
    h, g := SceneLocks(h0, g0, b, a, c, k1, {k1, k2}, sc);
    assert {} + {k1} == {k1};
    Swapped(h, g, b, a, c,
            sc.(lb := OwnerLocked(a, k1), lc := Done(Added(sc.lc, a, k1), a, k1), cb := [],
                ba := Asked(k1) + LockNews(k1), locked := {k1}));
  }

  function BothLocked(a: ServerName, b: ServerName, k1: EnteringKey, k2: EnteringKey): Scene {
    Scene(OwnerLocked(a, k1), OwnerLocked(b, k2), Done(Added(OneLocked(a, b, k1, k2).lc, b, k2), b, k2), [], [], [], [],
          Asked(k1) + LockNews(k1), Asked(k2) + LockNews(k2), {k1, k2}, {})
  }

  lemma {:induction false} SecondLocks(h0: seq<Game>, g0: Game, a: ServerName, b: ServerName, c: ServerName,
        k1: EnteringKey, k2: EnteringKey)
    returns (h: seq<Game>, g: Game)
    requires k1 != k2 && Before(k2, k1) && SceneOf(h0, g0, a, b, c) == OneLocked(a, b, k1, k2)
    requires OnlyAbout(g0, {k1, k2})
    ensures SceneOf(h, g, a, b, c) == BothLocked(a, b, k1, k2)
    ensures g.s.owner == g0.s.owner && g.s.released == g0.s.released
  {
    hide SceneOf;
    var sc := OneLocked(a, b, k1, k2);
    assert sc.lc.tickets == {Number1(k1)};
    LaterIsFirst(b, k1, k2, sc.lc);
    h, g := SceneLocks(h0, g0, a, b, c, k2, {k1, k2}, sc);
    assert {k1} + {k2} == {k1, k2};
  }

  lemma {:induction false} BothGetLocked(a: ServerName, b: ServerName, c: ServerName, k1: EnteringKey, k2: EnteringKey)
    returns (h: seq<Game>, g: Game)
    requires a != b && b != c && a != c && k1 != k2 && Before(k2, k1)
    ensures SceneOf(h, g, a, b, c) == BothLocked(a, b, k1, k2) && Owners(g, a, b, k1, k2)
  {
    hide SceneOf, OnlyAbout;
    h, g := BothEnter(a, b, c, k1, k2);
    h, g := FirstLocks(h, g, a, b, c, k1, k2);
    h, g := SecondLocks(h, g, a, b, c, k1, k2);
  }

  lemma {:induction false} HoldersInOrder(a: ServerName, b: ServerName, c: ServerName, k1: EnteringKey, k2: EnteringKey)
    returns (h: seq<Game>)
    requires a != b && b != c && a != c && k1 != k2 && Before(k2, k1)
    ensures Played({a, b, c}, h, ORDERED) && Held(Last(h).s) == {k1, k2}
  {
    hide OnlyAbout;
    var g: Game;
    h, g := BothGetLocked(a, b, c, k1, k2);
    assert {k1, k2} - {} == {k1, k2};
  }

  /** Whatever the names of three leaders and of two requests are, there is a run in which every
      link delivers in the order of sending, nobody locks twice, and both requests hold the lock. */
  lemma {:induction false} TwoHolders(a: ServerName, b: ServerName, c: ServerName, k1: EnteringKey, k2: EnteringKey)
    returns (h: seq<Game>)
    requires a != b && b != c && a != c && k1 != k2
    ensures Played({a, b, c}, h, ORDERED) && Held(Last(h).s) == {k1, k2}
  {
    BeforeTotal(k1, k2);
    if Before(k2, k1) {
      h := HoldersInOrder(a, b, c, k1, k2);
    } else {
      h := HoldersInOrder(b, a, c, k2, k1);
      assert {b, a, c} == {a, b, c} && {k2, k1} == {k1, k2};
    }
  }

  // ---------- the waiting invariant ----------

  /** The dialogue of the two owners, when both are locked. */
  lemma {:induction false} OwnersMeet(h: seq<Game>, g: Game, a: ServerName, b: ServerName, c: ServerName,
        k1: EnteringKey, k2: EnteringKey)
    requires SceneOf(h, g, a, b, c) == BothLocked(a, b, k1, k2)
    ensures StageOf(Talk({a, b, c}, ORDERED, g, b, a, [], []), h, g)
         == At(OwnerLocked(b, k2), OwnerLocked(a, k1), Asked(k2) + LockNews(k2), Asked(k1) + LockNews(k1), {k1, k2})
  {
    Begins({a, b, c}, ORDERED, h, g, b, a);
  }

  lemma IsUnaware(a: ServerName, b: ServerName, k1: EnteringKey, k2: EnteringKey)
    requires k1 != k2
    ensures Tabled(OwnerLocked(a, k1)) && Free(OwnerLocked(a, k1), k2)
    ensures Unaware(CopyEntering(OwnerLocked(a, k1), b, k2), b, k2, k1)
  {
  }

  lemma AskedCut(k: EnteringKey)
    ensures (Asked(k) + LockNews(k))[0] == LockEntering(k)
    ensures Cut(Asked(k) + LockNews(k), 0) == [GetMaxTicket(k), AddTicket(Number1(k))] + QuorumNews(k)
  {
  }

  /** In that run the smaller of the two tickets overtakes the larger one, which is ready. */
  lemma {:induction false} StrangerOvertakes(a: ServerName, b: ServerName, c: ServerName, k1: EnteringKey,
        k2: EnteringKey)
    returns (h: seq<Game>, g: Game, g': Game)
    requires a != b && b != c && a != c && k1 != k2 && Before(k2, k1)
    ensures Played({a, b, c}, h, ORDERED) && EndsWith(h, g, g') && Overtaken(g.s, g'.s, k1, Number1(k2))
  {
    hide SceneOf, StageOf, Overtaken, EndsWith;
    h, g := BothGetLocked(a, b, c, k1, k2);
    OwnersMeet(h, g, a, b, c, k1, k2);
    IsUnaware(a, b, k1, k2);
    AskedCut(k2);
    var f, lx, ly, yx := Talk({a, b, c}, ORDERED, g, b, a, [], []), OwnerLocked(b, k2), OwnerLocked(a, k1),
        Asked(k1) + LockNews(k1);
    h, g := Stages.Enters(f, h, g, At(lx, ly, Asked(k2) + LockNews(k2), yx, {k1, k2}), 0, k2);
    h, g, g' := LateOvertakes(f, h, g, k2, k1, lx, CopyEntering(ly, b, k2), yx + [LockEntered(k2)], QuorumNews(k2),
        {k1, k2});
  }
}
