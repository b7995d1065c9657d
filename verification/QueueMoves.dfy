/** One step after the other: how a run with queues is continued. */
module QueueMoves {
  import opened KeyOrder
  import opened TicketProgress
  import opened Leader
  import opened Bakery
  import opened Queues

  ghost predicate Playing(all: set<ServerName>, h: seq<Game>, r: Rules) {
    && Played(all, h, r) && Last(h).s.leaders.Keys == all && Last(h).q.Keys == Silent(all).Keys && Matches(Last(h))
  }

  datatype Position = Nowhere | Here(game: Game)

  /** Where a run stands. */
  ghost function Now(all: set<ServerName>, h: seq<Game>, r: Rules): Position {
    if Playing(all, h, r) then Here(Last(h)) else Nowhere
  }

  lemma LinksOf(all: set<ServerName>)
    ensures forall l :: l in Silent(all) <==> l.0 in all && l.1 in all && l.0 != l.1
  {
  }

  lemma {:induction false} Starting(all: set<ServerName>, r: Rules) returns (h: seq<Game>)
    ensures Now(all, h, r).Here? && Init(all, Now(all, h, r).game.s) && Now(all, h, r).game.q == Silent(all)
  {
    var s := System(map m | m in all :: Leader({}, {}, map[]), multiset{}, map[], map[], {}, {}, {});
    h := [Game(s, Silent(all))];
  }

  /** What is left of the packets in flight without `p`, and of the queues. */
  lemma {:induction false} WithoutMatches(g: Game, p: Packet, i: nat, l: Link, m: Message)
    requires Matches(g) && l in g.q && (p.source, p.target) in g.q && i < |g.q[(p.source, p.target)]|
    requires g.q[(p.source, p.target)][i] == p.message && p in g.s.net
    ensures (g.s.net - multiset{p})[Packet(l.0, l.1, m)] == multiset(Without(g.q, (p.source, p.target), i)[l])[m]
  {
    assert g.s.net[Packet(l.0, l.1, m)] == multiset(g.q[l])[m];
    if l == (p.source, p.target) {
      WithoutCounts(g.q[l], i, m);
    }
  }

  lemma {:induction false} MovedMatches(all: set<ServerName>, net: multiset<Packet>, q: Queues, me: ServerName,
        out: multiset<Packet>, tails: map<ServerName, seq<Message>>, s: System)
    requires q.Keys == Silent(all).Keys && me in all && AreTails(all, me, out, tails) && s.net == net + out
    requires forall l, m :: l in q ==> net[Packet(l.0, l.1, m)] == multiset(q[l])[m]
    requires forall p :: p in net ==> (p.source, p.target) in q
    ensures Matches(Game(s, Sending(q, me, tails)))
  {
    LinksOf(all);
    SendingAppends(all, q, me, out, tails);
    var q' := Sending(q, me, tails);
    forall l, m | l in q' ensures s.net[Packet(l.0, l.1, m)] == multiset(q'[l])[m] {
      AppendedMatches(all, q, q', net, me, out, l, m);
    }
  }

  /** `g'` when it follows `g`. */
  ghost function After(all: set<ServerName>, g: Game, g': Game, r: Rules): Position {
    if GameStep(all, g, g', r) then Here(g') else Nowhere
  }

  /** `g` when its queues hold its packets. */
  ghost function Sound(all: set<ServerName>, g: Game): Position {
    if g.s.leaders.Keys == all && g.q.Keys == Silent(all).Keys && Matches(g) then Here(g) else Nowhere
  }

  lemma {:induction false} OneMoreNow(all: set<ServerName>, h: seq<Game>, r: Rules, g: Game, g': Game)
    requires Now(all, h, r) == Here(g) && After(all, g, g', r) == Here(g') && Sound(all, g') == Here(g')
    ensures Now(all, h + [g'], r) == Here(g')
  {
    OneMoreStep(all, h, g', r);
  }

  /** The state without the packets. */
  datatype Face = Face(leaders: map<ServerName, Leader>, owner: map<EnteringKey, ServerName>, locked: set<EnteringKey>,
    released: set<EnteringKey>, unlocked: set<EnteringKey>)

  function FaceOf(s: System): Face { Face(s.leaders, s.owner, s.locked, s.released, s.unlocked) }

  /** Leader `y` became `l`, and the history is as before. */
  ghost predicate Became(s: System, s': System, y: ServerName, l: Leader) {
    FaceOf(s') == FaceOf(s).(leaders := s.leaders[y := l])
  }

  /** What a step with the effect `e` changes. */
  ghost predicate Changed(s: System, s': System, me: ServerName, e: Effect) {
    FaceOf(s') == FaceOf(s).(leaders := s.leaders[me := e.leader], locked := s.locked + e.locked,
        released := s.released + e.released)
  }

  /** Leader `x` became `l` and sent LOCKED for `k`. */
  ghost predicate Got(s: System, s': System, x: ServerName, l: Leader, k: EnteringKey) {
    FaceOf(s') == FaceOf(s).(leaders := s.leaders[x := l], locked := s.locked + {k})
  }

  lemma {:induction false} QuietChange(s: System, s': System, me: ServerName, e: Effect)
    requires Changed(s, s', me, e) && e.released == {}
    ensures e.locked == {} ==> Became(s, s', me, e.leader)
    ensures forall k :: e.locked == {k} ==> Got(s, s', me, e.leader, k)
  {
    assert s.released + {} == s.released && s.locked + {} == s.locked;
  }

  lemma {:induction false} DeliveredState(all: set<ServerName>, s: System, p: Packet, e: Effect) returns (s': System)
    requires p in s.net && p.target in s.leaders && Tabled(s.leaders[p.target])
    requires !Throws(s.leaders[p.target], p.message) && !SecondObject(s.leaders[p.target], p.message)
    requires e == Handle(all, s.leaders[p.target], p)
    ensures Delivery(all, s, s', p)
    ensures s'.leaders == s.leaders[p.target := e.leader] && s'.net == s.net - multiset{p} + e.out
    ensures s'.locked == s.locked + e.locked && s'.released == s.released + e.released
    ensures s'.owner == s.owner && s'.unlocked == s.unlocked
  {
    s' := Bakery.Deliver(all, s, p);
  }

  /** `g` when the packet `p`, at position `i` of its link, can be delivered and has the effect `e`. */
  ghost function Due(all: set<ServerName>, g: Game, p: Packet, i: nat, e: Effect, tails: map<ServerName,
        seq<Message>>, r: Rules): Position {
    if && g.s.leaders.Keys == all && g.q.Keys == Silent(all).Keys && Matches(g)
       && p.target in all && (p.source, p.target) in g.q && i < |g.q[(p.source, p.target)]|
       && g.q[(p.source, p.target)][i] == p.message && (r.fifo ==> i == 0)
       && Tabled(g.s.leaders[p.target]) && !Throws(g.s.leaders[p.target], p.message)
       && !SecondObject(g.s.leaders[p.target], p.message)
       && e == Handle(all, g.s.leaders[p.target], p) && AreTails(all, p.target, e.out, tails)
       && (r.disciplined ==> Disciplined(g.s, p))
    then Here(g) else Nowhere
  }

  lemma {:induction false} DeliveredMatches(all: set<ServerName>, g: Game, p: Packet, i: nat, e: Effect,
        tails: map<ServerName, seq<Message>>, r: Rules, s': System)
    requires Due(all, g, p, i, e, tails, r) == Here(g) && s'.leaders.Keys == all
    requires s'.net == g.s.net - multiset{p} + e.out
    ensures Sound(all, Game(s', Sending(Without(g.q, (p.source, p.target), i), p.target, tails)))
         == Here(Game(s', Sending(Without(g.q, (p.source, p.target), i), p.target, tails)))
  {
    var q := Without(g.q, (p.source, p.target), i);
    InFlightIsQueued(g, p);
    forall l, n | l in q ensures (g.s.net - multiset{p})[Packet(l.0, l.1, n)] == multiset(q[l])[n] {
      WithoutMatches(g, p, i, l, n);
    }
    MovedMatches(all, g.s.net - multiset{p}, q, p.target, e.out, tails, s');
  }

  lemma {:induction false} Delivering(all: set<ServerName>, g: Game, p: Packet, i: nat, e: Effect,
        tails: map<ServerName, seq<Message>>, r: Rules)
    returns (g': Game)
    requires Due(all, g, p, i, e, tails, r) == Here(g)
    ensures g' == Game(Bakery.Deliver(all, g.s, p), Sending(Without(g.q, (p.source, p.target), i), p.target, tails))
    ensures Sound(all, g') == Here(g')
  {
    InFlightIsQueued(g, p);
    var s' := DeliveredState(all, g.s, p, e);
    g' := Game(s', Sending(Without(g.q, (p.source, p.target), i), p.target, tails));
    DeliveredMatches(all, g, p, i, e, tails, r, s');
  }

  lemma {:induction false} ReceivesIt(all: set<ServerName>, g: Game, g': Game, p: Packet, i: nat, e: Effect,
        tails: map<ServerName, seq<Message>>, r: Rules)
    requires Due(all, g, p, i, e, tails, r) == Here(g)
    requires g' == Game(Bakery.Deliver(all, g.s, p), Sending(Without(g.q, (p.source, p.target), i), p.target, tails))
    ensures After(all, g, g', r) == Here(g')
  {
    InFlightIsQueued(g, p);
    LinksOf(all);
    SendingAppends(all, Without(g.q, (p.source, p.target), i), p.target, e.out, tails);
    assert Receives(all, g, g', p, i, r);
  }

  lemma {:induction false} Received(all: set<ServerName>, h: seq<Game>, r: Rules, g: Game, p: Packet, i: nat,
        e: Effect, tails: map<ServerName, seq<Message>>)
    returns (more: seq<Game>, g': Game)
    requires Now(all, h, r) == Here(g) && Due(all, g, p, i, e, tails, r) == Here(g)
    ensures Now(all, more, r) == Here(g') && more == h + [g']
    ensures g' == Game(Bakery.Deliver(all, g.s, p), Sending(Without(g.q, (p.source, p.target), i), p.target, tails))
  {
    g' := Delivering(all, g, p, i, e, tails, r);
    ReceivesIt(all, g, g', p, i, e, tails, r);
    more := h + [g'];
    OneMoreNow(all, h, r, g, g');
  }

  /** The packet `p`, at position `i` of its link, arrives. */
  lemma {:induction false} Deliver(all: set<ServerName>, h: seq<Game>, r: Rules, g: Game, p: Packet, i: nat,
        e: Effect, tails: map<ServerName, seq<Message>>)
    returns (more: seq<Game>, g': Game)
    requires Now(all, h, r) == Here(g) && Due(all, g, p, i, e, tails, r) == Here(g)
    ensures Now(all, more, r) == Here(g') && more == h + [g'] && Changed(g.s, g'.s, p.target, e)
    ensures g'.s.before == Bakery.Deliver(all, g.s, p).before
    ensures g'.q == Sending(Without(g.q, (p.source, p.target), i), p.target, tails)
  {
    more, g' := Received(all, h, r, g, p, i, e, tails);
    var _ := DeliveredState(all, g.s, p, e);
  }

  lemma {:induction false} AsksIt(all: set<ServerName>, g: Game, g': Game, me: ServerName, k: EnteringKey, r: Rules)
    requires g.s.leaders.Keys == all && g.q.Keys == Silent(all).Keys
    requires me in all && Free(g.s.leaders[me], k) && (r.careful ==> Unmentioned(g.s, k))
    requires g' == Game(Introduced(all, Forgotten(g.s, k), me, k), Sending(g.q, me, ToAll(all, me, [LockEntering(k)])))
    ensures After(all, g, g', r) == Here(g')
  {
    LinksOf(all);
    OneTail(all, me, LockEntering(k));
    SendingAppends(all, g.q, me, Broadcast(all, me, LockEntering(k)), ToAll(all, me, [LockEntering(k)]));
    assert Asks(all, g, g', me, k, r);
  }

  lemma {:induction false} AskingKeeps(all: set<ServerName>, g: Game, me: ServerName, k: EnteringKey, s': System)
    requires Sound(all, g) == Here(g) && me in all && s'.leaders.Keys == all
    requires s'.net == g.s.net + Broadcast(all, me, LockEntering(k))
    ensures Sound(all, Game(s', Sending(g.q, me, ToAll(all, me, [LockEntering(k)]))))
         == Here(Game(s', Sending(g.q, me, ToAll(all, me, [LockEntering(k)]))))
  {
    OneTail(all, me, LockEntering(k));
    MovedMatches(all, g.s.net, g.q, me, Broadcast(all, me, LockEntering(k)), ToAll(all, me, [LockEntering(k)]), s');
  }

  /** A client sends LOCK. */
  lemma {:induction false} Ask(all: set<ServerName>, h: seq<Game>, r: Rules, g: Game, me: ServerName, k: EnteringKey)
    returns (more: seq<Game>, g': Game)
    requires Now(all, h, r) == Here(g) && me in all && Free(g.s.leaders[me], k) && (r.careful ==> Unmentioned(g.s, k))
    ensures Now(all, more, r) == Here(g')
    ensures g' == Game(Introduced(all, Forgotten(g.s, k), me, k), Sending(g.q, me, ToAll(all, me, [LockEntering(k)])))
  {
    g' := Game(Introduced(all, Forgotten(g.s, k), me, k), Sending(g.q, me, ToAll(all, me, [LockEntering(k)])));
    AskingKeeps(all, g, me, k, g'.s);
    AsksIt(all, g, g', me, k, r);
    more := h + [g'];
    OneMoreNow(all, h, r, g, g');
  }

  lemma {:induction false} GivesIt(all: set<ServerName>, g: Game, g': Game, me: ServerName, t: TicketKey, e: Effect,
        tails: map<ServerName, seq<Message>>, r: Rules)
    requires g.q.Keys == Silent(all).Keys && me in g.s.leaders && t in g.s.leaders[me].tickets
    requires Tabled(g.s.leaders[me])
    requires e == OnUnlock(all, me, g.s.leaders[me], t) && AreTails(all, me, e.out, tails)
    requires g' == Game(Unlocked(g.s, me, t, e), Sending(g.q, me, tails))
    ensures After(all, g, g', r) == Here(g')
  {
    LinksOf(all);
    SendingAppends(all, g.q, me, e.out, tails);
    assert Gives(all, g, g', me, t);
  }

  ghost function Unlocked(s: System, me: ServerName, t: TicketKey, e: Effect): System {
    Apply(s, me, s.net, e).(unlocked := s.unlocked + {t.entering})
  }

  lemma {:induction false} Giving(all: set<ServerName>, g: Game, me: ServerName, t: TicketKey, e: Effect,
        tails: map<ServerName, seq<Message>>)
    returns (g': Game)
    requires Sound(all, g) == Here(g) && me in all && AreTails(all, me, e.out, tails)
    ensures g' == Game(Unlocked(g.s, me, t, e), Sending(g.q, me, tails)) && Sound(all, g') == Here(g')
  {
    g' := Game(Unlocked(g.s, me, t, e), Sending(g.q, me, tails));
    MovedMatches(all, g.s.net, g.q, me, e.out, tails, g'.s);
  }

  /** A client sends UNLOCK. */
  lemma {:induction false} Give(all: set<ServerName>, h: seq<Game>, r: Rules, g: Game, me: ServerName, t: TicketKey,
        e: Effect, tails: map<ServerName, seq<Message>>)
    returns (more: seq<Game>, g': Game)
    requires Now(all, h, r) == Here(g) && me in all && t in g.s.leaders[me].tickets && Tabled(g.s.leaders[me])
    requires e == OnUnlock(all, me, g.s.leaders[me], t) && AreTails(all, me, e.out, tails)
    ensures Now(all, more, r) == Here(g') && g' == Game(Unlocked(g.s, me, t, e), Sending(g.q, me, tails))
  {
    g' := Giving(all, g, me, t, e, tails);
    GivesIt(all, g, g', me, t, e, tails, r);
    more := h + [g'];
    OneMoreNow(all, h, r, g, g');
  }

  // ---------- the same, link by link ----------

  /** What is in flight on a link. */
  function On(g: Game, x: ServerName, y: ServerName): seq<Message> { if (x, y) in g.q then g.q[(x, y)] else [] }

  function Cut(s: seq<Message>, i: nat): seq<Message>
    requires i < |s|
  {
    s[..i] + s[i + 1..]
  }

  /** The message at position `i` of the link from `x` to `y` can be delivered, with the effect `e`. */
  ghost predicate Can(all: set<ServerName>, r: Rules, g: Game, x: ServerName, y: ServerName, i: nat, m: Message,
        e: Effect) {
    && x in all && y in all && x != y && y in g.s.leaders && i < |On(g, x, y)| && On(g, x, y)[i] == m &&
        (r.fifo ==> i == 0)
    && Tabled(g.s.leaders[y]) && !Throws(g.s.leaders[y], m) && !SecondObject(g.s.leaders[y], m)
    && e == Handle(all, g.s.leaders[y], Packet(x, y, m)) && (r.disciplined ==> Disciplined(g.s, Packet(x, y, m)))
  }

  lemma {:induction false} CanIsDue(all: set<ServerName>, h: seq<Game>, r: Rules, g: Game, x: ServerName,
        y: ServerName, i: nat, m: Message, e: Effect, tails: map<ServerName, seq<Message>>)
    requires Now(all, h, r) == Here(g) && Can(all, r, g, x, y, i, m, e) && AreTails(all, y, e.out, tails)
    ensures Due(all, g, Packet(x, y, m), i, e, tails, r) == Here(g)
  {
  }

  /** `y` took the message at `i` from `x` and answered. */
  ghost predicate Replied(g: Game, g': Game, x: ServerName, y: ServerName, i: nat, answer: Message)
    requires i < |On(g, x, y)|
  {
    forall u, v :: On(g', u, v) == if u == x && v == y then Cut(On(g, x, y), i)
                                   else if u == y && v == x then On(g, y, x) + [answer] else On(g, u, v)
  }

  /** `y` took the message at `i` from `x` and told everyone else. */
  ghost predicate Told(all: set<ServerName>, g: Game, g': Game, x: ServerName, y: ServerName, i: nat, ms: seq<Message>)
    requires i < |On(g, x, y)|
  {
    forall u, v :: On(g', u, v) == if u == x && v == y then Cut(On(g, x, y), i)
                                   else if u == y && v in all && v != y then On(g, y, v) + ms else On(g, u, v)
  }

  /** `y` took the message at `i` from `x` and sent nothing. */
  ghost predicate Taken(g: Game, g': Game, x: ServerName, y: ServerName, i: nat)
    requires i < |On(g, x, y)|
  {
    forall u, v :: On(g', u, v) == if u == x && v == y then Cut(On(g, x, y), i) else On(g, u, v)
  }

  /** All that happens on the links is that `x` tells everyone else the messages `ms`. */
  ghost predicate Said(all: set<ServerName>, g: Game, g': Game, x: ServerName, ms: seq<Message>) {
    forall u, v :: On(g', u, v) == if u == x && v in all && v != x then On(g, x, v) + ms else On(g, u, v)
  }

  lemma {:induction false} ToldNothing(all: set<ServerName>, g: Game, g': Game, x: ServerName, y: ServerName, i: nat)
    requires i < |On(g, x, y)| && Told(all, g, g', x, y, i, [])
    ensures Taken(g, g', x, y, i)
  {
    forall u, v ensures On(g', u, v) == if u == x && v == y then Cut(On(g, x, y), i) else On(g, u, v) {
      assert On(g, u, v) + [] == On(g, u, v);
    }
  }

  /** `y` handles the message and answers `x`. */
  lemma {:induction false} Replies(all: set<ServerName>, h: seq<Game>, r: Rules, g: Game, x: ServerName,
        y: ServerName, i: nat, m: Message, e: Effect, answer: Message)
    returns (more: seq<Game>, g': Game)
    requires Now(all, h, r) == Here(g) && Can(all, r, g, x, y, i, m, e) && e.out == Reply(y, x, answer)
    requires e.released == {}
    ensures Now(all, more, r) == Here(g') && more == h + [g'] && Replied(g, g', x, y, i, answer)
    ensures e.locked == {} ==> Became(g.s, g'.s, y, e.leader)
    ensures forall k :: e.locked == {k} ==> Got(g.s, g'.s, y, e.leader, k)
  {
    ReplyTails(all, y, x, answer);
    CanIsDue(all, h, r, g, x, y, i, m, e, ToOne(all, y, x, answer));
    more, g' := Deliver(all, h, r, g, Packet(x, y, m), i, e, ToOne(all, y, x, answer));
    RepliedLinks(all, g, g', x, y, i, answer);
    QuietChange(g.s, g'.s, y, e);
  }

  lemma {:induction false} RepliedLinks(all: set<ServerName>, g: Game, g': Game, x: ServerName, y: ServerName, i: nat,
        answer: Message)
    requires g.q.Keys == Silent(all).Keys && (x, y) in g.q && i < |g.q[(x, y)]| && y in all
    requires g'.q == Sending(Without(g.q, (x, y), i), y, ToOne(all, y, x, answer))
    ensures Replied(g, g', x, y, i, answer)
  {
    LinksOf(all);
  }

  lemma {:induction false} ToldLinks(all: set<ServerName>, g: Game, g': Game, x: ServerName, y: ServerName, i: nat,
        ms: seq<Message>)
    requires g.q.Keys == Silent(all).Keys && (x, y) in g.q && i < |g.q[(x, y)]| && y in all
    requires g'.q == Sending(Without(g.q, (x, y), i), y, ToAll(all, y, ms))
    ensures Told(all, g, g', x, y, i, ms)
  {
    LinksOf(all);
  }

  /** `y` handles the message and tells everyone else the messages `ms`. */
  lemma {:induction false} Tells(all: set<ServerName>, h: seq<Game>, r: Rules, g: Game, x: ServerName, y: ServerName,
        i: nat, m: Message, e: Effect, ms: seq<Message>)
    returns (more: seq<Game>, g': Game)
    requires Now(all, h, r) == Here(g) && Can(all, r, g, x, y, i, m, e) && AreTails(all, y, e.out, ToAll(all, y, ms))
    requires e.released == {}
    ensures Now(all, more, r) == Here(g') && Told(all, g, g', x, y, i, ms)
    ensures g'.s.before == Bakery.Deliver(all, g.s, Packet(x, y, m)).before
    ensures e.locked == {} ==> Became(g.s, g'.s, y, e.leader)
    ensures forall k :: e.locked == {k} ==> Got(g.s, g'.s, y, e.leader, k)
  {
    CanIsDue(all, h, r, g, x, y, i, m, e, ToAll(all, y, ms));
    more, g' := Deliver(all, h, r, g, Packet(x, y, m), i, e, ToAll(all, y, ms));
    ToldLinks(all, g, g', x, y, i, ms);
    QuietChange(g.s, g'.s, y, e);
  }

  lemma {:induction false} SentLinks(all: set<ServerName>, g: Game, g': Game, x: ServerName, ms: seq<Message>)
    requires g.q.Keys == Silent(all).Keys && x in all && g'.q == Sending(g.q, x, ToAll(all, x, ms))
    ensures Said(all, g, g', x, ms)
  {
    LinksOf(all);
  }

  /** A client of `x` sends LOCK. */
  lemma {:induction false} Locks(all: set<ServerName>, h: seq<Game>, r: Rules, g: Game, x: ServerName, k: EnteringKey)
    returns (more: seq<Game>, g': Game)
    requires Now(all, h, r) == Here(g) && x in all && Free(g.s.leaders[x], k) && (r.careful ==> Unmentioned(g.s, k))
    ensures Now(all, more, r) == Here(g') && g'.s == Introduced(all, Forgotten(g.s, k), x, k)
    ensures Said(all, g, g', x, [LockEntering(k)])
  {
    more, g' := Ask(all, h, r, g, x, k);
    SentLinks(all, g, g', x, [LockEntering(k)]);
  }

  /** A client of `x` sends UNLOCK, and `x` tells everyone else the messages `ms`. */
  lemma {:induction false} Unlocks(all: set<ServerName>, h: seq<Game>, r: Rules, g: Game, x: ServerName, t: TicketKey,
        e: Effect, ms: seq<Message>)
    returns (more: seq<Game>, g': Game)
    requires Now(all, h, r) == Here(g) && x in all && t in g.s.leaders[x].tickets && Tabled(g.s.leaders[x])
    requires e == OnUnlock(all, x, g.s.leaders[x], t) && AreTails(all, x, e.out, ToAll(all, x, ms))
    ensures Now(all, more, r) == Here(g') && g'.s == Unlocked(g.s, x, t, e)
    ensures Said(all, g, g', x, ms)
  {
    more, g' := Give(all, h, r, g, x, t, e, ToAll(all, x, ms));
    SentLinks(all, g, g', x, ms);
  }

  // ---------- discipline, seen from the queues ----------

  lemma {:induction false} QuietEntering(g: Game, x: ServerName, y: ServerName, k: EnteringKey)
    requires Matches(g) && forall u, v :: LockEntering(k) !in On(g, u, v)
    ensures Disciplined(g.s, Packet(x, y, LockEntered(k)))
  {
    forall q | q in g.s.net && q.message.LockEntering? ensures q.message.key != k {
      InFlightIsQueued(g, q);
      assert q.message in On(g, q.source, q.target);
    }
  }

  /** No ADD_TICKET of `k` is on its way to `y`. */
  ghost predicate NoAdd(g: Game, y: ServerName, k: EnteringKey) {
    forall u, m :: m in On(g, u, y) && m.AddTicket? ==> m.ticket.entering != k
  }

  lemma {:induction false} QuietAdding(g: Game, x: ServerName, y: ServerName, k: EnteringKey)
    requires Matches(g) && NoAdd(g, y, k)
    ensures Disciplined(g.s, Packet(x, y, LockExiting(k)))
  {
    forall q | q in g.s.net && q.message.AddTicket? && q.target == y ensures q.message.ticket.entering != k {
      InFlightIsQueued(g, q);
      assert q.message in On(g, q.source, q.target);
    }
  }
}
