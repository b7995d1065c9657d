/** Runs in which every link remembers the order of sending.

    A link is a source and a target; its queue holds what is in flight on it, oldest first.  A
    run keeps the rules it is given: disciplined deliveries, careful clients, and links that
    deliver in the order of sending. */
module Queues {
  import opened KeyOrder
  import opened TicketProgress
  import opened Leader
  import opened Bakery

  type Link = (ServerName, ServerName)

  type Queues = map<Link, seq<Message>>

  datatype Game = Game(s: System, q: Queues)

  datatype Rules = Rules(disciplined: bool, careful: bool, fifo: bool)

  /** The order in which one handler sends its messages to one leader. */
  function Turn(m: Message): nat {
    match m
    case TicketReady(_) => 1
    case ActivateLock(_) => 2
    case _ => 0
  }

  predicate InTurn(tail: seq<Message>) {
    forall i, j :: 0 <= i < j < |tail| ==>
      || Turn(tail[i]) < Turn(tail[j])
      || (tail[i].TicketReady? && tail[j].TicketReady? && KeyBefore(tail[i].ticket, tail[j].ticket))
  }

  /** What a handler of `me` appends to the queue of the link `l`. */
  ghost predicate IsTail(tail: seq<Message>, l: Link, me: ServerName, out: multiset<Packet>) {
    if l.0 != me then tail == []
    else InTurn(tail) && forall m :: multiset(tail)[m] == out[Packet(l.0, l.1, m)]
  }

  ghost predicate Appended(q: Queues, q': Queues, me: ServerName, out: multiset<Packet>) {
    && q'.Keys == q.Keys
    && forall l :: l in q ==> q[l] <= q'[l] && IsTail(q'[l][|q[l]|..], l, me, out)
  }

  function Without(q: Queues, l: Link, i: nat): Queues
    requires l in q && i < |q[l]|
  {
    q[l := q[l][..i] + q[l][i + 1..]]
  }

  /** The packet at position `i` of its link is delivered. */
  ghost predicate Receives(all: set<ServerName>, g: Game, g': Game, p: Packet, i: nat, r: Rules) {
    && Delivery(all, g.s, g'.s, p) && (r.disciplined ==> Disciplined(g.s, p))
    && (p.source, p.target) in g.q && i < |g.q[(p.source, p.target)]| && g.q[(p.source, p.target)][i] == p.message
    && (r.fifo ==> i == 0)
    && Appended(Without(g.q, (p.source, p.target), i), g'.q, p.target, Handle(all, g.s.leaders[p.target], p).out)
  }

  ghost predicate Asks(all: set<ServerName>, g: Game, g': Game, me: ServerName, k: EnteringKey, r: Rules) {
    && Request(all, g.s, g'.s, me, k) && (r.careful ==> Unmentioned(g.s, k))
    && Appended(g.q, g'.q, me, Broadcast(all, me, LockEntering(k)))
  }

  ghost predicate Gives(all: set<ServerName>, g: Game, g': Game, me: ServerName, t: TicketKey) {
    && Unlock(all, g.s, g'.s, me, t)
    && Appended(g.q, g'.q, me, OnUnlock(all, me, g.s.leaders[me], t).out)
  }

  ghost predicate GameStep(all: set<ServerName>, g: Game, g': Game, r: Rules) {
    || (exists p, i :: Receives(all, g, g', p, i, r))
    || (exists me, k :: Asks(all, g, g', me, k, r))
    || (exists me, t :: Gives(all, g, g', me, t))
  }

  function Silent(all: set<ServerName>): Queues {
    map x, y | x in all && y in all && x != y :: (x, y) := []
  }

  /** A finite run with its queues. */
  ghost predicate Played(all: set<ServerName>, h: seq<Game>, r: Rules) {
    && h != [] && Init(all, h[0].s) && h[0].q == Silent(all)
    && forall i :: 0 <= i < |h| - 1 ==> GameStep(all, h[i], h[i + 1], r)
  }

  function Systems(h: seq<Game>): (run: seq<System>)
    ensures |run| == |h| && forall i :: 0 <= i < |h| ==> run[i] == h[i].s
  {
    seq(|h|, i requires 0 <= i < |h| => h[i].s)
  }

  /** Without the queues it is a run. */
  lemma PlayedIsRun(all: set<ServerName>, h: seq<Game>, r: Rules)
    requires Played(all, h, r)
    ensures Run(all, Systems(h), r.disciplined, r.careful)
  {
    var run := Systems(h);
    forall i | 0 <= i < |run| - 1 ensures Step(all, run[i], run[i + 1], r.disciplined, r.careful) {
      StepIsStep(all, h[i], h[i + 1], r);
    }
  }

  lemma StepIsStep(all: set<ServerName>, g: Game, g': Game, r: Rules)
    requires GameStep(all, g, g', r)
    ensures Step(all, g.s, g'.s, r.disciplined, r.careful)
  {
    if p, i :| Receives(all, g, g', p, i, r) {
      assert Delivery(all, g.s, g'.s, p);
    } else if me, k :| Asks(all, g, g', me, k, r) {
      assert Request(all, g.s, g'.s, me, k);
    } else {
      var me, t :| Gives(all, g, g', me, t);
      assert Unlock(all, g.s, g'.s, me, t);
    }
  }

  // ---------- queues and packets in flight ----------

  /** The queues hold exactly the packets in flight. */
  ghost predicate Matches(g: Game) {
    && (forall l, m :: l in g.q ==> g.s.net[Packet(l.0, l.1, m)] == multiset(g.q[l])[m])
    && (forall p :: p in g.s.net ==> (p.source, p.target) in g.q)
  }

  lemma InFlightIsQueued(g: Game, p: Packet)
    requires Matches(g)
    ensures p in g.s.net <==> (p.source, p.target) in g.q && p.message in g.q[(p.source, p.target)]
  {
    var l := (p.source, p.target);
    if l in g.q {
      assert g.s.net[Packet(l.0, l.1, p.message)] == multiset(g.q[l])[p.message];
    }
  }

  lemma {:induction false} WithoutCounts(s: seq<Message>, i: nat, m: Message)
    requires i < |s|
    ensures multiset(s)[m] == multiset(s[..i] + s[i + 1..])[m] + if s[i] == m then 1 else 0
  {
    assert s == s[..i] + [s[i]] + s[i + 1..];
    assert multiset(s) == multiset(s[..i]) + multiset([s[i]]) + multiset(s[i + 1..]);
    assert multiset(s[..i] + s[i + 1..]) == multiset(s[..i]) + multiset(s[i + 1..]);
  }

  lemma {:induction false} AppendedCounts(s: seq<Message>, s': seq<Message>, m: Message)
    requires s <= s'
    ensures multiset(s')[m] == multiset(s)[m] + multiset(s'[|s|..])[m]
  {
    assert s' == s + s'[|s|..];
    assert multiset(s') == multiset(s) + multiset(s'[|s|..]);
  }

  /** Sending keeps queues and packets together. */
  lemma {:induction false} AppendedMatches(all: set<ServerName>, q: Queues, q': Queues, net: multiset<Packet>,
        me: ServerName, out: multiset<Packet>, l: Link, m: Message)
    requires Appended(q, q', me, out) && l in q && net[Packet(l.0, l.1, m)] == multiset(q[l])[m]
    requires forall p :: p in out ==> p.source == me
    ensures (net + out)[Packet(l.0, l.1, m)] == multiset(q'[l])[m]
  {
    AppendedCounts(q[l], q'[l], m);
    assert IsTail(q'[l][|q[l]|..], l, me, out);
  }

  // ---------- building a run ----------

  ghost function Last(h: seq<Game>): Game
    requires h != []
  {
    h[|h| - 1]
  }

  lemma {:induction false} OneMoreStep(all: set<ServerName>, h: seq<Game>, g: Game, r: Rules)
    requires Played(all, h, r) && GameStep(all, Last(h), g, r)
    ensures Played(all, h + [g], r) && Last(h + [g]) == g
  {
    var more := h + [g];
    forall i | 0 <= i < |more| - 1 ensures GameStep(all, more[i], more[i + 1], r) {
      if i == |h| - 1 {
        assert more[i] == Last(h) && more[i + 1] == g;
      } else {
        assert more[i] == h[i] && more[i + 1] == h[i + 1];
      }
    }
  }

  /** The messages `tails[t]` go to each other leader `t`. */
  function Sending(q: Queues, me: ServerName, tails: map<ServerName, seq<Message>>): (q': Queues)
    ensures q'.Keys == q.Keys
    ensures forall l :: l in q ==> q'[l] == if l.0 == me && l.1 in tails then q[l] + tails[l.1] else q[l]
  {
    map l | l in q :: if l.0 == me && l.1 in tails then q[l] + tails[l.1] else q[l]
  }

  ghost predicate AreTails(all: set<ServerName>, me: ServerName, out: multiset<Packet>, tails: map<ServerName,
        seq<Message>>) {
    && tails.Keys == all - {me}
    && (forall t :: t in tails ==> InTurn(tails[t]))
    && (forall t, m :: t in tails ==> multiset(tails[t])[m] == out[Packet(me, t, m)])
    && (forall p :: p in out ==> p.source == me && p.target in tails)
  }

  lemma {:induction false} SendingAppends(all: set<ServerName>, q: Queues, me: ServerName, out: multiset<Packet>,
        tails: map<ServerName, seq<Message>>)
    requires AreTails(all, me, out, tails) && forall l :: l in q ==> l.1 in all && l.0 != l.1
    ensures Appended(q, Sending(q, me, tails), me, out)
  {
    var q' := Sending(q, me, tails);
    forall l | l in q ensures q[l] <= q'[l] && IsTail(q'[l][|q[l]|..], l, me, out) {
      if l.0 == me {
        assert q'[l][|q[l]|..] == tails[l.1];
      } else {
        assert q'[l][|q[l]|..] == [];
      }
    }
  }

  /** The same list to everyone. */
  function ToAll(all: set<ServerName>, me: ServerName, ms: seq<Message>): map<ServerName, seq<Message>> {
    map t | t in all - {me} :: ms
  }

  /** One answer. */
  function ToOne(all: set<ServerName>, me: ServerName, x: ServerName, m: Message): map<ServerName, seq<Message>> {
    map t | t in all - {me} :: if t == x then [m] else []
  }

  lemma {:induction false} ReplyTails(all: set<ServerName>, me: ServerName, x: ServerName, m: Message)
    requires x in all && x != me
    ensures AreTails(all, me, Reply(me, x, m), ToOne(all, me, x, m))
  {
  }

  lemma {:induction false} NoTails(all: set<ServerName>, me: ServerName)
    ensures AreTails(all, me, multiset{}, ToAll(all, me, []))
  {
  }

  lemma {:induction false} OneTail(all: set<ServerName>, me: ServerName, m: Message)
    ensures AreTails(all, me, Broadcast(all, me, m), ToAll(all, me, [m]))
  {
  }

  lemma OneInTurn(m: Message)
    ensures InTurn([m])
  {
  }

  lemma {:induction false} MoreInTurn(ms: seq<Message>, m: Message)
    requires InTurn(ms) && forall i :: 0 <= i < |ms| ==> Turn(ms[i]) < Turn(m)
    ensures InTurn(ms + [m])
  {
  }

  lemma {:induction false} MoreCounts(all: set<ServerName>, me: ServerName, out: multiset<Packet>, ms: seq<Message>,
        m: Message, t: ServerName, n: Message)
    requires AreTails(all, me, out, ToAll(all, me, ms)) && t in all && t != me
    ensures multiset(ms + [m])[n] == (out + Broadcast(all, me, m))[Packet(me, t, n)]
  {
    assert ToAll(all, me, ms)[t] == ms && multiset(ToAll(all, me, ms)[t])[n] == out[Packet(me, t, n)];
    OneMoreCounts(all, me, ms, m, t, n);
  }

  lemma {:induction false} MoreSenders(all: set<ServerName>, me: ServerName, out: multiset<Packet>, ms: seq<Message>,
        m: Message)
    requires AreTails(all, me, out, ToAll(all, me, ms))
    ensures forall p :: p in out + Broadcast(all, me, m) ==> p.source == me && p.target in all && p.target != me
  {
  }

  /** One more broadcast, later in turn. */
  lemma {:induction false} MoreTails(all: set<ServerName>, me: ServerName, out: multiset<Packet>, ms: seq<Message>,
        m: Message)
    requires AreTails(all, me, out, ToAll(all, me, ms)) && InTurn(ms) && forall i :: 0 <= i < |ms| ==>
        Turn(ms[i]) < Turn(m)
    ensures AreTails(all, me, out + Broadcast(all, me, m), ToAll(all, me, ms + [m]))
  {
    var more, sum := ToAll(all, me, ms + [m]), out + Broadcast(all, me, m);
    MoreInTurn(ms, m);
    MoreSenders(all, me, out, ms, m);
    forall t, n | t in more ensures multiset(more[t])[n] == sum[Packet(me, t, n)] {
      MoreCounts(all, me, out, ms, m, t, n);
    }
  }

  lemma {:induction false} OneMoreCounts(all: set<ServerName>, me: ServerName, ms: seq<Message>, m: Message,
        t: ServerName, n: Message)
    requires t in all && t != me
    ensures multiset(ms + [m])[n] == multiset(ms)[n] + Broadcast(all, me, m)[Packet(me, t, n)]
  {
    assert multiset(ms + [m]) == multiset(ms) + multiset{m};
    var p := Packet(me, t, n);
    assert p in Broadcast(all, me, m) <==> n == m;
  }
}
