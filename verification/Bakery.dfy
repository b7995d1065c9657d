/** Two or three leaders exchanging the messages of the bakery algorithm.

    The state is the tables of every leader, the packets in flight (delivered in any order,
    each exactly once) and a few history variables.  A step is a LOCK or UNLOCK of a client or
    the delivery of one packet. */
module Bakery {
  import opened KeyOrder
  import opened TicketProgress
  import opened Leader

  /** `owner` maps each request to the leader that received its LOCK.  History: `before[k]`
      are the tickets that had their quorum when `k` asked for the largest number, `locked`
      the tickets for which LOCKED was sent, `released` the ones removed by an UNLOCK or by
      a LOCK_FAILED, `unlocked` the ones whose UNLOCK was processed. */
  datatype System = System(
    leaders: map<ServerName, Leader>,
    net: multiset<Packet>,
    owner: map<EnteringKey, ServerName>,
    before: map<EnteringKey, set<EnteringKey>>,
    locked: set<EnteringKey>,
    released: set<EnteringKey>,
    unlocked: set<EnteringKey>)

  /** The owner's copy of a ticket. */
  ghost function Ticket(s: System, k: EnteringKey): Progress {
    if k in s.owner && s.owner[k] in s.leaders && k in s.leaders[s.owner[k]].copies
    then s.leaders[s.owner[k]].copies[k]
    else NewTicket("", k)
  }

  /** Tickets that reached their TICKET_ADDED quorum and were not removed. */
  ghost function Quorate(s: System): set<EnteringKey> {
    set k | k in s.owner && Ticket(s, k).quorum && k !in s.released
  }

  /** The tickets held by their clients: LOCKED was sent, no leader processed the UNLOCK. */
  function Held(s: System): set<EnteringKey> {
    s.locked - s.unlocked
  }

  // ---------- steps ----------

  ghost function Apply(s: System, me: ServerName, rest: multiset<Packet>, e: Effect): System {
    s.(leaders := s.leaders[me := e.leader], net := rest + e.out,
       locked := s.locked + e.locked, released := s.released + e.released)
  }

  /** The part of a step that one leader performs, whatever happens to the history variables. */
  ghost predicate Applied(s: System, s': System, me: ServerName, e: Effect) {
    && me in s.leaders && s'.leaders == s.leaders[me := e.leader]
    && (forall k :: k in s.owner ==> k in s'.owner && s'.owner[k] == s.owner[k])
    && s'.locked == s.locked + e.locked && s'.released == s.released + e.released
  }

  /** The cases in which a handler throws: the number would wrap around, or a second number. */
  predicate Throws(l: Leader, m: Message)
    requires Tabled(l)
  {
    match m
    case MaxTicketIs(k, n) => k in l.entering && !l.copies[k].added && WrapsAround(l.copies[k], n)
    case AddTicket(t) => t !in l.tickets && t.entering in l.entering && HasNumber(l.copies[t.entering])
    case _ => false
  }

  /** LOCK_ENTERING for a key of which the table still lists an older ticket: there would be two
      ticket objects for one key, which this model does not tell apart. */
  predicate SecondObject(l: Leader, m: Message) {
    m.LockEntering? && m.key !in l.entering && !Free(l, m.key)
  }

  ghost function Deliver(all: set<ServerName>, s: System, p: Packet): System
    requires p.target in s.leaders && Tabled(s.leaders[p.target])
  {
    var l := s.leaders[p.target];
    var s' := Apply(s, p.target, s.net - multiset{p}, Handle(all, l, p));
    if p.message.LockEntered? && StartsNumbering(l, p.message.key)
    then s'.(before := s.before[p.message.key := Quorate(s)])
    else s'
  }

  ghost predicate Delivery(all: set<ServerName>, s: System, s': System, p: Packet) {
    && p in s.net && p.target in s.leaders && Tabled(s.leaders[p.target])
    && !Throws(s.leaders[p.target], p.message) && !SecondObject(s.leaders[p.target], p.message)
    && s' == Deliver(all, s, p)
  }

  ghost predicate Unlock(all: set<ServerName>, s: System, s': System, me: ServerName, t: TicketKey) {
    && me in s.leaders && t in s.leaders[me].tickets && Tabled(s.leaders[me])
    && s' == Apply(s, me, s.net, OnUnlock(all, me, s.leaders[me], t)).(unlocked := s.unlocked + {t.entering})
  }

  // ---------- LOCK ----------

  /** The check of msg_lock: neither of the leader's own tables has a ticket of this client. */
  predicate Free(l: Leader, k: EnteringKey) {
    k !in l.entering && forall t :: t in l.tickets ==> t.entering != k
  }

  /** A ticket object goes away when no table refers to it any more. */
  function WithoutCopy(l: Leader, k: EnteringKey): Leader {
    if Free(l, k) then l.(copies := l.copies - {k}) else l
  }

  /** The history of a former request of the same client ends. */
  function Forgotten(s: System, k: EnteringKey): System {
    System(map m | m in s.leaders :: WithoutCopy(s.leaders[m], k), s.net, s.owner - {k},
           map j | j in s.before && j != k :: s.before[j] - {k}, s.locked - {k}, s.released - {k}, s.unlocked - {k})
  }

  ghost function Introduced(all: set<ServerName>, s: System, me: ServerName, k: EnteringKey): System
    requires me in s.leaders
  {
    Apply(s, me, s.net, OnLock(all, me, s.leaders[me], k)).(owner := s.owner[k := me])
  }

  ghost predicate Request(all: set<ServerName>, s: System, s': System, me: ServerName, k: EnteringKey) {
    && me in s.leaders && Free(s.leaders[me], k)
    && s' == Introduced(all, Forgotten(s, k), me, k)
  }

  /** No table, no packet and no waiting list mentions a request. */
  ghost predicate Unmentioned(s: System, k: EnteringKey) {
    && (forall p :: p in s.net ==> p.message.Entering() != k)
    && (forall m :: m in s.leaders ==> Free(s.leaders[m], k))
  }

  /** The two halves of a LOCK of an unmentioned request. */
  ghost predicate Forget(s: System, s': System, k: EnteringKey) { Unmentioned(s, k) && s' == Forgotten(s, k) }

  ghost predicate Introduce(all: set<ServerName>, s: System, s': System, me: ServerName, k: EnteringKey) {
    me in s.leaders && k !in s.owner && s' == Introduced(all, s, me, k)
  }

  lemma RequestInHalves(all: set<ServerName>, s: System, s': System, me: ServerName, k: EnteringKey)
    requires Request(all, s, s', me, k) && Unmentioned(s, k)
    ensures Forget(s, Forgotten(s, k), k) && Introduce(all, Forgotten(s, k), s', me, k)
  {
  }

  /** What three leaders need from the transport: LOCK_ENTERING reached both other leaders
      before the owner asks for the largest number, and a leader sees ADD_TICKET before
      LOCK_EXITING of the same ticket (one link, sent in that order). */
  ghost predicate Disciplined(s: System, p: Packet) {
    && (p.message.LockEntered? ==>
          forall q :: q in s.net && q.message.LockEntering? ==> q.message.key != p.message.key)
    && (p.message.LockExiting? ==>
          forall q :: q in s.net && q.message.AddTicket? && q.target == p.target ==>
              q.message.ticket.entering != p.message.key)
  }

  /** `careful`: a client locks again only when nothing mentions its former request any more. */
  ghost predicate Step(all: set<ServerName>, s: System, s': System, disciplined: bool, careful: bool) {
    || (exists p :: Delivery(all, s, s', p) && (disciplined ==> Disciplined(s, p)))
    || (exists me, k :: Request(all, s, s', me, k) && (careful ==> Unmentioned(s, k)))
    || (exists me, t :: Unlock(all, s, s', me, t))
  }

  ghost predicate Init(all: set<ServerName>, s: System) {
    s == System(map m | m in all :: Leader({}, {}, map[]), multiset{}, map[], map[], {}, {}, {})
  }

  /** A finite run from the initial state. */
  ghost predicate Run(all: set<ServerName>, run: seq<System>, disciplined: bool, careful: bool) {
    && run != [] && Init(all, run[0])
    && forall i :: 0 <= i < |run| - 1 ==> Step(all, run[i], run[i + 1], disciplined, careful)
  }
}
