/** The tables of one leader for one object name, and what each message handler of
    cluckd.cpp does to them.

    `entering` and `tickets` are the keys of f_entering_tickets[object_name] and
    f_tickets[object_name]; `copies` holds the ticket objects, which the two maps share.
    Timeouts are not part of this model (see Cluckd.dfy for one leader with a clock). */
module Leader {
  import opened KeyOrder
  import opened TicketProgress

  datatype Leader = Leader(entering: set<EnteringKey>, tickets: set<TicketKey>, copies: map<EnteringKey, Progress>)

  datatype Message =
    | LockEntering(key: EnteringKey)
    | LockEntered(key: EnteringKey)
    | GetMaxTicket(key: EnteringKey)
    | MaxTicketIs(key: EnteringKey, number: nat)
    | AddTicket(ticket: TicketKey)
    | TicketAdded(ticket: TicketKey)
    | LockExiting(key: EnteringKey)
    | TicketReady(ticket: TicketKey)
    | ActivateLock(ticket: TicketKey)
    | LockActivated(ticket: TicketKey, other: First)
    | DropTicket(ticket: TicketKey)
    | LockFailed(ticket: TicketKey)
  {
    function Entering(): EnteringKey {
      match this
      case LockEntering(k) => k
      case LockEntered(k) => k
      case GetMaxTicket(k) => k
      case MaxTicketIs(k, _) => k
      case AddTicket(t) => t.entering
      case TicketAdded(t) => t.entering
      case LockExiting(k) => k
      case TicketReady(t) => t.entering
      case ActivateLock(t) => t.entering
      case LockActivated(t, _) => t.entering
      case DropTicket(t) => t.entering
      case LockFailed(t) => t.entering
    }
  }

  /** Result of find_first_lock: the key of the first ticket, or "no-key". */
  datatype First = NoKey | FirstKey(key: TicketKey)

  datatype Packet = Packet(source: ServerName, target: ServerName, message: Message)

  /** What a handler does: the new tables, the messages to other leaders, the tickets for
      which LOCKED is sent to the client, and the tickets removed for good. */
  datatype Effect = Effect(leader: Leader, out: multiset<Packet>, locked: set<EnteringKey>, released: set<EnteringKey>)

  function Nothing(l: Leader): Effect { Effect(l, multiset{}, {}, {}) }

  /** ticket::send_message_to_leaders. */
  function Broadcast(all: set<ServerName>, me: ServerName, m: Message): (out: multiset<Packet>)
    ensures forall p :: p in out <==> p.source == me && p.message == m && p.target in all && p.target != me
    ensures forall p :: out[p] <= 1
  {
    multiset(set other | other in all && other != me :: Packet(me, other, m))
  }

  /** One message back to the sender. */
  function Reply(me: ServerName, source: ServerName, m: Message): (out: multiset<Packet>)
    ensures forall p :: p in out <==> p == Packet(me, source, m)
    ensures forall p :: out[p] <= 1
  {
    multiset{Packet(me, source, m)}
  }

  ghost predicate Tabled(l: Leader) {
    && (forall k :: k in l.entering ==> k in l.copies)
    && (forall t :: t in l.tickets ==> t.entering in l.copies)
  }

  // ---------- reading the tables ----------

  ghost predicate IsFirst(tickets: set<TicketKey>, k: TicketKey) {
    k in tickets && forall j :: j in tickets ==> j == k || KeyBefore(k, j)
  }

  lemma {:induction false} FirstExists(tickets: set<TicketKey>)
    requires tickets != {}
    ensures exists k :: IsFirst(tickets, k)
    decreases |tickets|
  {
    var t :| t in tickets;
    var rest := tickets - {t};
    if rest == {} {
      assert tickets == {t};
      assert IsFirst(tickets, t);
    } else {
      FirstExists(rest);
      var k :| IsFirst(rest, k);
      var least := if KeyBefore(t, k) then t else k;
      forall j | j in tickets ensures j == least || KeyBefore(least, j) {
        KeyBeforeStrictTotal(t, k, j);
        KeyBeforeStrictTotal(k, t, j);
        assert j == t || j in rest;
      }
      assert IsFirst(tickets, least);
    }
  }

  /** cluckd::find_first_lock when nothing timed out: the least key of the table. */
  ghost function FindFirst(tickets: set<TicketKey>): (r: First)
    ensures r == NoKey <==> tickets == {}
    ensures r.FirstKey? ==> IsFirst(tickets, r.key)
  {
    if tickets == {} then NoKey
    else
      FirstExists(tickets);
      var k :| IsFirst(tickets, k);
      FirstKey(k)
  }

  ghost predicate IsLast(tickets: set<TicketKey>, n: nat) {
    && (forall t :: t in tickets ==> t.number <= n)
    && (n == 0 || exists t :: t in tickets && t.number == n)
  }

  lemma {:induction false} LastExists(tickets: set<TicketKey>)
    ensures exists n :: IsLast(tickets, n)
    decreases |tickets|
  {
    if tickets == {} {
      assert IsLast(tickets, 0);
    } else {
      var t :| t in tickets;
      LastExists(tickets - {t});
      var n :| IsLast(tickets - {t}, n);
      assert IsLast(tickets, Max(n, t.number));
    }
  }

  /** cluckd::get_last_ticket: the largest number of the table, 0 when it is empty. */
  ghost function GetLast(tickets: set<TicketKey>): (n: nat)
    ensures IsLast(tickets, n)
  {
    LastExists(tickets);
    var n :| IsLast(tickets, n);
    n
  }

  // ---------- shared pieces ----------

  /** cluckd::activate_first_lock: the messages it sends. */
  ghost function ActivateFirst(all: set<ServerName>, me: ServerName, l: Leader): multiset<Packet>
    requires Tabled(l)
  {
    match FindFirst(l.tickets)
    case NoKey => multiset{}
    case FirstKey(k) =>
      if CanLock(l.copies[k.entering]) then Broadcast(all, me, ActivateLock(k)) else multiset{}
  }

  /** ticket::lock_activated on the ticket `k` of the table; only the owner sends LOCKED. */
  function Lock(me: ServerName, l: Leader, k: TicketKey, out: multiset<Packet>): Effect
    requires k.entering in l.copies
  {
    var t := l.copies[k.entering];
    Effect(l.(copies := l.copies[k.entering := Activated(t)]), out,
           if CanLock(t) && t.owner == me then {k.entering} else {}, {})
  }

  /** The loop of msg_lock_exiting over the tickets of the table. */
  function ExitAll(l: Leader, key: EnteringKey): map<EnteringKey, Progress> {
    map k | k in l.copies ::
      if l.copies[k].Key() in l.tickets then RemoveEntering(l.copies[k], key, {}) else l.copies[k]
  }

  /** The TICKET_READY messages of that loop. */
  function Readied(all: set<ServerName>, me: ServerName, l: Leader, key: EnteringKey): (out: multiset<Packet>)
    requires Tabled(l)
    ensures forall p :: p in out ==> p.message.TicketReady? && p.source == me && p.target in all && p.target != me
                                     && p.message.ticket in l.tickets && BecomesReady(l, p.message.ticket, key)
    ensures forall p :: out[p] <= 1
  {
    multiset(set t, other | t in l.tickets && other in all && other != me && BecomesReady(l, t, key)
             :: Packet(me, other, TicketReady(t)))
  }

  predicate BecomesReady(l: Leader, t: TicketKey, key: EnteringKey)
    requires t.entering in l.copies
  {
    !l.copies[t.entering].ready && RemoveEntering(l.copies[t.entering], key, {}).ready
  }

  // ---------- handlers ----------

  /** msg_lock, on a leader that is ready, for a request that is not refused. */
  function OnLock(all: set<ServerName>, me: ServerName, l: Leader, key: EnteringKey): Effect {
    Effect(l.(entering := l.entering + {key}, copies := l.copies[key := NewTicket(me, key)]),
           Broadcast(all, me, LockEntering(key)), {}, {})
  }

  function OnLockEntering(me: ServerName, source: ServerName, l: Leader, key: EnteringKey): Effect {
    var reply := Reply(me, source, LockEntered(key));
    if key in l.entering then Nothing(l).(out := reply)
    else Effect(l.(entering := l.entering + {key}, copies := l.copies[key := NewTicket(source, key)]), reply, {}, {})
  }

  /** True when msg_lock_entered makes the ticket go on to ask for the largest number. */
  predicate StartsNumbering(l: Leader, key: EnteringKey)
    requires Tabled(l)
  {
    key in l.entering && !l.copies[key].getMax
  }

  ghost function OnLockEntered(all: set<ServerName>, me: ServerName, l: Leader, key: EnteringKey): Effect
    requires Tabled(l)
  {
    if StartsNumbering(l, key) then
      Effect(l.(copies := l.copies[key := Entered(l.copies[key], GetLast(l.tickets))]),
             Broadcast(all, me, GetMaxTicket(key)), {}, {})
    else Nothing(l)
  }

  ghost function OnGetMaxTicket(me: ServerName, source: ServerName, l: Leader, key: EnteringKey): Effect {
    Nothing(l).(out := Reply(me, source, MaxTicketIs(key, GetLast(l.tickets))))
  }

  function OnMaxTicket(all: set<ServerName>, me: ServerName, l: Leader, key: EnteringKey, number: nat): Effect
    requires Tabled(l)
  {
    if key in l.entering && !l.copies[key].added then
      var t := Numbered(l.copies[key], number);
      Effect(l.(tickets := l.tickets + {TicketKey(t.number, key)}, copies := l.copies[key := t]),
             Broadcast(all, me, AddTicket(TicketKey(t.number, key))), {}, {})
    else Nothing(l)
  }

  function OnAddTicket(me: ServerName, source: ServerName, l: Leader, k: TicketKey): Effect
    requires Tabled(l)
  {
    if k in l.tickets || k.entering !in l.entering then
      Nothing(l).(out := Reply(me, source, LockFailed(k)))
    else
      Effect(l.(tickets := l.tickets + {k},
                copies := l.copies[k.entering := SetTicketNumber(l.copies[k.entering], k.number)]),
             Reply(me, source, TicketAdded(k)), {}, {})
  }

  ghost function OnLockExiting(all: set<ServerName>, me: ServerName, l: Leader, key: EnteringKey): Effect
    requires Tabled(l)
  {
    if key !in l.entering then Nothing(l)
    else
      var l' := l.(entering := l.entering - {key}, copies := ExitAll(l, key));
      Effect(l', Readied(all, me, l, key) + ActivateFirst(all, me, l'), {}, {})
  }

  /** msg_ticket_added; the owner exits its own entering table at once. */
  ghost function OnTicketAdded(all: set<ServerName>, me: ServerName, l: Leader, k: TicketKey): Effect
    requires Tabled(l)
  {
    if k in l.tickets && l.entering != {} && !l.copies[k.entering].quorum then
      var l' := l.(copies := l.copies[k.entering := Acknowledged(l.copies[k.entering], l.entering)]);
      var e := OnLockExiting(all, me, l', k.entering);
      e.(out := Broadcast(all, me, LockExiting(k.entering)) + e.out)
    else Nothing(l)
  }

  function OnTicketReady(l: Leader, k: TicketKey): Effect
    requires Tabled(l)
  {
    if k in l.tickets then Nothing(l.(copies := l.copies[k.entering := SetReady(l.copies[k.entering])])) else Nothing(l)
  }

  ghost function OnActivateLock(me: ServerName, source: ServerName, l: Leader, k: TicketKey): Effect
    requires Tabled(l)
  {
    var first := FindFirst(l.tickets);
    var reply := Reply(me, source, LockActivated(k, first));
    if first == FirstKey(k) then Lock(me, l, k, reply) else Nothing(l).(out := reply)
  }

  function OnLockActivated(me: ServerName, l: Leader, k: TicketKey, other: First): Effect
    requires Tabled(l)
  {
    if other == FirstKey(k) && k in l.tickets then Lock(me, l, k, multiset{}) else Nothing(l)
  }

  /** Removal of a ticket from the table by UNLOCK or LOCK_FAILED, then the next activation. */
  ghost function Remove(all: set<ServerName>, me: ServerName, l: Leader, k: TicketKey): Effect
    requires Tabled(l)
  {
    var l' := l.(tickets := l.tickets - {k});
    Effect(l', ActivateFirst(all, me, l'), {}, {})
  }

  /** msg_unlock; drop_ticket marks the ticket and tells the other leaders. */
  ghost function OnUnlock(all: set<ServerName>, me: ServerName, l: Leader, k: TicketKey): Effect
    requires Tabled(l) && k in l.tickets
  {
    var l' := l.(copies := l.copies[k.entering := Failed(l.copies[k.entering])]);
    var e := Remove(all, me, l', k);
    e.(out := Broadcast(all, me, DropTicket(k)) + e.out, released := {k.entering})
  }

  ghost function OnDropTicket(all: set<ServerName>, me: ServerName, l: Leader, k: TicketKey): Effect
    requires Tabled(l)
  {
    var e := Remove(all, me, l, k);
    e.(leader := e.leader.(entering := l.entering - {k.entering}))
  }

  /** msg_lock_failed, for the ticket key that a refused ADD_TICKET carries. */
  ghost function OnLockFailed(all: set<ServerName>, me: ServerName, l: Leader, k: TicketKey): Effect
    requires Tabled(l)
  {
    if k in l.tickets then Remove(all, me, l, k).(released := {k.entering}) else Nothing(l)
  }

  /** The dispatcher. */
  ghost function Handle(all: set<ServerName>, l: Leader, p: Packet): Effect
    requires Tabled(l)
  {
    match p.message
    case LockEntering(k) => OnLockEntering(p.target, p.source, l, k)
    case LockEntered(k) => OnLockEntered(all, p.target, l, k)
    case GetMaxTicket(k) => OnGetMaxTicket(p.target, p.source, l, k)
    case MaxTicketIs(k, n) => OnMaxTicket(all, p.target, l, k, n)
    case AddTicket(t) => OnAddTicket(p.target, p.source, l, t)
    case TicketAdded(t) => OnTicketAdded(all, p.target, l, t)
    case LockExiting(k) => OnLockExiting(all, p.target, l, k)
    case TicketReady(t) => OnTicketReady(l, t)
    case ActivateLock(t) => OnActivateLock(p.target, p.source, l, t)
    case LockActivated(t, o) => OnLockActivated(p.target, l, t, o)
    case DropTicket(t) => OnDropTicket(all, p.target, l, t)
    case LockFailed(t) => OnLockFailed(all, p.target, l, t)
  }
}
