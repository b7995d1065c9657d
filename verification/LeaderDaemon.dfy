/** The handlers of the protocol between leaders, as methods that update the tables of one leader.

    Every method is proved to do what the function of the same name in Leader.dfy says, so the
    theorems about runs of several leaders are about this code.  The tables hold the tickets of
    one object name; the ticket objects are values (see Ticket.dfy for the object itself). */
module LeaderDaemon {
  import opened KeyOrder
  import opened TicketProgress
  import opened Leader
  import opened Bakery
  import opened BakeryTables

  lemma FirstIsUnique(tickets: set<TicketKey>, a: TicketKey, b: TicketKey)
    requires IsFirst(tickets, a) && IsFirst(tickets, b)
    ensures a == b
  {
    KeyBeforeStrictTotal(a, b, a);
  }

  /** Each ticket is stored under its own keys. */
  ghost predicate Keyed(l: Leader) {
    && Tabled(l)
    && (forall k :: k in l.copies ==> l.copies[k].entering == k)
    && (forall t :: t in l.tickets ==> l.copies[t.entering].number == t.number)
  }

  /** In every state that a run reaches the tables are keyed (BakeryInvariant.StepKeepsBase). */
  lemma {:induction false} TablesAreKeyed(all: set<ServerName>, s: System, m: ServerName)
    requires Tables(all, s) && m in all
    ensures Keyed(s.leaders[m])
  {
    var l := s.leaders[m];
    assert TablesOk(s, m, l);
    forall k | k in l.copies ensures l.copies[k].entering == k {
      assert CopyOk(s, m, l, k);
    }
    forall t | t in l.tickets ensures t.entering in l.copies && l.copies[t.entering].number == t.number {
      assert TicketListed(l, t);
    }
  }

  /** The packets with a message for some other leaders. */
  function CopiesTo(me: ServerName, others: set<ServerName>, m: Message): multiset<Packet> {
    multiset(set other | other in others :: Packet(me, other, m))
  }

  lemma {:induction false} OneMoreCopy(me: ServerName, others: set<ServerName>, other: ServerName, m: Message)
    requires other !in others
    ensures CopiesTo(me, others + {other}, m) == CopiesTo(me, others, m) + multiset{Packet(me, other, m)}
  {
    var before := set o | o in others :: Packet(me, o, m);
    assert (set o | o in others + {other} :: Packet(me, o, m)) == before + {Packet(me, other, m)};
    assert Packet(me, other, m) !in before;
  }

  lemma {:induction false} AllCopies(all: set<ServerName>, me: ServerName, m: Message)
    ensures CopiesTo(me, all - {me}, m) == Broadcast(all, me, m)
  {
    assert (set other | other in all - {me} :: Packet(me, other, m)) == (set other | other in all
        && other != me :: Packet(me, other, m));
  }

  // ---------- the loop of msg_lock_exiting ----------

  /** The copies after the loop visited the tickets `done`. */
  function ExitSome(l: Leader, key: EnteringKey, done: set<TicketKey>): map<EnteringKey, Progress> {
    map k | k in l.copies :: if l.copies[k].Key() in done then RemoveEntering(l.copies[k], key, {}) else l.copies[k]
  }

  /** The TICKET_READY packets sent so far. */
  function ReadySome(all: set<ServerName>, me: ServerName, l: Leader, key: EnteringKey,
      done: set<TicketKey>): multiset<Packet>
    requires Tabled(l) && done <= l.tickets
  {
    multiset(set t, other | t in done && other in all && other != me
        && BecomesReady(l, t, key) :: Packet(me, other, TicketReady(t)))
  }

  lemma {:induction false} ExitOneMore(l: Leader, key: EnteringKey, done: set<TicketKey>, t: TicketKey)
    requires Keyed(l) && done <= l.tickets && t in l.tickets - done
    ensures t.entering in l.copies && ExitSome(l, key, done)[t.entering] == l.copies[t.entering]
    ensures ExitSome(l, key, done + {t}) == ExitSome(l, key,
        done)[t.entering := RemoveEntering(l.copies[t.entering], key, {})]
  {
    forall k | k in l.copies ensures (l.copies[k].Key() in done + {t}) == (k == t.entering
        || l.copies[k].Key() in done) {
      assert l.copies[k].entering == k;
    }
    assert l.copies[t.entering].Key() == t;
  }

  lemma {:induction false} ReadyOneMore(all: set<ServerName>, me: ServerName, l: Leader, key: EnteringKey,
      done: set<TicketKey>, t: TicketKey)
    requires Tabled(l) && done <= l.tickets && t in l.tickets - done
    ensures ReadySome(all, me, l, key, done + {t})
         == ReadySome(all, me, l, key, done) + if BecomesReady(l, t, key) then Broadcast(all, me, TicketReady(t))
             else multiset{}
  {
    var before := set u, other | u in done && other in all && other != me
        && BecomesReady(l, u, key) :: Packet(me, other, TicketReady(u));
    var after := set u, other | u in done + {t} && other in all && other != me
        && BecomesReady(l, u, key) :: Packet(me, other, TicketReady(u));
    var more := set other | other in all && other != me && BecomesReady(l, t, key) :: Packet(me, other, TicketReady(t));
    assert after == before + more && before !! more;
    assert multiset(before + more) == multiset(before) + multiset(more);
    if BecomesReady(l, t, key) {
      assert more == (set other | other in all && other != me :: Packet(me, other, TicketReady(t)));
    } else {
      assert more == {};
    }
  }

  /** The ticket objects and the packets sent when the loop visited the tickets `done`. */
  datatype Exit = Exit(copies: map<EnteringKey, Progress>, out: multiset<Packet>)

  function ExitState(all: set<ServerName>, me: ServerName, l: Leader, key: EnteringKey, sent: multiset<Packet>,
      done: set<TicketKey>): Exit
    requires Tabled(l) && done <= l.tickets
  {
    Exit(ExitSome(l, key, done), sent + ReadySome(all, me, l, key, done))
  }

  lemma {:induction false} ExitStart(all: set<ServerName>, me: ServerName, l: Leader, key: EnteringKey,
      sent: multiset<Packet>)
    requires Tabled(l)
    ensures ExitState(all, me, l, key, sent, {}) == Exit(l.copies, sent)
  {
    assert ExitSome(l, key, {}) == l.copies;
  }

  lemma {:induction false} ExitEnd(all: set<ServerName>, me: ServerName, l: Leader, key: EnteringKey,
      sent: multiset<Packet>)
    requires Tabled(l)
    ensures ExitState(all, me, l, key, sent, l.tickets) == Exit(ExitAll(l, key), sent + Readied(all, me, l, key))
  {
    assert ExitSome(l, key, l.tickets) == ExitAll(l, key);
  }

  /** What one visit does. */
  lemma {:induction false} ExitStep(all: set<ServerName>, me: ServerName, l: Leader, key: EnteringKey,
      sent: multiset<Packet>, done: set<TicketKey>, t: TicketKey)
    requires Keyed(l) && done <= l.tickets && t in l.tickets - done
    ensures var e := ExitState(all, me, l, key, sent, done);
            var copy := l.copies[t.entering];
            && t.entering in e.copies && e.copies[t.entering] == copy
            && ExitState(all, me, l, key, sent, done + {t})
            == Exit(e.copies[t.entering := RemoveEntering(copy, key, {})],
                    e.out + if BecomesReady(l, t, key) then Broadcast(all, me, TicketReady(t)) else multiset{})
  {
    ExitOneMore(l, key, done, t);
    ReadyOneMore(all, me, l, key, done, t);
  }

  datatype Store = Store(leader: Leader, out: multiset<Packet>, locked: set<EnteringKey>, released: set<EnteringKey>)

  /** The state after a handler with the effect `e`. */
  function Performed(s: Store, e: Effect): Store {
    Store(e.leader, s.out + e.out, s.locked + e.locked, s.released + e.released)
  }

  class Daemon {
    const all: set<ServerName>
    const me: ServerName
    var entering: set<EnteringKey>
    var tickets: set<TicketKey>
    var copies: map<EnteringKey, Progress>
    // What was sent to other leaders; the tickets for which LOCKED or UNLOCKED was sent.
    var out: multiset<Packet>
    var locked: set<EnteringKey>
    var released: set<EnteringKey>

    constructor (all: set<ServerName>, me: ServerName)
      ensures this.all == all && this.me == me && View() == Leader({}, {}, map[]) && out == multiset{}
          && locked == released == {}
    {
      this.all, this.me := all, me;
      entering, tickets, copies, out, locked, released := {}, {}, map[], multiset{}, {}, {};
    }

    function View(): Leader
      reads this`entering, this`tickets, this`copies
    {
      Leader(entering, tickets, copies)
    }

    /** The tables together with what was sent. */
    function Now(): Store
      reads this`entering, this`tickets, this`copies, this`out, this`locked, this`released
    {
      Store(View(), out, locked, released)
    }

    // ---------- shared pieces ----------

    /** send_message_to_leaders. */
    method SendToLeaders(m: Message)
      modifies this`out
      ensures out == old(out) + Broadcast(all, me, m)
    {
      var todo := all - {me};
      ghost var done: set<ServerName> := {};
      while todo != {}
        invariant done == all - {me} - todo && todo <= all - {me}
        invariant out == old(out) + CopiesTo(me, done, m)
        decreases todo
      {
        var other :| other in todo;
        OneMoreCopy(me, done, other, m);
        out := out + multiset{Packet(me, other, m)};
        todo, done := todo - {other}, done + {other};
      }
      AllCopies(all, me, m);
    }

    method SendBack(source: ServerName, m: Message)
      modifies this`out
      ensures out == old(out) + Reply(me, source, m)
    {
      out := out + multiset{Packet(me, source, m)};
    }

    /** find_first_lock. */
    method FindFirstLock() returns (first: First)
      ensures first == FindFirst(tickets)
    {
      first := NoKey;
      var todo := tickets;
      while todo != {}
        invariant todo <= tickets && (first == NoKey <==> todo == tickets)
        invariant first.FirstKey? ==> first.key in tickets - todo && forall j :: j in tickets - todo ==>
            j == first.key || KeyBefore(first.key, j)
        decreases todo
      {
        var t :| t in todo;
        if first == NoKey || KeyBefore(t, first.key) {
          ghost var was := first;
          first := FirstKey(t);
          forall j | j in tickets - (todo - {t}) ensures j == t || KeyBefore(t, j) {
            if was.FirstKey? {
              KeyBeforeStrictTotal(t, was.key, j);
            }
          }
        } else {
          KeyBeforeStrictTotal(first.key, t, t);
        }
        todo := todo - {t};
      }
      if first.FirstKey? {
        assert IsFirst(tickets, first.key);
        FirstIsUnique(tickets, first.key, FindFirst(tickets).key);
      }
    }

    /** get_last_ticket. */
    method GetLastTicket() returns (last: nat)
      ensures last == GetLast(tickets)
    {
      last := 0;
      var todo := tickets;
      while todo != {}
        invariant todo <= tickets && (forall t :: t in tickets - todo ==> t.number <= last)
        invariant last == 0 || exists t :: t in tickets - todo && t.number == last
        decreases todo
      {
        var t :| t in todo;
        if t.number > last {
          last := t.number;
        }
        todo := todo - {t};
      }
      assert IsLast(tickets, last);
    }

    method ActivateFirstLock()
      requires Tabled(View())
      modifies this`out
      ensures out == old(out) + ActivateFirst(all, me, View())
    {
      var first := FindFirstLock();
      if first.FirstKey? && CanLock(copies[first.key.entering]) {
        SendToLeaders(ActivateLock(first.key));
      }
    }

    /** lock_activated on a ticket. */
    method LockActivated(k: TicketKey)
      requires k.entering in copies
      modifies this`copies, this`locked
      ensures var e := Lock(me, old(View()), k, multiset{}); View() == e.leader && locked == old(locked) + e.locked
    {
      var t := copies[k.entering];
      if CanLock(t) {
        copies := copies[k.entering := Activated(t)];
        if t.owner == me {
          locked := locked + {k.entering};
        }
      } else {
        assert copies == copies[k.entering := Activated(t)];
      }
    }

    // ---------- the handlers ----------

    /** A client that is in one of the tables already is refused as a duplicate. */
    method MsgLock(key: EnteringKey) returns (duplicate: bool)
      modifies this
      ensures duplicate <==> !Free(old(View()), key)
      ensures Now() == if duplicate then old(Now()) else Performed(old(Now()), OnLock(all, me, old(View()), key))
    {
      if key in entering {
        return true;
      }
      var found := FindTicket(key);
      if found.FirstKey? {
        return true;
      }
      copies := copies[key := NewTicket(me, key)];
      entering := entering + {key};
      SendToLeaders(LockEntering(key));
      return false;
    }

    method MsgLockEntering(source: ServerName, key: EnteringKey)
      modifies this
      ensures Now() == Performed(old(Now()), OnLockEntering(me, source, old(View()), key))
    {
      if key !in entering {
        copies := copies[key := NewTicket(source, key)];
        entering := entering + {key};
      }
      SendBack(source, LockEntered(key));
    }

    method MsgLockEntered(key: EnteringKey)
      requires Tabled(View())
      modifies this
      ensures Now() == Performed(old(Now()), OnLockEntered(all, me, old(View()), key))
    {
      if key in entering && !copies[key].getMax {
        var last := GetLastTicket();
        copies := copies[key := Entered(copies[key], last)];
        SendToLeaders(GetMaxTicket(key));
      }
    }

    method MsgGetMaxTicket(source: ServerName, key: EnteringKey)
      modifies this
      ensures Now() == Performed(old(Now()), OnGetMaxTicket(me, source, old(View()), key))
    {
      var last := GetLastTicket();
      SendBack(source, MaxTicketIs(key, last));
    }

    /** False where max_ticket throws: the number would wrap around. */
    method MsgMaxTicket(key: EnteringKey, number: nat) returns (ok: bool)
      requires Tabled(View())
      modifies this
      ensures ok <==> !Throws(old(View()), MaxTicketIs(key, number))
      ensures ok ==> Now() == Performed(old(Now()), OnMaxTicket(all, me, old(View()), key, number))
    {
      ok := true;
      if key in entering && !copies[key].added {
        ok := !WrapsAround(copies[key], number);
        if ok {
          var t := Numbered(copies[key], number);
          copies := copies[key := t];
          tickets := tickets + {TicketKey(t.number, key)};
          SendToLeaders(AddTicket(TicketKey(t.number, key)));
        }
      }
    }

    /** False where set_ticket_number throws, with the ticket in the table already. */
    method MsgAddTicket(source: ServerName, k: TicketKey) returns (ok: bool)
      requires Tabled(View())
      modifies this
      ensures ok <==> !Throws(old(View()), AddTicket(k))
      ensures ok ==> Now() == Performed(old(Now()), OnAddTicket(me, source, old(View()), k))
    {
      ok := true;
      if k in tickets || k.entering !in entering {
        SendBack(source, LockFailed(k));
      } else {
        tickets := tickets + {k};
        ok := !HasNumber(copies[k.entering]);
        if ok {
          copies := copies[k.entering := SetTicketNumber(copies[k.entering], k.number)];
          SendBack(source, TicketAdded(k));
        }
      }
    }

    method MsgTicketReady(k: TicketKey)
      requires Tabled(View())
      modifies this
      ensures Now() == Performed(old(Now()), OnTicketReady(old(View()), k))
    {
      if k in tickets {
        copies := copies[k.entering := SetReady(copies[k.entering])];
      }
    }

    method MsgActivateLock(source: ServerName, k: TicketKey)
      requires Tabled(View())
      modifies this
      ensures Now() == Performed(old(Now()), OnActivateLock(me, source, old(View()), k))
    {
      var first := FindFirstLock();
      if first == FirstKey(k) {
        LockActivated(k);
      }
      SendBack(source, Message.LockActivated(k, first));
    }

    method MsgLockActivated(k: TicketKey, other: First)
      requires Tabled(View())
      modifies this
      ensures Now() == Performed(old(Now()), OnLockActivated(me, old(View()), k, other))
    {
      if other == FirstKey(k) && k in tickets {
        LockActivated(k);
      }
    }

    /** The ticket leaves the table and the next one may lock. */
    method RemoveTicket(k: TicketKey)
      requires Tabled(View())
      modifies this`tickets, this`out
      ensures tickets == old(tickets) - {k}
      ensures out == old(out) + ActivateFirst(all, me, View())
    {
      tickets := tickets - {k};
      ActivateFirstLock();
    }

    /** drop_ticket. */
    method Drop(k: TicketKey)
      requires k.entering in copies
      modifies this`copies, this`out, this`released
      ensures copies == old(copies)[k.entering := Failed(old(copies)[k.entering])]
      ensures out == old(out) + Broadcast(all, me, DropTicket(k)) && released == old(released) + {k.entering}
    {
      SendToLeaders(DropTicket(k));
      copies := copies[k.entering := Failed(copies[k.entering])];
      released := released + {k.entering};
    }

    /** The find_if loop: the ticket of the table with an entering key. */
    method FindTicket(key: EnteringKey) returns (found: First)
      ensures found == NoKey ==> forall t :: t in tickets ==> t.entering != key
      ensures found.FirstKey? ==> found.key in tickets && found.key.entering == key
    {
      var todo := tickets;
      while todo != {}
        invariant todo <= tickets && forall t :: t in tickets - todo ==> t.entering != key
        decreases todo
      {
        var t :| t in todo;
        if t.entering == key {
          return FirstKey(t);
        }
        todo := todo - {t};
      }
      return NoKey;
    }

    method UnlockTicket(k: TicketKey)
      requires Tabled(View()) && k in tickets
      modifies this
      ensures Now() == Performed(old(Now()), OnUnlock(all, me, old(View()), k))
    {
      Drop(k);
      RemoveTicket(k);
    }

    /** An UNLOCK without a ticket changes nothing. */
    method MsgUnlock(key: EnteringKey)
      requires Keyed(View())
      modifies this
      ensures (forall t :: t in old(tickets) ==> t.entering != key) ==> Now() == old(Now())
      ensures forall t :: t in old(tickets) && t.entering == key ==>
          Now() == Performed(old(Now()), OnUnlock(all, me, old(View()), t))
    {
      var found := FindTicket(key);
      if found.FirstKey? {
        ghost var l := View();
        forall t | t in tickets && t.entering == key ensures t == found.key {
          assert l.copies[key].number == t.number == found.key.number;
        }
        UnlockTicket(found.key);
      }
    }

    method MsgDropTicket(k: TicketKey)
      requires Tabled(View())
      modifies this
      ensures Now() == Performed(old(Now()), OnDropTicket(all, me, old(View()), k))
    {
      RemoveTicket(k);
      entering := entering - {k.entering};
    }

    method MsgLockFailed(k: TicketKey)
      requires Tabled(View())
      modifies this
      ensures Now() == Performed(old(Now()), OnLockFailed(all, me, old(View()), k))
    {
      if k in tickets {
        RemoveTicket(k);
        released := released + {k.entering};
      }
    }

    /** remove_entering. */
    method RemoveEnteringOne(t: TicketKey, key: EnteringKey)
      requires t.entering in copies
      modifies this`copies, this`out
      ensures copies == old(copies)[t.entering := RemoveEntering(old(copies)[t.entering], key, {})]
      ensures out == old(out) + if !old(copies)[t.entering].ready
          && RemoveEntering(old(copies)[t.entering], key, {}).ready
                                then Broadcast(all, me, TicketReady(t)) else multiset{}
    {
      var before := copies[t.entering];
      var after := RemoveEntering(before, key, {});
      copies := copies[t.entering := after];
      if after.ready && !before.ready {
        SendToLeaders(TicketReady(t));
      }
    }

    /** The state of the loop with the tickets `todo` left to visit. */
    ghost predicate Visiting(l: Leader, key: EnteringKey, sent: multiset<Packet>, todo: set<TicketKey>)
      reads this`tickets, this`copies, this`out
    {
      && Keyed(l) && todo <= tickets == l.tickets
      && Exit(copies, out) == ExitState(all, me, l, key, sent, l.tickets - todo)
    }

    method ExitTurn(t: TicketKey, key: EnteringKey, ghost l: Leader, ghost sent: multiset<Packet>,
        ghost todo: set<TicketKey>)
      requires Visiting(l, key, sent, todo) && t in todo
      modifies this`copies, this`out
      ensures Visiting(l, key, sent, todo - {t})
    {
      ghost var done := l.tickets - todo;
      ExitStep(all, me, l, key, sent, done, t);
      RemoveEnteringOne(t, key);
      assert l.tickets - (todo - {t}) == done + {t};
    }

    method VisitTickets(key: EnteringKey, ghost l: Leader, ghost sent: multiset<Packet>)
      requires Visiting(l, key, sent, tickets)
      modifies this`copies, this`out
      ensures Visiting(l, key, sent, {})
    {
      var todo := tickets;
      while todo != {}
        invariant Visiting(l, key, sent, todo)
        decreases todo
      {
        var t :| t in todo;
        ExitTurn(t, key, l, sent, todo);
        todo := todo - {t};
      }
    }

    /** remove_entering on every ticket of the table. */
    method RemoveEnteringAll(key: EnteringKey)
      requires Keyed(View())
      modifies this`copies, this`out
      ensures Exit(copies, out) == Exit(ExitAll(old(View()), key), old(out) + Readied(all, me, old(View()), key))
    {
      ghost var l, sent := View(), out;
      ExitStart(all, me, l, key, sent);
      assert l.tickets - tickets == {};
      VisitTickets(key, l, sent);
      ExitEnd(all, me, l, key, sent);
      assert l.tickets - {} == l.tickets;
    }

    /** The end of msg_lock_exiting: the ticket leaves the entering table, the next one may lock. */
    method LeaveEntering(key: EnteringKey)
      requires Tabled(View())
      modifies this`entering, this`out
      ensures entering == old(entering) - {key}
      ensures out == old(out) + ActivateFirst(all, me, View())
    {
      entering := entering - {key};
      ActivateFirstLock();
    }

    method MsgLockExiting(key: EnteringKey)
      requires Keyed(View())
      modifies this
      ensures Now() == Performed(old(Now()), OnLockExiting(all, me, old(View()), key))
    {
      if key in entering {
        ghost var l := View();
        ExitedIsTabled(l, key);
        RemoveEnteringAll(key);
        LeaveEntering(key);
        OneEffect(all, me, l, key, View(), old(out), out);
      }
    }

    lemma {:induction false} OneEffect(all: set<ServerName>, me: ServerName, l: Leader, key: EnteringKey, l': Leader,
        before: multiset<Packet>, after: multiset<Packet>)
      requires Tabled(l) && key in l.entering && Tabled(l')
      requires l' == l.(entering := l.entering - {key}, copies := ExitAll(l, key))
      requires after == before + Readied(all, me, l, key) + ActivateFirst(all, me, l')
      ensures var e := OnLockExiting(all, me, l, key); l' == e.leader && after == before + e.out && e.locked == {} && e.released == {}
    {
    }

    lemma {:induction false} ExitedIsTabled(l: Leader, key: EnteringKey)
      requires Tabled(l)
      ensures Tabled(l.(copies := ExitAll(l, key)))
    {
    }

    /** ticket_added. */
    method TicketIsAdded(k: TicketKey)
      requires Keyed(View()) && k in tickets
      modifies this`copies, this`out
      ensures Now() == Performed(old(Now()),
          Effect(AddedLeader(old(View()), k), Broadcast(all, me, LockExiting(k.entering)), {}, {}))
      ensures Keyed(View())
    {
      ghost var l := View();
      copies := copies[k.entering := Acknowledged(copies[k.entering], entering)];
      AddedIsKeyed(l, k);
      SendToLeaders(LockExiting(k.entering));
    }

    method MsgTicketAdded(k: TicketKey)
      requires Keyed(View())
      modifies this
      ensures Now() == Performed(old(Now()), OnTicketAdded(all, me, old(View()), k))
    {
      hide OnLockExiting, Broadcast;
      if k in tickets && entering != {} && !copies[k.entering].quorum {
        TicketIsAdded(k);
        MsgLockExiting(k.entering);
      }
    }
  }

  function AddedLeader(l: Leader, k: TicketKey): Leader
    requires k.entering in l.copies
  {
    l.(copies := l.copies[k.entering := Acknowledged(l.copies[k.entering], l.entering)])
  }

  lemma {:induction false} AddedIsKeyed(l: Leader, k: TicketKey)
    requires Keyed(l) && k in l.tickets
    ensures Keyed(AddedLeader(l, k))
  {
  }
}
