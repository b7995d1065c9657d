/** What leader 0 does with the tickets of a leader that disappeared (synchronize_leaders).

    The tables are the lists of their tickets, in the order in which the source visits them. */
module LostOwner {
  import opened KeyOrder
  import opened Text
  import opened Requests
  import opened Basics

  /** The fields of a ticket that the sweep looks at or copies. */
  datatype Held = Held(
    objectName: string, tag: int, server: string, service: string, entering: EnteringKey, owner: string, locked: bool,
    obtention: int, lockDuration: int, unlockDuration: int)

  /** ticket::get_client_pid: the second of exactly two segments. */
  function ClientPid(key: EnteringKey): Option<nat> {
    var segments := Split(key, '/');
    if |segments| != 2 then None
    else match FromDecimal(segments[1])
      case Number(pid) => Some(pid)
      case NotANumber => None
  }

  /** The LOCK message that starts a ticket again. */
  function LockAgain(t: Held, pid: nat): Requests.Request {
    Requests.Request(t.objectName, t.tag, t.server, t.service, pid, Some(t.obtention), t.lockDuration,
        Some(t.unlockDuration))
  }

  /** The entering key names the server and the process of the client. */
  predicate Keyed(t: Held) {
    var pid := ClientPid(t.entering);
    pid.Some? && pid.value >= 1 && ClientKey(t.server, pid.value) == t.entering
  }

  /** Every key that msg_lock makes does, so the recomputed entering key is the original one. */
  lemma LockKeysAreKeyed(t: Held, pid: nat)
    requires '/' !in t.server && pid >= 1 && t.entering == ClientKey(t.server, pid)
    ensures Keyed(t) && ClientPid(t.entering) == Some(pid)
  {
    SplitAt(t.server, '/', Decimal(pid));
    DigitsAreNoDelimiter(Decimal(pid), '/');
    SplitWhole(Decimal(pid), '/');
    DecimalRoundTrip(pid);
  }

  predicate Orphan(t: Held, leaders: seq<string>) { t.owner !in leaders }

  /** The new table and the LOCK messages to process. */
  datatype Swept = Swept(kept: seq<Held>, locks: seq<Requests.Request>)

  /** One entering ticket: an orphan starts again from the beginning. */
  function SweepEntering(s: Swept, t: Held, leaders: seq<string>): Swept
    requires ClientPid(t.entering).Some?
  {
    if Orphan(t, leaders) then s.(locks := s.locks + [LockAgain(t, ClientPid(t.entering).value)])
        else s.(kept := s.kept + [t])
  }

  /** One ticket with a number: a locked orphan gets leader 0 as its owner. */
  function SweepTicket(s: Swept, t: Held, leaders: seq<string>): Swept
    requires leaders != [] && ClientPid(t.entering).Some?
  {
    if t.locked then s.(kept := s.kept + [if Orphan(t, leaders) then t.(owner := leaders[0]) else t])
    else SweepEntering(s, t, leaders)
  }

  predicate AllKeyed(table: seq<Held>) { forall i :: 0 <= i < |table| ==> Keyed(table[i]) }

  function SweptEntering(table: seq<Held>, n: nat, leaders: seq<string>): Swept
    requires n <= |table| && AllKeyed(table)
  {
    if n == 0 then Swept([], [])
    else SweepEntering(SweptEntering(table, n - 1, leaders), table[n - 1], leaders)
  }

  function SweptTickets(table: seq<Held>, n: nat, leaders: seq<string>): Swept
    requires n <= |table| && AllKeyed(table) && leaders != []
  {
    if n == 0 then Swept([], [])
    else SweepTicket(SweptTickets(table, n - 1, leaders), table[n - 1], leaders)
  }

  /** The loop of synchronize_leaders over f_entering_tickets, on leader 0. */
  method SynchronizeEntering(table: seq<Held>, leaders: seq<string>)
      returns (kept: seq<Held>, locks: seq<Requests.Request>)
    requires AllKeyed(table)
    ensures Swept(kept, locks) == SweptEntering(table, |table|, leaders)
  {
    kept, locks := [], [];
    var i := 0;
    while i < |table|
      invariant 0 <= i <= |table| && Swept(kept, locks) == SweptEntering(table, i, leaders)
    {
      var t := table[i];
      if t.owner !in leaders {
        locks := locks + [LockAgain(t, ClientPid(t.entering).value)];
      } else {
        kept := kept + [t];
      }
      i := i + 1;
    }
  }

  /** The loop over f_tickets. */
  method SynchronizeTickets(table: seq<Held>, leaders: seq<string>)
      returns (kept: seq<Held>, locks: seq<Requests.Request>)
    requires AllKeyed(table) && leaders != []
    ensures Swept(kept, locks) == SweptTickets(table, |table|, leaders)
  {
    kept, locks := [], [];
    var i := 0;
    while i < |table|
      invariant 0 <= i <= |table| && Swept(kept, locks) == SweptTickets(table, i, leaders)
    {
      var t := table[i];
      if t.locked {
        kept := kept + [if t.owner !in leaders then t.(owner := leaders[0]) else t];
      } else if t.owner !in leaders {
        locks := locks + [LockAgain(t, ClientPid(t.entering).value)];
      } else {
        kept := kept + [t];
      }
      i := i + 1;
    }
  }

  // ---------- what the sweep does to each ticket ----------

  /** The entering key and the object of a LOCK message and of a ticket. */
  predicate Restarts(lock: Requests.Request, t: Held) {
    && lock.pid >= 1 && ClientKey(lock.server, lock.pid) == t.entering
    && lock.objectName == t.objectName && lock.tag == t.tag && lock.server == t.server && lock.service == t.service
    && lock.timeout == Some(t.obtention) && lock.duration == t.lockDuration
        && lock.unlockDuration == Some(t.unlockDuration)
  }

  /** The tickets of the first `n` that the sweep takes out. */
  function Removed(table: seq<Held>, n: nat, leaders: seq<string>, sparesLocked: bool): seq<Held>
    requires n <= |table|
  {
    if n == 0 then []
    else
      var so, t := Removed(table, n - 1, leaders, sparesLocked), table[n - 1];
      if Orphan(t, leaders) && !(sparesLocked && t.locked) then so + [t] else so
  }

  /** The tickets of the first `n` that stay, with their owners. */
  function Remaining(table: seq<Held>, n: nat, leaders: seq<string>, sparesLocked: bool): seq<Held>
    requires n <= |table| && leaders != []
  {
    if n == 0 then []
    else
      var so, t := Remaining(table, n - 1, leaders, sparesLocked), table[n - 1];
      if !Orphan(t, leaders) then so + [t]
      else if sparesLocked && t.locked then so + [t.(owner := leaders[0])]
      else so
  }

  /** Each table is split: the tickets of a leader stay as they are, a locked orphan stays with
      leader 0 as its owner, and every other orphan leaves and yields exactly one LOCK, in order,
      that restarts it under the same entering key. */
  lemma {:induction false} TicketsAreSplit(table: seq<Held>, n: nat, leaders: seq<string>)
    requires n <= |table| && AllKeyed(table) && leaders != []
    ensures var s, out := SweptTickets(table, n, leaders), Removed(table, n, leaders, true);
            && s.kept == Remaining(table, n, leaders, true) && |s.locks| == |out| && |s.kept| + |out| == n
            && forall i :: 0 <= i < |out| ==> Restarts(s.locks[i], out[i])
  {
    if n > 0 {
      TicketsAreSplit(table, n - 1, leaders);
    }
  }

  lemma {:induction false} EnteringIsSplit(table: seq<Held>, n: nat, leaders: seq<string>)
    requires n <= |table| && AllKeyed(table) && leaders != []
    ensures var s, out := SweptEntering(table, n, leaders), Removed(table, n, leaders, false);
            && s.kept == Remaining(table, n, leaders, false) && |s.locks| == |out| && |s.kept| + |out| == n
            && forall i :: 0 <= i < |out| ==> Restarts(s.locks[i], out[i])
  {
    if n > 0 {
      EnteringIsSplit(table, n - 1, leaders);
    }
  }

  /** After the sweep every ticket belongs to a leader, and nothing changed but the owners of locked orphans. */
  lemma {:induction false} EveryOwnerLeads(table: seq<Held>, n: nat, leaders: seq<string>, sparesLocked: bool)
    requires n <= |table| && leaders != []
    ensures forall t :: t in Remaining(table, n, leaders, sparesLocked) ==> t.owner in leaders
    ensures forall t :: t in Removed(table, n, leaders, sparesLocked) ==> t in table[..n] && Orphan(t, leaders)
    ensures forall t :: t in table[..n] && !Orphan(t, leaders) ==> t in Remaining(table, n, leaders, sparesLocked)
    ensures forall t :: t in table[..n] && Orphan(t, leaders) && sparesLocked && t.locked ==>
              t.(owner := leaders[0]) in Remaining(table, n, leaders, sparesLocked)
  {
    if n > 0 {
      EveryOwnerLeads(table, n - 1, leaders, sparesLocked);
      assert table[..n] == table[..n - 1] + [table[n - 1]];
    }
  }

  // ---------- how often a ticket is restarted ----------

  predicate SameTicket(t: Held, u: Held) { t.objectName == u.objectName && t.entering == u.entering }

  /** A table is a map: it has one ticket for each object name and entering key. */
  predicate Distinct(table: seq<Held>) { forall i, j :: 0 <= i < j < |table| ==> !SameTicket(table[i], table[j]) }

  predicate IsFor(lock: Requests.Request, t: Held) {
    lock.objectName == t.objectName && lock.pid >= 0 && ClientKey(lock.server, lock.pid) == t.entering
  }

  /** The number of LOCKs that are for the ticket `t`. */
  function LocksFor(locks: seq<Requests.Request>, t: Held): nat {
    if locks == [] then 0 else LocksFor(locks[..|locks| - 1], t) + if IsFor(locks[|locks| - 1], t) then 1 else 0
  }

  lemma OneMoreLock(locks: seq<Requests.Request>, lock: Requests.Request, t: Held)
    ensures LocksFor(locks + [lock], t) == LocksFor(locks, t) + if IsFor(lock, t) then 1 else 0
  {
    assert (locks + [lock])[..|locks|] == locks;
  }

  lemma NoLocks(t: Held)
    ensures LocksFor([], t) == 0
  {
  }

  lemma SameItself(t: Held)
    ensures SameTicket(t, t)
  {
  }

  lemma AgainIsFor(u: Held, t: Held)
    requires Keyed(u)
    ensures IsFor(LockAgain(u, ClientPid(u.entering).value), t) <==> SameTicket(u, t)
  {
  }

  lemma LastOne(table: seq<Held>, n: nat, t: Held)
    requires 0 < n <= |table| && Distinct(table)
    ensures t in table[..n] <==> t in table[..n - 1] || t == table[n - 1]
    ensures t == table[n - 1] ==> t !in table[..n - 1]
  {
    assert table[..n] == table[..n - 1] + [table[n - 1]];
    assert forall i :: 0 <= i < n - 1 ==> !SameTicket(table[i], table[n - 1]);
  }

  lemma {:induction false} EnteringLocks(table: seq<Held>, n: nat, leaders: seq<string>, t: Held)
    requires n <= |table| && AllKeyed(table) && Distinct(table) && Orphan(t, leaders)
    requires forall i :: 0 <= i < |table| && SameTicket(table[i], t) ==> table[i] == t
    ensures LocksFor(SweptEntering(table, n, leaders).locks, t) == if t in table[..n] then 1 else 0
  {
    hide ClientPid, IsFor, LockAgain, LocksFor, SameTicket, Distinct;
    if n == 0 {
      NoLocks(t);
    } else {
      var u, so := table[n - 1], SweptEntering(table, n - 1, leaders);
      EnteringLocks(table, n - 1, leaders, t);
      LastOne(table, n, t);
      AgainIsFor(u, t);
      SameItself(t);
      OneMoreLock(so.locks, LockAgain(u, ClientPid(u.entering).value), t);
    }
  }

  lemma {:induction false} TicketLocks(table: seq<Held>, n: nat, leaders: seq<string>, t: Held)
    requires n <= |table| && AllKeyed(table) && Distinct(table) && Orphan(t, leaders) && leaders != []
    requires forall i :: 0 <= i < |table| && SameTicket(table[i], t) ==> table[i] == t
    ensures LocksFor(SweptTickets(table, n, leaders).locks, t) == if t in table[..n] && !t.locked then 1 else 0
  {
    hide ClientPid, IsFor, LockAgain, LocksFor, SameTicket, Distinct;
    if n == 0 {
      NoLocks(t);
    } else {
      var u, so := table[n - 1], SweptTickets(table, n - 1, leaders);
      TicketLocks(table, n - 1, leaders, t);
      LastOne(table, n, t);
      AgainIsFor(u, t);
      SameItself(t);
      OneMoreLock(so.locks, LockAgain(u, ClientPid(u.entering).value), t);
    }
  }

  /** A ticket is one object in both tables: between ADD_TICKET and LOCK_EXITING it is in both of
      them.  An orphan in both tables is restarted twice, and the second LOCK finds the first one's
      ticket and is refused as a duplicate.  It is restarted exactly once if and only if it is not
      locked and in one table only, since locked tickets have left the entering table. */
  lemma RestartedTwice(entering: seq<Held>, tickets: seq<Held>, leaders: seq<string>, t: Held)
    requires AllKeyed(entering) && AllKeyed(tickets) && Distinct(entering) && Distinct(tickets) && leaders != []
    requires forall u :: (u in entering || u in tickets) && SameTicket(u, t) ==> u == t
    requires (t in entering || t in tickets) && Orphan(t, leaders)
    ensures var e, k := SweptEntering(entering, |entering|, leaders), SweptTickets(tickets, |tickets|, leaders);
            var again := LocksFor(e.locks, t) + LocksFor(k.locks, t);
            && again == (if t in entering then 1 else 0) + (if t in tickets && !t.locked then 1 else 0)
            && ((t.locked ==> t !in entering) ==> (again == 1 <==> !t.locked && !(t in entering && t in tickets)))
  {
    EnteringLocks(entering, |entering|, leaders, t);
    TicketLocks(tickets, |tickets|, leaders, t);
    assert entering[..|entering|] == entering && tickets[..|tickets|] == tickets;
  }
}
