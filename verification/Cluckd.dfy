/** The daemon: its tables, its cache of early requests and its timer.

    `now` is fixed during a handler. */
module Cluckd {
  import opened KeyOrder
  import opened TicketProgress
  import opened TicketRecord
  import opened TicketRow
  import opened NextTimeout
  import opened Ticket
  import opened Requests
  import opened Basics
  import opened Tables
  import opened OneLeader
  import opened Verdicts
  import opened Replays

  /** The message of check_lock_status. */
  datatype StatusMessage = NoMessage | LockReady | NoLock

  datatype Books = Books(table: Option<TableValues>, cache: seq<Cached>, replies: seq<Reply>)

  class Cluckd {
    const serverName: ServerName
    // get_lock_obtention_timeout()
    const obtention: int
    var computers: nat
    // is_daemon_ready() and is_leader() != nullptr
    var ready: bool
    var lockStatus: bool
    var leader: bool
    var cache: seq<Cached>
    var entering: EnteringTable
    var tickets: Table
    var timer: int
    var replies: seq<Reply>

    constructor (serverName: ServerName, obtention: int) {
      this.serverName, this.obtention := serverName, obtention;
      computers, ready, lockStatus, leader := 0, false, false, false;
      cache, entering, tickets, timer, replies := [], map[], map[], -1, [];
    }

    /** ticket::one_leader. */
    predicate Alone()
      reads this`computers
    {
      computers == 1
    }

    // ---------- sweeps ----------

    /** What every sweep does with one ticket: lock_failed if it timed out, and erase it if
        it still is.  (A ticket that the longer date saved is met once more by the loops of
        the source; it is not timed out then.) */
    method Lapse(t: Ticket, now: int) returns (erased: bool)
      modifies t
      ensures Life(t.View(), erased) == Sweep(old(t.View()), serverName, now)
    {
      erased := t.TimedOut(now);
      if erased {
        t.LockFailed(serverName, now);
        erased := t.TimedOut(now);
      }
    }

    /** The same, with the date of a ticket that stays. */
    method LapseDated(t: Ticket, now: int, start: NextTimeout, ghost first: NextTimeout, ghost dates: set<int>)
      returns (erased: bool, next: NextTimeout, ghost d: set<int>)
      requires Earliest(start, first, dates)
      modifies t
      ensures Life(t.View(), erased) == Sweep(old(t.View()), serverName, now)
      ensures Earliest(next, first, d) && d == dates + StaysUntil(old(t.View()), serverName, now)
    {
      erased := Lapse(t, now);
      next, d := start, dates;
      if !erased {
        var date := t.GetCurrentTimeoutDate();
        EarliestMore(start, first, dates, date);
        next, d := Sooner(start, date), dates + {date};
      }
    }

    /** One turn of the loop, for the ticket `t` between the tickets kept so far and the rest. */
    method LapseNext(kept: seq<Ticket>, t: Ticket, rest: seq<Ticket>, now: int, start: NextTimeout,
                     ghost values: seq<Record>, ghost others: seq<Record>, ghost first: NextTimeout)
      returns (row: seq<Ticket>, next: NextTimeout, ghost views: seq<Record>)
      requires t !in kept && t !in rest && Shows(kept, values) && Shows(rest, others)
      requires Earliest(start, first, Dates(values))
      modifies t
      ensures Shows(rest, others) && Shows(row, views)
      ensures row == kept || row == kept + [t]
      ensures views == OneSwept(values, old(t.View()), serverName, now)
      ensures Earliest(next, first, Dates(views))
    {
      ghost var d;
      var erased;
      erased, next, d := LapseDated(t, now, start, first, Dates(values));
      assert Shows(kept, values) && Shows(rest, others);
      if erased {
        row, views := kept, values;
        assert d == Dates(values);
      } else {
        ShowsMore(kept, values, t);
        DatesMore(values, t.View());
        row, views := kept + [t], values + [t.View()];
      }
    }

    /** The same for the ticket at `i` of the row. */
    method LapseAt(o: string, before: seq<Ticket>, kept: seq<Ticket>, i: nat, now: int, start: NextTimeout,
                   ghost values: seq<Record>, ghost so: seq<Record>, ghost first: NextTimeout)
      returns (row: seq<Ticket>, next: NextTimeout, ghost views: seq<Record>)
      requires i < |before| && |values| == |before| && Picked(o, before, kept, i)
      requires Shows(before[i..], values[i..]) && Shows(kept, so) && Earliest(start, first, Dates(so))
      modifies before[i]
      ensures Picked(o, before, row, i + 1)
      ensures Shows(before[i + 1..], values[i + 1..]) && Shows(row, views) && Earliest(next, first, Dates(views))
      ensures views == OneSwept(so, values[i], serverName, now)
    {
      PickNext(o, before, kept, i);
      ShowsRest(before[i..], values[i..]);
      assert values[i..][1..] == values[i + 1..];
      row, next, views := LapseNext(kept, before[i], before[i + 1..], now, start, so, values[i + 1..], first);
    }

    /** The loop of find_first_lock and of cleanup over one row: the tickets that stay, in
        order, and the earliest of their dates. */
    method SweepRow(o: string, before: seq<Ticket>, now: int, start: NextTimeout)
        returns (row: seq<Ticket>, next: NextTimeout)
      requires RowOk(o, before)
      modifies before
      ensures RowOk(o, row) && Subset(row, before)
      ensures Shows(row, Swept(old(Views(before)), serverName, now))
      ensures Earliest(next, start, Dates(Swept(old(Views(before)), serverName, now)))
    {
      row, next := [], start;
      ghost var values, views := Views(before), [];
      var i := 0;
      while i < |before|
        invariant 0 <= i <= |before| && Picked(o, before, row, i)
        invariant Shows(before[i..], values[i..])
        invariant Shows(row, views) && views == SweptFirst(values, i, serverName, now)
        invariant Earliest(next, start, Dates(views))
      {
        row, next, views := LapseAt(o, before, row, i, now, next, values, views, start);
        i := i + 1;
      }
    }

    method FindFirstLock(o: string, now: int) returns (first: Ticket?)
      requires TableOk(tickets)
      modifies this`tickets, Row(tickets, o)
      ensures TableOk(tickets) && Subset(Row(tickets, o), old(Row(tickets, o)))
      ensures tickets == WithRow(old(tickets), o, Row(tickets, o))
      ensures Shows(Row(tickets, o), Swept(old(Views(Row(tickets, o))), serverName, now))
      ensures first == if Row(tickets, o) == [] then null else Row(tickets, o)[0]
    {
      first := null;
      if o in tickets {
        var row, _ := SweepRow(o, tickets[o], now, Never);
        tickets := WithRow(tickets, o, row);
        if row != [] {
          first := row[0];
        }
      }
    }

    /** ticket::activate_lock, with what it calls when there is one leader. */
    method Activate(t: Ticket, now: int)
      modifies t
      ensures t.View() == Activation(old(t.View()), serverName, now, Alone())
    {
      var goOn := t.ActivateLock(Alone());
      if goOn {
        t.LockActivated(serverName, now);
      }
    }

    method ActivateFirstLock(o: string, now: int)
      requires TableOk(tickets)
      modifies this`tickets, Row(tickets, o)
      ensures TableOk(tickets) && Subset(Row(tickets, o), old(Row(tickets, o)))
      ensures tickets == WithRow(old(tickets), o, Row(tickets, o))
      ensures Shows(Row(tickets, o), FirstActivated(old(Views(Row(tickets, o))), serverName, now, Alone()))
    {
      ghost var values := Views(Row(tickets, o));
      var first := FindFirstLock(o, now);
      ghost var row := Row(tickets, o);
      if first != null {
        ghost var kept := Swept(values, serverName, now);
        ShowsRest(row, kept);
        assert first !in row[1..];
        Activate(first, now);
        ShowsHead(row, first.View(), kept[1..]);
      }
    }

    /** The body of the loop of cleanup over f_tickets. */
    method CleanObject(o: string, now: int, start: NextTimeout) returns (next: NextTimeout)
      requires TableOk(tickets) && o in tickets
      modifies this`tickets, tickets[o]
      ensures TableOk(tickets) && Subset(Row(tickets, o), old(tickets[o]))
      ensures tickets == WithRow(old(tickets), o, Row(tickets, o))
      ensures Shows(Row(tickets, o), Cleaned(old(Views(tickets[o])), serverName, now, Alone()))
      ensures Earliest(next, start, Dates(Swept(old(Views(tickets[o])), serverName, now)))
    {
      var table, before := tickets, tickets[o];
      ghost var values := Views(before);
      var row, soonest := SweepRow(o, before, now, start);
      next := soonest;
      tickets := WithRow(tickets, o, row);
      ShowsViews(row, Swept(values, serverName, now));
      if row != [] && |row| < |before| {
        ActivateFirstLock(o, now);
        SubsetChain(Row(tickets, o), row, before);
        WithRowTwice(table, o, row, Row(tickets, o));
      }
    }

    /** The rows are part of those of `table` and hold the values `shown`. */
    ghost predicate Holds(table: Table, shown: TableValues)
      reads this`tickets, this`computers, Members(table), Members(tickets)
    {
      && TableOk(tickets) && TableOk(table) && tickets.Keys <= table.Keys == shown.Keys
      && (forall o :: o in table ==> Subset(Row(tickets, o), table[o]) && Shows(Row(tickets, o), shown[o]))
    }

    method CleanNext(o: string, now: int, start: NextTimeout, ghost table: Table, ghost shown: TableValues)
      returns (next: NextTimeout)
      requires Holds(table, shown) && o in tickets
      modifies this`tickets, Members(table)
      ensures Holds(table, shown[o := Cleaned(shown[o], serverName, now, Alone())])
      ensures Earliest(next, start, Dates(Swept(shown[o], serverName, now)))
    {
      hide Earliest, Cleaned, Swept, Dates;
      ghost var before := tickets;
      ShowsViews(tickets[o], shown[o]);
      forall p | p in table && p != o ensures Disjoint(Row(tickets, p), tickets[o]) {
        RowsApart(p, Row(tickets, p), o, tickets[o]);
      }
      next := CleanObject(o, now, start);
      SubsetChain(Row(tickets, o), before[o], table[o]);
      forall p | p in table && p != o ensures Shows(Row(tickets, p), shown[p]) {
        assert Row(tickets, p) == Row(before, p);
      }
      HoldsAfter(o, before, table, shown, Cleaned(shown[o], serverName, now, Alone()));
    }

    lemma HoldsAfter(o: string, before: Table, table: Table, shown: TableValues, row: seq<Record>)
      requires TableOk(tickets) && TableOk(table) && before.Keys <= table.Keys == shown.Keys && o in before
      requires tickets == WithRow(before, o, Row(tickets, o))
      requires Subset(Row(tickets, o), table[o]) && Shows(Row(tickets, o), row)
      requires forall p :: p in table && p != o ==> Subset(Row(before, p), table[p]) && Shows(Row(tickets, p), shown[p])
      ensures Holds(table, shown[o := row])
    {
      var after := shown[o := row];
      forall p | p in table ensures Subset(Row(tickets, p), table[p]) && Shows(Row(tickets, p), after[p]) {
        if p != o {
          assert Row(tickets, p) == Row(before, p) && after[p] == shown[p];
        }
      }
      assert after.Keys == table.Keys;
    }

    lemma {:induction false} HeldMembers(table: Table, shown: TableValues)
      requires Holds(table, shown)
      ensures Members(tickets) <= Members(table)
    {
      forall t | t in Members(tickets) ensures t in Members(table) {
        var o, i :| o in tickets && 0 <= i < |tickets[o]| && tickets[o][i] == t;
        assert Subset(Row(tickets, o), table[o]);
        assert tickets[o][i] in table[o];
      }
    }

    lemma {:induction false} KeptRows(table: Table, values: TableValues, shown: TableValues, cleaned: TableValues,
        now: int)
      requires Holds(table, shown) && values.Keys == table.Keys
      requires forall o :: o in table ==> shown[o] == Cleaned(values[o], serverName, now, Alone())
      requires cleaned == CleanedTable(values, serverName, now, Alone())
      ensures tickets.Keys == cleaned.Keys && forall o :: o in tickets ==> shown[o] == cleaned[o]
    {
      forall o | o in table ensures o in tickets <==> o in cleaned {
        assert |Row(tickets, o)| == |shown[o]|;
      }
    }

    lemma {:induction false} AllCleaned(table: Table, values: TableValues, shown: TableValues, now: int)
      requires Holds(table, shown) && values.Keys == table.Keys
      requires forall o :: o in table ==> shown[o] == Cleaned(values[o], serverName, now, Alone())
      ensures Values(tickets) == CleanedTable(values, serverName, now, Alone())
    {
      KeptRows(table, values, shown, CleanedTable(values, serverName, now, Alone()), now);
      forall o | o in tickets ensures Views(tickets[o]) == shown[o] {
        ShowsViews(tickets[o], shown[o]);
      }
    }

    ghost predicate Turning(table: Table, values: TableValues, c: Halfway, todo: set<string>, now: int,
        next: NextTimeout, start: NextTimeout)
      reads this`tickets, this`computers, Members(table), Members(tickets)
    {
      && Holds(table, c.shown) && PartlyCleaned(values, c, todo, serverName, now, Alone())
      && Earliest(next, start, TableDates(c.swept))
    }

    method CleanTurn(o: string, now: int, soFar: NextTimeout, ghost start: NextTimeout, ghost table: Table,
        ghost values: TableValues, ghost c: Halfway, ghost todo: set<string>)
      returns (next: NextTimeout, ghost d: Halfway)
      requires Turning(table, values, c, todo, now, soFar, start) && o in todo
      modifies this`tickets, Members(table)
      ensures Turning(table, values, d, todo - {o}, now, next, start)
    {
      assert |Row(tickets, o)| == |c.shown[o]|;
      next := CleanNext(o, now, soFar, table, c.shown);
      EarliestThen(next, soFar, start, TableDates(c.swept), Dates(Swept(values[o], serverName, now)));
      d := CleanOneMore(values, c, todo, o, serverName, now, Alone());
    }

    /** The loop of cleanup over f_tickets. */
    method CleanRows(rows: set<string>, now: int, start: NextTimeout, ghost table: Table, ghost values: TableValues,
        ghost c: Halfway)
      returns (next: NextTimeout, ghost d: Halfway)
      requires Turning(table, values, c, rows, now, start, start)
      modifies this`tickets, Members(table)
      ensures Turning(table, values, d, {}, now, next, start)
    {
      var todo := rows;
      next, d := start, c;
      while todo != {}
        invariant Turning(table, values, d, todo, now, next, start)
        decreases todo
      {
        var o :| o in todo;
        next, d := CleanTurn(o, now, next, start, table, values, d, todo);
        todo := todo - {o};
      }
    }

    method CleanTickets(now: int, start: NextTimeout) returns (next: NextTimeout)
      requires TableOk(tickets)
      modifies this`tickets, Members(tickets)
      ensures TableOk(tickets) && Members(tickets) <= old(Members(tickets))
      ensures Values(tickets) == CleanedTable(old(Values(tickets)), serverName, now, Alone())
      ensures Earliest(next, start, TableDates(SweptTable(old(Values(tickets)), serverName, now)))
    {
      ghost var table, values, c := tickets, Values(tickets), Halfway(Values(tickets), map[]);
      next, c := CleanRows(tickets.Keys, now, start, table, values, c);
      AllSwept(values, c, serverName, now, Alone());
      AllCleaned(table, values, c.shown, now);
      HeldMembers(table, c.shown);
    }

    // ---------- entering tickets ----------

    /** Where the loop of cleanup over f_entering_tickets is: `table` is what it found. */
    ghost predicate Leaving(table: EnteringTable, values: EnteringValues, todo: set<EnteringId>, now: int)
      reads this`entering, table.Values
    {
      && table.Keys == values.Keys && todo <= entering.Keys <= table.Keys
      && (forall k :: k in entering ==> entering[k] == table[k])
      && (forall k :: k in todo ==> table[k].View() == values[k])
      && (forall k :: k in table && k !in todo ==>
            Life(table[k].View(), k !in entering) == Sweep(values[k], serverName, now))
    }

    /** The tickets but `k`, when the table was `before`. */
    ghost predicate OthersLeaving(k: EnteringId, before: EnteringTable, table: EnteringTable, values: EnteringValues,
        todo: set<EnteringId>, now: int)
      requires table.Keys == values.Keys
      reads table.Values
    {
      && (forall j :: j in todo && j in table && j != k ==> table[j].View() == values[j])
      && (forall j :: j in table && j !in todo && j != k ==>
            Life(table[j].View(), j !in before) == Sweep(values[j], serverName, now))
    }

    lemma {:induction false} LeftOne(k: EnteringId, erased: bool, before: EnteringTable, table: EnteringTable,
        values: EnteringValues, todo: set<EnteringId>, now: int)
      requires table.Keys == values.Keys && k in todo && todo <= before.Keys <= table.Keys
      requires forall j :: j in before ==> before[j] == table[j]
      requires entering == if erased then before - {k} else before
      requires OthersLeaving(k, before, table, values, todo, now)
      requires Life(table[k].View(), erased) == Sweep(values[k], serverName, now)
      ensures Leaving(table, values, todo - {k}, now)
    {
      forall j | j in table && j !in todo - {k}
        ensures Life(table[j].View(), j !in entering) == Sweep(values[j], serverName, now)
      {
        assert j != k ==> (j in entering <==> j in before);
      }
    }

    method EraseEntering(k: EnteringId, erased: bool, ghost table: EnteringTable, ghost values: EnteringValues,
        ghost todo: set<EnteringId>, ghost now: int)
      requires table.Keys == values.Keys && k in todo && todo <= entering.Keys <= table.Keys
      requires forall j :: j in entering ==> entering[j] == table[j]
      requires OthersLeaving(k, entering, table, values, todo, now)
      requires Life(table[k].View(), erased) == Sweep(values[k], serverName, now)
      modifies this`entering
      ensures Leaving(table, values, todo - {k}, now)
    {
      ghost var before := entering;
      if erased {
        entering := entering - {k};
      }
      LeftOne(k, erased, before, table, values, todo, now);
    }

    method LeaveNext(k: EnteringId, now: int, start: NextTimeout, ghost table: EnteringTable,
        ghost values: EnteringValues, ghost todo: set<EnteringId>, ghost first: NextTimeout, ghost dates: set<int>)
      returns (next: NextTimeout, ghost d: set<int>)
      requires EnteringOk(table) && Leaving(table, values, todo, now) && k in todo
      requires Earliest(start, first, dates)
      modifies this`entering, table[k]
      ensures Leaving(table, values, todo - {k}, now)
      ensures Earliest(next, first, d) && d == dates + StaysUntil(values[k], serverName, now)
    {
      forall j | j in table && j != k ensures table[j] != table[k] {
      }
      var erased;
      erased, next, d := LapseDated(entering[k], now, start, first, dates);
      EraseEntering(k, erased, table, values, todo, now);
    }

    lemma LessToDo(all: set<EnteringId>, todo: set<EnteringId>, k: EnteringId)
      requires k in todo && k in all
      ensures all - todo + {k} == all - (todo - {k})
    {
    }

    method CleanEnteringRows(now: int, start: NextTimeout, ghost values: EnteringValues) returns (next: NextTimeout)
      requires EnteringOk(entering) && Leaving(entering, values, entering.Keys, now)
      modifies this`entering, entering.Values
      ensures Leaving(old(entering), values, {}, now)
      ensures Earliest(next, start, EnteringDates(values, values.Keys, serverName, now))
    {
      ghost var table := entering;
      var todo := entering.Keys;
      next := start;
      ghost var dates := {};
      while todo != {}
        invariant Leaving(table, values, todo, now)
        invariant Earliest(next, start, dates) && dates == EnteringDates(values, values.Keys - todo, serverName, now)
        decreases todo
      {
        var k :| k in todo;
        EnteringDatesMore(values, values.Keys - todo, k, serverName, now);
        LessToDo(values.Keys, todo, k);
        next, dates := LeaveNext(k, now, next, table, values, todo, start, dates);
        todo := todo - {k};
      }
      assert values.Keys - {} == values.Keys;
    }

    /** The loop of cleanup over f_entering_tickets. */
    method CleanEntering(now: int, start: NextTimeout) returns (next: NextTimeout)
      requires EnteringOk(entering)
      modifies this`entering, entering.Values
      ensures EnteringOk(entering) && entering == Restrict(old(entering),
          Staying(old(EnteringViews(entering)), serverName, now))
      ensures ShowsEntering(old(entering), Lapsed(old(EnteringViews(entering)), serverName, now))
      ensures Earliest(next, start, EnteringDates(old(EnteringViews(entering)), old(entering.Keys), serverName, now))
    {
      ghost var table, values := entering, EnteringViews(entering);
      next := CleanEnteringRows(now, start, values);
      AllLeft(table, values, now);
    }

    lemma AllLeft(table: EnteringTable, values: EnteringValues, now: int)
      requires Leaving(table, values, {}, now)
      ensures ShowsEntering(table, Lapsed(values, serverName, now))
          && entering == Restrict(table, Staying(values, serverName, now))
    {
      forall k | k in table ensures k in entering <==> k in Staying(values, serverName, now) {
        assert Life(table[k].View(), k !in entering) == Sweep(values[k], serverName, now);
      }
    }

    // ---------- cleanup ----------

    /** The loop of cleanup over f_message_cache. */
    method CleanCache(now: int, start: NextTimeout) returns (next: NextTimeout)
      modifies this`cache, this`replies
      ensures cache == Live(old(cache), now) && replies == old(replies) + Lost(old(cache), now)
      ensures Earliest(next, start, CacheDates(cache))
    {
      var before := cache;
      next, cache := start, [];
      ghost var lost := [];
      var i := 0;
      while i < |before|
        invariant 0 <= i <= |before| && cache == LiveFirst(before, i, now)
        invariant replies == old(replies) + lost && lost == LostFirst(before, i, now)
        invariant Earliest(next, start, CacheDates(cache))
      {
        var c := before[i];
        if c.timeout <= now {
          var reply := Refused(c.request, TimedOutError);
          replies, lost := replies + [reply], lost + [reply];
        } else {
          CacheDatesMore(cache, c);
          EarliestMore(next, start, CacheDates(cache), c.timeout);
          next := Sooner(next, c.timeout);
          cache := cache + [c];
        }
        i := i + 1;
      }
    }

    ghost predicate Valid()
      reads this`tickets, this`entering, Members(tickets)
    {
      TableOk(tickets) && EnteringOk(entering) && TableInvariant(Values(tickets))
    }

    /** A ticket that is in both tables and does not time out keeps its value. */
    method CleanEnteringBeside(now: int, start: NextTimeout, ghost table: EnteringTable, ghost middle: EnteringValues)
        returns (next: NextTimeout)
      requires TableOk(tickets) && EnteringOk(entering) && AllCurrent(Values(tickets), now)
      requires table == entering && middle == EnteringViews(entering)
      modifies this`entering, entering.Values
      ensures EnteringOk(entering) && entering == Restrict(table, Staying(middle, serverName, now))
      ensures ShowsEntering(table, Lapsed(middle, serverName, now))
      ensures Earliest(next, start, EnteringDates(middle, middle.Keys, serverName, now))
      ensures Values(tickets) == old(Values(tickets))
    {
      ghost var rows := Values(tickets);
      next := CleanEntering(now, start);
      forall o, i | o in tickets && 0 <= i < |tickets[o]| ensures tickets[o][i].View() == rows[o][i] {
        var t := tickets[o][i];
        assert t in Members(tickets) && !TicketRecord.TimedOut(rows[o][i], now);
        if t in table.Values {
          var k :| k in table && table[k] == t;
          assert t.View() == Lapsed(middle, serverName, now)[k];
        }
      }
      forall o | o in tickets ensures Views(tickets[o]) == rows[o] {
      }
    }

    /** An entering ticket that has no number yet keeps its value while f_tickets is cleaned. */
    method CleanTicketsBeside(now: int, start: NextTimeout, ghost values: TableValues, ghost views: EnteringValues,
        ghost members: set<Ticket>)
      returns (next: NextTimeout, ghost middle: EnteringValues)
      requires TableOk(tickets) && values == Values(tickets) && views == EnteringViews(entering)
          && members == Members(tickets)
      modifies this`tickets, Members(tickets)
      ensures TableOk(tickets) && Members(tickets) <= members
      ensures Values(tickets) == CleanedTable(values, serverName, now, Alone())
      ensures Earliest(next, start, TableDates(SweptTable(values, serverName, now)))
      ensures middle == EnteringViews(entering) && middle.Keys == entering.Keys == views.Keys
      ensures forall k :: k in middle && entering[k] !in members ==> middle[k] == views[k]
    {
      next := CleanTickets(now, start);
      middle := EnteringViews(entering);
    }

    /** The loops over the two tables.  `middle` are the values that the entering tickets have
        when their turn comes: those of a ticket that is in both tables went through the loop
        over f_tickets first. */
    method CleanTables(now: int, start: NextTimeout, ghost values: TableValues, ghost table: EnteringTable,
        ghost views: EnteringValues, ghost members: set<Ticket>)
      returns (next: NextTimeout, ghost middle: EnteringValues)
      requires Valid() && values == Values(tickets) && table == entering && views == EnteringViews(table)
          && members == Members(tickets)
      modifies this`tickets, this`entering, Members(tickets), entering.Values
      ensures Valid() && Members(tickets) <= members
      ensures Values(tickets) == CleanedTable(values, serverName, now, Alone())
      ensures EnteringSwept(table, views, members, middle, now)
      ensures Earliest(next, start, TableDates(SweptTable(values, serverName, now)) + EnteringDates(middle,
          middle.Keys, serverName, now))
    {
      var soonest;
      soonest, middle := CleanTicketsBeside(now, start, values, views, members);
      CleanedTableInvariant(values, serverName, now, Alone());
      next := CleanEnteringBeside(now, soonest, table, middle);
      EarliestThen(next, soonest, start, TableDates(SweptTable(values, serverName, now)),
                   EnteringDates(middle, middle.Keys, serverName, now));
    }

    /** What the loop over f_entering_tickets did. */
    ghost predicate EnteringSwept(table: EnteringTable, views: EnteringValues, members: set<Ticket>,
        middle: EnteringValues, now: int)
      reads this`entering, table.Values
    {
      && middle.Keys == table.Keys == views.Keys && entering == Restrict(table, Staying(middle, serverName, now))
      && ShowsEntering(table, Lapsed(middle, serverName, now))
      && forall k :: k in middle && table[k] !in members ==> middle[k] == views[k]
    }

    method SetTimer(next: NextTimeout, ghost table: EnteringTable, ghost shown: EnteringValues)
      requires Valid() && ShowsEntering(table, shown)
      modifies this`timer
      ensures timer == Alarm(next)
      ensures Valid() && Values(tickets) == old(Values(tickets)) && ShowsEntering(table, shown)
    {
      timer := Alarm(next);
    }

    method CleanTablesAndSetTimer(now: int, start: NextTimeout, ghost values: TableValues, ghost table: EnteringTable,
                                  ghost views: EnteringValues, ghost members: set<Ticket>, ghost dates: set<int>)
      returns (ghost middle: EnteringValues)
      requires Valid() && values == Values(tickets) && table == entering && views == EnteringViews(table)
          && members == Members(tickets)
      requires Earliest(start, Never, dates)
      modifies this`timer, this`tickets, this`entering, Members(tickets), entering.Values
      ensures Valid() && Members(tickets) <= members
      ensures Values(tickets) == CleanedTable(values, serverName, now, Alone())
      ensures EnteringSwept(table, views, members, middle, now)
      ensures IsAlarm(timer, dates + (TableDates(SweptTable(values, serverName, now)) + EnteringDates(middle,
          middle.Keys, serverName, now)))
    {
      var next;
      next, middle := CleanTables(now, start, values, table, views, members);
      AlarmOf(next, start, dates, TableDates(SweptTable(values, serverName, now)) + EnteringDates(middle, middle.Keys,
          serverName, now));
      SetTimer(next, table, Lapsed(middle, serverName, now));
    }

    method Cleanup(now: int) returns (ghost middle: EnteringValues)
      requires Valid()
      modifies this`cache, this`replies, this`timer, this`tickets, this`entering, Members(tickets), entering.Values
      ensures Valid() && Members(tickets) <= old(Members(tickets))
      ensures cache == Live(old(cache), now) && replies == old(replies) + Lost(old(cache), now)
      ensures Values(tickets) == CleanedTable(old(Values(tickets)), serverName, now, Alone())
      ensures EnteringSwept(old(entering), old(EnteringViews(entering)), old(Members(tickets)), middle, now)
      ensures IsAlarm(timer, CacheDates(cache) + (TableDates(SweptTable(old(Values(tickets)), serverName, now))
                                                  + EnteringDates(middle, middle.Keys, serverName, now)))
      ensures !Alone() ==> IsAlarm(timer,
          CacheDates(cache) + (TableDates(Values(tickets)) + AllDates(EnteringViews(entering))))
    {
      hide IsAlarm, CleanedTable, EnteringSwept, TableOk, EnteringOk;
      ghost var values, table, views, members := Values(tickets), entering, EnteringViews(entering), Members(tickets);
      var cached := CleanCache(now, Never);
      middle := CleanTablesAndSetTimer(now, cached, values, table, views, members, CacheDates(cache));
      StayingDates(table, middle, serverName, now);
      CleanedTableDates(values, serverName, now);
    }

    // ---------- one leader: UNLOCK ----------

    /** Between two events a daemon that is alone has no entering ticket, and its rows are queues. */
    ghost predicate AloneValid()
      reads this`tickets, this`entering, this`computers, Members(tickets)
    {
      Alone() && TableOk(tickets) && entering == map[] && Queues(Values(tickets), serverName)
    }

    /** The ticket table of a daemon that is alone, between two events. */
    ghost function Table(): Option<TableValues>
      reads this`tickets, this`entering, this`computers, Members(tickets)
    {
      if AloneValid() then Some(Values(tickets)) else None
    }

    /** The tickets, the cached requests and the messages of a daemon that is alone. */
    ghost function Ledger(): Books
      reads this`tickets, this`entering, this`computers, this`cache, this`replies, Members(tickets)
    {
      Books(Table(), cache, replies)
    }

    /** The find_if loops: the first ticket of a row with an entering key. */
    method FindTicket(row: seq<Ticket>, key: EnteringKey) returns (i: nat)
      ensures i == FifoLock.Find(QueueOf(Views(row)), key)
    {
      i := 0;
      while i < |row| && row[i].enteringKey != key
        invariant i <= |row| && FifoLock.Find(QueueOf(Views(row)), key) == FifoLock.Find(QueueOf(Views(row)), key, i)
      {
        i := i + 1;
      }
    }

    /** drop_ticket, and the removal of the ticket from its row. */
    method RemoveTicket(o: string, i: nat)
      requires TableOk(tickets) && o in tickets && i < |tickets[o]|
      modifies this`tickets, tickets[o][i]
      ensures TableOk(tickets) && tickets == WithRow(old(tickets), o, old(tickets[o][..i] + tickets[o][i + 1..]))
      ensures Views(Row(tickets, o)) == old(Views(tickets[o])[..i] + Views(tickets[o])[i + 1..])
      ensures old(tickets[o][i]).View() == Drop(old(tickets[o][i].View()))
    {
      var row := tickets[o];
      forall j | 0 <= j < |row| && j != i ensures row[j] != row[i] {
      }
      row[i].DropTicket();
      tickets := WithRow(tickets, o, row[..i] + row[i + 1..]);
    }

    /** erase, then activate_first_lock. */
    method UnlockTicket(o: string, i: nat, now: int)
      requires TableOk(tickets) && o in tickets && i < |tickets[o]|
      modifies this`tickets, tickets[o]
      ensures TableOk(tickets) && Subset(Row(tickets, o), old(tickets[o]))
          && tickets == WithRow(old(tickets), o, Row(tickets, o))
      ensures var values := old(Views(tickets[o]));
              Shows(Row(tickets, o), FirstActivated(values[..i] + values[i + 1..], serverName, now, Alone()))
    {
      hide TableOk, FirstActivated;
      ghost var table, row := tickets, tickets[o][..i] + tickets[o][i + 1..];
      RemoveTicket(o, i);
      assert Row(tickets, o) == row;
      ActivateFirstLock(o, now);
      SubsetChain(Row(tickets, o), row, table[o]);
      WithRowTwice(table, o, row, Row(tickets, o));
    }

    /** A change of one row, seen from the whole table. */
    lemma OneRowChanged(before: Table, values: TableValues, o: string, row: seq<Record>)
      requires TableOk(tickets) && values.Keys == before.Keys && tickets == WithRow(before, o, Row(tickets, o))
      requires Shows(Row(tickets, o), row)
      requires forall p :: p in before && p != o ==> Shows(before[p], values[p])
      ensures Values(tickets) == WithRowAt(values, o, row)
    {
      ShowsViews(Row(tickets, o), row);
      forall p | p in tickets && p != o ensures Views(tickets[p]) == values[p] {
        ShowsViews(tickets[p], values[p]);
      }
      assert Row(tickets, o) == [] <==> row == [];
    }

    method UnlockInTable(o: string, i: nat, now: int, ghost values: TableValues)
      requires TableOk(tickets) && values == Values(tickets) && o in tickets && i < |tickets[o]|
      modifies this`tickets, Members(tickets)
      ensures TableOk(tickets) && Members(tickets) <= old(Members(tickets))
      ensures Values(tickets) == WithRowAt(values, o,
          FirstActivated(values[o][..i] + values[o][i + 1..], serverName, now, Alone()))
    {
      ghost var before := tickets;
      forall p | p in tickets && p != o ensures Disjoint(tickets[p], tickets[o]) && Shows(tickets[p], values[p]) {
        RowsApart(p, tickets[p], o, tickets[o]);
      }
      UnlockTicket(o, i, now);
      forall p | p in before && p != o ensures Shows(before[p], values[p]) {
      }
      OneRowChanged(before, values, o, FirstActivated(values[o][..i] + values[o][i + 1..], serverName, now, Alone()));
      MembersOfRow(before, o, Row(tickets, o));
    }

    lemma MembersOfRow(before: Table, o: string, row: seq<Ticket>)
      requires o in before && Subset(row, before[o])
      ensures Members(WithRow(before, o, row)) <= Members(before)
    {
      forall t | t in Members(WithRow(before, o, row)) ensures t in Members(before) {
        var p, i :| p in WithRow(before, o, row) && 0 <= i < |WithRow(before, o, row)[p]|
            && WithRow(before, o, row)[p][i] == t;
        if p == o {
          assert row[i] in before[o];
        }
      }
    }

    /** cleanup when there is no entering ticket. */
    method CleanupAlone(now: int, ghost values: TableValues)
      requires Alone() && Valid() && entering == map[] && values == Values(tickets)
      modifies this`cache, this`replies, this`timer, this`tickets, this`entering, Members(tickets)
      ensures Alone() && Valid() && entering == map[] && Members(tickets) <= old(Members(tickets))
      ensures cache == Live(old(cache), now) && replies == old(replies) + Lost(old(cache), now)
      ensures Values(tickets) == CleanedTable(values, serverName, now, true)
      ensures IsAlarm(timer, CacheDates(cache) + TableDates(SweptTable(values, serverName, now)))
    {
      ghost var middle := Cleanup(now);
      assert middle == map[];
      assert EnteringDates(middle, middle.Keys, serverName, now) == {};
    }

    /** The part of msg_unlock before cleanup, in the table. */
    method UnlockFound(o: string, key: EnteringKey, now: int, ghost values: TableValues)
      requires Alone() && TableOk(tickets) && Values(tickets) == values
      modifies this`tickets, Members(tickets)
      ensures TableOk(tickets) && Members(tickets) <= old(Members(tickets))
      ensures Values(tickets) == DroppedTable(values, serverName, o, key, now)
    {
      var row := Row(tickets, o);
      assert Views(row) == RowAt(values, o);
      var i := FindTicket(row, key);
      if i < |row| {
        UnlockInTable(o, i, now, values);
      }
    }

    method DropAndActivate(o: string, key: EnteringKey, now: int, ghost values: TableValues)
      requires Table() == Some(values)
      modifies this`tickets, Members(tickets)
      ensures Alone() && Valid() && entering == map[] && Members(tickets) <= old(Members(tickets))
      ensures Values(tickets) == DroppedTable(values, serverName, o, key, now)
    {
      DroppedIsCurrent(values, serverName, o, key, now);
      UnlockFound(o, key, now, values);
    }

    method UnlockAlone(o: string, key: EnteringKey, now: int, ghost values: TableValues)
      requires Table() == Some(values)
      modifies this`cache, this`replies, this`timer, this`tickets, this`entering, Members(tickets)
      ensures Table() == Some(After(values, serverName, UnlockRequest(o, key), now))
          && Members(tickets) <= old(Members(tickets))
      ensures cache == Live(old(cache), now) && replies == old(replies) + Lost(old(cache), now)
    {
      DropAndActivate(o, key, now, values);
      DroppedIsCurrent(values, serverName, o, key, now);
      CleanupAlone(now, DroppedTable(values, serverName, o, key, now));
      RequestRefines(values, serverName, UnlockRequest(o, key), now, o);
    }

    // ---------- one leader: LOCK ----------

    method NewTicket(request: Requests.Request, key: EnteringKey, timeout: int) returns (t: Ticket)
      ensures fresh(t) && t.objectName == request.objectName && t.enteringKey == key
      ensures t.View() == NewRecord(serverName, key, timeout, request.duration, UnlockParameter(request))
    {
      t := new Ticket(serverName, request.objectName, request.tag, key, timeout, request.duration, request.server,
          request.service);
      t.SetUnlockDuration(UnlockParameter(request));
    }

    /** get_last_ticket. */
    method GetLastTicket(o: string) returns (last: nat)
      ensures last == LastNumber(Views(Row(tickets, o)))
    {
      last := 0;
      var row := Row(tickets, o);
      var i := 0;
      while i < |row|
        invariant 0 <= i <= |row|
        invariant forall j :: 0 <= j < i ==> row[j].ourTicket <= last
        invariant last == 0 || exists j :: 0 <= j < i && row[j].ourTicket == last
      {
        if row[i].ourTicket > last {
          last := row[i].ourTicket;
        }
        i := i + 1;
      }
      if last != 0 {
        ghost var j :| 0 <= j < |row| && row[j].ourTicket == last;
        assert Views(row)[j].progress.number == last;
      }
      LastNumberUnique(Views(row), last);
    }

    /** entering(), entered() and max_ticket(), which call each other when there is one leader. */
    method NumberTicket(t: Ticket, last: nat) returns (ok: bool)
      requires !t.getMaxTicket && !t.addedTicket
      modifies t
      ensures ok <==> last + 1 < NUMBER_LIMIT
      ensures ok ==> t.View() == NumberedAlone(old(t.View()), last)
      ensures !ok ==> t.stillEntering == old(t.stillEntering)
    {
      var goOn := t.Entering(true);
      goOn := t.Entered(last, true);
      ok, goOn := t.MaxTicket(t.ourTicket, true);
    }

    /** set_ticket: the row stays in key order. */
    method SetTicket(o: string, t: Ticket) returns (ghost at: nat)
      requires TableOk(tickets) && t.objectName == o
      requires forall i :: 0 <= i < |Row(tickets, o)| ==> Row(tickets, o)[i].enteringKey != t.enteringKey
      modifies this`tickets
      ensures TableOk(tickets) && o in tickets && tickets == old(tickets)[o := tickets[o]]
      ensures Inserted(old(Row(tickets, o)), t, tickets[o], at)
    {
      var row := Row(tickets, o);
      var n := 0;
      while n < |row| && KeyBefore(row[n].Key(), t.Key())
        invariant n <= |row| && forall i :: 0 <= i < n ==> KeyBefore(row[i].Key(), t.Key())
      {
        n := n + 1;
      }
      tickets := tickets[o := row[..n] + [t] + row[n..]];
      at := n;
    }

    /** `t` came between the tickets with a smaller key and the others. */
    predicate Inserted(row: seq<Ticket>, t: Ticket, after: seq<Ticket>, n: nat)
      reads row, t
    {
      && n <= |row| && after == row[..n] + [t] + row[n..]
      && (forall i :: 0 <= i < n ==> KeyBefore(row[i].Key(), t.Key()))
      && (n < |row| ==> !KeyBefore(row[n].Key(), t.Key()))
    }

    /** The loop of msg_lock_exiting over a row in which only the last ticket waits for `key`. */
    method RemoveEnteringAll(o: string, row: seq<Ticket>, key: EnteringKey, now: int, ghost values: seq<Record>,
        ghost after: seq<Record>)
      requires RowOk(o, row) && row != [] && Shows(row, values) && |after| == |values|
      requires forall i :: 0 <= i < |row| - 1 ==> values[i].progress.ready && after[i] == values[i]
      requires row[|row| - 1].stillEntering.Keys == {key}
          && after[|row| - 1] == StopWaitingFor(values[|row| - 1], key, {})
      modifies row
      ensures Shows(row, after)
    {
      hide StopWaitingFor;
      var i := 0;
      while i < |row|
        invariant 0 <= i <= |row|
        invariant forall j :: 0 <= j < i ==> row[j].View() == after[j]
        invariant forall j :: i <= j < |row| ==> row[j].View() == values[j]
        invariant i < |row| ==> row[|row| - 1].stillEntering.Keys == {key}
      {
        forall j | 0 <= j < |row| && j != i ensures row[j] != row[i] {
        }
        ghost var expired := row[i].Expired(now);
        row[i].RemoveEntering(key, now);
        OnlyOneWaited(values[i], key, expired);
        i := i + 1;
      }
    }

    lemma OnlyOneWaited(r: Record, key: EnteringKey, expired: set<EnteringKey>)
      ensures r.progress.ready ==> StopWaitingFor(r, key, expired) == r
      ensures r.progress.still == {key} ==> StopWaitingFor(r, key, expired) == StopWaitingFor(r, key, {})
    {
      if r.progress.still == {key} {
        assert r.progress.still - {key} - expired == {} == r.progress.still - {key} - {};
      }
    }

    method AppendTicket(o: string, t: Ticket)
      requires TableOk(tickets) && t.objectName == o
      requires forall i :: 0 <= i < |Row(tickets, o)| ==>
        Row(tickets, o)[i].enteringKey != t.enteringKey && Row(tickets, o)[i].ourTicket < t.ourTicket
      modifies this`tickets
      ensures TableOk(tickets) && tickets == old(tickets)[o := old(Row(tickets, o)) + [t]]
    {
      ghost var row := Row(tickets, o);
      ghost var n := SetTicket(o, t);
      assert n == |row|;
      assert tickets[o] == row + [t];
    }

    /** ticket_added(), and the removal of the entering ticket that msg_lock_exiting starts with. */
    method QuorateTicket(o: string, key: EnteringKey, t: Ticket)
      requires entering == map[(o, key) := t] && !t.addedTicketQuorum
      modifies this`entering, t
      ensures entering == map[] && t.stillEntering.Keys == {key}
      ensures t.View() == ReachQuorum(old(t.View()), {key})
    {
      var still := EnteringAt(entering, o);
      assert still == map[key := t];
      var exits := t.TicketAdded(still);
      entering := entering - {(o, key)};
    }

    /** The same, after set_ticket() put the ticket into its row. */
    method AppendAndQuorate(o: string, key: EnteringKey, t: Ticket, ghost values: seq<Record>, ghost r: Record)
      requires TableOk(tickets) && Shows(Row(tickets, o), values) && t !in Row(tickets, o)
      requires entering == map[(o, key) := t] && t.objectName == o && t.enteringKey == key && t.View() == r
          && !r.progress.quorum
      requires forall i :: 0 <= i < |values| ==>
        values[i].progress.entering != key && values[i].progress.number < r.progress.number
      modifies this`tickets, this`entering, t
      ensures TableOk(tickets) && entering == map[] && tickets == old(tickets)[o := old(Row(tickets, o)) + [t]]
      ensures Shows(tickets[o], values + [ReachQuorum(r, {key})]) && t.stillEntering.Keys == {key}
    {
      ghost var before := Row(tickets, o);
      AppendTicket(o, t);
      QuorateTicket(o, key, t);
      ShowsMore(before, values, t);
    }

    /** From add_ticket() to remove_entering(), for a ticket that has its number. */
    method AddAlone(o: string, key: EnteringKey, t: Ticket, now: int, ghost values: seq<Record>, ghost r: Record)
      requires TableOk(tickets) && Shows(Row(tickets, o), values) && t !in Row(tickets, o)
      requires entering == map[(o, key) := t] && t.objectName == o && t.enteringKey == key && t.View() == r
          && !r.progress.quorum
      requires forall i :: 0 <= i < |values| ==>
        values[i].progress.ready && values[i].progress.entering != key && values[i].progress.number < r.progress.number
      modifies this`tickets, this`entering, Row(tickets, o), t
      ensures TableOk(tickets) && entering == map[] && tickets == old(tickets)[o := old(Row(tickets, o)) + [t]]
      ensures Shows(tickets[o], values + [ReadyAlone(r, key)])
    {
      hide TableOk, Shows;
      AppendAndQuorate(o, key, t, values, r);
      RemoveEnteringAll(o, tickets[o], key, now, values + [ReachQuorum(r, {key})], values + [ReadyAlone(r, key)]);
    }

    /** The same, to the end of msg_lock_exiting. */
    method ExitAlone(o: string, key: EnteringKey, t: Ticket, now: int, ghost values: seq<Record>, ghost r: Record)
      requires TableOk(tickets) && Shows(Row(tickets, o), values) && t !in Row(tickets, o)
      requires entering == map[(o, key) := t] && t.objectName == o && t.enteringKey == key && t.View() == r
          && !r.progress.quorum
      requires forall i :: 0 <= i < |values| ==>
        values[i].progress.ready && values[i].progress.entering != key && values[i].progress.number < r.progress.number
      modifies this`tickets, this`entering, Row(tickets, o), t
      ensures TableOk(tickets) && entering == map[] && Subset(Row(tickets, o), old(Row(tickets, o)) + [t])
      ensures tickets == WithRow(old(tickets), o, Row(tickets, o))
      ensures Shows(Row(tickets, o), FirstActivated(values + [ReadyAlone(r, key)], serverName, now, Alone()))
    {
      hide TableOk, Shows, FirstActivated, ReadyAlone;
      ghost var before, row := tickets, Row(tickets, o) + [t];
      AddAlone(o, key, t, now, values, r);
      ShowsViews(row, values + [ReadyAlone(r, key)]);
      ActivateFirstLock(o, now);
      WithRowTwice(before, o, row, Row(tickets, o));
    }

    /** NumberTicket, seen from the row that the ticket is about to join. */
    method NumberBeside(o: string, key: EnteringKey, t: Ticket, last: nat, ghost row: seq<Record>, ghost r: Record)
        returns (ok: bool)
      requires TableOk(tickets) && Views(Row(tickets, o)) == row && QueueRow(row, serverName) && t !in Row(tickets, o)
      requires t.View() == r && !r.progress.quorum && !r.progress.getMax && !r.progress.added && last == LastNumber(row)
      requires FifoLock.Find(QueueOf(row), key) == |row|
      modifies t
      ensures ok <==> last + 1 < NUMBER_LIMIT
      ensures Shows(Row(tickets, o), row) && (ok ==> t.View() == NumberedAlone(r, last))
      ensures ok ==> forall i :: 0 <= i < |row| ==> row[i].progress.ready && row[i].progress.entering != key
                                                    && row[i].progress.number < NumberedAlone(r, last).progress.number
    {
      hide TableOk, QueueRow, LastNumber, NumberedAlone;
      ok := NumberTicket(t, last);
      if ok {
        NumberedAbove(row, r, last, key, serverName);
      }
    }

    /** entering() and all that follows when there is one leader; false when the number overflows. */
    method EnterRow(o: string, key: EnteringKey, t: Ticket, now: int, ghost row: seq<Record>, ghost r: Record)
        returns (ok: bool)
      requires TableOk(tickets) && Views(Row(tickets, o)) == row && QueueRow(row, serverName) && t !in Row(tickets, o)
      requires entering == map[(o, key) := t] && t.objectName == o && t.enteringKey == key
      requires t.View() == r && !r.progress.quorum && !r.progress.getMax && !r.progress.added
      requires FifoLock.Find(QueueOf(row), key) == |row|
      modifies this`tickets, this`entering, Row(tickets, o), t
      ensures ok <==> LastNumber(row) + 1 < NUMBER_LIMIT
      ensures ok ==> TableOk(tickets) && entering == map[] && Subset(Row(tickets, o), old(Row(tickets, o)) + [t])
      ensures ok ==> tickets == WithRow(old(tickets), o, Row(tickets, o))
      ensures ok ==> Shows(Row(tickets, o), ActivatedAlone(row, r, key, now))
      ensures !ok ==> tickets == old(tickets) && entering == old(entering) && Shows(Row(tickets, o), row)
    {
      hide TableOk, QueueRow, Subset, Shows, FirstActivated, ReadyAlone, LastNumber;
      var last := GetLastTicket(o);
      ok := NumberBeside(o, key, t, last, row, r);
      if ok {
        ExitAlone(o, key, t, now, row, NumberedAlone(r, last));
      }
    }

    /** The same; the other rows stay as they are. */
    method EnterBeside(o: string, key: EnteringKey, t: Ticket, now: int, ghost values: TableValues, ghost r: Record,
        ghost before: Table)
        returns (ok: bool)
      requires TableOk(tickets) && values == Values(tickets) && QueueRow(RowAt(values, o), serverName)
          && t !in Members(tickets) && before == tickets
      requires entering == map[(o, key) := t] && t.objectName == o && t.enteringKey == key
      requires t.View() == r && !r.progress.quorum && !r.progress.getMax && !r.progress.added
      requires FifoLock.Find(QueueAt(values, o), key) == |RowAt(values, o)|
      modifies this`tickets, this`entering, Members(tickets), t
      ensures ok <==> LastNumber(RowAt(values, o)) + 1 < NUMBER_LIMIT
      ensures ok ==> TableOk(tickets) && entering == map[] && Subset(Row(tickets, o), Row(before, o) + [t])
      ensures ok ==> tickets == WithRow(before, o, Row(tickets, o))
      ensures ok ==> Shows(Row(tickets, o), ActivatedAlone(RowAt(values, o), r, key, now))
      ensures !ok ==> tickets == before && entering == old(entering) && Shows(Row(tickets, o), RowAt(values, o))
      ensures forall p :: p in before && p != o ==> Shows(before[p], values[p])
    {
      ghost var row := RowAt(values, o);
      assert Views(Row(tickets, o)) == row && t !in Row(tickets, o);
      RowsBeside(tickets, values, o, t);
      ok := EnterRow(o, key, t, now, row, r);
      forall p | p in before && p != o ensures Shows(before[p], values[p]) {
      }
    }

    /** The same, seen from the whole table. */
    method EnterAlone(o: string, key: EnteringKey, t: Ticket, now: int, ghost values: TableValues, ghost r: Record)
        returns (ok: bool)
      requires TableOk(tickets) && values == Values(tickets) && QueueRow(RowAt(values, o), serverName)
          && t !in Members(tickets)
      requires entering == map[(o, key) := t] && t.objectName == o && t.enteringKey == key
      requires t.View() == r && !r.progress.quorum && !r.progress.getMax && !r.progress.added
      requires FifoLock.Find(QueueAt(values, o), key) == |RowAt(values, o)|
      modifies this`tickets, this`entering, Members(tickets), t
      ensures ok <==> LastNumber(RowAt(values, o)) + 1 < NUMBER_LIMIT
      ensures ok ==> TableOk(tickets) && entering == map[] && Members(tickets) <= old(Members(tickets)) + {t}
      ensures ok ==> Values(tickets) == WithRowAt(values, o, ActivatedAlone(RowAt(values, o), r, key, now))
      ensures !ok ==> entering == old(entering) && Values(tickets) == values
    {
      hide TableOk, QueueRow, Subset, ActivatedAlone, LastNumber;
      ghost var before := tickets;
      ok := EnterBeside(o, key, t, now, values, r, before);
      if ok {
        OneRowChanged(before, values, o, ActivatedAlone(RowAt(values, o), r, key, now));
        MembersWithNew(before, o, Row(tickets, o), t);
      } else {
        NoRowChanged(before, values, o);
      }
    }

    lemma {:induction false} NoRowChanged(table: Table, values: TableValues, o: string)
      requires table.Keys == values.Keys && Shows(Row(table, o), RowAt(values, o))
      requires forall p :: p in table && p != o ==> Shows(table[p], values[p])
      ensures Values(table) == values
    {
      forall p | p in table ensures Views(table[p]) == values[p] {
        ShowsViews(table[p], values[p]);
      }
    }

    ghost function ActivatedAlone(row: seq<Record>, r: Record, key: EnteringKey, now: int): seq<Record>
      reads this`computers
    {
      FirstActivated(row + [ReadyAlone(NumberedAlone(r, LastNumber(row)), key)], serverName, now, Alone())
    }

    lemma {:induction false} MembersWithNew(before: Table, o: string, row: seq<Ticket>, t: Ticket)
      requires Subset(row, Row(before, o) + [t])
      ensures Members(WithRow(before, o, row)) <= Members(before) + {t}
    {
      var after := WithRow(before, o, row);
      forall u | u in Members(after) ensures u in Members(before) + {t} {
        var p, i :| p in after && 0 <= i < |after[p]| && after[p][i] == u;
        if p == o {
          assert row[i] in Row(before, o) + [t];
        }
      }
    }

    /** The table that entering() and all that follows leave to the clean ups. */
    ghost function EnteredTable(clean: TableValues, e: OneLeader.Request, now: int): TableValues
      requires e.LockRequest?
      reads this`computers
    {
      var r := NewRecord(serverName, e.key, e.obtention, e.duration, e.unlockDuration);
      WithRowAt(clean, e.objectName, ActivatedAlone(RowAt(clean, e.objectName), r, e.key, now))
    }

    lemma {:induction false} EnteredRow(row: seq<Record>, e: OneLeader.Request, now: int)
      requires Alone() && QueueRow(row, serverName) && e.LockRequest?
          && Accepts(Cleaned(row, serverName, now, true), e, now)
      ensures var r := NewRecord(serverName, e.key, e.obtention, e.duration, e.unlockDuration);
              var entered := ActivatedAlone(Cleaned(row, serverName, now, true), r, e.key, now);
              && Current(entered, now) && Sorted(entered) && entered == LockedRow(row, serverName, e, now)
    {
      var clean := Cleaned(row, serverName, now, true);
      var fresh' := Fresh(serverName, e.key, e.obtention, e.duration, e.unlockDuration, LastNumber(clean));
      FreshWaits(serverName, e.key, e.obtention, e.duration, e.unlockDuration, LastNumber(clean));
      CleanedIsSettled(row, serverName, now);
      AddedIsCurrent(clean, fresh', serverName, now);
      LockedRowSteps(row, serverName, e, now);
    }

    lemma {:induction false} EnteredIsAfter(values: TableValues, e: OneLeader.Request, now: int)
      requires Alone() && Queues(values, serverName) && e.LockRequest?
      requires Accepts(RowAt(CleanedTable(values, serverName, now, true), e.objectName), e, now)
      ensures var clean, after := CleanedTable(values, serverName, now, true), After(values, serverName, e, now);
              && TableInvariant(EnteredTable(clean, e, now)) && TableInvariant(after) && Queues(after, serverName)
              && CleanedTable(EnteredTable(clean, e, now), serverName, now, true) == after
              && CleanedTable(after, serverName, now, true) == after
    {
      var clean, o := CleanedTable(values, serverName, now, true), e.objectName;
      var row := RowAt(values, o);
      CleanedAt(values, serverName, now, o);
      EnteredRow(row, e, now);
      LockedIsAfter(values, serverName, e, now, LockedRow(row, serverName, e, now));
      RequestRefines(values, serverName, TimerRings, now, o);
      CleanedTableIsAfter(values, serverName, TimerRings, now);
      WithRowInvariant(clean, o, LockedRow(row, serverName, e, now), serverName);
      RequestRefines(values, serverName, e, now, o);
    }

    /** What an exception of max_ticket leaves behind: the ticket is in the entering table for good. */
    predicate LeftEntering(clean: TableValues, request: Requests.Request)
      requires request.pid > 0
      reads this`tickets, this`entering, Members(tickets)
    {
      Values(tickets) == clean && entering.Keys == {(request.objectName, ClientKey(request.server, request.pid))}
    }

    lemma IsNew(request: Requests.Request, timeout: int, now: int, clean: TableValues)
      requires request.pid > 0 && Accepts(RowAt(clean, request.objectName), LockOf(request, timeout), now)
      ensures var o, key := request.objectName, ClientKey(request.server, request.pid);
              var r := NewRecord(serverName, key, timeout, request.duration, UnlockParameter(request));
              && FifoLock.Find(QueueAt(clean, o), key) == |RowAt(clean, o)|
              && !r.progress.quorum && !r.progress.getMax && !r.progress.added
    {
    }

    method Create(request: Requests.Request, key: EnteringKey, timeout: int) returns (t: Ticket)
      requires entering == map[]
      modifies this`entering
      ensures fresh(t) && t.objectName == request.objectName && t.enteringKey == key
      ensures t.View() == NewRecord(serverName, key, timeout, request.duration, UnlockParameter(request))
      ensures entering == map[(request.objectName, key) := t]
    {
      t := NewTicket(request, key, timeout);
      entering := entering[(request.objectName, key) := t];
    }

    method CreateAndEnter(request: Requests.Request, timeout: int, now: int, ghost clean: TableValues)
        returns (ok: bool)
      requires Alone() && Valid() && entering == map[] && clean == Values(tickets)
      requires request.pid > 0 && QueueRow(RowAt(clean, request.objectName), serverName)
      requires Accepts(RowAt(clean, request.objectName), LockOf(request, timeout), now)
      modifies this`tickets, this`entering, Members(tickets)
      ensures ok <==> LastNumber(RowAt(clean, request.objectName)) + 1 < NUMBER_LIMIT
      ensures ok ==> TableOk(tickets) && entering == map[] && fresh(Members(tickets) - old(Members(tickets)))
      ensures ok ==> Values(tickets) == EnteredTable(clean, LockOf(request, timeout), now)
      ensures !ok ==> LeftEntering(clean, request)
    {
      IsNew(request, timeout, now, clean);
      hide ActivatedAlone, LastNumber, QueueRow, ClientKey, WithRowAt, RowAt, NewRecord, Accepts, QueueAt, TableOk,
           TableInvariant, Members, Values;
      var o, key := request.objectName, ClientKey(request.server, request.pid);
      var t := Create(request, key, timeout);
      ok := EnterAlone(o, key, t, now, clean, t.View());
    }

    /** The clean ups at the end of msg_lock_exiting and of msg_lock. */
    method CleanupTwice(now: int, ghost entered: TableValues, ghost after: TableValues)
      requires Alone() && Valid() && entering == map[] && Values(tickets) == entered
      requires TableInvariant(after) && CleanedTable(entered, serverName, now, true) == after
      requires CleanedTable(after, serverName, now, true) == after
      requires Live(cache, now) == cache && Lost(cache, now) == []
      modifies this`cache, this`replies, this`timer, this`tickets, this`entering, Members(tickets)
      ensures Alone() && Valid() && entering == map[] && Values(tickets) == after
      ensures Members(tickets) <= old(Members(tickets)) && cache == old(cache) && replies == old(replies)
    {
      CleanupAlone(now, entered);
      CleanupAlone(now, after);
    }

    /** The end of msg_lock, for a request that is accepted; the table was cleaned before. */
    method LockAlone(request: Requests.Request, timeout: int, now: int, ghost values: TableValues) returns (ok: bool)
      requires Alone() && Valid() && entering == map[] && Queues(values, serverName)
      requires Values(tickets) == CleanedTable(values, serverName, now, true) && Queues(Values(tickets), serverName)
      requires request.pid > 0 && Accepts(RowAt(Values(tickets), request.objectName), LockOf(request, timeout), now)
      requires Live(cache, now) == cache && Lost(cache, now) == []
      modifies this`cache, this`replies, this`timer, this`tickets, this`entering, Members(tickets)
      ensures ok <==> LastNumber(RowAt(CleanedTable(values, serverName, now, true),
          request.objectName)) + 1 < NUMBER_LIMIT
      ensures ok ==> Table() == Some(After(values, serverName, LockOf(request, timeout), now))
      ensures ok ==> fresh(Members(tickets) - old(Members(tickets)))
      ensures cache == old(cache) && replies == old(replies)
      ensures !ok ==> LeftEntering(CleanedTable(values, serverName, now, true), request)
    {
      hide CleanedTable, EnteredTable, LastNumber;
      ghost var e, clean := LockOf(request, timeout), Values(tickets);
      ok := CreateAndEnter(request, timeout, now, clean);
      EnteredIsAfter(values, e, now);
      if ok {
        CleanupTwice(now, EnteredTable(clean, e, now), After(values, serverName, e, now));
      }
    }

    /** The checks of msg_lock that do not look at the ticket tables. */
    method CheckLock(request: Requests.Request, timeout: int, now: int) returns (outcome: Outcome)
      requires request.pid > 0
      modifies this`cache, this`replies, this`timer
      ensures outcome == Verdict(request, timeout, now, ready, leader, []) || outcome == Entered
      ensures outcome == Entered <==> ready && leader && ParameterError(request, timeout, now).None?
      ensures replies == Answered(old(replies), request, outcome)
      ensures cache == if outcome == KeptForLater then old(cache) + [Cached(timeout, request)] else old(cache)
      ensures timer == if outcome == KeptForLater && (old(timer) == -1 || TimerDate(old(timer)) > timeout) then timeout
          else old(timer)
    {
      outcome := Entered;
      if timeout <= now {
        outcome := RefusedWith(TimedOutError);
        replies := replies + [Refused(request, TimedOutError)];
      } else if request.duration < MINIMUM_TIMEOUT {
        outcome := RefusedWith(InvalidError);
        replies := replies + [Refused(request, InvalidError)];
      } else if request.unlockDuration.Some? && request.unlockDuration.value < UNLOCK_MINIMUM_TIMEOUT {
        outcome := RefusedWith(InvalidError);
        replies := replies + [Refused(request, InvalidError)];
      } else if !ready {
        outcome := KeptForLater;
        cache := cache + [Cached(timeout, request)];
        if timer == -1 || timer / SECOND * SECOND + timer % SECOND / 1000 > timeout {
          timer := timeout;
        }
      } else if !leader {
        outcome := SentToLeader;
        replies := replies + [Forwarded(request)];
      }
    }

    method CheckLockBeside(request: Requests.Request, timeout: int, now: int, ghost values: TableValues)
        returns (outcome: Outcome)
      requires Table() == Some(values) && request.pid > 0
      modifies this`cache, this`replies, this`timer
      ensures Table() == Some(values)
      ensures Checked(request, timeout, now, outcome)
      ensures replies == Answered(old(replies), request, outcome)
      ensures cache == if outcome == KeptForLater then old(cache) + [Cached(timeout, request)] else old(cache)
    {
      outcome := CheckLock(request, timeout, now);
      assert Values(tickets) == values;
    }

    /** Entered stands for a request that is not answered yet. */
    predicate Checked(request: Requests.Request, timeout: int, now: int, outcome: Outcome)
      reads this`ready, this`leader
    {
      if ready && leader && ParameterError(request, timeout, now).None? then outcome == Entered
      else outcome != Entered && outcome != Throws && outcome != Ignored && outcome == Verdict(request, timeout, now, ready, leader, [])
    }

    method RefuseDuplicate(request: Requests.Request, ghost values: TableValues)
      requires Table() == Some(values)
      modifies this`replies
      ensures Ledger() == Books(Some(values), old(cache), Answered(old(replies), request, RefusedWith(DuplicateError)))
    {
      replies := replies + [Refused(request, DuplicateError)];
      assert Values(tickets) == values;
    }

    /** An accepted request; an exception leaves the rest open. */
    method LockFree(request: Requests.Request, timeout: int, now: int, ghost values: TableValues)
        returns (outcome: Outcome)
      requires Queues(values, serverName) && Table() == Some(CleanedTable(values, serverName, now, true))
      requires request.pid > 0 && Live(cache, now) == cache && Lost(cache, now) == []
      requires Accepts(RowAt(CleanedTable(values, serverName, now, true), request.objectName),
          LockOf(request, timeout), now)
      modifies this`cache, this`replies, this`timer, this`tickets, this`entering, Members(tickets)
      ensures outcome == NewVerdict(request, timeout, now,
          RowAt(CleanedTable(values, serverName, now, true), request.objectName))
      ensures outcome != Throws ==> Ledger() == Books(Some(After(values, serverName, LockOf(request, timeout), now)),
          old(cache), old(replies))
      ensures outcome == Throws ==> cache == old(cache) && replies == old(replies)
      ensures outcome == Throws ==> LeftEntering(CleanedTable(values, serverName, now, true), request)
      ensures outcome != Throws ==> fresh(Members(tickets) - old(Members(tickets)))
    {
      var ok := LockAlone(request, timeout, now, values);
      outcome := if ok then Entered else Throws;
    }

    method HasNoTicket(request: Requests.Request, timeout: int, now: int, ghost clean: TableValues) returns (free: bool)
      requires clean == Values(tickets) && request.pid > 0 && now < timeout
      ensures free <==> Accepts(RowAt(clean, request.objectName), LockOf(request, timeout), now)
    {
      var row := Row(tickets, request.objectName);
      assert Views(row) == RowAt(clean, request.objectName);
      var i := FindTicket(row, ClientKey(request.server, request.pid));
      free := i == |row|;
    }

    method LockOrRefuse(free: bool, request: Requests.Request, timeout: int, now: int, ghost values: TableValues,
        ghost clean: TableValues)
      returns (outcome: Outcome)
      requires Queues(values, serverName) && clean == CleanedTable(values, serverName, now, true)
          && Table() == Some(clean)
      requires request.pid > 0 && Live(cache, now) == cache && Lost(cache, now) == []
      requires free == Accepts(RowAt(clean, request.objectName), LockOf(request, timeout), now)
      modifies this`cache, this`replies, this`timer, this`tickets, this`entering, Members(tickets)
      ensures outcome == NewVerdict(request, timeout, now, RowAt(clean, request.objectName))
      ensures outcome != Throws ==>
          Ledger() == Books(Some(TableFor(serverName, outcome, request, timeout, now, values)),
          old(cache), Answered(old(replies), request, outcome))
      ensures outcome == Throws ==> cache == old(cache) && replies == old(replies) && LeftEntering(clean, request)
      ensures outcome != Throws ==> fresh(Members(tickets) - old(Members(tickets)))
    {
      hide CleanedTable, Accepts, Live, Lost, Queues, LeftEntering;
      if free {
        outcome := LockFree(request, timeout, now, values);
      } else {
        outcome := RefusedWith(DuplicateError);
        RefuseDuplicate(request, clean);
      }
    }

    /** The part of msg_lock that looks at the ticket table. */
    method LockIfNew(request: Requests.Request, timeout: int, now: int, ghost values: TableValues,
        ghost clean: TableValues) returns (outcome: Outcome)
      requires Queues(values, serverName) && clean == CleanedTable(values, serverName, now, true)
          && Table() == Some(clean)
      requires request.pid > 0 && now < timeout && Live(cache, now) == cache && Lost(cache, now) == []
      modifies this`cache, this`replies, this`timer, this`tickets, this`entering, Members(tickets)
      ensures outcome == NewVerdict(request, timeout, now, RowAt(clean, request.objectName))
      ensures outcome != Throws ==>
          Ledger() == Books(Some(TableFor(serverName, outcome, request, timeout, now, values)),
          old(cache), Answered(old(replies), request, outcome))
      ensures outcome == Throws ==> cache == old(cache) && replies == old(replies) && LeftEntering(clean, request)
      ensures outcome != Throws ==> fresh(Members(tickets) - old(Members(tickets)))
    {
      var free := HasNoTicket(request, timeout, now, clean);
      outcome := LockOrRefuse(free, request, timeout, now, values, clean);
    }

    method CleanBeforeLock(now: int, ghost values: TableValues)
      requires Table() == Some(values)
      modifies this`cache, this`replies, this`timer, this`tickets, this`entering, Members(tickets)
      ensures Table() == Some(CleanedTable(values, serverName, now, true))
      ensures Queues(values, serverName) && Members(tickets) <= old(Members(tickets))
      ensures cache == Live(old(cache), now) && replies == old(replies) + Lost(old(cache), now)
      ensures Live(cache, now) == cache && Lost(cache, now) == []
    {
      LiveAgain(cache, |cache|, now);
      CleanupAlone(now, values);
      RequestRefines(values, serverName, TimerRings, now, "");
      CleanedTableIsAfter(values, serverName, TimerRings, now);
    }

    /** msg_lock after its checks; Entered stands for a request that passed them. */
    method LockChecked(checked: Outcome, request: Requests.Request, timeout: int, now: int, ghost values: TableValues,
        ghost clean: TableValues) returns (outcome: Outcome)
      requires Queues(values, serverName) && clean == CleanedTable(values, serverName, now, true)
          && Table() == Some(clean)
      requires request.pid > 0 && checked != Throws
      requires checked == Entered ==> now < timeout && Live(cache, now) == cache && Lost(cache, now) == []
      modifies this`cache, this`replies, this`timer, this`tickets, this`entering, Members(tickets)
      ensures outcome == if checked == Entered then NewVerdict(request, timeout, now, RowAt(clean, request.objectName))
                         else checked
      ensures outcome != Throws ==>
        Ledger() == Books(Some(TableFor(serverName, outcome, request, timeout, now, values)), old(cache),
                          if checked == Entered then Answered(old(replies), request, outcome) else old(replies))
      ensures outcome == Throws ==> cache == old(cache) && replies == old(replies) && LeftEntering(clean, request)
      ensures outcome != Throws ==> fresh(Members(tickets) - old(Members(tickets)))
    {
      outcome := checked;
      if checked == Entered {
        outcome := LockIfNew(request, timeout, now, values, clean);
      }
    }

    /** The checks come first, and do not depend on the table. */
    lemma {:induction false} VerdictOf(request: Requests.Request, timeout: int, now: int, checked: Outcome,
        clean: TableValues)
      requires request.pid > 0 && Checked(request, timeout, now, checked)
      ensures Verdict(request, timeout, now, ready, leader, RowAt(clean, request.objectName))
           == if checked == Entered then NewVerdict(request, timeout, now, RowAt(clean, request.objectName))
               else checked
      ensures checked == Entered ==> now < timeout
      ensures checked != Throws
    {
    }

    /** Only one of the two parts of msg_lock answers, and only the first one caches. */
    lemma {:induction false} AnsweredOnce(checked: Outcome, outcome: Outcome, request: Requests.Request, timeout: int,
        now: int, clean: seq<Record>, cached: seq<Cached>, sent: seq<Reply>)
      requires request.pid > 0
      requires outcome == if checked == Entered then NewVerdict(request, timeout, now, clean) else checked
      ensures Answered(sent, request, outcome)
           == if checked == Entered then Answered(Answered(sent, request, checked), request, outcome)
              else Answered(sent, request, checked)
      ensures CacheFor(outcome, request, timeout, cached) == CacheFor(checked, request, timeout, cached)
    {
    }

    /** msg_lock after its call of cleanup. */
    method LockCleaned(request: Requests.Request, timeout: int, now: int, ghost values: TableValues,
        ghost clean: TableValues) returns (outcome: Outcome)
      requires Queues(values, serverName) && clean == CleanedTable(values, serverName, now, true)
          && Table() == Some(clean)
      requires request.pid > 0 && Live(cache, now) == cache && Lost(cache, now) == []
      modifies this`cache, this`replies, this`timer, this`tickets, this`entering, Members(tickets)
      ensures outcome == Verdict(request, timeout, now, ready, leader, RowAt(clean, request.objectName))
      ensures outcome != Throws ==>
          Ledger() == Books(Some(TableFor(serverName, outcome, request, timeout, now, values)),
                                                      CacheFor(outcome, request, timeout, old(cache)),
                                                      Answered(old(replies), request, outcome))
      ensures outcome == Throws ==> cache == old(cache) && replies == old(replies) && LeftEntering(clean, request)
      ensures outcome != Throws ==> fresh(Members(tickets) - old(Members(tickets)))
    {
      hide Verdict, NewVerdict, TableFor, Checked;
      var checked := CheckLockBeside(request, timeout, now, clean);
      VerdictOf(request, timeout, now, checked, clean);
      outcome := LockChecked(checked, request, timeout, now, values, clean);
      AnsweredOnce(checked, outcome, request, timeout, now, RowAt(clean, request.objectName), old(cache), old(replies));
    }

    /** msg_lock on a daemon that is alone, for a request with a valid process identifier.  No
        ticket is entering then, so the checks on the entering table cannot fire. */
    method LockValid(request: Requests.Request, timeout: int, now: int, ghost values: TableValues)
        returns (outcome: Outcome)
      requires Table() == Some(values) && request.pid > 0
      modifies this`cache, this`replies, this`timer, this`tickets, this`entering, Members(tickets)
      ensures outcome == Verdict(request, timeout, now, ready, leader,
          RowAt(CleanedTable(values, serverName, now, true), request.objectName))
      ensures outcome != Throws ==> fresh(Members(tickets) - old(Members(tickets)))
      ensures outcome != Throws ==> Ledger() == BooksFor(outcome, request, timeout, now, values, old(cache),
          old(replies))
      ensures outcome == Throws ==> cache == Live(old(cache), now) && replies == old(replies) + Lost(old(cache), now)
      ensures outcome == Throws ==> LeftEntering(CleanedTable(values, serverName, now, true), request)
    {
      CleanBeforeLock(now, values);
      outcome := LockCleaned(request, timeout, now, values, CleanedTable(values, serverName, now, true));
    }

    ghost function CacheFor(outcome: Outcome, request: Requests.Request, timeout: int, live: seq<Cached>): seq<Cached> {
      if outcome == KeptForLater then live + [Cached(timeout, request)] else live
    }

    /** After msg_lock with this outcome; the cache was cleaned first. */
    ghost function BooksFor(outcome: Outcome, request: Requests.Request, timeout: int, now: int, values: TableValues,
        cached: seq<Cached>, sent: seq<Reply>): Books
      requires request.pid > 0
    {
      Books(Some(TableFor(serverName, outcome, request, timeout, now, values)),
                  CacheFor(outcome, request, timeout, Live(cached, now)),
                  Answered(sent + Lost(cached, now), request, outcome))
    }

    method MsgLock(request: Requests.Request, now: int) returns (outcome: Outcome)
      requires Table().Some?
      modifies this`cache, this`replies, this`timer, this`tickets, this`entering, Members(tickets)
      ensures var timeout, values := Timeout(request, obtention, now), old(Table()).value;
              && outcome == Verdict(request, timeout, now, ready, leader,
                  RowAt(CleanedTable(values, serverName, now, true), request.objectName))
              && (outcome == Ignored ==> Ledger() == old(Ledger()))
              && (outcome != Ignored && outcome != Throws ==>
                  Ledger() == BooksFor(outcome, request, timeout, now, values, old(cache), old(replies)))
      ensures outcome == Throws ==> cache == Live(old(cache), now) && replies == old(replies) + Lost(old(cache), now)
      ensures outcome == Throws ==>
          request.pid > 0 && LeftEntering(CleanedTable(old(Table()).value, serverName, now, true), request)
      ensures outcome != Throws ==> fresh(Members(tickets) - old(Members(tickets)))
      ensures outcome in {KeptForLater, SentToLeader} || outcome.RefusedWith? ==>
          Table() == Some(CleanedTable(old(Table()).value, serverName, now, true))
      ensures var timeout := Timeout(request, obtention, now);
              request.pid > 0 && Sound(request, timeout, now) && !ready ==>
                IsEarly(old(cache), old(replies), Cached(timeout, request), now, cache, replies)
      ensures outcome == SentToLeader
         <==> request.pid > 0 && Sound(request, Timeout(request, obtention, now), now) && ready && !leader
    {
      hide Verdict, CleanedTable, LeftEntering, Sound, Ruling;
      ghost var d, values := Standing(), Table().value;
      CachedOrForwarded(d, values, request, now);
      RulingIsVerdict(d, values, request, now);
      EarlyIsEarly(cache, replies, Cached(Timeout(request, obtention, now), request), now);
      outcome := Ignored;
      if request.pid >= 1 {
        outcome := LockValid(request, Timeout(request, obtention, now), now, Table().value);
      }
    }

    method CheckElsewhere(request: Requests.Request, timeout: int, now: int) returns (outcome: Outcome)
      requires Valid() && request.pid > 0 && !(ready && leader)
      modifies this`cache, this`replies, this`timer
      ensures Valid() && outcome == Verdict(request, timeout, now, ready, leader, []) != Ignored
      ensures outcome == KeptForLater <==> Sound(request, timeout, now) && !ready
      ensures outcome == SentToLeader <==> Sound(request, timeout, now) && ready
      ensures replies == Answered(old(replies), request, outcome)
      ensures cache == if outcome == KeptForLater then old(cache) + [Cached(timeout, request)] else old(cache)
      ensures outcome == KeptForLater && now >= 0 ==> timer != -1 && timer < timeout + SECOND
    {
      hide Verdict, Sound, TableOk, EnteringOk, TableInvariant, ParameterError, TimerDate;
      EveryVerdict(request, timeout, now, ready, leader, []);
      SoundIsNoError(request, timeout, now);
      outcome := CheckLock(request, timeout, now);
      assert Values(tickets) == old(Values(tickets));
      if TimerDate(timer) <= timeout {
        TimerIsNear(timer, timeout);
      }
    }

    /** msg_lock on a daemon that is not ready or no leader, whatever the number of computers. */
    method MsgLockElsewhere(request: Requests.Request, now: int) returns (outcome: Outcome)
      requires Valid() && !(ready && leader)
      modifies this`cache, this`replies, this`timer, this`tickets, this`entering, Members(tickets), entering.Values
      ensures Valid()
      ensures outcome == Verdict(request, Timeout(request, obtention, now), now, ready, leader, [])
      ensures outcome == Ignored ==> cache == old(cache) && replies == old(replies)
      ensures var timeout := Timeout(request, obtention, now);
              request.pid > 0 && Sound(request, timeout, now) && !ready ==>
                IsEarly(old(cache), old(replies), Cached(timeout, request), now, cache, replies)
      ensures outcome == SentToLeader <==>
          request.pid > 0 && Sound(request, Timeout(request, obtention, now), now) && ready
      ensures outcome != Ignored ==> replies == Answered(old(replies) + Lost(old(cache), now), request, outcome)
      ensures outcome == KeptForLater && now >= 0 ==> timer != -1 && timer < Timeout(request, obtention, now) + SECOND
    {
      hide Verdict, Sound, TableOk, EnteringOk, TableInvariant, IsAlarm, EnteringSwept, CleanedTable;
      outcome := Ignored;
      if request.pid >= 1 {
        EarlyIsEarly(cache, replies, Cached(Timeout(request, obtention, now), request), now);
        ghost var _ := Cleanup(now);
        outcome := CheckElsewhere(request, Timeout(request, obtention, now), now);
      } else {
        NotAProcess(request, Timeout(request, obtention, now), now, ready, leader);
      }
    }

    /** forward_message_to_leader. */
    method ForwardToLeader(request: Requests.Request, ghost values: TableValues)
      requires Table() == Some(values)
      modifies this`replies
      ensures Table() == Some(values) && replies == old(replies) + [Forwarded(request)]
    {
      replies := replies + [Forwarded(request)];
      assert Values(tickets) == values;
    }

    /** msg_unlock on a daemon that is alone; false when it ignores or forwards the message. */
    method MsgUnlock(request: Requests.Request, now: int) returns (handled: bool)
      requires Table().Some?
      modifies this`cache, this`replies, this`timer, this`tickets, this`entering, Members(tickets)
      ensures handled <==> ready && leader && request.pid > 0
      ensures var values := old(Table()).value;
              Table() == Some(if handled
                              then After(values, serverName, UnlockRequest(request.objectName,
                                  ClientKey(request.server, request.pid)), now)
                              else values)
      ensures cache == if handled then Live(old(cache), now) else old(cache)
      ensures replies == if handled then old(replies) + Lost(old(cache), now)
                         else if ready && !leader then old(replies) + [Forwarded(request)] else old(replies)
    {
      handled := false;
      if !ready {
        return;
      }
      if !leader {
        ForwardToLeader(request, Table().value);
        return;
      }
      if request.pid < 1 {
        return;
      }
      UnlockAlone(request.objectName, ClientKey(request.server, request.pid), now, Table().value);
      handled := true;
    }

    /** The timer of the daemon. */
    method ProcessTimeout(now: int)
      requires Table().Some?
      modifies this`cache, this`replies, this`timer, this`tickets, this`entering, Members(tickets)
      ensures Table() == Some(After(old(Table()).value, serverName, TimerRings, now))
      ensures cache == Live(old(cache), now) && replies == old(replies) + Lost(old(cache), now)
    {
      CleanedTableIsAfter(Table().value, serverName, TimerRings, now);
      CleanBeforeLock(now, Table().value);
    }

    ghost function Standing(): Daemon
      reads this`ready, this`leader
    {
      Daemon(serverName, obtention, ready, leader)
    }

    /** The ticket table while the requests of an emptied cache are replayed. */
    ghost function Idle(): Option<TableValues>
      reads this`tickets, this`entering, this`computers, this`cache, Members(tickets)
    {
      if cache == [] then Table() else None
    }

    /** One cached request; nothing is cached again because the daemon is ready. */
    method ReplayOne(request: Requests.Request, now: int, ghost values: TableValues, ghost d: Daemon) returns (ok: bool)
      requires Idle() == Some(values) && ready && d == Standing()
      modifies this`cache, this`replies, this`timer, this`tickets, this`entering, Members(tickets)
      ensures ok <==> Ruling(d, values, request, now) != Throws
      ensures cache == [] && replies == Answered(old(replies), request, Ruling(d, values, request, now))
      ensures ok ==> Idle() == Some(Handled(d, values, request, now)) && fresh(Members(tickets) - old(Members(tickets)))
      ensures !ok ==> request.pid > 0 && LeftEntering(CleanedTable(values, serverName, now, true), request)
    {
      hide Verdict, CleanedTable;
      ReadyVerdict(d, values, request, now);
      var outcome := MsgLock(request, now);
      ok := outcome != Throws;
    }

    /** The first `n` cached requests are replayed. */
    ghost predicate ReplayedUpTo(sent: seq<Reply>, d: Daemon, values: TableValues, requests: seq<Cached>, n: nat,
        now: int)
      reads this`tickets, this`entering, this`computers, this`cache, this`replies, Members(tickets)
    {
      && n <= |requests| && Survives(d, values, requests, n, now)
      && Idle() == Some(Replayed(d, values, requests, n, now))
      && replies == AnsweredFirst(sent, d, values, requests, n, now)
    }

    /** The replay ended with an exception of the `n`-th request: the ones before it are handled, and
        nothing is left of the others. */
    ghost predicate StoppedAt(sent: seq<Reply>, d: Daemon, values: TableValues, requests: seq<Cached>, n: nat, now: int)
      reads this`tickets, this`entering, this`cache, this`replies, Members(tickets)
    {
      && n < |requests| && Survives(d, values, requests, n, now) && RulingAt(d, values, requests, n, now) == Throws
      && cache == [] && replies == AnsweredFirst(sent, d, values, requests, n + 1, now)
      && requests[n].request.pid > 0
      && LeftEntering(CleanedTable(Replayed(d, values, requests, n, now), serverName, now, true), requests[n].request)
    }

    lemma ReplayStarts(requests: seq<Cached>, now: int, values: TableValues, d: Daemon)
      requires Idle() == Some(values)
      ensures ReplayedUpTo(replies, d, values, requests, 0, now)
    {
    }

    method ReplayTurn(requests: seq<Cached>, i: nat, now: int, ghost values: TableValues, ghost d: Daemon,
        ghost sent: seq<Reply>)
      returns (ok: bool)
      requires i < |requests| && ReplayedUpTo(sent, d, values, requests, i, now) && ready && d == Standing()
      modifies this`cache, this`replies, this`timer, this`tickets, this`entering, Members(tickets)
      ensures if ok then ReplayedUpTo(sent, d, values, requests, i + 1, now)
              else StoppedAt(sent, d, values, requests, i, now)
      ensures ok ==> fresh(Members(tickets) - old(Members(tickets)))
    {
      hide Ruling, Handled, Answered, CleanedTable, LeftEntering, Idle;
      ok := ReplayOne(requests[i].request, now, Replayed(d, values, requests, i, now), d);
      if ok {
        OneMoreSurvives(d, values, requests, i, now);
      }
    }

    /** The replay; it may end with an exception of the `n`-th request. */
    method Replay(requests: seq<Cached>, now: int, ghost values: TableValues, ghost d: Daemon, ghost sent: seq<Reply>)
      returns (ok: bool, ghost n: nat)
      requires ReplayedUpTo(sent, d, values, requests, 0, now) && ready && d == Standing()
      modifies this`cache, this`replies, this`timer, this`tickets, this`entering, Members(tickets)
      ensures if ok then ReplayedUpTo(sent, d, values, requests, |requests|, now)
              else StoppedAt(sent, d, values, requests, n, now)
    {
      hide ReplayedUpTo, StoppedAt;
      ok, n := true, 0;
      var i: nat := 0;
      while i < |requests|
        invariant i == n <= |requests| && ReplayedUpTo(sent, d, values, requests, i, now)
        invariant fresh(Members(tickets) - old(Members(tickets)))
      {
        ok := ReplayTurn(requests, i, now, values, d, sent);
        if !ok {
          return;
        }
        i, n := i + 1, n + 1;
      }
    }

    /** The new status; a daemon that is ready takes the requests out of its cache. */
    method TakeCache(ghost values: TableValues) returns (requests: seq<Cached>)
      requires Table() == Some(values)
      modifies this`lockStatus, this`cache
      ensures lockStatus == ready && Table() == Some(values)
      ensures requests == old(cache) && cache == if ready then [] else old(cache)
    {
      requests := cache;
      lockStatus := ready;
      if ready {
        cache := [];
      }
      assert unchanged(Members(tickets));
    }

    /** The daemon after the replay of these requests; msg_lock was called for the first of them, up
        to one that throws. */
    ghost predicate ReplayDone(ok: bool, sent: seq<Reply>, d: Daemon, values: TableValues, requests: seq<Cached>,
        now: int)
      reads this`tickets, this`entering, this`computers, this`cache, this`replies, Members(tickets)
    {
      var n := Reached(d, values, requests, now);
      && cache == [] && replies == AnsweredFirst(sent, d, values, requests, n, now)
      && (ok <==> Throws !in AllRulings(d, values, requests, now))
      && (ok ==> Table() == Some(Replayed(d, values, requests, n, now)))
      && (!ok ==> n > 0 && requests[n - 1].request.pid > 0
                  && LeftEntering(CleanedTable(Replayed(d, values, requests, n - 1, now), serverName, now, true),
                      requests[n - 1].request))
    }

    lemma ReplayEnds(ok: bool, n: nat, sent: seq<Reply>, d: Daemon, values: TableValues, requests: seq<Cached>,
        now: int)
      requires if ok then ReplayedUpTo(sent, d, values, requests, |requests|, now)
               else StoppedAt(sent, d, values, requests, n, now)
      ensures ReplayDone(ok, sent, d, values, requests, now)
    {
      hide Replayed, RulingAt, AnsweredFirst, CleanedTable, LeftEntering;
      if ok {
        ReachedToEnd(d, values, requests, now);
      } else {
        ReachedUntil(d, values, requests, n, now);
      }
    }

    method ReplayAll(requests: seq<Cached>, now: int, ghost values: TableValues) returns (ok: bool)
      requires Idle() == Some(values) && ready
      modifies this`cache, this`replies, this`timer, this`tickets, this`entering, Members(tickets)
      ensures ReplayDone(ok, old(replies), Standing(), values, requests, now)
    {
      ghost var sent, n := replies, 0;
      ReplayStarts(requests, now, values, Standing());
      ok, n := Replay(requests, now, values, Standing(), sent);
      ReplayEnds(ok, n, sent, Standing(), values, requests, now);
    }

    /** check_lock_status: when the daemon becomes ready it replays the cached requests through
        msg_lock in their order of arrival.  An exception ends the replay, if and only if msg_lock
        throws for one of them on the table that its predecessors leave; the requests after it are
        neither handled nor answered, and the cache is empty all the same. */
    method CheckLockStatus(now: int) returns (status: StatusMessage, ok: bool)
      requires Table().Some?
      modifies this`lockStatus, this`cache, this`replies, this`timer, this`tickets, this`entering, Members(tickets)
      ensures lockStatus == ready
      ensures status == if old(lockStatus) == ready then NoMessage else if ready then LockReady else NoLock
      ensures status != LockReady ==> ok && Ledger() == old(Ledger())
      ensures status == LockReady ==> ReplayDone(ok, old(replies), Standing(), old(Table()).value, old(cache), now)
    {
      hide ReplayDone, ReplayedUpTo, StoppedAt;
      if lockStatus == ready {
        return NoMessage, true;
      }
      ghost var values := Table().value;
      var requests := TakeCache(values);
      if ready {
        ok := ReplayAll(requests, now, values);
        return LockReady, ok;
      }
      return NoLock, true;
    }
  }
}
