/** The earliest of the timeout dates that a sweep of the daemon meets. */
module NextTimeout {
  import opened TicketProgress
  import opened Basics
  import opened TicketRecord
  import opened TicketRow

  /** `next_timeout` of cluckd::cleanup; Never is the largest date. */
  datatype NextTimeout = Never | At(date: int)

  function Sooner(next: NextTimeout, date: int): NextTimeout {
    if next.At? && next.date <= date then next else At(date)
  }

  predicate NotAfter(next: NextTimeout, date: int) { next.At? && next.date <= date }

  /** `next` is the least of `start` and all `dates`. */
  predicate Earliest(next: NextTimeout, start: NextTimeout, dates: set<int>) {
    && (forall d :: d in dates ==> NotAfter(next, d))
    && (start.At? ==> NotAfter(next, start.date))
    && (next == start || (next.At? && next.date in dates))
  }

  /** The date that cluckd::cleanup sets on its timer: one second later, or -1 for none. */
  function Alarm(next: NextTimeout): int { if next.At? then next.date + SECOND else -1 }

  /** The timer is off when there is nothing to wait for, or rings one second after the first date. */
  predicate IsAlarm(timer: int, dates: set<int>) {
    if dates == {} then timer == -1
    else timer - SECOND in dates && forall d :: d in dates ==> timer - SECOND <= d
  }

  lemma EarliestMore(next: NextTimeout, start: NextTimeout, dates: set<int>, d: int)
    requires Earliest(next, start, dates)
    ensures Earliest(Sooner(next, d), start, dates + {d})
  {
  }

  lemma EarliestThen(last: NextTimeout, next: NextTimeout, start: NextTimeout, dates: set<int>, others: set<int>)
    requires Earliest(next, start, dates) && Earliest(last, next, others)
    ensures Earliest(last, start, dates + others)
  {
  }

  lemma AlarmOf(next: NextTimeout, cached: NextTimeout, dates: set<int>, others: set<int>)
    requires Earliest(cached, Never, dates) && Earliest(next, cached, others)
    ensures IsAlarm(Alarm(next), dates + others)
  {
    EarliestThen(next, cached, Never, dates, others);
    var all := dates + others;
    assert Earliest(next, Never, all);
    if next.Never? {
      assert forall d :: d !in all;
      assert all == {};
    } else {
      assert Alarm(next) - SECOND == next.date;
    }
  }

  function Dates(row: seq<Record>): set<int> { set i | 0 <= i < |row| :: CurrentDate(row[i]) }

  lemma DatesMore(row: seq<Record>, r: Record)
    ensures Dates(row + [r]) == Dates(row) + {CurrentDate(r)}
  {
    var more := row + [r];
    assert more[|row|] == r;
    forall d | d in Dates(row) + {CurrentDate(r)} ensures d in Dates(more) {
      if i :| 0 <= i < |row| && d == CurrentDate(row[i]) {
        assert more[i] == row[i];
      }
    }
  }

  /** The date of a ticket that a sweep keeps. */
  function StaysUntil(r: Record, me: ServerName, now: int): set<int> {
    var l := Sweep(r, me, now);
    if l.erased then {} else {CurrentDate(l.record)}
  }

  function TableDates(table: TableValues): set<int> {
    set o, d | o in table && d in Dates(table[o]) :: d
  }

  lemma TableDatesMore(table: TableValues, o: string, row: seq<Record>)
    requires o !in table
    ensures TableDates(table[o := row]) == TableDates(table) + Dates(row)
  {
    var more := table[o := row];
    forall d | d in TableDates(table) + Dates(row) ensures d in TableDates(more) {
      if d in TableDates(table) {
        var p :| p in table && d in Dates(table[p]);
        assert p in more && d in Dates(more[p]);
      } else {
        assert o in more && d in Dates(more[o]);
      }
    }
  }

  /** With two leaders or more the activation of a ticket does not change its date. */
  lemma CleanedDates(row: seq<Record>, me: ServerName, now: int)
    ensures Dates(Cleaned(row, me, now, false)) == Dates(Swept(row, me, now))
  {
    var kept, cleaned := Swept(row, me, now), Cleaned(row, me, now, false);
    SweptAgain(row, me, now);
    assert |cleaned| == |kept| && forall i :: 0 <= i < |kept| ==> CurrentDate(cleaned[i]) == CurrentDate(kept[i]);
  }

  lemma CleanedTableDates(table: TableValues, me: ServerName, now: int)
    ensures TableDates(CleanedTable(table, me, now, false)) == TableDates(SweptTable(table, me, now))
  {
    var cleaned, swept := CleanedTable(table, me, now, false), SweptTable(table, me, now);
    forall d | d in TableDates(cleaned) ensures d in TableDates(swept) {
      var o :| o in cleaned && d in Dates(cleaned[o]);
      CleanedDates(table[o], me, now);
      assert o in swept && d in Dates(swept[o]);
    }
    forall d | d in TableDates(swept) ensures d in TableDates(cleaned) {
      var o :| o in swept && d in Dates(swept[o]);
      CleanedDates(table[o], me, now);
      assert Cleaned(table[o], me, now, false) != [];
      assert o in cleaned && d in Dates(cleaned[o]);
    }
  }
}
