/** One row of the ticket table: the tickets of one object name in key order, as values. */
module TicketRow {
  import opened KeyOrder
  import opened TicketProgress
  import opened TicketRecord

  /** ticket::activate_lock; with one leader it goes on to lock_activated at once. */
  function Activation(r: Record, me: ServerName, now: int, alone: bool): Record {
    if alone && CanLock(r.progress) then Lock(AskActivation(r), me, now) else AskActivation(r)
  }

  function HeadActivated(row: seq<Record>, me: ServerName, now: int, alone: bool): (a: seq<Record>)
    ensures |a| == |row|
  {
    if row == [] then [] else [Activation(row[0], me, now, alone)] + row[1..]
  }

  /** cluckd::activate_first_lock: find_first_lock sweeps the row first. */
  function FirstActivated(row: seq<Record>, me: ServerName, now: int, alone: bool): (a: seq<Record>)
    ensures |a| <= |row|
  {
    HeadActivated(Swept(row, me, now), me, now, alone)
  }

  /** What cluckd::cleanup does with a row: it activates only if it erased a ticket. */
  function Cleaned(row: seq<Record>, me: ServerName, now: int, alone: bool): (c: seq<Record>)
    ensures |c| <= |row|
  {
    var kept := Swept(row, me, now);
    if |kept| < |row| then FirstActivated(kept, me, now, alone) else kept
  }

  /** A swept row stays as it is under another sweep. */
  lemma SweptAgain(row: seq<Record>, me: ServerName, now: int)
    ensures Swept(Swept(row, me, now), me, now) == Swept(row, me, now) && Current(Swept(row, me, now), now)
  {
    var kept := Swept(row, me, now);
    SweptIsCurrent(row, |row|, me, now);
    CurrentIsSwept(kept, |kept|, me, now);
    assert kept[..|kept|] == kept;
  }

  lemma ActivationCurrent(r: Record, me: ServerName, now: int, alone: bool)
    requires !TimedOut(r, now)
    ensures !TimedOut(Activation(r, me, now, alone), now)
  {
  }

  lemma HeadActivatedCurrent(row: seq<Record>, me: ServerName, now: int, alone: bool)
    requires Current(row, now)
    ensures Current(HeadActivated(row, me, now, alone), now)
  {
    if row != [] {
      ActivationCurrent(row[0], me, now, alone);
    }
  }

  /** The head that a cleaned row starts with may be new; the others only went through the sweep. */
  lemma CleanedIsCurrent(row: seq<Record>, me: ServerName, now: int, alone: bool)
    ensures Current(Cleaned(row, me, now, alone), now)
    ensures var kept := Swept(row, me, now);
            Cleaned(row, me, now, alone) == if |kept| < |row| then HeadActivated(kept, me, now, alone) else kept
  {
    SweptAgain(row, me, now);
    HeadActivatedCurrent(Swept(row, me, now), me, now, alone);
  }

  /** Cleaning twice at the same time is cleaning once. */
  lemma CleanedTwice(row: seq<Record>, me: ServerName, now: int, alone: bool)
    ensures Cleaned(Cleaned(row, me, now, alone), me, now, alone) == Cleaned(row, me, now, alone)
  {
    var c := Cleaned(row, me, now, alone);
    CleanedIsCurrent(row, me, now, alone);
    CurrentIsSwept(c, |c|, me, now);
    assert c[..|c|] == c;
  }

  /** In key order, as the map of the source keeps them; so no two tickets share a key. */
  predicate Sorted(row: seq<Record>) {
    forall i, j :: 0 <= i < j < |row| ==> KeyBefore(row[i].progress.Key(), row[j].progress.Key())
  }

  predicate KeyAmong(key: TicketKey, row: seq<Record>, n: nat)
    requires n <= |row|
  {
    exists i :: 0 <= i < n && row[i].progress.Key() == key
  }

  /** Every kept ticket is one of the first `n`, with its key. */
  lemma {:induction false} SweptKeys(row: seq<Record>, n: nat, me: ServerName, now: int)
    requires n <= |row|
    ensures forall r :: r in SweptFirst(row, n, me, now) ==> KeyAmong(r.progress.Key(), row, n)
  {
    if n > 0 {
      SweptKeys(row, n - 1, me, now);
      forall r | r in SweptFirst(row, n, me, now) ensures KeyAmong(r.progress.Key(), row, n) {
        if r in SweptFirst(row, n - 1, me, now) {
          assert KeyAmong(r.progress.Key(), row, n - 1);
        } else {
          assert row[n - 1].progress.Key() == r.progress.Key();
        }
      }
    }
  }

  /** A ticket with the key of the next one of the row can follow the ones kept so far. */
  lemma SweptBefore(row: seq<Record>, n: nat, kept: seq<Record>)
    requires n < |row| && Sorted(row) && Sorted(kept) && forall r :: r in kept ==> KeyAmong(r.progress.Key(), row, n)
    ensures forall r: Record :: r.progress.Key() == row[n].progress.Key() ==> Sorted(kept + [r])
  {
    forall i | 0 <= i < |kept| ensures KeyBefore(kept[i].progress.Key(), row[n].progress.Key()) {
      assert KeyAmong(kept[i].progress.Key(), row, n);
    }
  }

  lemma OneSweptKey(kept: seq<Record>, r: Record, me: ServerName, now: int)
    ensures OneSwept(kept, r, me, now) == kept || OneSwept(kept, r, me, now) == kept + [Sweep(r, me, now).record]
    ensures Sweep(r, me, now).record.progress.Key() == r.progress.Key()
  {
  }

  lemma {:induction false} SweptSorted(row: seq<Record>, n: nat, me: ServerName, now: int)
    requires n <= |row| && Sorted(row)
    ensures Sorted(SweptFirst(row, n, me, now))
  {
    if n > 0 {
      SweptSorted(row, n - 1, me, now);
      SweptKeys(row, n - 1, me, now);
      var kept := SweptFirst(row, n - 1, me, now);
      SweptBefore(row, n - 1, kept);
      OneSweptKey(kept, row[n - 1], me, now);
      hide Sorted, KeyAmong, OneSwept;
    }
  }

  lemma HeadActivatedSorted(row: seq<Record>, me: ServerName, now: int, alone: bool)
    requires Sorted(row)
    ensures Sorted(HeadActivated(row, me, now, alone))
  {
    var a := HeadActivated(row, me, now, alone);
    forall i | 0 <= i < |row| ensures a[i].progress.Key() == row[i].progress.Key() {
    }
  }

  lemma CleanedSorted(row: seq<Record>, me: ServerName, now: int, alone: bool)
    requires Sorted(row)
    ensures Sorted(Cleaned(row, me, now, alone))
  {
    SweptSorted(row, |row|, me, now);
    CleanedIsCurrent(row, me, now, alone);
    HeadActivatedSorted(Swept(row, me, now), me, now, alone);
  }

  /** cluckd::get_last_ticket: the largest number of a row, 0 for an empty one. */
  predicate IsLastNumber(row: seq<Record>, last: nat) {
    && (forall i :: 0 <= i < |row| ==> row[i].progress.number <= last)
    && (last == 0 || exists i :: 0 <= i < |row| && row[i].progress.number == last)
  }

  function LastNumber(row: seq<Record>): (last: nat)
    ensures IsLastNumber(row, last)
  {
    if row == [] then 0
    else
      var so, n := LastNumber(row[..|row| - 1]), row[|row| - 1].progress.number;
      assert forall i :: 0 <= i < |row| - 1 ==> row[..|row| - 1][i] == row[i];
      Max(so, n)
  }

  lemma LastNumberUnique(row: seq<Record>, last: nat)
    requires IsLastNumber(row, last)
    ensures last == LastNumber(row)
  {
  }

  // ---------- the whole table ----------

  type TableValues = map<string, seq<Record>>

  function SweptTable(table: TableValues, me: ServerName, now: int): TableValues {
    map o | o in table :: Swept(table[o], me, now)
  }

  /** What cluckd::cleanup leaves of the ticket table: no row is empty. */
  function CleanedTable(table: TableValues, me: ServerName, now: int, alone: bool): TableValues {
    map o | o in table && Cleaned(table[o], me, now, alone) != [] :: Cleaned(table[o], me, now, alone)
  }

  predicate TableInvariant(table: TableValues) {
    forall o :: o in table ==> table[o] != [] && Sorted(table[o])
  }

  predicate AllCurrent(table: TableValues, now: int) { forall o :: o in table ==> Current(table[o], now) }

  lemma CleanedTableInvariant(table: TableValues, me: ServerName, now: int, alone: bool)
    requires TableInvariant(table)
    ensures var c := CleanedTable(table, me, now, alone); TableInvariant(c) && AllCurrent(c, now)
  {
    forall o | o in CleanedTable(table, me, now, alone)
      ensures var c := Cleaned(table[o], me, now, alone); Current(c, now) && Sorted(c)
    {
      CleanedIsCurrent(table[o], me, now, alone);
      CleanedSorted(table[o], me, now, alone);
    }
  }
}
