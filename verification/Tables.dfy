/** The tables of a daemon: rows of tickets, their values, and what the sweeps leave of them.

    Tables are ordered by key like the std::map they stand for: a row of f_tickets lists the
    tickets of one object name in key order. */
module Tables {
  import opened KeyOrder
  import opened TicketProgress
  import opened TicketRecord
  import opened TicketRow
  import opened NextTimeout
  import opened Ticket

  /** The rows of f_tickets. */
  type Table = map<string, seq<Ticket>>

  /** The values of the tickets of a row. */
  function Views(row: seq<Ticket>): (v: seq<Record>)
    reads row
    ensures |v| == |row|
  {
    seq(|row|, i requires 0 <= i < |row| reads row => row[i].View())
  }

  /** Views, one ticket at a time. */
  predicate Shows(row: seq<Ticket>, values: seq<Record>)
    reads row
  {
    |row| == |values| && forall i :: 0 <= i < |row| ==> row[i].View() == values[i]
  }

  lemma ShowsMore(row: seq<Ticket>, values: seq<Record>, t: Ticket)
    requires Shows(row, values)
    ensures Shows(row + [t], values + [t.View()])
  {
  }

  lemma ShowsRest(row: seq<Ticket>, values: seq<Record>)
    requires row != [] && Shows(row, values)
    ensures row[0].View() == values[0] && Shows(row[1..], values[1..])
  {
  }

  lemma ShowsHead(row: seq<Ticket>, head: Record, rest: seq<Record>)
    requires row != [] && row[0].View() == head && Shows(row[1..], rest)
    ensures Shows(row, [head] + rest)
  {
    assert row == [row[0]] + row[1..];
  }

  /** One object name, one ticket for each entering key. */
  predicate RowOk(o: string, row: seq<Ticket>) {
    && (forall i :: 0 <= i < |row| ==> row[i].objectName == o)
    && (forall i, j :: 0 <= i < j < |row| ==> row[i].enteringKey != row[j].enteringKey)
  }

  predicate TableOk(table: Table) {
    forall o :: o in table ==> RowOk(o, table[o]) && table[o] != []
  }

  function Row(table: Table, o: string): seq<Ticket> {
    if o in table then table[o] else []
  }

  /** `table` with the row of `o` replaced; an empty row is erased. */
  function WithRow(table: Table, o: string, row: seq<Ticket>): Table {
    if row == [] then table - {o} else table[o := row]
  }

  predicate Subset(row: seq<Ticket>, other: seq<Ticket>) {
    forall i :: 0 <= i < |row| ==> row[i] in other
  }

  /** `row` is taken from the first `n` tickets of `before`. */
  predicate Picked(o: string, before: seq<Ticket>, row: seq<Ticket>, n: nat)
    requires n <= |before|
  {
    && RowOk(o, before) && RowOk(o, row) && Subset(row, before)
    && (forall i, j :: 0 <= i < |row| && n <= j < |before| ==> row[i].enteringKey != before[j].enteringKey)
  }

  lemma PickNext(o: string, before: seq<Ticket>, row: seq<Ticket>, n: nat)
    requires n < |before| && Picked(o, before, row, n)
    ensures before[n] !in row && before[n..][1..] == before[n + 1..] && before[n] !in before[n + 1..]
    ensures Picked(o, before, row, n + 1) && Picked(o, before, row + [before[n]], n + 1)
  {
  }

  function Members(table: Table): set<Ticket> { set o, i | o in table && 0 <= i < |table[o]| :: table[o][i] }

  function Values(table: Table): TableValues
    reads Members(table)
  {
    map o | o in table :: Views(table[o])
  }

  predicate Disjoint(row: seq<Ticket>, other: seq<Ticket>) { forall i :: 0 <= i < |row| ==> row[i] !in other }

  lemma RowsApart(o: string, row: seq<Ticket>, p: string, other: seq<Ticket>)
    requires o != p && (forall i :: 0 <= i < |row| ==> row[i].objectName == o)
        && (forall i :: 0 <= i < |other| ==> other[i].objectName == p)
    ensures Disjoint(row, other)
  {
  }

  lemma {:induction false} RowsBeside(table: Table, values: TableValues, o: string, t: Ticket)
    requires TableOk(table) && t.objectName == o && values == Values(table)
    ensures forall p :: p in table && p != o ==> Disjoint(table[p], Row(table, o) + [t]) && Shows(table[p], values[p])
  {
    forall p | p in table && p != o ensures Disjoint(table[p], Row(table, o) + [t]) && Shows(table[p], values[p]) {
      RowsApart(p, table[p], o, Row(table, o) + [t]);
    }
  }

  lemma SubsetChain(a: seq<Ticket>, b: seq<Ticket>, c: seq<Ticket>)
    requires Subset(a, b) && Subset(b, c)
    ensures Subset(a, c)
  {
  }

  lemma WithRowTwice(table: Table, o: string, row: seq<Ticket>, other: seq<Ticket>)
    ensures WithRow(WithRow(table, o, row), o, other) == WithRow(table, o, other)
  {
  }

  lemma ShowsViews(row: seq<Ticket>, values: seq<Record>)
    requires Shows(row, values)
    ensures Views(row) == values
  {
  }

  /** The values that the loop of cleanup over f_tickets left so far, and the swept rows whose dates it saw. */
  datatype Halfway = Halfway(shown: TableValues, swept: TableValues)

  ghost predicate PartlyCleaned(values: TableValues, c: Halfway, todo: set<string>, me: ServerName, now: int,
      alone: bool) {
    && values.Keys == c.shown.Keys && c.swept.Keys == values.Keys - todo && todo <= values.Keys
    && (forall o :: o in todo ==> c.shown[o] == values[o] && values[o] != [])
    && (forall o :: o in c.swept ==>
        c.shown[o] == Cleaned(values[o], me, now, alone) && c.swept[o] == Swept(values[o], me, now))
  }

  lemma CleanOneMore(values: TableValues, c: Halfway, todo: set<string>, o: string, me: ServerName, now: int,
      alone: bool)
    returns (d: Halfway)
    requires PartlyCleaned(values, c, todo, me, now, alone) && o in todo
    ensures PartlyCleaned(values, d, todo - {o}, me, now, alone)
    ensures d.shown == c.shown[o := Cleaned(c.shown[o], me, now, alone)]
    ensures TableDates(d.swept) == TableDates(c.swept) + Dates(Swept(values[o], me, now))
  {
    var kept, cleaned := Swept(values[o], me, now), Cleaned(values[o], me, now, alone);
    d := Halfway(c.shown[o := cleaned], c.swept[o := kept]);
    TableDatesMore(c.swept, o, kept);
  }

  lemma AllSwept(values: TableValues, c: Halfway, me: ServerName, now: int, alone: bool)
    requires PartlyCleaned(values, c, {}, me, now, alone)
    ensures c.swept == SweptTable(values, me, now)
  {
  }

  // ---------- entering tickets ----------

  /** An object name and an entering key: f_entering_tickets[object_name][entering_key]. */
  type EnteringId = (string, EnteringKey)
  type EnteringTable = map<EnteringId, Ticket>
  type EnteringValues = map<EnteringId, Record>

  /** get_entering_tickets. */
  function EnteringAt(table: EnteringTable, o: string): map<EnteringKey, Ticket> {
    map k | k in table && k.0 == o :: k.1 := table[k]
  }

  predicate EnteringOk(table: EnteringTable) {
    forall k :: k in table ==> table[k].objectName == k.0 && table[k].enteringKey == k.1
  }

  function EnteringViews(table: EnteringTable): EnteringValues
    reads table.Values
  {
    map k | k in table :: table[k].View()
  }

  predicate ShowsEntering(table: EnteringTable, values: EnteringValues)
    reads table.Values
  {
    table.Keys == values.Keys && forall k :: k in table ==> table[k].View() == values[k]
  }

  /** What a sweep makes of every ticket, erased or not. */
  function Lapsed(table: EnteringValues, me: ServerName, now: int): EnteringValues {
    map k | k in table :: Sweep(table[k], me, now).record
  }

  /** The keys that a sweep keeps. */
  function Staying(table: EnteringValues, me: ServerName, now: int): set<EnteringId> {
    set k | k in table && !Sweep(table[k], me, now).erased
  }

  function Restrict(table: EnteringTable, keys: set<EnteringId>): EnteringTable { map k | k in table
      && k in keys :: table[k] }

  /** The dates of those of `keys` that a sweep keeps. */
  function EnteringDates(table: EnteringValues, keys: set<EnteringId>, me: ServerName, now: int): set<int>
    requires keys <= table.Keys
  {
    set k, d | k in keys && d in StaysUntil(table[k], me, now) :: d
  }

  lemma EnteringDatesMore(table: EnteringValues, keys: set<EnteringId>, k: EnteringId, me: ServerName, now: int)
    requires keys <= table.Keys && k in table
    ensures EnteringDates(table, keys + {k}, me, now) == EnteringDates(table, keys, me, now)
         + StaysUntil(table[k], me, now)
  {
  }

  /** The dates of the entries of an entering table. */
  function AllDates(values: EnteringValues): set<int> { set k | k in values :: CurrentDate(values[k]) }

  lemma StayingDates(table: EnteringTable, middle: EnteringValues, me: ServerName, now: int)
    requires ShowsEntering(table, Lapsed(middle, me, now)) && middle.Keys == table.Keys
    ensures AllDates(EnteringViews(Restrict(table, Staying(middle, me, now))))
         == EnteringDates(middle, middle.Keys, me, now)
  {
    var left := EnteringViews(Restrict(table, Staying(middle, me, now)));
    forall k | k in left ensures CurrentDate(left[k]) in EnteringDates(middle, middle.Keys, me, now) {
      assert left[k] == Lapsed(middle, me, now)[k] && CurrentDate(left[k]) in StaysUntil(middle[k], me, now);
    }
    forall d | d in EnteringDates(middle, middle.Keys, me, now) ensures d in AllDates(left) {
      var k :| k in middle && d in StaysUntil(middle[k], me, now);
      assert k in left && left[k] == Lapsed(middle, me, now)[k];
    }
  }
}
