/** A ticket as text, for the LOCK_TICKETS message, and the merge of such a text into a ticket. */
module Serialization {
  import opened KeyOrder
  import opened Text
  import opened TicketRecord
  import opened Basics

  const NO_SERIAL: int := -1

  /** The fields that travel.  The alive timeout, the unlocked date and the waiting list do not. */
  datatype Shared = Shared(
    objectName: string, tag: nat, obtention: int, lockDuration: int, unlockDuration: int,
    serverName: string, serviceName: string, owner: string, serial: int, enteringKey: string,
    getMax: bool, ourTicket: nat, added: bool, ticketKey: string, quorum: bool,
    ready: bool, locked: bool, lockDate: int, failure: Failure)

  datatype Name =
    | AddedTicket | AddedTicketQuorum | EnteringKeyName | GetMaxTicket | LockDuration | LockFailedName | LockTimeoutDate
    | Locked | ObjectName | ObtentionTimeout | OurTicket | Owner | Serial | ServerNameName | ServiceName | Tag | TicketKeyName
    | TicketReady | UnlockDurationName | Unknown

  function NameText(n: Name): string {
    match n
    case AddedTicket => "added_ticket"
    case AddedTicketQuorum => "added_ticket_quorum"
    case EnteringKeyName => "entering_key"
    case GetMaxTicket => "get_max_ticket"
    case LockDuration => "lock_duration"
    case LockFailedName => "lock_failed"
    case LockTimeoutDate => "lock_timeout_date"
    case Locked => "locked"
    case ObjectName => "object_name"
    case ObtentionTimeout => "obtention_timeout"
    case OurTicket => "our_ticket"
    case Owner => "owner"
    case Serial => "serial"
    case ServerNameName => "server_name"
    case ServiceName => "service_name"
    case Tag => "tag"
    case TicketKeyName => "ticket_key"
    case TicketReady => "ticket_ready"
    case UnlockDurationName => "unlock_duration"
    case Unknown => ""
  }

  /** The position of a name in the alphabetical order in which serialize writes them. */
  function Rank(n: Name): nat {
    match n
    case AddedTicket => 0
    case AddedTicketQuorum => 1
    case EnteringKeyName => 2
    case GetMaxTicket => 3
    case LockDuration => 4
    case LockFailedName => 5
    case LockTimeoutDate => 6
    case Locked => 7
    case ObjectName => 8
    case ObtentionTimeout => 9
    case OurTicket => 10
    case Owner => 11
    case Serial => 12
    case ServerNameName => 13
    case ServiceName => 14
    case Tag => 15
    case TicketKeyName => 16
    case TicketReady => 17
    case UnlockDurationName => 18
    case Unknown => 19
  }

  function NameAt(i: nat): (n: Name)
    ensures i < 19 ==> Rank(n) == i
    ensures i >= 19 ==> n == Unknown
  {
    match i
    case 0 => AddedTicket
    case 1 => AddedTicketQuorum
    case 2 => EnteringKeyName
    case 3 => GetMaxTicket
    case 4 => LockDuration
    case 5 => LockFailedName
    case 6 => LockTimeoutDate
    case 7 => Locked
    case 8 => ObjectName
    case 9 => ObtentionTimeout
    case 10 => OurTicket
    case 11 => Owner
    case 12 => Serial
    case 13 => ServerNameName
    case 14 => ServiceName
    case 15 => Tag
    case 16 => TicketKeyName
    case 17 => TicketReady
    case 18 => UnlockDurationName
    case _ => Unknown
  }

  lemma NameAtRank(n: Name)
    ensures NameAt(Rank(n)) == n && Rank(n) <= 19
  {
  }

  /** The switch of unserialize. */
  function NameOf(text: string): Name {
    if text == [] then Unknown
    else match text[0]
      case 'a' => if text == "added_ticket" then AddedTicket
          else if text == "added_ticket_quorum" then AddedTicketQuorum else Unknown
      case 'e' => if text == "entering_key" then EnteringKeyName else Unknown
      case 'g' => if text == "get_max_ticket" then GetMaxTicket else Unknown
      case 'l' =>
        if text == "lock_duration" then LockDuration
        else if text == "locked" then Locked
        else if text == "lock_timeout_date" then LockTimeoutDate
        else if text == "lock_failed" then LockFailedName
        else Unknown
      case 'o' =>
        if text == "object_name" then ObjectName
        else if text == "obtention_timeout" then ObtentionTimeout
        else if text == "owner" then Owner
        else if text == "our_ticket" then OurTicket
        else Unknown
      case 's' =>
        if text == "server_name" then ServerNameName
        else if text == "service_name" then ServiceName
        else if text == "serial" then Serial
        else Unknown
      case 't' =>
        if text == "tag" then Tag
        else if text == "ticket_key" then TicketKeyName
        else if text == "ticket_ready" then TicketReady
        else Unknown
      case 'u' => if text == "unlock_duration" then UnlockDurationName else Unknown
      case _ => Unknown
  }

  /** The number of characters tells the names with the same first letter apart. */
  lemma NameRoundTrip(n: Name)
    ensures NameOf(NameText(n)) == n
  {
    var t := NameText(n);
    match n
    case AddedTicket => assert t[0] == 'a' && |t| == 12;
    case AddedTicketQuorum => assert t[0] == 'a' && |t| == 19 && |"added_ticket"| == 12;
    case EnteringKeyName => assert t[0] == 'e';
    case GetMaxTicket => assert t[0] == 'g';
    case LockDuration => assert t[0] == 'l';
    case Locked => assert t[0] == 'l' && |t| == 6 && |"lock_duration"| == 13;
    case LockTimeoutDate => assert t[0] == 'l' && |t| == 17 && |"lock_duration"| == 13 && |"locked"| == 6;
    case LockFailedName => assert t[0] == 'l' && |t| == 11 && |"lock_duration"| == 13 && |"locked"| == 6
        && |"lock_timeout_date"| == 17;
    case ObjectName => assert t[0] == 'o';
    case ObtentionTimeout => assert t[0] == 'o' && |t| == 17 && |"object_name"| == 11;
    case Owner => assert t[0] == 'o' && |t| == 5 && |"object_name"| == 11 && |"obtention_timeout"| == 17;
    case OurTicket => assert t[0] == 'o' && |t| == 10 && |"object_name"| == 11 && |"obtention_timeout"| == 17
        && |"owner"| == 5;
    case ServerNameName => assert t[0] == 's';
    case ServiceName => assert t[0] == 's' && |t| == 12 && |"server_name"| == 11;
    case Serial => assert t[0] == 's' && |t| == 6 && |"server_name"| == 11 && |"service_name"| == 12;
    case Tag => assert t[0] == 't';
    case TicketKeyName => assert t[0] == 't' && |t| == 10 && |"tag"| == 3;
    case TicketReady => assert t[0] == 't' && |t| == 12 && |"tag"| == 3 && |"ticket_key"| == 10;
    case UnlockDurationName => assert t[0] == 'u';
    case Unknown =>
  }

  // ---------- values ----------

  datatype Value = TextValue(s: string) | FlagValue(b: bool) | NumberValue(n: int) | FailureValue(f: Failure)

  function Get(t: Shared, n: Name): Value {
    match n
    case AddedTicket => FlagValue(t.added)
    case AddedTicketQuorum => FlagValue(t.quorum)
    case EnteringKeyName => TextValue(t.enteringKey)
    case GetMaxTicket => FlagValue(t.getMax)
    case LockDuration => NumberValue(t.lockDuration)
    case LockFailedName => FailureValue(t.failure)
    case LockTimeoutDate => NumberValue(t.lockDate)
    case Locked => FlagValue(t.locked)
    case ObjectName => TextValue(t.objectName)
    case ObtentionTimeout => NumberValue(t.obtention)
    case OurTicket => NumberValue(t.ourTicket)
    case Owner => TextValue(t.owner)
    case Serial => NumberValue(t.serial)
    case ServerNameName => TextValue(t.serverName)
    case ServiceName => TextValue(t.serviceName)
    case Tag => NumberValue(t.tag)
    case TicketKeyName => TextValue(t.ticketKey)
    case TicketReady => FlagValue(t.ready)
    case UnlockDurationName => NumberValue(t.unlockDuration)
    case Unknown => TextValue("")
  }

  lemma SameFirstFields(a: Shared, b: Shared)
    requires forall n :: Get(a, n) == Get(b, n)
    ensures a.added == b.added && a.quorum == b.quorum && a.enteringKey == b.enteringKey && a.getMax == b.getMax
    ensures a.lockDuration == b.lockDuration && a.failure == b.failure && a.lockDate == b.lockDate &&
        a.locked == b.locked
    ensures a.objectName == b.objectName && a.obtention == b.obtention
  {
    assert a.added == b.added by { SameField(a, b, AddedTicket); }
    assert a.quorum == b.quorum by { SameField(a, b, AddedTicketQuorum); }
    assert a.enteringKey == b.enteringKey by { SameField(a, b, EnteringKeyName); }
    assert a.getMax == b.getMax by { SameField(a, b, GetMaxTicket); }
    assert a.lockDuration == b.lockDuration by { SameField(a, b, LockDuration); }
    assert a.failure == b.failure by { SameField(a, b, LockFailedName); }
    assert a.lockDate == b.lockDate by { SameField(a, b, LockTimeoutDate); }
    assert a.locked == b.locked by { SameField(a, b, Locked); }
    assert a.objectName == b.objectName by { SameField(a, b, ObjectName); }
    assert a.obtention == b.obtention by { SameField(a, b, ObtentionTimeout); }
  }

  lemma SameLastFields(a: Shared, b: Shared)
    requires forall n :: Get(a, n) == Get(b, n)
    ensures a.ourTicket == b.ourTicket && a.owner == b.owner && a.serial == b.serial && a.serverName == b.serverName
    ensures a.serviceName == b.serviceName && a.tag == b.tag && a.ticketKey == b.ticketKey && a.ready == b.ready
    ensures a.unlockDuration == b.unlockDuration
  {
    assert a.ourTicket == b.ourTicket by { SameField(a, b, OurTicket); }
    assert a.owner == b.owner by { SameField(a, b, Owner); }
    assert a.serial == b.serial by { SameField(a, b, Serial); }
    assert a.serverName == b.serverName by { SameField(a, b, ServerNameName); }
    assert a.serviceName == b.serviceName by { SameField(a, b, ServiceName); }
    assert a.tag == b.tag by { SameField(a, b, Tag); }
    assert a.ticketKey == b.ticketKey by { SameField(a, b, TicketKeyName); }
    assert a.ready == b.ready by { SameField(a, b, TicketReady); }
    assert a.unlockDuration == b.unlockDuration by { SameField(a, b, UnlockDurationName); }
  }

  lemma SameFields(a: Shared, b: Shared)
    requires forall n :: Get(a, n) == Get(b, n)
    ensures a == b
  {
    hide Get;
    SameFirstFields(a, b);
    SameLastFields(a, b);
  }

  lemma SameField(a: Shared, b: Shared, n: Name)
    requires forall m :: Get(a, m) == Get(b, m)
    ensures Get(a, n) == Get(b, n)
  {
  }

  // Stands for to_timestamp and the constructor that reads it.
  function Timestamp(t: int): string { if t < 0 then "-" + Decimal(-t) else Decimal(t) }

  function ReadTimestamp(s: string): int {
    if s != [] && s[0] == '-' then 0 - ReadNumber(s[1..]) else ReadNumber(s)
  }

  function ReadNumber(s: string): nat {
    match FromDecimal(s)
    case Number(n) => n
    case NotANumber => 0
  }

  lemma {:induction false} TimestampRoundTrip(t: int)
    ensures ReadTimestamp(Timestamp(t)) == t
  {
    var digits := Decimal(if t < 0 then -t else t);
    DecimalRoundTrip(if t < 0 then -t else t);
    if t < 0 {
      assert Timestamp(t) == "-" + digits;
      assert ("-" + digits)[1..] == digits;
    } else {
      assert Timestamp(t) == digits && digits[0] != '-';
    }
  }

  function FlagText(b: bool): string { if b then "true" else "false" }

  function FailureText(f: Failure): string {
    match f
    case NoFailure => "none"
    case LockFailure => "lock"
    case UnlockingFailure => "unlocking"
  }

  function ValueText(t: Shared, n: Name): string {
    match n
    case AddedTicket => FlagText(t.added)
    case AddedTicketQuorum => FlagText(t.quorum)
    case EnteringKeyName => t.enteringKey
    case GetMaxTicket => FlagText(t.getMax)
    case LockDuration => Timestamp(t.lockDuration)
    case LockFailedName => FailureText(t.failure)
    case LockTimeoutDate => Timestamp(t.lockDate)
    case Locked => FlagText(t.locked)
    case ObjectName => t.objectName
    case ObtentionTimeout => Timestamp(t.obtention)
    case OurTicket => Decimal(t.ourTicket)
    case Owner => t.owner
    case Serial => Timestamp(t.serial)
    case ServerNameName => t.serverName
    case ServiceName => t.serviceName
    case Tag => Decimal(t.tag)
    case TicketKeyName => t.ticketKey
    case TicketReady => FlagText(t.ready)
    case UnlockDurationName => Timestamp(t.unlockDuration)
    case Unknown => ""
  }

  /** One assignment of unserialize. */
  function Apply(t: Shared, n: Name, text: string): Shared {
    match n
    case AddedTicket => t.(added := t.added || text == "true")
    case AddedTicketQuorum => t.(quorum := t.quorum || text == "true")
    case EnteringKeyName => t.(enteringKey := text)
    case GetMaxTicket => t.(getMax := t.getMax || text == "true")
    case LockDuration => t.(lockDuration := ReadTimestamp(text))
    case LockFailedName =>
      if text == "unlocking" then t.(failure := UnlockingFailure)
      else if text == "lock" && t.failure.NoFailure? then t.(failure := LockFailure)
      else t
    case LockTimeoutDate => if ReadTimestamp(text) > t.lockDate then t.(lockDate := ReadTimestamp(text)) else t
    case Locked => t.(locked := t.locked || text == "true")
    case ObjectName => t.(objectName := text)
    case ObtentionTimeout => t.(obtention := ReadTimestamp(text))
    case OurTicket => t.(ourTicket := ReadNumber(text) % NUMBER_LIMIT)
    case Owner => t.(owner := text)
    case Serial => t.(serial := ReadTimestamp(text))
    case ServerNameName => t.(serverName := text)
    case ServiceName => t.(serviceName := text)
    case Tag => t.(tag := ReadNumber(text) % 0x1_0000)
    case TicketKeyName => t.(ticketKey := text)
    case TicketReady => t.(ready := t.ready || text == "true")
    case UnlockDurationName => t.(unlockDuration := ReadTimestamp(text))
    case Unknown => t
  }

  /** The same assignment, for one field alone. */
  function Combine(n: Name, v: Value, text: string): Value {
    match n
    case AddedTicket | AddedTicketQuorum | GetMaxTicket | Locked | TicketReady => FlagValue((v.FlagValue? && v.b)
        || text == "true")
    case LockFailedName =>
      if text == "unlocking" then FailureValue(UnlockingFailure)
      else if text == "lock" && v == FailureValue(NoFailure) then FailureValue(LockFailure)
      else v
    case LockTimeoutDate =>
      if v.NumberValue? && ReadTimestamp(text) > v.n then NumberValue(ReadTimestamp(text)) else v
    case LockDuration | ObtentionTimeout | Serial | UnlockDurationName => NumberValue(ReadTimestamp(text))
    case OurTicket => NumberValue(ReadNumber(text) % NUMBER_LIMIT)
    case Tag => NumberValue(ReadNumber(text) % 0x1_0000)
    case Unknown => v
    case _ => TextValue(text)
  }

  lemma {:induction false} ApplyCombines(t: Shared, n: Name, text: string, m: Name)
    ensures Get(Apply(t, n, text), m) == if m == n then Combine(m, Get(t, m), text) else Get(t, m)
  {
    if m == n {
      ApplyCombinesSame(t, n, text);
    } else {
      ApplyKeepsOthers(t, n, text, m);
    }
  }

  lemma {:induction false} ApplyCombinesSame(t: Shared, n: Name, text: string)
    ensures Get(Apply(t, n, text), n) == Combine(n, Get(t, n), text)
  {
  }

  lemma {:induction false} ApplyKeepsOthers(t: Shared, n: Name, text: string, m: Name)
    requires m != n
    ensures Get(Apply(t, n, text), m) == Get(t, m)
  {
    if Rank(n) < 5 {
      FirstKeepOthers(t, n, text, m);
    } else if Rank(n) == 5 {
      FailureKeepsOthers(t, n, text, m);
    } else if Rank(n) < 8 {
      SecondKeepOthers(t, n, text, m);
    } else if Rank(n) < 11 {
      ThirdKeepOthers(t, n, text, m);
    } else {
      LastKeepOthers(t, n, text, m);
    }
  }

  lemma {:induction false} FirstKeepOthers(t: Shared, n: Name, text: string, m: Name)
    requires m != n && Rank(n) < 5
    ensures Get(Apply(t, n, text), m) == Get(t, m)
  {
  }

  lemma {:induction false} FailureKeepsOthers(t: Shared, n: Name, text: string, m: Name)
    requires m != n && Rank(n) == 5
    ensures Get(Apply(t, n, text), m) == Get(t, m)
  {
    assert n == LockFailedName && Apply(t, n, text) == t.(failure := Apply(t, n, text).failure);
    hide Apply, Get;
    OtherThanFailure(t, Apply(t, n, text).failure, m);
  }

  lemma {:induction false} OtherThanFailure(t: Shared, failure: Failure, m: Name)
    requires m != LockFailedName
    ensures Get(t.(failure := failure), m) == Get(t, m)
  {
  }

  lemma {:induction false} SecondKeepOthers(t: Shared, n: Name, text: string, m: Name)
    requires m != n && 6 <= Rank(n) < 8
    ensures Get(Apply(t, n, text), m) == Get(t, m)
  {
  }

  lemma {:induction false} ThirdKeepOthers(t: Shared, n: Name, text: string, m: Name)
    requires m != n && 8 <= Rank(n) < 11
    ensures Get(Apply(t, n, text), m) == Get(t, m)
  {
  }

  lemma {:induction false} LastKeepOthers(t: Shared, n: Name, text: string, m: Name)
    requires m != n && Rank(n) >= 11
    ensures Get(Apply(t, n, text), m) == Get(t, m)
  {
  }

  // ---------- the fields of a text ----------

  datatype Field = Field(name: Name, text: string)

  function ApplyFirst(t: Shared, fields: seq<Field>, k: nat): Shared
    requires k <= |fields|
  {
    if k == 0 then t else Apply(ApplyFirst(t, fields, k - 1), fields[k - 1].name, fields[k - 1].text)
  }

  function CombineFirst(n: Name, v: Value, fields: seq<Field>, k: nat): Value
    requires k <= |fields|
  {
    if k == 0 then v
    else
      var so := CombineFirst(n, v, fields, k - 1);
      if fields[k - 1].name == n then Combine(n, so, fields[k - 1].text) else so
  }

  lemma {:induction false} ApplyFirstCombines(t: Shared, fields: seq<Field>, k: nat, n: Name)
    requires k <= |fields|
    ensures Get(ApplyFirst(t, fields, k), n) == CombineFirst(n, Get(t, n), fields, k)
  {
    if k > 0 {
      ApplyFirstCombines(t, fields, k - 1, n);
      ApplyCombines(ApplyFirst(t, fields, k - 1), fields[k - 1].name, fields[k - 1].text, n);
    }
  }

  predicate DistinctNames(fields: seq<Field>) { forall i, j :: 0 <= i < j < |fields| ==>
      fields[i].name != fields[j].name }

  lemma {:induction false} CombineNone(n: Name, v: Value, fields: seq<Field>, k: nat)
    requires k <= |fields| && forall i :: 0 <= i < k ==> fields[i].name != n
    ensures CombineFirst(n, v, fields, k) == v
  {
    if k > 0 {
      CombineNone(n, v, fields, k - 1);
    }
  }

  lemma {:induction false} CombineOnce(n: Name, v: Value, fields: seq<Field>, i: nat, k: nat)
    requires DistinctNames(fields) && i < k <= |fields| && fields[i].name == n
    ensures CombineFirst(n, v, fields, k) == Combine(n, v, fields[i].text)
  {
    if k - 1 == i {
      CombineNone(n, v, fields, k - 1);
    } else {
      CombineOnce(n, v, fields, i, k - 1);
    }
  }

  lemma CombineTwice(n: Name, v: Value, text: string)
    ensures Combine(n, Combine(n, v, text), text) == Combine(n, v, text)
  {
  }

  /** Merging the same fields again changes nothing. */
  lemma MergeTwice(t: Shared, fields: seq<Field>)
    requires DistinctNames(fields)
    ensures ApplyFirst(ApplyFirst(t, fields, |fields|), fields, |fields|) == ApplyFirst(t, fields, |fields|)
  {
    var once := ApplyFirst(t, fields, |fields|);
    var twice := ApplyFirst(once, fields, |fields|);
    forall n ensures Get(twice, n) == Get(once, n) {
      ApplyFirstCombines(t, fields, |fields|, n);
      ApplyFirstCombines(once, fields, |fields|, n);
      if i :| 0 <= i < |fields| && fields[i].name == n {
        CombineOnce(n, Get(t, n), fields, i, |fields|);
        CombineOnce(n, Get(once, n), fields, i, |fields|);
        CombineTwice(n, Get(t, n), fields[i].text);
      } else {
        CombineNone(n, Get(once, n), fields, |fields|);
      }
    }
    SameFields(twice, once);
  }

  // ---------- the fields that only grow ----------

  predicate Grows(n: Name) { n in {AddedTicket, AddedTicketQuorum, GetMaxTicket, Locked, TicketReady, LockFailedName,
      LockTimeoutDate} }

  function Level(f: Failure): nat { match f case NoFailure => 0 case LockFailure => 1 case UnlockingFailure => 2 }

  predicate AtMost(a: Value, b: Value) {
    match (a, b)
    case (FlagValue(x), FlagValue(y)) => x ==> y
    case (NumberValue(x), NumberValue(y)) => x <= y
    case (FailureValue(x), FailureValue(y)) => Level(x) <= Level(y)
    case _ => false
  }

  lemma CombineGrows(t: Shared, n: Name, text: string, more: string)
    requires Grows(n)
    ensures AtMost(Get(t, n), Combine(n, Get(t, n), text))
    ensures Combine(n, Combine(n, Get(t, n), text), more) == Combine(n, Combine(n, Get(t, n), more), text)
  {
  }

  // ---------- the text ----------

  /** serialize writes a '|' of a value as "%7C"; unserialize does not turn it back. */
  function Escaped(s: string): (r: string)
    ensures '|' !in r
    ensures '|' !in s ==> r == s
  {
    if s == [] then [] else (if s[0] == '|' then "%7C" else [s[0]]) + Escaped(s[1..])
  }

  lemma EscapedOne(c: char, s: string)
    ensures Escaped([c] + s) == (if c == '|' then "%7C" else [c]) + Escaped(s)
  {
    assert ([c] + s)[1..] == s;
  }

  lemma Reassociate(c: char, a: string, b: string)
    ensures [c] + a + b == [c] + (a + b)
  {
  }

  /** Every '|', and nothing else, is replaced. */
  lemma {:induction false} EscapedBar(a: string, b: string)
    requires '|' !in a
    ensures Escaped(a + "|" + b) == a + "%7C" + Escaped(b)
  {
    hide Escaped;
    if a == [] {
      assert a + "|" + b == ['|'] + b;
      EscapedOne('|', b);
    } else {
      var rest := a[1..];
      EscapedBar(rest, b);
      EscapedOne(a[0], rest + "|" + b);
      assert a == [a[0]] + rest;
      Reassociate(a[0], rest, "|" + b);
      Reassociate(a[0], rest, "%7C" + Escaped(b));
      assert a + "|" + b == a + ("|" + b) && rest + "|" + b == rest + ("|" + b);
      assert a + "%7C" + Escaped(b) == a + ("%7C" + Escaped(b)) &&
          rest + "%7C" + Escaped(b) == rest + ("%7C" + Escaped(b));
    }
  }

  function Join(tokens: seq<string>): string {
    if tokens == [] then "" else if |tokens| == 1 then tokens[0] else tokens[0] + "|" + Join(tokens[1..])
  }

  lemma {:induction false} SplitJoin(tokens: seq<string>)
    requires tokens != [] && forall i :: 0 <= i < |tokens| ==> '|' !in tokens[i]
    ensures Split(Join(tokens), '|') == tokens
  {
    if |tokens| == 1 {
      SplitWhole(tokens[0], '|');
    } else {
      SplitAt(tokens[0], '|', Join(tokens[1..]));
      SplitJoin(tokens[1..]);
    }
  }

  /** d.find('='): |d| when there is none. */
  function FindEqual(d: string): (pos: nat)
    ensures pos <= |d| && '=' !in d[..pos] && (pos < |d| ==> d[pos] == '=')
  {
    if d == [] || d[0] == '=' then 0 else 1 + FindEqual(d[1..])
  }

  /** Without a '=' the whole token is both the name and the value. */
  function ParseField(d: string): Field {
    var pos := FindEqual(d);
    Field(NameOf(d[..pos]), if pos < |d| then d[pos + 1..] else d)
  }

  lemma {:induction false} FindEqualAt(name: string, text: string)
    requires '=' !in name
    ensures FindEqual(name + "=" + text) == |name|
  {
    var d := name + "=" + text;
    if name != [] {
      assert d[1..] == name[1..] + "=" + text;
      FindEqualAt(name[1..], text);
    }
  }

  /** The alphabet of the names. */
  predicate Plain(s: string) { forall i :: 0 <= i < |s| ==> 'a' <= s[i] <= 'z' || s[i] == '_' }

  lemma NamesArePlain(n: Name)
    ensures Plain(NameText(n))
  {
    if Rank(n) < 6 {
      FirstNamesArePlain(n);
    } else if Rank(n) < 13 {
      MiddleNamesArePlain(n);
    } else {
      LastNamesArePlain(n);
    }
  }

  lemma FirstNamesArePlain(n: Name)
    requires Rank(n) < 6
    ensures Plain(NameText(n))
  {
    match n
    case AddedTicket => case AddedTicketQuorum => case EnteringKeyName => case GetMaxTicket => case LockDuration =>
    case LockFailedName =>
  }

  lemma MiddleNamesArePlain(n: Name)
    requires 6 <= Rank(n) < 13
    ensures Plain(NameText(n))
  {
    match n
    case LockTimeoutDate => case Locked => case ObjectName => case ObtentionTimeout => case OurTicket => case Owner =>
    case Serial =>
  }

  lemma LastNamesArePlain(n: Name)
    requires 13 <= Rank(n)
    ensures Plain(NameText(n))
  {
    match n
    case ServerNameName => case ServiceName => case Tag => case TicketKeyName => case TicketReady =>
    case UnlockDurationName => case Unknown =>
  }

  function FieldText(n: Name, value: string): string { NameText(n) + "=" + Escaped(value) }

  lemma FieldRoundTrip(n: Name, value: string)
    requires n != Unknown
    ensures ParseField(FieldText(n, value)) == Field(n, Escaped(value)) && '|' !in FieldText(n, value)
  {
    var name, d := NameText(n), FieldText(n, value);
    NamesArePlain(n);
    NameRoundTrip(n);
    FindEqualAt(name, Escaped(value));
    assert d[..|name|] == name && d[|name| + 1..] == Escaped(value);
  }

  // ---------- serialize and unserialize ----------

  /** The number of fields written, and the name of the i-th: the serial is left out when there is none. */
  function Count(t: Shared): nat { if t.serial == NO_SERIAL then 18 else 19 }

  function Written(t: Shared, i: nat): Name { NameAt(if t.serial == NO_SERIAL && i >= Rank(Serial) then i + 1 else i) }

  function Tokens(t: Shared): (tokens: seq<string>)
    ensures |tokens| == Count(t)
    ensures forall i :: 0 <= i < |tokens| ==> tokens[i] == FieldText(Written(t, i), ValueText(t, Written(t, i)))
  {
    seq(Count(t), i requires 0 <= i < Count(t) => FieldText(Written(t, i), ValueText(t, Written(t, i))))
  }

  function Serialize(t: Shared): string { Join(Tokens(t)) }

  function Fields(text: string): (fields: seq<Field>)
    ensures |fields| == |Split(text, '|')| && forall i :: 0 <= i < |fields| ==>
        fields[i] == ParseField(Split(text, '|')[i])
  {
    seq(|Split(text, '|')|, i requires 0 <= i < |Split(text, '|')| => ParseField(Split(text, '|')[i]))
  }

  function Unserialize(t: Shared, text: string): Shared { ApplyFirst(t, Fields(text), |Fields(text)|) }

  method Merge(t: Shared, text: string) returns (r: Shared)
    ensures r == Unserialize(t, text)
  {
    r := MergeFields(t, Fields(text));
  }

  /** The loop of unserialize. */
  method MergeFields(t: Shared, fields: seq<Field>) returns (r: Shared)
    ensures r == ApplyFirst(t, fields, |fields|)
  {
    r := t;
    var i := 0;
    while i < |fields|
      invariant 0 <= i <= |fields| && r == ApplyFirst(t, fields, i)
    {
      r := Apply(r, fields[i].name, fields[i].text);
      i := i + 1;
    }
  }

  lemma SerializedFields(t: Shared)
    ensures var fields := Fields(Serialize(t));
            && |fields| == Count(t) && DistinctNames(fields)
            && forall i :: 0 <= i < |fields| ==> fields[i] == Field(Written(t, i), Escaped(ValueText(t, Written(t, i))))
  {
    var tokens := Tokens(t);
    forall i | 0 <= i < |tokens|
      ensures '|' !in tokens[i] && ParseField(tokens[i]) == Field(Written(t, i), Escaped(ValueText(t, Written(t, i))))
    {
      FieldRoundTrip(Written(t, i), ValueText(t, Written(t, i)));
    }
    SplitJoin(tokens);
    var fields := Fields(Serialize(t));
    forall i, j | 0 <= i < j < |fields| ensures fields[i].name != fields[j].name {
      assert Rank(fields[i].name) < Rank(fields[j].name);
    }
  }

  /** The widths of the fields. */
  predicate InWidth(t: Shared) { t.ourTicket < NUMBER_LIMIT && t.tag < 0x1_0000 }

  lemma {:induction false} FieldsInWidth(t: Shared, fields: seq<Field>, k: nat)
    requires InWidth(t) && k <= |fields|
    ensures InWidth(ApplyFirst(t, fields, k))
  {
    hide InWidth, Apply;
    if k > 0 {
      FieldsInWidth(t, fields, k - 1);
      ApplyInWidth(ApplyFirst(t, fields, k - 1), fields[k - 1].name, fields[k - 1].text);
    }
  }

  lemma {:induction false} ApplyInWidth(t: Shared, n: Name, text: string)
    requires InWidth(t)
    ensures InWidth(Apply(t, n, text))
  {
    hide ReadTimestamp, ReadNumber;
  }

  /** Whatever text is read, the numbers keep their widths, and a field that the text does not name keeps its value. */
  lemma OnlyNamedFields(t: Shared, text: string, n: Name)
    ensures InWidth(t) ==> InWidth(Unserialize(t, text))
    ensures (forall f :: f in Fields(text) ==> f.name != n) ==> Get(Unserialize(t, text), n) == Get(t, n)
  {
    var fields := Fields(text);
    if InWidth(t) {
      FieldsInWidth(t, fields, |fields|);
    }
    ApplyFirstCombines(t, fields, |fields|, n);
    if forall f :: f in fields ==> f.name != n {
      assert forall i :: 0 <= i < |fields| ==> fields[i] in fields;
      CombineNone(n, Get(t, n), fields, |fields|);
    }
  }

  lemma {:induction false} BareField(n: Name)
    ensures Fields(NameText(n)) == [Field(n, NameText(n))]
  {
    var name := NameText(n);
    NamesArePlain(n);
    NameRoundTrip(n);
    hide NameText, NameOf;
    SplitWhole(name, '|');
    FindNoEqual(name);
    assert name[..|name|] == name;
  }

  /** A name without '=' counts as its own value. */
  lemma {:induction false} BareName(t: Shared, n: Name)
    requires IsText(n)
    ensures Get(Unserialize(t, NameText(n)), n) == TextValue(NameText(n))
  {
    hide NameText, Get, Apply, Fields;
    BareField(n);
    var fields := Fields(NameText(n));
    ApplyFirstCombines(t, fields, 1, n);
    CombineOnce(n, Get(t, n), fields, 0, 1);
  }

  lemma {:induction false} FindNoEqual(d: string)
    requires '=' !in d
    ensures FindEqual(d) == |d|
  {
    if d != [] {
      FindNoEqual(d[1..]);
    }
  }

  /** What the daemon guarantees of a ticket: the 32 and 16 bit fields and the dates. */
  predicate InRange(t: Shared) {
    t.ourTicket < NUMBER_LIMIT && t.tag < 0x1_0000 && t.lockDate >= 0 && t.serial >= NO_SERIAL
  }

  predicate IsText(n: Name) { n in {EnteringKeyName, ObjectName, Owner, ServerNameName, ServiceName, TicketKeyName} }

  /** No text field has the delimiter. */
  predicate Barless(t: Shared) { forall n :: IsText(n) ==> '|' !in ValueText(t, n) }

  predicate Proper(t: Shared) { InRange(t) && Barless(t) }

  /** A ticket that was just constructed. */
  predicate New(t: Shared) {
    && !t.getMax && !t.added && !t.quorum && !t.ready && !t.locked && t.lockDate == 0 && t.failure.NoFailure?
    && t.serial == NO_SERIAL
  }

  predicate IsNumber(n: Name) { n in {LockDuration, LockTimeoutDate, ObtentionTimeout, Serial, UnlockDurationName,
      OurTicket, Tag} }

  lemma {:induction false} ReadBack(f: Shared, t: Shared, n: Name)
    requires New(f) && Proper(t) && n != Unknown
    ensures '|' !in ValueText(t, n) && Combine(n, Get(f, n), ValueText(t, n)) == Get(t, n)
  {
    if IsNumber(n) {
      ReadNumberBack(f, t, n);
    } else {
      ReadTextBack(f, t, n);
    }
  }

  lemma {:induction false} ReadTextBack(f: Shared, t: Shared, n: Name)
    requires New(f) && Proper(t) && n != Unknown && !IsNumber(n)
    ensures '|' !in ValueText(t, n) && Combine(n, Get(f, n), ValueText(t, n)) == Get(t, n)
  {
    assert IsText(n) ==> '|' !in ValueText(t, n);
  }

  lemma {:induction false} ReadNumberBack(f: Shared, t: Shared, n: Name)
    requires New(f) && Proper(t) && IsNumber(n)
    ensures '|' !in ValueText(t, n) && Combine(n, Get(f, n), ValueText(t, n)) == Get(t, n)
  {
    if n == OurTicket || n == Tag {
      var d := if n == Tag then t.tag else t.ourTicket;
      DecimalRoundTrip(d);
      DigitsAreNoDelimiter(Decimal(d), '|');
    } else {
      TimestampRoundTrip(Get(t, n).n);
      NoBar(Get(t, n).n);
    }
  }

  lemma NoBar(d: int)
    ensures '|' !in Timestamp(d)
  {
    DigitsAreNoDelimiter(Decimal(if d < 0 then -d else d), '|');
  }

  lemma {:induction false} AbsentBack(f: Shared, t: Shared, n: Name)
    requires New(f) && (n == Unknown || (n == Serial && t.serial == NO_SERIAL))
    ensures CombineFirst(n, Get(f, n), Fields(Serialize(t)), |Fields(Serialize(t))|) == Get(t, n)
  {
    SerializedFields(t);
    CombineNone(n, Get(f, n), Fields(Serialize(t)), |Fields(Serialize(t))|);
  }

  /** Where a name is written. */
  function Place(t: Shared, n: Name): (i: nat)
    requires n != Unknown && (n == Serial ==> t.serial != NO_SERIAL)
    ensures i < Count(t) && Written(t, i) == n
  {
    NameAtRank(n);
    if t.serial == NO_SERIAL && Rank(n) > Rank(Serial) then Rank(n) - 1 else Rank(n)
  }

  lemma {:induction false} WrittenBack(f: Shared, t: Shared, n: Name)
    requires New(f) && Proper(t) && n != Unknown && (n == Serial ==> t.serial != NO_SERIAL)
    ensures CombineFirst(n, Get(f, n), Fields(Serialize(t)), |Fields(Serialize(t))|) == Get(t, n)
  {
    var fields, i := Fields(Serialize(t)), Place(t, n);
    SerializedFields(t);
    CombineOnce(n, Get(f, n), fields, i, |fields|);
    ReadBack(f, t, n);
  }

  lemma {:induction false} OneFieldBack(f: Shared, t: Shared, n: Name)
    requires New(f) && Proper(t)
    ensures Get(Unserialize(f, Serialize(t)), n) == Get(t, n)
  {
    ApplyFirstCombines(f, Fields(Serialize(t)), |Fields(Serialize(t))|, n);
    if n == Unknown || (n == Serial && t.serial == NO_SERIAL) {
      AbsentBack(f, t, n);
    } else {
      WrittenBack(f, t, n);
    }
  }

  /** What comes back of a text field. */
  lemma TextComesBackEscaped(f: Shared, t: Shared, n: Name)
    requires IsText(n)
    ensures Get(Unserialize(f, Serialize(t)), n) == TextValue(Escaped(ValueText(t, n)))
  {
    var fields, i := Fields(Serialize(t)), Place(t, n);
    ApplyFirstCombines(f, fields, |fields|, n);
    SerializedFields(t);
    CombineOnce(n, Get(f, n), fields, i, |fields|);
  }

  /** A text written by serialize and read into a new ticket gives back every field if and only if
      no text field has a vertical bar; the one that has comes back with "%7C" in its place. */
  lemma RoundTrip(f: Shared, t: Shared)
    requires New(f) && InRange(t)
    ensures Unserialize(f, Serialize(t)) == t <==> Barless(t)
    ensures forall n :: IsText(n) ==> Get(Unserialize(f, Serialize(t)), n) == TextValue(Escaped(ValueText(t, n)))
  {
    forall n | IsText(n) ensures Get(Unserialize(f, Serialize(t)), n) == TextValue(Escaped(ValueText(t, n))) {
      TextComesBackEscaped(f, t, n);
    }
    if Barless(t) {
      forall n ensures Get(Unserialize(f, Serialize(t)), n) == Get(t, n) {
        OneFieldBack(f, t, n);
      }
      SameFields(Unserialize(f, Serialize(t)), t);
    } else {
      var n :| IsText(n) && '|' in ValueText(t, n);
      TextIsValue(t, n);
      assert Escaped(ValueText(t, n)) != ValueText(t, n);
    }
  }

  lemma TextIsValue(t: Shared, n: Name)
    requires IsText(n)
    ensures Get(t, n) == TextValue(ValueText(t, n))
  {
  }

  /** Reading a text of serialize a second time changes nothing. */
  lemma UnserializeTwice(t: Shared, other: Shared)
    ensures Unserialize(Unserialize(t, Serialize(other)), Serialize(other)) == Unserialize(t, Serialize(other))
  {
    SerializedFields(other);
    MergeTwice(t, Fields(Serialize(other)));
  }

  // ---------- merging grows, in any order ----------

  lemma {:induction false} CombineFirstGrows(t: Shared, n: Name, fields: seq<Field>, k: nat, more: string)
    requires Grows(n) && k <= |fields|
    ensures AtMost(Get(t, n), CombineFirst(n, Get(t, n), fields, k))
    ensures CombineFirst(n, Combine(n, Get(t, n), more), fields, k) == Combine(n,
        CombineFirst(n, Get(t, n), fields, k), more)
  {
    if k > 0 {
      hide Get, AtMost, Combine, ApplyFirst;
      CombineFirstGrows(t, n, fields, k - 1, more);
      ApplyFirstCombines(t, fields, k - 1, n);
      var so := ApplyFirst(t, fields, k - 1);
      CombineGrows(so, n, fields[k - 1].text, more);
    }
  }

  lemma {:induction false} CombineFirstCommutes(t: Shared, n: Name, a: seq<Field>, k: nat, b: seq<Field>)
    requires Grows(n) && k <= |a|
    ensures CombineFirst(n, CombineFirst(n, Get(t, n), a, k), b, |b|) == CombineFirst(n,
        CombineFirst(n, Get(t, n), b, |b|), a, k)
  {
    if k > 0 {
      CombineFirstCommutes(t, n, a, k - 1, b);
      if a[k - 1].name == n {
        ApplyFirstCombines(t, a, k - 1, n);
        CombineFirstGrows(ApplyFirst(t, a, k - 1), n, b, |b|, a[k - 1].text);
      }
    }
  }

  /** Progress flags, failure level and lock date never go back, whatever text is merged. */
  lemma MergeGrows(t: Shared, text: string, n: Name)
    requires Grows(n)
    ensures AtMost(Get(t, n), Get(Unserialize(t, text), n))
  {
    ApplyFirstCombines(t, Fields(text), |Fields(text)|, n);
    CombineFirstGrows(t, n, Fields(text), |Fields(text)|, "");
  }

  /** On those fields two texts can be merged in either order. */
  lemma MergeCommutes(t: Shared, a: string, b: string, n: Name)
    requires Grows(n)
    ensures Get(Unserialize(Unserialize(t, a), b), n) == Get(Unserialize(Unserialize(t, b), a), n)
  {
    var x, y := Fields(a), Fields(b);
    ApplyFirstCombines(t, x, |x|, n);
    ApplyFirstCombines(t, y, |y|, n);
    ApplyFirstCombines(Unserialize(t, a), y, |y|, n);
    ApplyFirstCombines(Unserialize(t, b), x, |x|, n);
    CombineFirstCommutes(t, n, x, |x|, y);
  }

  // ---------- the fields that are overwritten ----------

  /** The value of the last of the first `k` fields with this name. */
  function LastText(fields: seq<Field>, k: nat, n: Name): Option<string>
    requires k <= |fields|
  {
    if k == 0 then None else if fields[k - 1].name == n then Some(fields[k - 1].text) else LastText(fields, k - 1, n)
  }

  lemma CombineOverwrites(n: Name, v: Value, w: Value, text: string)
    requires !Grows(n) && n != Unknown
    ensures Combine(n, v, text) == Combine(n, w, text)
  {
  }

  lemma {:induction false} LastDecides(n: Name, v: Value, fields: seq<Field>, k: nat)
    requires k <= |fields| && !Grows(n) && n != Unknown
    ensures CombineFirst(n, v, fields, k)
         == match LastText(fields, k, n) case None => v case Some(text) => Combine(n, v, text)
  {
    if k > 0 {
      LastDecides(n, v, fields, k - 1);
      if fields[k - 1].name == n {
        CombineOverwrites(n, CombineFirst(n, v, fields, k - 1), v, fields[k - 1].text);
      }
    }
  }

  /** On a field that does not grow, two texts can be merged in either order if and only if one of
      them does not have the field or both end with the same value for it. */
  lemma OverwritesCommute(t: Shared, a: string, b: string, n: Name)
    requires !Grows(n) && n != Unknown
    ensures var x, y := LastText(Fields(a), |Fields(a)|, n), LastText(Fields(b), |Fields(b)|, n);
            Get(Unserialize(Unserialize(t, a), b), n) == Get(Unserialize(Unserialize(t, b), a), n) <==>
            (x == None || y == None || Combine(n, Get(t, n), x.value) == Combine(n, Get(t, n), y.value))
  {
    var x, y := Fields(a), Fields(b);
    ApplyFirstCombines(t, x, |x|, n);
    ApplyFirstCombines(t, y, |y|, n);
    ApplyFirstCombines(Unserialize(t, a), y, |y|, n);
    ApplyFirstCombines(Unserialize(t, b), x, |x|, n);
    LastDecides(n, Get(t, n), x, |x|);
    LastDecides(n, Get(t, n), y, |y|);
    LastDecides(n, Get(Unserialize(t, a), n), y, |y|);
    LastDecides(n, Get(Unserialize(t, b), n), x, |x|);
    if LastText(x, |x|, n).Some? {
      CombineOverwrites(n, Get(t, n), Get(Unserialize(t, b), n), LastText(x, |x|, n).value);
    }
    if LastText(y, |y|, n).Some? {
      CombineOverwrites(n, Get(t, n), Get(Unserialize(t, a), n), LastText(y, |y|, n).value);
    }
  }

  /** Two texts leave the same owner in either order if and only if one of them has no owner field or
      their last owner fields agree. */
  lemma OwnerDoesNotCommute(t: Shared, a: string, b: string)
    ensures var x, y := LastText(Fields(a), |Fields(a)|, Owner), LastText(Fields(b), |Fields(b)|, Owner);
            Unserialize(Unserialize(t, a), b).owner == Unserialize(Unserialize(t, b), a).owner <==>
            (x == None || y == None || x == y)
  {
    hide Unserialize, Fields, LastText;
    OverwritesCommute(t, a, b, Owner);
  }
}
