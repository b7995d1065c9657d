/** One computer of the cluster and its identifier, whose string order decides the election. */
module Computer {
  import opened KeyOrder
  import opened Text

  const PRIORITY_UNDEFINED: int := -1
  const PRIORITY_USER_MIN: int := 1
  const PRIORITY_OFF: int := 15
  const PRIORITY_MAX: int := 15

  /** The five parts of an identifier.  The IP address is kept as its text. */
  datatype Info = Info(priority: nat, random: nat, ip: string, pid: nat, name: string)

  datatype IdError = WrongParts | BadPriority | BadRandom | BadAddress | BadPid | BadName

  datatype ParsedId = Good(info: Info) | Bad(error: IdError)

  /** A name that a daemon may give to its own computer. */
  predicate OwnName(name: string) { name != "" && '|' !in name && '\0' !in name }

  /** What computer::get_id builds: the priority takes two digits. */
  function IdText(c: Info): string
    requires c.priority < 100
  {
    TextWith(TwoDigits(c.priority), c)
  }

  /** What computer::set_id reads; `isAddress` and `pidMax` come from libraries. */
  function ParseId(id: string, isAddress: string -> bool, pidMax: nat): ParsedId {
    var parts := Split(id, '|');
    if |parts| != 5 then Bad(WrongParts)
    else match FromDecimal(parts[0])
      case NotANumber => Bad(BadPriority)
      case Number(priority) =>
        if !(PRIORITY_USER_MIN <= priority <= PRIORITY_MAX) then Bad(BadPriority)
        else match FromDecimal(parts[1])
          case NotANumber => Bad(BadRandom)
          case Number(random) =>
            if parts[2] == "" || !isAddress(parts[2]) then Bad(BadAddress)
            else match FromDecimal(parts[3])
              case NotANumber => Bad(BadPid)
              case Number(pid) =>
                if !(1 <= pid <= pidMax) then Bad(BadPid)
                else if parts[4] == "" then Bad(BadName)
                else Good(Info(priority, random % NUMBER_LIMIT, parts[2], pid, parts[4]))
  }

  /** A computer that can have an identifier. */
  predicate Proper(c: Info, isAddress: string -> bool, pidMax: nat) {
    && PRIORITY_USER_MIN <= c.priority <= PRIORITY_MAX && c.random < NUMBER_LIMIT
    && c.ip != "" && isAddress(c.ip) && '|' !in c.ip && 1 <= c.pid <= pidMax && c.name != "" && '|' !in c.name
  }

  /** An identifier with this text for the priority. */
  function TextWith(priority: string, c: Info): string {
    priority + "|" + Decimal(c.random) + "|" + c.ip + "|" + Decimal(c.pid) + "|" + c.name
  }

  /** set_id accepts the priority with any number of digits. */
  lemma {:induction false} TextParses(priority: string, c: Info, isAddress: string -> bool, pidMax: nat)
    requires Proper(c, isAddress, pidMax) && FromDecimal(priority) == Number(c.priority)
    ensures ParseId(TextWith(priority, c), isAddress, pidMax) == Good(c)
  {
    var r, d := Decimal(c.random), Decimal(c.pid);
    DigitsOf(priority);
    DecimalRoundTrip(c.random);
    DecimalRoundTrip(c.pid);
    DigitsAreNoDelimiter(priority, '|');
    DigitsAreNoDelimiter(r, '|');
    DigitsAreNoDelimiter(d, '|');
    FiveParts(priority, r, c.ip, d, c.name);
    hide Split, FromDecimal, Decimal;
  }

  /** set_id gives back what get_id wrote. */
  lemma {:induction false} IdRoundTrip(c: Info, isAddress: string -> bool, pidMax: nat)
    requires Proper(c, isAddress, pidMax)
    ensures ParseId(IdText(c), isAddress, pidMax) == Good(c)
  {
    TwoDigitsRoundTrip(c.priority);
    hide ParseId, TwoDigits;
    TextParses(TwoDigits(c.priority), c, isAddress, pidMax);
  }

  /** An identifier that set_id accepts: the text of a proper computer, in which the numbers may be written with any
      digits and the random number may be too large. */
  ghost predicate TextOf(id: string, c: Info, p: string, r: string, d: string) {
    && id == p + "|" + r + "|" + c.ip + "|" + d + "|" + c.name
    && FromDecimal(p) == Number(c.priority) && FromDecimal(d) == Number(c.pid)
    && FromDecimal(r).Number? && FromDecimal(r).value % NUMBER_LIMIT == c.random
  }

  /** set_id accepts exactly the texts of proper computers, and reads their parts. */
  lemma {:induction false} AcceptedExactly(id: string, c: Info, isAddress: string -> bool, pidMax: nat)
    ensures ParseId(id, isAddress, pidMax) == Good(c)
       <==> Proper(c, isAddress, pidMax) && exists p, r, d :: TextOf(id, c, p, r, d)
  {
    if ParseId(id, isAddress, pidMax) == Good(c) {
      AcceptedIsText(id, c, isAddress, pidMax);
    } else if p, r, d :| Proper(c, isAddress, pidMax) && TextOf(id, c, p, r, d) {
      TextIsAccepted(id, c, p, r, d, isAddress, pidMax);
    }
  }

  lemma {:induction false} TextIsAccepted(id: string, c: Info, p: string, r: string, d: string,
      isAddress: string -> bool, pidMax: nat)
    requires Proper(c, isAddress, pidMax) && TextOf(id, c, p, r, d)
    ensures ParseId(id, isAddress, pidMax) == Good(c)
  {
    DigitsOf(p);
    DigitsOf(r);
    DigitsOf(d);
    DigitsAreNoDelimiter(p, '|');
    DigitsAreNoDelimiter(r, '|');
    DigitsAreNoDelimiter(d, '|');
    FiveParts(p, r, c.ip, d, c.name);
    hide Split, FromDecimal;
  }

  lemma {:induction false} AcceptedIsText(id: string, c: Info, isAddress: string -> bool, pidMax: nat)
    requires ParseId(id, isAddress, pidMax) == Good(c)
    ensures Proper(c, isAddress, pidMax) && exists p, r, d :: TextOf(id, c, p, r, d)
  {
    hide Split, FromDecimal;
    var parts := Split(id, '|');
    var x1 := SplitOff(id, '|');
    var x2 := SplitOff(x1, '|');
    var x3 := SplitOff(x2, '|');
    var x4 := SplitOff(x3, '|');
    SplitNone(x4, '|');
    Regroup(parts[0] + "|" + parts[1] + "|" + parts[2], parts[3], x4);
    Regroup(parts[0] + "|" + parts[1], parts[2], x3);
    Regroup(parts[0], parts[1], x2);
    assert TextOf(id, c, parts[0], parts[1], parts[3]);
  }

  lemma Regroup(p: string, x: string, y: string)
    ensures p + "|" + x + "|" + y == p + "|" + (x + "|" + y)
  {
  }

  lemma {:induction false} FiveParts(a: string, b: string, c: string, d: string, e: string)
    requires '|' !in a && '|' !in b && '|' !in c && '|' !in d && '|' !in e
    ensures Split(a + "|" + b + "|" + c + "|" + d + "|" + e, '|') == [a, b, c, d, e]
  {
    hide Split;
    var de := d + "|" + e;
    var cde := c + "|" + de;
    var bcde := b + "|" + cde;
    Regroup(a + "|" + b + "|" + c, d, e);
    Regroup(a + "|" + b, c, de);
    Regroup(a, b, cde);
    SplitAt(a, '|', bcde);
    SplitAt(b, '|', cde);
    SplitAt(c, '|', de);
    SplitAt(d, '|', e);
    SplitWhole(e, '|');
  }

  // ---------- the order of identifiers ----------

  /** An identifier whose priority takes two digits. */
  predicate Padded(id: string, priority: nat) {
    priority < 100 && |id| >= 2 && id[..2] == TwoDigits(priority)
  }

  /** With two digits the string order never contradicts the priorities. */
  lemma PaddedOrder(a: string, p: nat, b: string, q: nat)
    requires Padded(a, p) && Padded(b, q) && p < q
    ensures Before(a, b)
  {
    var x, y := TwoDigits(p), TwoDigits(q);
    assert a == x + a[2..] && b == y + b[2..];
    assert x != y by {
      TwoDigitsRoundTrip(p);
      TwoDigitsRoundTrip(q);
    }
    assert x == [x[0]] + [x[1]] && y == [y[0]] + [y[1]];
    AppendDigit([x[0]], x[1], [y[0]], y[1]);
    AppendDigit([], x[0], [], y[0]);
    assert [] + [x[0]] == [x[0]] && [] + [y[0]] == [y[0]];
    BeforeDecided(x, y, a[2..], b[2..]);
  }

  lemma IdIsPadded(c: Info)
    requires c.priority < 100
    ensures Padded(IdText(c), c.priority)
  {
  }

  /** The string order puts the larger priority first. */
  predicate Contradicts(a: string, p: nat, b: string, q: nat) {
    (p < q && Before(b, a)) || (q < p && Before(a, b))
  }

  function PriorityText(id: string): string { Split(id, '|')[0] }

  /** A number without its last `k` digits. */
  function Leading(n: nat, k: nat): (m: nat)
    ensures m <= n
  {
    if k == 0 then n else Leading(n / 10, k - 1)
  }

  lemma {:induction false} LeadingDigits(x: string, n: nat)
    requires FromDecimal(x).Number? && 0 < n <= |x|
    ensures FromDecimal(x[..n]) == Number(Leading(FromDecimal(x).value, |x| - n))
    decreases |x|
  {
    if n == |x| {
      assert x[..n] == x;
    } else {
      var front := x[..|x| - 1];
      assert FromDecimal(x).value / 10 == FromDecimal(front).value && front[..n] == x[..n];
      LeadingDigits(front, n);
    }
  }

  /** Numbers with the same number of digits are in the order of their texts. */
  lemma {:induction false} SameWidth(x: string, y: string)
    requires FromDecimal(x).Number? && FromDecimal(y).Number? && |x| == |y|
    ensures Before(x, y) <==> FromDecimal(x).value < FromDecimal(y).value
    ensures x == y <==> FromDecimal(x) == FromDecimal(y)
    decreases |x|
  {
    var front, last, front', last' := x[..|x| - 1], x[|x| - 1], y[..|y| - 1], y[|y| - 1];
    assert x == front + [last] && y == front' + [last'];
    AppendDigit(front, last, front', last');
    if |x| > 1 {
      SameWidth(front, front');
    }
  }

  /** A longer text comes first unless its leading digits are a larger number. */
  lemma {:induction false} LongerFirst(x: string, y: string, rest: string, rest': string)
    requires FromDecimal(x).Number? && FromDecimal(y).Number? && |x| > |y|
    ensures Before(x + "|" + rest, y + "|" + rest') <==>
        Leading(FromDecimal(x).value, |x| - |y|) <= FromDecimal(y).value
  {
    DigitsOf(x);
    DigitsOf(y);
    var z, w := x[..|y|], x[|y|..];
    LeadingDigits(x, |y|);
    SameWidth(z, y);
    assert x + "|" + rest == z + (w + "|" + rest) && y + "|" + rest' == y + ("|" + rest');
    hide FromDecimal, Leading;
    if z == y {
      BeforeSharedPrefix(y, w + "|" + rest, "|" + rest');
      assert (w + "|" + rest)[0] == w[0] == x[|y|] && ("|" + rest')[0] == '|';
    } else {
      BeforeDecided(z, y, w + "|" + rest, "|" + rest');
    }
  }

  lemma {:induction false} SameWidthAgrees(x: string, y: string, rest: string, rest': string)
    requires FromDecimal(x).Number? && FromDecimal(y).Number? && |x| == |y| && FromDecimal(x) != FromDecimal(y)
    ensures Before(x + "|" + rest, y + "|" + rest') <==> FromDecimal(x).value < FromDecimal(y).value
  {
    SameWidth(x, y);
    hide FromDecimal;
    assert x + "|" + rest == x + ("|" + rest) && y + "|" + rest' == y + ("|" + rest');
    BeforeDecided(x, y, "|" + rest, "|" + rest');
  }

  lemma NotBoth(a: string, b: string)
    requires Before(a, b)
    ensures !Before(b, a)
  {
    BeforeIrreflexive(a);
    if Before(b, a) {
      BeforeTransitive(a, b, a);
    }
  }

  lemma ParsedPriority(id: string, isAddress: string -> bool, pidMax: nat)
    requires ParseId(id, isAddress, pidMax).Good?
    ensures |Split(id, '|')| > 1
    ensures FromDecimal(PriorityText(id)) == Number(ParseId(id, isAddress, pidMax).info.priority)
  {
  }

  /** set_id keeps the text that it is given and accepts any number of digits.  Of any two identifiers
      that it accepts, the order contradicts the priorities if and only if one priority is written
      with more digits, is the larger one, and its leading digits are not larger than the other. */
  lemma {:induction false} UnpaddedOrder(a: string, b: string, isAddress: string -> bool, pidMax: nat)
    requires ParseId(a, isAddress, pidMax).Good? && ParseId(b, isAddress, pidMax).Good?
    requires |PriorityText(a)| >= |PriorityText(b)|
    ensures var p, q := ParseId(a, isAddress, pidMax).info.priority, ParseId(b, isAddress, pidMax).info.priority;
            var k := |PriorityText(a)| - |PriorityText(b)|;
            Contradicts(a, p, b, q) <==> k > 0 && Leading(p, k) <= q < p
  {
    ParsedPriority(a, isAddress, pidMax);
    ParsedPriority(b, isAddress, pidMax);
    hide ParseId, Split, PriorityText, FromDecimal, Before;
    var x, y := PriorityText(a), PriorityText(b);
    var rest := SplitOff(a, '|');
    var rest' := SplitOff(b, '|');
    if |x| > |y| {
      LongerFirst(x, y, rest, rest');
    } else if FromDecimal(x) != FromDecimal(y) {
      SameWidthAgrees(x, y, rest, rest');
    }
    if Before(a, b) {
      NotBoth(a, b);
    } else {
      BeforeTotal(a, b);
    }
  }

  /** The result of creating our own computer; InvalidParameter stands for the exception. */
  datatype Created = Created(computer: Computer) | InvalidParameter

  datatype SetResult = Accepted | Rejected(error: IdError) | Throws

  /** NoIdentifier stands for an exception. */
  datatype Identifier = Identifier(id: string) | NoIdentifier

  class Computer {
    var id: string
    var connected: bool
    var priority: int
    var random: nat
    var ip: string
    var pid: nat
    var name: string

    /** A computer that another one told us about. */
    constructor ()
      ensures Ok() && id == "" && priority == PRIORITY_UNDEFINED && connected
    {
      id, connected, priority, random, ip, pid, name := "", true, PRIORITY_UNDEFINED, 0, "", 0, "";
    }

    /** Our own computer. */
    static method Self(name: string, priority: int, random: nat, ip: string, pid: nat) returns (r: Created)
      ensures r.InvalidParameter? <==> !OwnName(name) || !(PRIORITY_USER_MIN <= priority <= PRIORITY_MAX)
      ensures name == "" || '|' in name || '\0' in name ==> r.InvalidParameter?
      ensures r.Created? ==> fresh(r.computer) && r.computer.Ok() && r.computer.id == "" && r.computer.connected
      ensures r.Created? ==> r.computer.priority == priority
      ensures r.Created? ==> r.computer.View() == Info(priority, random, ip, pid, name)
    {
      if !OwnName(name) || !(PRIORITY_USER_MIN <= priority <= PRIORITY_MAX) {
        return InvalidParameter;
      }
      var computer := new Computer();
      computer.priority, computer.random, computer.ip, computer.pid, computer.name := priority, random, ip, pid, name;
      return Created(computer);
    }

    predicate Ok()
      reads this`priority
    {
      priority == PRIORITY_UNDEFINED || PRIORITY_USER_MIN <= priority <= PRIORITY_MAX
    }

    function View(): Info
      requires Ok() && priority != PRIORITY_UNDEFINED
      reads this
    {
      Info(priority, random, ip, pid, name)
    }

    /** The fields are filled step by step: an error leaves the ones before it changed. */
    method SetId(text: string, isAddress: string -> bool, pidMax: nat) returns (r: SetResult)
      requires Ok()
      modifies this
      ensures Ok() && (r.Accepted? ==> priority != PRIORITY_UNDEFINED)
      ensures r.Throws? <==> old(priority) != PRIORITY_UNDEFINED
      ensures !r.Throws? ==> r == match ParseId(text, isAddress,
          pidMax) case Good(_) => Accepted case Bad(e) => Rejected(e)
      ensures r.Accepted? ==> id == text && View() == ParseId(text, isAddress, pidMax).info
      ensures !r.Accepted? ==> id == old(id) && name == old(name)
      ensures r.Rejected? ==> (priority != PRIORITY_UNDEFINED <==> r.error != WrongParts && r.error != BadPriority)
    {
      if priority != PRIORITY_UNDEFINED {
        return Throws;
      }
      var parts := Split(text, '|');
      if |parts| != 5 {
        return Rejected(WrongParts);
      }
      var value := FromDecimal(parts[0]);
      if value.NotANumber? || !(PRIORITY_USER_MIN <= value.value <= PRIORITY_MAX) {
        return Rejected(BadPriority);
      }
      priority := value.value;
      value := FromDecimal(parts[1]);
      if value.NotANumber? {
        return Rejected(BadRandom);
      }
      random := value.value % NUMBER_LIMIT;
      if parts[2] == "" || !isAddress(parts[2]) {
        return Rejected(BadAddress);
      }
      ip := parts[2];
      value := FromDecimal(parts[3]);
      if value.NotANumber? || !(1 <= value.value <= pidMax) {
        return Rejected(BadPid);
      }
      pid := value.value;
      if parts[4] == "" {
        return Rejected(BadName);
      }
      name := parts[4];
      id := text;
      return Accepted;
    }

    /** The text is built once and kept. */
    method GetId() returns (r: Identifier)
      requires Ok()
      modifies this`id
      ensures r.NoIdentifier? <==> old(id) == "" && (priority == PRIORITY_UNDEFINED || ip == "" || pid == 0)
      ensures r.NoIdentifier? ==> id == old(id)
      ensures r.Identifier? ==> id == r.id && r.id == if old(id) != "" then old(id) else IdText(View())
    {
      if id == "" {
        if priority == PRIORITY_UNDEFINED || ip == "" || pid == 0 {
          return NoIdentifier;
        }
        id := IdText(View());
      }
      return Identifier(id);
    }
  }
}
