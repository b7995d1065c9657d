/** Ticket keys.

    A ticket is stored in a std::map under the string
    `hex8(number) + '/' + entering key`.  The bakery only works because the string order
    of those keys is the numeric order of the ticket numbers first and the string order
    of the entering keys second.  This module defines the string side and the structured
    side (`TicketKey`) and proves that they are the same order. */
module KeyOrder {
  import opened Text

  type EnteringKey = string

  // One past the largest ticket number: ticket::ticket_id_t is a 32 bit unsigned integer.
  const NUMBER_LIMIT: nat := 0x1_0000_0000

  /** Position of a ticket in the tables: f_our_ticket and f_entering_key. */
  datatype TicketKey = TicketKey(number: nat, entering: EnteringKey)

  // ---------- std::string operator< ----------

  predicate Before(a: string, b: string) {
    b != [] && (a == [] || a[0] < b[0] || (a[0] == b[0] && Before(a[1..], b[1..])))
  }

  lemma {:induction false} BeforeIrreflexive(a: string)
    ensures !Before(a, a)
  {
    if a != [] {
      BeforeIrreflexive(a[1..]);
    }
  }

  lemma {:induction false} BeforeTransitive(a: string, b: string, c: string)
    requires Before(a, b) && Before(b, c)
    ensures Before(a, c)
  {
    if a != [] && a[0] == b[0] && b[0] == c[0] {
      BeforeTransitive(a[1..], b[1..], c[1..]);
    }
  }

  lemma {:induction false} BeforeTotal(a: string, b: string)
    ensures a == b || Before(a, b) || Before(b, a)
  {
    if a != [] && b != [] && a[0] == b[0] {
      BeforeTotal(a[1..], b[1..]);
      assert a == [a[0]] + a[1..] && b == [b[0]] + b[1..];
    }
  }

  /** A common prefix does not influence the order. */
  lemma {:induction false} BeforeSharedPrefix(p: string, a: string, b: string)
    ensures Before(p + a, p + b) <==> Before(a, b)
  {
    if p == [] {
      assert p + a == a && p + b == b;
    } else {
      assert (p + a)[1..] == p[1..] + a && (p + b)[1..] == p[1..] + b;
      BeforeSharedPrefix(p[1..], a, b);
    }
  }

  /** Two different strings of one length decide the order, whatever follows them. */
  lemma {:induction false} BeforeDecided(p: string, q: string, a: string, b: string)
    requires |p| == |q| && p != q
    ensures Before(p + a, q + b) <==> Before(p, q)
  {
    assert (p + a)[0] == p[0] && (q + b)[0] == q[0];
    if p[0] == q[0] {
      assert (p + a)[1..] == p[1..] + a && (q + b)[1..] == q[1..] + b;
      assert p == [p[0]] + p[1..] && q == [q[0]] + q[1..];
      BeforeDecided(p[1..], q[1..], a, b);
    }
  }

  // ---------- the structured order ----------

  predicate KeyBefore(a: TicketKey, b: TicketKey) {
    a.number < b.number || (a.number == b.number && Before(a.entering, b.entering))
  }

  /** KeyBefore is a strict total order. */
  lemma KeyBeforeStrictTotal(a: TicketKey, b: TicketKey, c: TicketKey)
    ensures !KeyBefore(a, a)
    ensures KeyBefore(a, b) && KeyBefore(b, c) ==> KeyBefore(a, c)
    ensures a == b || KeyBefore(a, b) || KeyBefore(b, a)
    ensures !(KeyBefore(a, b) && KeyBefore(b, a))
  {
    BeforeIrreflexive(a.entering);
    BeforeTotal(a.entering, b.entering);
    if Before(a.entering, b.entering) && Before(b.entering, c.entering) {
      BeforeTransitive(a.entering, b.entering, c.entering);
    }
    if Before(a.entering, b.entering) && Before(b.entering, a.entering) {
      BeforeTransitive(a.entering, b.entering, a.entering);
    }
  }

  // ---------- hexadecimal ----------

  function HexDigit(d: nat): (c: char)
    requires d < 16
  {
    "0123456789abcdef"[d]
  }

  /** snapdev::int_to_hex(n, false, width): lower case digits, padded with zeroes. */
  function ToHex(n: nat, width: nat): (s: string)
    ensures |s| == width
  {
    if width == 0 then [] else ToHex(n / 16, width - 1) + [HexDigit(n % 16)]
  }

  /** 16 to the power of `width`. */
  function Sixteens(width: nat): (p: nat)
    ensures p > 0
  {
    if width == 0 then 1 else 16 * Sixteens(width - 1)
  }

  lemma HexDigitOrder(c: nat, d: nat)
    requires c < 16 && d < 16
    ensures HexDigit(c) < HexDigit(d) <==> c < d
    ensures HexDigit(c) == HexDigit(d) ==> c == d
  {
  }

  lemma SplitOrder(a: nat, b: nat)
    ensures a < b <==> a / 16 < b / 16 || (a / 16 == b / 16 && a % 16 < b % 16)
  {
  }

  lemma {:induction false} HexOrder(a: nat, b: nat, width: nat)
    requires a < Sixteens(width) && b < Sixteens(width)
    ensures Before(ToHex(a, width), ToHex(b, width)) <==> a < b
    ensures ToHex(a, width) == ToHex(b, width) ==> a == b
  {
    if width > 0 {
      HexOrder(a / 16, b / 16, width - 1);
      HexDigitOrder(a % 16, b % 16);
      SplitOrder(a, b);
      SplitOrder(b, a);
      AppendDigit(ToHex(a / 16, width - 1), HexDigit(a % 16), ToHex(b / 16, width - 1), HexDigit(b % 16));
    }
  }

  lemma AppendDigit(p: string, c: char, q: string, d: char)
    requires |p| == |q|
    ensures Before(p + [c], q + [d]) <==> if p == q then c < d else Before(p, q)
    ensures p + [c] == q + [d] ==> p == q && c == d
  {
    assert (p + [c])[..|p|] == p && (q + [d])[..|q|] == q;
    assert (p + [c])[|p|] == c && (q + [d])[|q|] == d;
    if p == q {
      BeforeSharedPrefix(p, [c], [d]);
    } else {
      BeforeDecided(p, q, [c], [d]);
    }
  }

  function HexValue(c: char): (v: int)
    ensures -1 <= v < 16
  {
    if '0' <= c <= '9' then c as int - '0' as int
    else if 'a' <= c <= 'f' then c as int - 'a' as int + 10
    else if 'A' <= c <= 'F' then c as int - 'A' as int + 10
    else -1
  }

  /** snapdev::hex_to_int: the value of a string of hexadecimal digits. */
  function FromHex(s: string): (r: Parsed) {
    if s == [] then Number(0) else
    var front := FromHex(s[..|s| - 1]);
    var digit := HexValue(s[|s| - 1]);
    if front.NotANumber? || digit < 0 then NotANumber else Number(16 * front.value + digit)
  }

  lemma {:induction false} HexRoundTrip(n: nat, width: nat)
    requires n < Sixteens(width)
    ensures FromHex(ToHex(n, width)) == Number(n)
  {
    if width > 0 {
      HexRoundTrip(n / 16, width - 1);
      assert ToHex(n, width)[..width - 1] == ToHex(n / 16, width - 1);
      assert HexValue(HexDigit(n % 16)) == n % 16;
    }
  }

  // ---------- the key string ----------

  /** ticket::add_ticket and ticket::set_ticket_number: the string under which a ticket is stored. */
  function KeyString(k: TicketKey): (s: string) {
    ToHex(k.number, 8) + "/" + k.entering
  }

  lemma LimitIsSixteens()
    ensures Sixteens(8) == NUMBER_LIMIT
  {
    assert Sixteens(4) == 0x1_0000;
    assert Sixteens(5) == 0x10_0000;
    assert Sixteens(6) == 0x100_0000;
    assert Sixteens(7) == 0x1000_0000;
  }

  /** Keys with one number are in the order of what follows it. */
  lemma {:induction false} SameNumber(p: string, a: string, b: string)
    ensures Before(p + "/" + a, p + "/" + b) <==> Before(a, b)
    ensures p + "/" + a == p + "/" + b ==> a == b
  {
    hide Before;
    assert (p + "/" + a)[|p| + 1..] == a && (p + "/" + b)[|p| + 1..] == b;
    BeforeSharedPrefix(p + "/", a, b);
  }

  /** Different numbers decide the order. */
  lemma {:induction false} OtherNumber(p: string, q: string, a: string, b: string)
    requires |p| == |q| && p != q
    ensures Before(p + "/" + a, q + "/" + b) <==> Before(p, q)
    ensures p + "/" + a != q + "/" + b
  {
    hide Before;
    assert p + "/" + a == p + ("/" + a) && q + "/" + b == q + ("/" + b);
    assert (p + "/" + a)[..|p|] == p && (q + "/" + b)[..|q|] == q;
    BeforeDecided(p, q, "/" + a, "/" + b);
  }

  /** The string order of the table is the bakery order, and a key string determines its ticket. */
  lemma {:induction false} KeyStringOrder(a: TicketKey, b: TicketKey)
    requires a.number < NUMBER_LIMIT && b.number < NUMBER_LIMIT
    ensures Before(KeyString(a), KeyString(b)) <==> KeyBefore(a, b)
    ensures KeyString(a) == KeyString(b) ==> a == b
  {
    hide Before, ToHex, Sixteens;
    LimitIsSixteens();
    HexOrder(a.number, b.number, 8);
    if a.number == b.number {
      SameNumber(ToHex(a.number, 8), a.entering, b.entering);
    } else {
      OtherNumber(ToHex(a.number, 8), ToHex(b.number, 8), a.entering, b.entering);
    }
  }

  // ---------- parsing a key (msg_add_ticket, msg_drop_ticket) ----------

  lemma {:induction false} HexHasNoSlash(n: nat, width: nat)
    ensures '/' !in ToHex(n, width)
  {
    if width > 0 {
      HexHasNoSlash(n / 16, width - 1);
    }
  }

  datatype ParsedKey = Key(key: TicketKey) | WrongSegments | WrongNumber

  /** The key msg_add_ticket recovers from the string: three segments, the first hexadecimal. */
  function ParseKey(s: string): (r: ParsedKey) {
    var segments := Split(s, '/');
    if |segments| != 3 then WrongSegments
    else match FromHex(segments[0])
      case Number(n) => if n < NUMBER_LIMIT then Key(TicketKey(n, segments[1] + "/" + segments[2])) else WrongNumber
      case NotANumber => WrongNumber
  }

  /** What the owner wrote is what the other leaders read: the number and the entering key. */
  lemma KeyParsesBack(number: nat, server: string, pid: string)
    requires number < NUMBER_LIMIT
    requires '/' !in server && '/' !in pid
    ensures ParseKey(KeyString(TicketKey(number, server + "/" + pid))) == Key(TicketKey(number, server + "/" + pid))
  {
    var hex, entering := ToHex(number, 8), server + "/" + pid;
    LimitIsSixteens();
    HexRoundTrip(number, 8);
    HexHasNoSlash(number, 8);
    SplitAt(hex, '/', entering);
    SplitAt(server, '/', pid);
    SplitWhole(pid, '/');
  }

  /** The written key of a ticket, with the number in any hexadecimal form. */
  ghost predicate WrittenKey(s: string, t: TicketKey, hex: string, server: string, pid: string) {
    && s == hex + "/" + server + "/" + pid && '/' !in hex && '/' !in server && '/' !in pid
    && FromHex(hex) == Number(t.number) && t.entering == server + "/" + pid
  }

  /** msg_add_ticket accepts exactly the keys with three segments and a number of at most 32 bits. */
  lemma {:induction false} KeyParsesExactly(s: string, t: TicketKey)
    ensures ParseKey(s) == Key(t)
       <==> t.number < NUMBER_LIMIT && exists hex, server, pid :: WrittenKey(s, t, hex, server, pid)
  {
    hide Split, FromHex;
    if ParseKey(s) == Key(t) {
      var segments := Split(s, '/');
      var rest := SplitOff(s, '/');
      var last := SplitOff(rest, '/');
      SplitNone(last, '/');
      assert segments[0] + "/" + (segments[1] + "/" + last) == segments[0] + "/" + segments[1] + "/" + last;
      assert WrittenKey(s, t, segments[0], segments[1], last);
    } else if hex, server, pid :| t.number < NUMBER_LIMIT && WrittenKey(s, t, hex, server, pid) {
      assert s == hex + "/" + (server + "/" + pid);
      SplitAt(hex, '/', server + "/" + pid);
      SplitAt(server, '/', pid);
      SplitWhole(pid, '/');
    }
  }
}
