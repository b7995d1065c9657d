/** Text handling that the daemon gets from its libraries: decimal numbers and tokens. */
module Text {
  /** A number as std::to_string writes it. */
  function Decimal(n: nat): (s: string)
    ensures s != [] && IsDigits(s)
  {
    var digit := ('0' as int + n % 10) as char;
    if n < 10 then [digit] else Decimal(n / 10) + [digit]
  }

  predicate IsDigits(s: string) { forall i :: 0 <= i < |s| ==> '0' <= s[i] <= '9' }

  datatype Parsed = Number(value: nat) | NotANumber

  /** The value of a string of decimal digits. */
  function FromDecimal(s: string): Parsed {
    if s == [] then NotANumber
    else
      var last := s[|s| - 1];
      if !('0' <= last <= '9') then NotANumber
      else if |s| == 1 then Number(last as int - '0' as int)
      else match FromDecimal(s[..|s| - 1])
        case Number(n) => Number(10 * n + (last as int - '0' as int))
        case NotANumber => NotANumber
  }

  lemma {:induction false} DecimalRoundTrip(n: nat)
    ensures FromDecimal(Decimal(n)) == Number(n)
  {
    if n >= 10 {
      DecimalRoundTrip(n / 10);
      assert Decimal(n)[..|Decimal(n)| - 1] == Decimal(n / 10);
    }
  }

  lemma {:induction false} DigitsOf(s: string)
    requires FromDecimal(s).Number?
    ensures s != [] && IsDigits(s)
  {
    if |s| > 1 {
      DigitsOf(s[..|s| - 1]);
    }
  }

  /** Two digits, as std::setw(2) with '0' as the fill character writes a number below 100. */
  function TwoDigits(n: nat): (s: string)
    requires n < 100
    ensures |s| == 2 && IsDigits(s)
  {
    [('0' as int + n / 10) as char, ('0' as int + n % 10) as char]
  }

  lemma TwoDigitsRoundTrip(n: nat)
    requires n < 100
    ensures FromDecimal(TwoDigits(n)) == Number(n)
  {
    var s := TwoDigits(n);
    assert s[..1] == [s[0]];
    assert FromDecimal([s[0]]) == Number(n / 10);
  }

  /** snapdev::tokenize_string with one delimiter, keeping empty tokens. */
  function Split(s: string, delimiter: char): (r: seq<string>)
    ensures |r| >= 1
  {
    if s == [] then [[]]
    else
      var rest := Split(s[1..], delimiter);
      if s[0] == delimiter then [[]] + rest else [[s[0]] + rest[0]] + rest[1..]
  }

  lemma {:induction false} SplitAt(a: string, delimiter: char, b: string)
    requires delimiter !in a
    ensures Split(a + [delimiter] + b, delimiter) == [a] + Split(b, delimiter)
  {
    var whole := a + [delimiter] + b;
    if a == [] {
      assert whole[1..] == b;
    } else {
      assert a == [a[0]] + a[1..];
      assert whole[1..] == a[1..] + [delimiter] + b;
      SplitAt(a[1..], delimiter, b);
    }
  }

  lemma {:induction false} SplitWhole(a: string, delimiter: char)
    requires delimiter !in a
    ensures Split(a, delimiter) == [a]
  {
    if a != [] {
      SplitWhole(a[1..], delimiter);
      assert a == [a[0]] + a[1..];
    }
  }

  lemma DigitsAreNoDelimiter(s: string, delimiter: char)
    requires IsDigits(s) && !('0' <= delimiter <= '9')
    ensures delimiter !in s
  {
  }

  /** The first token, the delimiter, and what the other tokens are made of. */
  lemma {:induction false} SplitOff(s: string, delimiter: char) returns (rest: string)
    requires |Split(s, delimiter)| > 1
    ensures s == Split(s, delimiter)[0] + [delimiter] + rest && delimiter !in Split(s, delimiter)[0]
    ensures Split(rest, delimiter) == Split(s, delimiter)[1..]
  {
    if s[0] == delimiter {
      rest := s[1..];
    } else {
      rest := SplitOff(s[1..], delimiter);
      assert s == [s[0]] + s[1..];
    }
  }

  lemma {:induction false} SplitNone(s: string, delimiter: char)
    requires |Split(s, delimiter)| == 1
    ensures Split(s, delimiter) == [s] && delimiter !in s
  {
    if s != [] {
      assert |Split(s[1..], delimiter)| == 1 && s == [s[0]] + s[1..];
      SplitNone(s[1..], delimiter);
    }
  }
}
