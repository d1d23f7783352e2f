/** Small shared vocabulary: optional columns, times and decimal numerals. */
module Basics {

  /** A nullable column or field. */
  datatype Option<+T> = None | Some(value: T)

  /** Nanoseconds since Go's zero time, so that `IsZero` is a comparison with 0. */
  type Time = int

  const ZERO_TIME: Time := 0

  /** A command that carries no time of its own is stamped with the server clock. */
  function OrNow(at: Time, now: Time): Time {
    if at == ZERO_TIME then now else at
  }

  function Min(a: int, b: int): int {
    if a < b then a else b
  }

  /** The last element of a log, when there is one. */
  function Last<T>(s: seq<T>): Option<T> {
    if s == [] then None else Some(s[|s| - 1])
  }

  lemma {:induction false} SubsetIsNoLarger<T>(a: set<T>, b: set<T>)
    requires a <= b
    ensures |a| <= |b|
  {
    if a != {} {
      var x :| x in a;
      SubsetIsNoLarger(a - {x}, b - {x});
    }
  }

  lemma ProperSubsetIsSmaller<T>(a: set<T>, b: set<T>, x: T)
    requires a <= b - {x} && x in b
    ensures |a| < |b|
  {
    SubsetIsNoLarger(a, b - {x});
  }

  /** A sequence without repetitions holds as many elements as it has places. */
  lemma {:induction false} DistinctCount<T>(s: seq<T>)
    requires forall i, j :: 0 <= i < j < |s| ==> s[i] != s[j]
    ensures |set x | x in s| == |s|
  {
    if s != [] {
      var rest, last := s[..|s| - 1], s[|s| - 1];
      DistinctCount(rest);
      assert s == rest + [last];
      assert last !in rest;
      assert (set x | x in s) == (set x | x in rest) + {last};
    }
  }
}

/** Decimal numerals as Go's `%d` and `%0*d` print them for non-negative numbers. */
module Decimals {

  predicate IsDigit(c: char) {
    '0' <= c <= '9'
  }

  function DigitOf(d: nat): (c: char)
    requires d < 10
    ensures IsDigit(c)
  {
    (d as char + '0') as char
  }

  function DigitValue(c: char): nat
    requires IsDigit(c)
  {
    c as int - '0' as int
  }

  function Decimal(n: nat): (s: string)
    ensures |s| > 0 && forall i :: 0 <= i < |s| ==> IsDigit(s[i])
  {
    if n < 10 then [DigitOf(n)] else Decimal(n / 10) + [DigitOf(n % 10)]
  }

  /** `%0*d` with the given width. */
  function Padded(n: nat, width: nat): (s: string)
    ensures |s| >= width && |s| > 0 && forall i :: 0 <= i < |s| ==> IsDigit(s[i])
  {
    var digits := Decimal(n);
    if |digits| >= width then digits else seq(width - |digits|, _ => '0') + digits
  }

  /** The number a string of digits denotes. */
  function Value(s: string): nat
    requires forall i :: 0 <= i < |s| ==> IsDigit(s[i])
  {
    if s == [] then 0 else 10 * Value(s[..|s| - 1]) + DigitValue(s[|s| - 1])
  }

  lemma {:induction false} ValueOfDecimal(n: nat)
    ensures Value(Decimal(n)) == n
  {
    var s := Decimal(n);
    if n >= 10 {
      ValueOfDecimal(n / 10);
      assert s[..|s| - 1] == Decimal(n / 10);
    } else {
      assert s[..|s| - 1] == [];
    }
  }

  /** Leading zeros do not change the value. */
  lemma {:induction false} ValueOfZeros(k: nat, digits: string)
    requires forall i :: 0 <= i < |digits| ==> IsDigit(digits[i])
    ensures var s := seq(k, _ => '0') + digits;
            (forall i :: 0 <= i < |s| ==> IsDigit(s[i])) && Value(s) == Value(digits)
    decreases |digits|, k
  {
    var zeros := seq(k, _ => '0');
    var s := zeros + digits;
    if digits != [] {
      ValueOfZeros(k, digits[..|digits| - 1]);
      assert s[..|s| - 1] == zeros + digits[..|digits| - 1];
    } else if k > 0 {
      ValueOfZeros(k - 1, digits);
      assert s[..|s| - 1] == seq(k - 1, _ => '0') + digits;
    }
  }

  lemma ValueOfPadded(n: nat, width: nat)
    ensures Value(Padded(n, width)) == n
  {
    ValueOfDecimal(n);
    if |Decimal(n)| < width {
      ValueOfZeros(width - |Decimal(n)|, Decimal(n));
    }
  }

  lemma DecimalInjective(m: nat, n: nat)
    requires Decimal(m) == Decimal(n)
    ensures m == n
  {
    ValueOfDecimal(m);
    ValueOfDecimal(n);
  }
}

/** Printed ticket numbers, `code-007`, and how to read them back. */
module TicketNumbers {
  import opened Basics
  import opened Decimals

  const TICKET_NUMBER_PAD: nat := 3

  function FormatNumber(code: string, n: nat): string {
    code + "-" + Padded(n, TICKET_NUMBER_PAD)
  }

  /** Three digits at least, and as many as it takes. */
  lemma NumbersByExample()
    ensures FormatNumber("A", 7) == "A-007" && FormatNumber("A", 1234) == "A-1234"
  {
    assert Decimal(7) == "7" && Decimal(12) == "12" && Decimal(123) == "123" && Decimal(1234) == "1234";
    assert Padded(7, 3) == "007" && Padded(1234, 3) == "1234";
  }

  /** Splits at the last dash and reads the digits behind it. */
  function ParseNumber(s: string): Option<(string, nat)> {
    ParseFrom(s, |s|)
  }

  function ParseFrom(s: string, end: nat): Option<(string, nat)>
    requires end <= |s|
    requires forall i :: end <= i < |s| ==> IsDigit(s[i])
    decreases end
  {
    if end == 0 then None
    else if s[end - 1] == '-' then
      if end == |s| then None else Some((s[..end - 1], Value(s[end..])))
    else if IsDigit(s[end - 1]) then ParseFrom(s, end - 1)
    else None
  }

  lemma {:induction false} ParseSkipsDigits(code: string, digits: string, end: nat)
    requires |digits| > 0 && forall i :: 0 <= i < |digits| ==> IsDigit(digits[i])
    requires |code| + 1 <= end <= |code| + 1 + |digits|
    ensures ParseFrom(code + "-" + digits, end) == Some((code, Value(digits)))
    decreases end
  {
    var s := code + "-" + digits;
    if end == |code| + 1 {
      assert s[..end - 1] == code && s[end..] == digits;
    } else {
      assert s[end - 1] == digits[end - 1 - (|code| + 1)];
      ParseSkipsDigits(code, digits, end - 1);
    }
  }

  /** The printed form determines the service code and the sequence number, whatever the code. */
  lemma NumberRoundTrip(code: string, n: nat)
    ensures ParseNumber(FormatNumber(code, n)) == Some((code, n))
  {
    ValueOfPadded(n, TICKET_NUMBER_PAD);
    ParseSkipsDigits(code, Padded(n, TICKET_NUMBER_PAD), |FormatNumber(code, n)|);
  }
}
