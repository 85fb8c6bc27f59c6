/** The ids of stream clients: a counter in decimal. */
module StreamIds {

  function Digit(d: nat): char
    requires d < 10
  {
    ('0' as int + d) as char
  }

  /** Decimal digits of n, none for zero. */
  function Digits(n: nat): string {
    if n == 0 then "" else Digits(n / 10) + [Digit(n % 10)]
  }

  function Decimal(n: nat): string {
    if n == 0 then "0" else Digits(n)
  }

  function StreamId(n: nat): string {
    "stream-" + Decimal(n)
  }

  /** The number that a decimal numeral denotes. */
  function Denoted(s: string): int {
    if s == "" then 0 else 10 * Denoted(s[..|s| - 1]) + (s[|s| - 1] as int - '0' as int)
  }

  /** The id's digits are its number in decimal. */
  lemma {:induction false} DecimalDenotes(n: nat)
    ensures Denoted(Digits(n)) == n && Denoted(Decimal(n)) == n
  {
    if n > 0 {
      DecimalDenotes(n / 10);
      assert Digits(n)[..|Digits(n)| - 1] == Digits(n / 10);
    } else {
      assert Denoted("0") == 10 * Denoted("0"[..0]) + 0;
    }
  }

  lemma {:induction false} DigitsInjective(m: nat, n: nat)
    requires Digits(m) == Digits(n)
    ensures m == n
  {
    if m != 0 && n != 0 {
      var a, b := Digits(m / 10), Digits(n / 10);
      assert (a + [Digit(m % 10)])[..|a|] == a && (b + [Digit(n % 10)])[..|b|] == b;
      assert a == b && Digit(m % 10) == Digit(n % 10) by {
        assert (a + [Digit(m % 10)])[|a|] == Digit(m % 10) && (b + [Digit(n % 10)])[|b|] == Digit(n % 10);
      }
      DigitsInjective(m / 10, n / 10);
    }
  }

  lemma DigitsNoLeadingZero(n: nat)
    requires n > 0
    ensures |Digits(n)| > 0 && Digits(n)[0] != '0'
  {}

  /** Different counters give different ids. */
  lemma IdsDistinct(m: nat, n: nat)
    requires StreamId(m) == StreamId(n)
    ensures m == n
  {
    assert StreamId(m)[7..] == Decimal(m) && StreamId(n)[7..] == Decimal(n);
    if m > 0 { DigitsNoLeadingZero(m); }
    if n > 0 { DigitsNoLeadingZero(n); }
    DigitsInjective(m, n);
  }

  function Pow10(k: nat): nat {
    if k == 0 then 1 else 10 * Pow10(k - 1)
  }

  lemma Pow10Of20()
    ensures Pow10(20) == 100_000_000_000_000_000_000
  {
    assert Pow10(7) == 10_000_000;
    assert Pow10(14) == 100_000_000_000_000;
  }

  lemma PeelDigit(v: nat, after: string)
    requires v > 0
    ensures Digits(v) + after == Digits(v / 10) + ([Digit(v % 10)] + after)
  {}

  /** The decimal text, filled into a 20-byte buffer from the end; 20 digits suffice for every uint64. */
  method Itoa(value: nat) returns (s: string)
    requires value < 0x1_0000_0000_0000_0000
    ensures s == Decimal(value)
  {
    if value == 0 {
      return "0";
    }
    var buf := new char[20](_ => '0');
    var i: nat := buf.Length;
    var v: nat := value;
    ghost var tail: string := "";
    Pow10Of20();
    while v > 0
      invariant i <= 20 && v < Pow10(i)
      invariant buf[i..] == tail && Digits(v) + tail == Digits(value)
    {
      var d := Digit(v % 10);
      i := i - 1;
      buf[i] := d;
      PeelDigit(v, tail);
      tail := [d] + tail;
      v := v / 10;
    }
    assert Digits(v) + tail == tail;
    s := buf[i..];
  }

  /** nextStreamID, given the counter after its increment. */
  method NextStreamId(n: nat) returns (id: string)
    requires n < 0x1_0000_0000_0000_0000
    ensures id == StreamId(n)
  {
    var digits := Itoa(n);
    id := "stream-" + digits;
  }
}
