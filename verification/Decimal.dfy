/** Decimal text of machine integers: `fmt.Sprintf("%d", n)` and `strconv.Atoi`. */
module Decimal {
  import opened Basics

  const MAX_INT64 := 0x7fff_ffff_ffff_ffff
  const MIN_INT64 := -0x8000_0000_0000_0000

  function Digit(d: nat): char
    requires d < 10
  {
    '0' + d as char
  }

  function Digits(n: nat): string {
    if n < 10 then [Digit(n)] else Digits(n / 10) + [Digit(n % 10)]
  }

  /** What `%d` prints. */
  function Print(n: int): string {
    if n < 0 then "-" + Digits(-n) else Digits(n)
  }

  predicate IsDigit(c: char) { '0' <= c <= '9' }

  predicate AllDigits(s: string) {
    |s| > 0 && forall i | 0 <= i < |s| :: IsDigit(s[i])
  }

  function Value(s: string): nat
    requires forall i | 0 <= i < |s| :: IsDigit(s[i])
  {
    if s == [] then 0
    else
      var c := Last(s);
      assert IsDigit(c);
      10 * Value(s[..|s| - 1]) + (c as int - '0' as int)
  }

  /** Clamping of out-of-range numbers, as `strconv.ParseInt` does before reporting ErrRange. */
  function Clamp(n: int): int {
    if n > MAX_INT64 then MAX_INT64 else if n < MIN_INT64 then MIN_INT64 else n
  }

  /** `port, _ := strconv.Atoi(value)`: the error is dropped, so malformed text yields 0. */
  function Atoi(s: string): int {
    if AllDigits(s) then Clamp(Value(s))
    else if |s| > 1 && s[0] == '-' && AllDigits(s[1..]) then Clamp(0 - Value(s[1..]))
    else if |s| > 1 && s[0] == '+' && AllDigits(s[1..]) then Clamp(Value(s[1..]))
    else 0
  }

  /** The conversion `int32(port)`: keep the low 32 bits, read as two's complement. */
  function ToInt32(n: int): Int32 {
    var low := n % 0x1_0000_0000;
    if low < 0x8000_0000 then low else low - 0x1_0000_0000
  }

  function ExposedPort(value: string): Int32 {
    ToInt32(Atoi(value))
  }

  lemma {:induction false} DigitsRoundTrip(n: nat)
    ensures AllDigits(Digits(n)) && Value(Digits(n)) == n
  {
    if n < 10 {
      assert Digits(n)[..0] == "";
    } else {
      DigitsRoundTrip(n / 10);
      assert Digits(n)[..|Digits(n)| - 1] == Digits(n / 10);
    }
  }

  /** Reading back what `%d` printed gives the number, clamped to 64 bits. */
  lemma AtoiOfPrint(n: int)
    ensures Atoi(Print(n)) == Clamp(n)
  {
    DigitsRoundTrip(if n < 0 then -n else n);
    if n < 0 {
      assert Print(n)[1..] == Digits(-n);
      assert !IsDigit(Print(n)[0]);
    }
  }

  /** Positional notation: a digit behind a number is ten times the number and the digit. */
  lemma DecimalPlaces(n: nat, d: nat)
    requires d < 10
    ensures Print(d) == ['0' + d as char]
    ensures n > 0 ==> Print(10 * n + d) == Print(n) + ['0' + d as char]
  {
    assert (10 * n + d) / 10 == n && (10 * n + d) % 10 == d;
  }

  lemma {:induction false} NoLeadingZero(n: nat)
    requires n > 0
    ensures Digits(n) != "" && Digits(n)[0] != '0'
  {
    if n >= 10 {
      NoLeadingZero(n / 10);
    }
  }

  /** The text of a number has neither a plus sign nor a leading zero, so it is the only one of its kind. */
  lemma PrintIsCanonical(n: int)
    ensures n > 0 ==> AllDigits(Print(n)) && Print(n)[0] != '0'
    ensures n < 0 ==> Print(n)[0] == '-' && AllDigits(Print(n)[1..]) && Print(n)[1] != '0'
    ensures n == 0 ==> Print(n) == "0"
  {
    if n != 0 {
      var m := if n < 0 then -n else n;
      DigitsRoundTrip(m);
      NoLeadingZero(m);
      assert n < 0 ==> Print(n)[1..] == Digits(m);
    }
  }

  /** An optional sign, and at least one digit. */
  predicate Numeral(s: string) {
    s != "" && ((s[0] == '-' || s[0] == '+') ==> |s| > 1)
    && forall i | 0 <= i < |s| :: '0' <= s[i] <= '9' || (i == 0 && (s[0] == '-' || s[0] == '+'))
  }

  /** What is no number is port 0, since the parse error is dropped; a plus sign does not matter. */
  lemma ExposedPortOfText(s: string)
    ensures !Numeral(s) ==> ExposedPort(s) == 0
    ensures forall n: nat | n < 0x8000_0000 && s == "+" + Print(n) :: ExposedPort(s) == n
  {
    if AllDigits(s) {
      assert Numeral(s);
    } else if |s| > 1 && (s[0] == '-' || s[0] == '+') && AllDigits(s[1..]) {
      assert forall i | 0 < i < |s| :: s[i] == s[1..][i - 1];
      assert Numeral(s);
    }
    forall n: nat | n < 0x8000_0000 && s == "+" + Print(n) ensures ExposedPort(s) == n {
      DigitsRoundTrip(n);
      assert s[1..] == Digits(n) && !IsDigit(s[0]);
      assert n % 0x1_0000_0000 == n;
    }
  }

  /** Printing loses nothing: a port set in the CR can be recovered from the env var. */
  lemma PrintInjective(a: Int32, b: Int32)
    requires Print(a) == Print(b)
    ensures a == b
  {
    AtoiOfPrint(a);
    AtoiOfPrint(b);
  }

  /** `expose-port` is exact on every int32, and saturates then wraps outside int64. */
  lemma ExposedPortOfPrint(n: int)
    ensures -0x8000_0000 <= n < 0x8000_0000 ==> ExposedPort(Print(n)) == n
    ensures n > MAX_INT64 ==> ExposedPort(Print(n)) == -1
    ensures n < MIN_INT64 ==> ExposedPort(Print(n)) == 0
  {
    AtoiOfPrint(n);
    if n > MAX_INT64 {
      assert MAX_INT64 % 0x1_0000_0000 == 0xffff_ffff;
    } else if n < MIN_INT64 {
      assert MIN_INT64 % 0x1_0000_0000 == 0;
    } else if 0 <= n < 0x8000_0000 {
      assert n % 0x1_0000_0000 == n;
    } else if -0x8000_0000 <= n < 0 {
      assert n % 0x1_0000_0000 == n + 0x1_0000_0000;
    }
  }
}
