/** Decimal numbers as Go's strconv and fmt read and print them. */
module Strconv {
  import opened Options

  const MAX_INT: int := 0x7FFF_FFFF_FFFF_FFFF
  const MIN_INT: int := -0x8000_0000_0000_0000

  predicate IsDigit(c: char) { '0' <= c <= '9' }

  function Digit(c: char): nat
    requires IsDigit(c)
  {
    c as int - '0' as int
  }

  predicate AllDigits(s: string) {
    s == "" || (IsDigit(s[|s| - 1]) && AllDigits(s[..|s| - 1]))
  }

  function Value(s: string): nat
    requires AllDigits(s)
  {
    if s == "" then 0 else Value(s[..|s| - 1]) * 10 + Digit(s[|s| - 1])
  }

  /** %d of a non-negative number. */
  function Decimal(n: nat): (s: string)
    ensures s != ""
  {
    var last := [('0' as int + n % 10) as char];
    if n < 10 then last else Decimal(n / 10) + last
  }

  lemma {:induction false} DecimalRoundTrip(n: nat)
    ensures AllDigits(Decimal(n)) && Value(Decimal(n)) == n
  {
    var s := Decimal(n);
    if n < 10 {
      assert s[..0] == "";
    } else {
      DecimalRoundTrip(n / 10);
      assert s[..|s| - 1] == Decimal(n / 10);
    }
  }

  lemma {:induction false} DigitsOnly(s: string, c: char)
    requires AllDigits(s) && c in s
    ensures IsDigit(c)
  {
    if c != s[|s| - 1] {
      assert s == s[..|s| - 1] + [s[|s| - 1]];
      DigitsOnly(s[..|s| - 1], c);
    }
  }

  /** strconv.Atoi: an optional sign and at least one digit, within the 64-bit range. */
  function Atoi(s: string): Option<int> {
    if s == "" then None
    else
      var body := if s[0] == '+' || s[0] == '-' then s[1..] else s;
      if body == "" || !AllDigits(body) then None
      else
        var v := if s[0] == '-' then -(Value(body) as int) else Value(body);
        if MIN_INT <= v <= MAX_INT then Some(v) else None
  }

  lemma {:induction false} AtoiDecimal(n: nat)
    ensures Atoi(Decimal(n)) == if n <= 0x7FFF_FFFF_FFFF_FFFF then Some(n) else None
  {
    DecimalRoundTrip(n);
    var s := Decimal(n);
    assert s[0] in s;
    DigitsOnly(s, s[0]);
  }

  lemma {:induction false} AtoiNegative(n: nat)
    ensures Atoi("-" + Decimal(n)) == if n <= 0x8000_0000_0000_0000 then Some(0 - n) else None
  {
    DecimalRoundTrip(n);
    var d := Decimal(n);
    var s := "-" + d;
    assert s[1..] == d && s[0] == '-';
  }

  lemma {:induction false} AtoiPositive(n: nat)
    ensures Atoi("+" + Decimal(n)) == Atoi(Decimal(n))
  {
    AtoiDecimal(n);
    DecimalRoundTrip(n);
    var d := Decimal(n);
    var s := "+" + d;
    assert s[1..] == d && s[0] == '+';
  }

  /** Nothing but an optional sign and digits is a number. */
  lemma {:induction false} AtoiReads(s: string)
    requires Atoi(s).Some?
    ensures AllDigits(s) || (s != "" && (s[0] == '+' || s[0] == '-') && s[1..] != "" && AllDigits(s[1..]))
  {
  }

  /** Two's-complement wrap-around of a 64-bit int. */
  function Wrap64(x: int): (r: int)
    ensures MIN_INT <= r <= MAX_INT
    ensures MIN_INT <= x <= MAX_INT ==> r == x
  {
    (x - MIN_INT) % 0x1_0000_0000_0000_0000 + MIN_INT
  }

  /** It is the only 64-bit number congruent to `x`. */
  lemma {:induction false} Wrap64Is(x: int, r: int)
    ensures r == Wrap64(x) <==>
            -0x8000_0000_0000_0000 <= r < 0x8000_0000_0000_0000 && (x - r) % 0x1_0000_0000_0000_0000 == 0
  {
  }
}
