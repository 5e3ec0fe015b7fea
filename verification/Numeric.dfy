/** Decimal rendering of int64 values (internal/api/handlers.go `itoa`; internal/metrics/metrics.go
    `intToStr` is the same loop). */
module Numeric {
  import opened Domain

  function Digit(d: int): char
    requires 0 <= d < 10
  {
    '0' + d as char
  }

  /** Digits of a positive number, most significant first; nothing for the rest. */
  function Digits(n: int): string
    decreases n
  {
    if n <= 0 then "" else Digits(n / 10) + [Digit(n % 10)]
  }

  /** What itoa returns: negation wraps, so the smallest int64 stays negative and loses its digits. */
  function Decimal(n: Int64): string {
    if n == 0 then "0"
    else if n < 0 then "-" + Digits(Sub64(0, n))
    else Digits(n)
  }

  lemma LastDigit(m: int, rest: string)
    requires m > 0
    ensures Digits(m) + rest == Digits(m / 10) + ([Digit(m % 10)] + rest)
  {
  }

  method Itoa(n: Int64) returns (s: string)
    ensures s == Decimal(n)
  {
    if n == 0 {
      return "0";
    }
    var digits: string := "";
    var neg := n < 0;
    var m: int := n;
    if neg {
      m := Sub64(0, n);
    }
    ghost var whole := m;
    while m > 0
      invariant Digits(whole) == Digits(m) + digits
      invariant m <= 0 ==> Digits(m) == ""
      decreases m
    {
      LastDigit(m, digits);
      digits := [Digit(m % 10)] + digits;
      m := m / 10;
    }
    if neg {
      digits := ['-'] + digits;
    }
    return digits;
  }

  // --- reading a decimal back ------------------------------------------------

  predicate IsDigit(c: char) {
    '0' <= c <= '9'
  }

  function ParseDigits(s: string): (r: Option<int>) {
    if s == "" then Some(0)
    else
      var init := ParseDigits(s[..|s| - 1]);
      var c := s[|s| - 1];
      if init.Some? && IsDigit(c) then Some(10 * init.value + (c as int - '0' as int)) else None
  }

  /** A decimal number: an optional minus sign, then at least one digit. */
  function Parse(s: string): Option<int> {
    if s == "" then None
    else if s[0] == '-' then
      var r := ParseDigits(s[1..]);
      if |s| > 1 && r.Some? then Some(-r.value) else None
    else ParseDigits(s)
  }

  lemma {:induction false} DigitsParse(n: int)
    requires n >= 0
    ensures ParseDigits(Digits(n)) == Some(n)
    ensures n > 0 ==> Digits(n) != "" && '1' <= Digits(n)[0] <= '9'
    decreases n
  {
    if n > 0 {
      DigitsParse(n / 10);
      var d := Digits(n);
      assert d[..|d| - 1] == Digits(n / 10);
      assert d[|d| - 1] == Digit(n % 10);
      if n / 10 == 0 {
        assert d == [Digit(n)];
      }
    }
  }

  predicate Canonical(s: string) {
    s == "0" || (s != "" && '1' <= s[0] <= '9') || (|s| > 1 && s[0] == '-' && '1' <= s[1] <= '9')
  }

  /** itoa round-trips, without leading zeros, on every int64 except the smallest one. */
  lemma ItoaRoundTrip(n: Int64)
    ensures Parse(Decimal(n)) == Some(n) <==> n != MIN64
    ensures Canonical(Decimal(n)) <==> n != MIN64
  {
    if n == MIN64 {
      assert Sub64(0, n) == MIN64;
      assert Decimal(n) == "-";
    } else if n < 0 {
      DigitsParse(-n);
      assert Decimal(n)[1..] == Digits(-n);
    } else if n > 0 {
      DigitsParse(n);
    } else {
      assert Decimal(n) == "0";
      assert "0"[..0] == "";
      assert ParseDigits("") == Some(0);
    }
  }

  /** Distinct amounts never share a rendering. */
  lemma ItoaInjective(m: Int64, n: Int64)
    requires Decimal(m) == Decimal(n)
    ensures m == n
  {
    ItoaRoundTrip(m);
    ItoaRoundTrip(n);
  }
}
