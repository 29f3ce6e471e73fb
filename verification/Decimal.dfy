/** Decimal rendering of integers, as storage keys and values use it. */
module Decimal {
  import opened Types

  function Digit(d: nat): char
    requires d < 10
  {
    ('0' as int + d) as char
  }

  function FormatNat(n: nat): (s: string)
    ensures |s| > 0
  {
    if n < 10 then [Digit(n)] else FormatNat(n / 10) + [Digit(n % 10)]
  }

  function FormatInt(x: int): string {
    if x < 0 then "-" + FormatNat(-x) else FormatNat(x)
  }

  function ParseNat(s: string): Option<nat> {
    if |s| == 0 then None
    else
      var c := s[|s| - 1];
      if !('0' <= c <= '9') then None
      else
        var d := c as int - '0' as int;
        if |s| == 1 then Some(d)
        else
          match ParseNat(s[..|s| - 1])
          case None => None
          case Some(n) => Some(10 * n + d)
  }

  function Signed(o: Option<nat>, sign: int): Option<int> {
    if o.None? then None else Some(sign * o.value)
  }

  function ParseInt(s: string): Option<int> {
    if |s| > 0 && s[0] == '-' then Signed(ParseNat(s[1..]), -1) else Signed(ParseNat(s), 1)
  }

  lemma {:induction false} NatRoundTrip(n: nat)
    ensures ParseNat(FormatNat(n)) == Some(n) && FormatNat(n)[0] != '-'
  {
    if n >= 10 {
      NatRoundTrip(n / 10);
      var s := FormatNat(n);
      assert s[..|s| - 1] == FormatNat(n / 10);
    }
  }

  /** Reading back what was written; in particular the rendering is injective. */
  lemma RoundTrip(x: int)
    ensures ParseInt(FormatInt(x)) == Some(x)
  {
    if x < 0 {
      NatRoundTrip(-x);
      assert FormatInt(x)[1..] == FormatNat(-x);
    } else {
      NatRoundTrip(x);
    }
  }

  /** It is plain decimal: a digit by itself, a longer number its last digit behind the rest,
      and a minus sign in front of a negative one. */
  lemma Digits(n: nat, d: nat)
    requires d < 10
    ensures FormatInt(d) == ["0123456789"[d]]
    ensures n > 0 ==> FormatInt(10 * n + d) == FormatInt(n) + ["0123456789"[d]]
    ensures n > 0 ==> FormatInt(0 - n) == ['-'] + FormatInt(n)
  {
    assert (10 * n + d) / 10 == n && (10 * n + d) % 10 == d;
  }
}
