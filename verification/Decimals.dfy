/** Numbers as `{}` prints them. */
module Decimals {
  import opened Wrappers

  function Decimal(n: nat): (s: string)
    ensures s != ""
  {
    if n < 10 then [(48 + n) as char] else Decimal(n / 10) + [(48 + n % 10) as char]
  }

  function Digits(s: string): Option<nat> {
    if s == "" then Some(0)
    else
      var c := s[|s| - 1];
      match Digits(s[..|s| - 1])
      case Some(high) => if '0' <= c <= '9' then Some(10 * high + (c as int - 48)) else None
      case None => None
  }

  lemma {:induction false} DecimalIsParsed(n: nat)
    ensures Digits(Decimal(n)) == Some(n)
    ensures forall k :: 0 <= k < |Decimal(n)| ==> '0' <= Decimal(n)[k] <= '9'
  {
    var s := Decimal(n);
    if n >= 10 {
      DecimalIsParsed(n / 10);
      assert s[..|s| - 1] == Decimal(n / 10);
    } else {
      assert s[..0] == "";
    }
  }
}
