/** Decimal text of integers, as str() prints it and int() reads it back. */
module Decimal {
  import opened Options

  function Digit(d: nat): char
    requires d < 10
  {
    '0' + d as char
  }

  predicate IsDigit(c: char) {
    '0' <= c <= '9'
  }

  function PrintNat(n: nat): (s: string)
    ensures s != [] && forall i :: 0 <= i < |s| ==> IsDigit(s[i])
  {
    if n < 10 then [Digit(n)] else PrintNat(n / 10) + [Digit(n % 10)]
  }

  function Print(n: int): string {
    if n < 0 then "-" + PrintNat(-n) else PrintNat(n)
  }

  function ParseNat(s: string): Option<int> {
    if s == [] || !IsDigit(s[|s| - 1]) then None
    else
      var d := (s[|s| - 1] - '0') as int;
      if |s| == 1 then Some(d)
      else
        var rest := ParseNat(s[..|s| - 1]);
        if rest.None? then None else Some(10 * rest.value + d)
  }

  /** The decimal subset of int(): an optional minus sign and digits. */
  function Parse(s: string): Option<int> {
    if s != [] && s[0] == '-' then
      var n := ParseNat(s[1..]);
      if n.None? then None else Some(-n.value)
    else
      var n := ParseNat(s);
      if n.None? then None else Some(n.value)
  }

  lemma {:induction false} ParseNatPrints(n: nat)
    ensures ParseNat(PrintNat(n)) == Some(n)
  {
    if n >= 10 {
      ParseNatPrints(n / 10);
      assert PrintNat(n)[..|PrintNat(n)| - 1] == PrintNat(n / 10);
    }
  }

  lemma ParsePrints(n: int)
    ensures Parse(Print(n)) == Some(n)
  {
    ParseNatPrints(if n < 0 then -n else n);
    if n < 0 {
      assert Print(n)[1..] == PrintNat(-n);
    }
  }
}
