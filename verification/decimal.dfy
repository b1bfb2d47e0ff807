// Decimal numerals, as `str` prints an int and `int` reads one.
module Decimal {
  import opened Wrappers

  predicate IsDigit(c: char) {
    '0' <= c <= '9'
  }

  predicate IsNumeral(s: string) {
    s != "" && forall i | 0 <= i < |s| :: IsDigit(s[i])
  }

  function Print(n: nat): (s: string)
    ensures IsNumeral(s)
  {
    if n < 10 then ['0' + n as char] else Print(n / 10) + ['0' + (n % 10) as char]
  }

  function Read(s: string): nat
    requires IsNumeral(s)
  {
    var last := |s| - 1;
    var digit := (s[last] - '0') as nat;
    if last == 0 then digit else Read(s[..last]) * 10 + digit
  }

  lemma {:induction false} ReadPrint(n: nat)
    ensures Read(Print(n)) == n
  {
    if n >= 10 {
      ReadPrint(n / 10);
      assert Print(n)[..|Print(n)| - 1] == Print(n / 10);
    }
  }

  function PrintInt(n: int): string {
    if n < 0 then "-" + Print(-n) else Print(n)
  }

  // An optional sign and a numeral; anything else is no int.
  function ReadInt(s: string): Option<int> {
    if IsNumeral(s) then Some(Read(s))
    else if s != "" && s[0] in "+-" && IsNumeral(s[1..]) then Some((if s[0] == '-' then -1 else 1) * Read(s[1..]))
    else None
  }

  lemma ReadPrintInt(n: int)
    ensures ReadInt(PrintInt(n)) == Some(n)
  {
    ReadPrint(if n < 0 then -n else n);
    if n < 0 {
      assert PrintInt(n)[1..] == Print(-n);
      assert !IsDigit(PrintInt(n)[0]);
    }
  }
}
