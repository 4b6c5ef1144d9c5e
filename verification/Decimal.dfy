/** JavaScript's decimal printing and parsing of non-negative integers, as the naming code uses them. */
module Decimal {

  predicate IsDigit(c: char) {
    '0' <= c <= '9'
  }

  predicate IsDigits(s: string) {
    forall i :: 0 <= i < |s| ==> IsDigit(s[i])
  }

  /** `String(n)`. */
  function Print(n: nat): (s: string)
    ensures s != "" && IsDigits(s)
  {
    if n < 10 then ['0' + n as char] else Print(n / 10) + ['0' + (n % 10) as char]
  }

  /** `parseInt(s, 10)` for a string of digits. */
  function Parse(s: string): nat
    requires IsDigits(s)
  {
    if s == "" then 0 else 10 * Parse(s[..|s| - 1]) + (s[|s| - 1] - '0') as nat
  }

  /** `String(n).padStart(2, '0')`. */
  function Pad2(n: nat): (s: string)
    ensures s != "" && IsDigits(s)
  {
    if |Print(n)| < 2 then "0" + Print(n) else Print(n)
  }

  lemma {:induction false} ParsePrint(n: nat)
    ensures Parse(Print(n)) == n
  {
    if n >= 10 {
      ParsePrint(n / 10);
      assert Print(n)[..|Print(n)| - 1] == Print(n / 10);
    } else {
      assert Parse(Print(n)[..0]) == 0;
    }
  }

  /** Different numbers print differently. */
  lemma PrintIsInjective(m: nat, n: nat)
    requires Print(m) == Print(n)
    ensures m == n
  {
    ParsePrint(m);
    ParsePrint(n);
  }

  /** Padding to two digits and parsing undo each other below 100. */
  lemma Pad2Parse(n: nat)
    requires n < 100
    ensures |Pad2(n)| == 2 && Parse(Pad2(n)) == n
  {
    ParsePrint(n);
    if n < 10 {
      assert Pad2(n)[..1] == "0" && Pad2(n)[..1][..0] == "";
      assert Parse("0") == 0;
    } else {
      assert |Print(n / 10)| == 1;
    }
  }

  /** Parsing a padded number gives it back, whatever its length. */
  lemma ParsePadded(n: nat)
    ensures Parse(Pad2(n)) == n
  {
    ParsePrint(n);
    if n < 100 {
      Pad2Parse(n);
    }
  }

  lemma ParseTwo(s: string)
    requires |s| == 2 && IsDigits(s)
    ensures Parse(s) == 10 * (s[0] - '0') as nat + (s[1] - '0') as nat
  {
    assert s[..1][..0] == "";
    assert Parse(s[..1]) == (s[0] - '0') as nat;
  }

  lemma PadTwo(tens: nat, units: nat)
    requires tens < 10 && units < 10
    ensures Pad2(10 * tens + units) == ['0' + tens as char, '0' + units as char]
  {
    var n := 10 * tens + units;
    assert n / 10 == tens && n % 10 == units;
    if tens > 0 {
      assert Print(n) == Print(tens) + ['0' + units as char];
    }
  }

  /** Parsing two digits and padding undo each other. */
  lemma ParsePad2(s: string)
    requires |s| == 2 && IsDigits(s)
    ensures Parse(s) < 100 && Pad2(Parse(s)) == s
  {
    ParseTwo(s);
    PadTwo((s[0] - '0') as nat, (s[1] - '0') as nat);
  }
}
