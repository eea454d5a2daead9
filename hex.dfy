/** Hexadecimal digits, as written by percent-encoding (upper case) and JSON `\u` escapes (lower case). */
module Hex {

  predicate IsDigit(c: char) {
    '0' <= c <= '9' || 'a' <= c <= 'f' || 'A' <= c <= 'F'
  }

  /** The value of one hexadecimal digit, in either case. */
  function Value(c: char): (n: nat)
    requires IsDigit(c)
    ensures n < 16
  {
    if '0' <= c <= '9' then c as int - '0' as int
    else if 'a' <= c <= 'f' then c as int - 'a' as int + 10
    else c as int - 'A' as int + 10
  }

  /** The digit for a nibble; `upper` chooses the case of the letters. */
  function Digit(n: nat, upper: bool): (c: char)
    requires n < 16
    ensures IsDigit(c) && Value(c) == n
    ensures upper ==> !('a' <= c <= 'f')
    ensures !upper ==> !('A' <= c <= 'F')
  {
    if n < 10 then ('0' as int + n) as char
    else if upper then ('A' as int + n - 10) as char
    else ('a' as int + n - 10) as char
  }

  function Pow16(width: nat): (p: nat)
    ensures p > 0
  {
    if width == 0 then 1 else 16 * Pow16(width - 1)
  }

  /** `n` written with exactly `width` digits, most significant first, zero-padded. */
  function Fixed(n: nat, width: nat, upper: bool): (s: string)
    requires n < Pow16(width)
    ensures |s| == width
    ensures forall i :: 0 <= i < |s| ==> IsDigit(s[i])
  {
    if width == 0 then []
    else Fixed(n / 16, width - 1, upper) + [Digit(n % 16, upper)]
  }

  /** The number a string of hexadecimal digits denotes. */
  function ValueOf(s: string): (n: nat)
    requires forall i :: 0 <= i < |s| ==> IsDigit(s[i])
    ensures n < Pow16(|s|)
  {
    if s == [] then 0
    else
      var high := ValueOf(s[..|s| - 1]);
      var low := Value(s[|s| - 1]);
      assert high * 16 + low < Pow16(|s|) by {
        assert high <= Pow16(|s| - 1) - 1;
        assert high * 16 <= (Pow16(|s| - 1) - 1) * 16;
      }
      high * 16 + low
  }

  /** Reading back a fixed-width rendering gives the number written. */
  lemma {:induction false} ValueOfFixed(n: nat, width: nat, upper: bool)
    requires n < Pow16(width)
    ensures ValueOf(Fixed(n, width, upper)) == n
  {
    if width > 0 {
      var s := Fixed(n, width, upper);
      var high := Fixed(n / 16, width - 1, upper);
      assert s[..|s| - 1] == high;
      ValueOfFixed(n / 16, width - 1, upper);
    }
  }
}
