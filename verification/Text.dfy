/** Decimal rendering of non-negative integers, as `fmt::format("{}", n)` prints them. */
module Text {

  function DigitChar(d: nat): (c: char)
    requires d < 10
    ensures '0' <= c <= '9'
  {
    '0' + d as char
  }

  function Digits(n: nat): (s: string)
    ensures s != []
    ensures forall k :: 0 <= k < |s| ==> '0' <= s[k] <= '9'
    ensures s[0] == '0' ==> n == 0 && |s| == 1
  {
    if n < 10 then [DigitChar(n)] else Digits(n / 10) + [DigitChar(n % 10)]
  }

  /** The number a string of decimal digits stands for. */
  function ParseDigits(s: string): nat
    requires forall k :: 0 <= k < |s| ==> '0' <= s[k] <= '9'
  {
    if s == [] then 0 else ParseDigits(s[..|s| - 1]) * 10 + (s[|s| - 1] - '0') as int
  }

  lemma {:induction false} ParseInvertsDigits(n: nat)
    ensures ParseDigits(Digits(n)) == n
  {
    if n < 10 {
      assert Digits(n)[..0] == [];
    } else {
      ParseInvertsDigits(n / 10);
      assert Digits(n)[..|Digits(n)| - 1] == Digits(n / 10);
    }
  }

  /** A number, a dash, and any text: the number and the text can both be read back. */
  lemma DashedIsInjective(a: nat, x: string, b: nat, y: string)
    requires Digits(a) + "-" + x == Digits(b) + "-" + y
    ensures a == b && x == y
  {
    var p, q := Digits(a), Digits(b);
    var left, right := p + "-" + x, q + "-" + y;
    assert left[|p|] == '-' && right[|q|] == '-';
    assert forall k :: 0 <= k < |p| ==> left[k] == p[k] != '-';
    assert forall k :: 0 <= k < |q| ==> right[k] == q[k] != '-';
    assert |p| == |q|;
    assert p == left[..|p|] && q == right[..|q|];
    ParseInvertsDigits(a);
    ParseInvertsDigits(b);
    assert x == left[|p| + 1..] && y == right[|q| + 1..];
  }
}
