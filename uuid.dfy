/**
 * The UUID service as a generator that never repeats: its n-th value is
 * `Uuid(n)`, the counter n written in decimal behind a fixed prefix.
 */
module Uuid {

  function DigitChar(d: nat): (c: char)
    requires d < 10
  {
    ('0' as int + d) as char
  }

  /** The decimal digits of n, most significant first. */
  function Digits(n: nat): (s: string)
    ensures |s| >= 1
    ensures forall i :: 0 <= i < |s| ==> '0' <= s[i] <= '9'
    ensures n < 10 <==> |s| == 1
    ensures s[|s| - 1] == DigitChar(n % 10)
  {
    if n < 10 then [DigitChar(n)] else Digits(n / 10) + [DigitChar(n % 10)]
  }

  /** The n-th value the UUID service generates: a fixed prefix and n in decimal digits. */
  function Uuid(n: nat): (u: string)
    ensures |u| >= 6 && u[..5] == "uuid-"
    ensures forall i :: 5 <= i < |u| ==> '0' <= u[i] <= '9'
  {
    "uuid-" + Digits(n)
  }

  lemma {:induction false} DigitsInjective(a: nat, b: nat)
    requires Digits(a) == Digits(b)
    ensures a == b
    decreases a
  {
    var s := Digits(a);
    assert DigitChar(a % 10) == DigitChar(b % 10);
    if a >= 10 {
      assert b >= 10;
      assert Digits(a / 10) == s[..|s| - 1] == Digits(b / 10);
      DigitsInjective(a / 10, b / 10);
    }
  }

  /** Different counters give different values: the generator never repeats. */
  lemma UuidInjective(a: nat, b: nat)
    requires Uuid(a) == Uuid(b)
    ensures a == b
  {
    assert Digits(a) == Uuid(a)[5..] == Uuid(b)[5..] == Digits(b);
    DigitsInjective(a, b);
  }
}
