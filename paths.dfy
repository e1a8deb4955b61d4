/**
 * Path strings of the changed-fields dictionary: `a.b[2].c`. Object keys
 * are joined with a dot (no dot at the start of the path) and array slots
 * append `[i]` directly.
 */
module Paths {

  /** JsonHelper.Join: the bare name under the empty prefix, `prefix.name` otherwise. */
  function Join(prefix: string, name: string): (path: string)
    ensures prefix == [] ==> path == name
    ensures prefix <= path
    ensures |path| >= |name| && path[|path| - |name|..] == name
    ensures prefix != [] ==> |path| == |prefix| + 1 + |name| && path[|prefix|] == '.'
  {
    if prefix == [] then name else prefix + "." + name
  }

  function Digit(d: nat): char
    requires d < 10
  {
    "0123456789"[d]
  }

  /** int.ToString() of a non-negative index. */
  function NatToString(n: nat): (s: string)
    ensures |s| >= 1
    ensures forall i :: 0 <= i < |s| ==> '0' <= s[i] <= '9'
    ensures |s| > 1 ==> s[0] != '0'
    decreases n
  {
    if n < 10 then [Digit(n)] else NatToString(n / 10) + [Digit(n % 10)]
  }

  /** The slot path `$"{prefix}[{index}]"`. */
  function Index(prefix: string, i: nat): (path: string)
    ensures prefix <= path
    ensures |path| > |prefix| && path[|prefix|] == '[' && path[|path| - 1] == ']'
  {
    prefix + "[" + NatToString(i) + "]"
  }

  lemma {:induction false} DigitInjective(a: nat, b: nat)
    requires a < 10 && b < 10 && Digit(a) == Digit(b)
    ensures a == b
  {
  }

  /** Distinct indices print differently, so slot paths under one prefix never collide. */
  lemma {:induction false} NatToStringInjective(a: nat, b: nat)
    requires NatToString(a) == NatToString(b)
    ensures a == b
    decreases a
  {
    var s := NatToString(a);
    if a < 10 && b < 10 {
      DigitInjective(a, b);
    } else if a < 10 || b < 10 {
      // one side prints one digit, the other at least two
      assert false;
    } else {
      var sa, sb := NatToString(a / 10), NatToString(b / 10);
      assert s == sa + [Digit(a % 10)] && s == sb + [Digit(b % 10)];
      assert sa == s[..|s| - 1] == sb;
      NatToStringInjective(a / 10, b / 10);
      DigitInjective(a % 10, b % 10);
    }
  }

  lemma IndexInjective(prefix: string, i: nat, j: nat)
    requires Index(prefix, i) == Index(prefix, j)
    ensures i == j
  {
    var p, q := Index(prefix, i), Index(prefix, j);
    assert NatToString(i) == p[|prefix| + 1 .. |p| - 1];
    assert NatToString(j) == q[|prefix| + 1 .. |q| - 1];
    NatToStringInjective(i, j);
  }
}
