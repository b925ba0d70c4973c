/** Replica names: a process name, a dash, and the replica number padded with zeros. */
module Replicas {
  import opened Common

  /** `width` is the number of digits used for a number of replicas; the source takes it from a logarithm. */
  type WidthOf = nat -> nat

  function Pow10(w: nat): nat {
    if w == 0 then 1 else 10 * Pow10(w - 1)
  }

  /** The width holds every replica number. */
  ghost predicate WideEnough(width: WidthOf) {
    forall r: nat :: r >= 2 ==> width(r) >= 1 && Pow10(width(r)) >= r
  }

  const DIGITS := "0123456789"

  /** The last w decimal digits of a number, zeros in front. */
  function Pad(num: nat, w: nat): (s: string)
    ensures |s| == w
  {
    if w == 0 then "" else Pad(num / 10, w - 1) + [DIGITS[num % 10]]
  }

  lemma {:induction false} PadInjective(a: nat, b: nat, w: nat)
    requires a < Pow10(w) && b < Pow10(w) && Pad(a, w) == Pad(b, w)
    ensures a == b
  {
    if w > 0 {
      var x, y := Pad(a, w), Pad(b, w);
      assert x[..w - 1] == Pad(a / 10, w - 1) && y[..w - 1] == Pad(b / 10, w - 1);
      PadInjective(a / 10, b / 10, w - 1);
      assert x[w - 1] == DIGITS[a % 10] && y[w - 1] == DIGITS[b % 10];
      DigitsDiffer(a % 10, b % 10);
    }
  }

  lemma DigitsDiffer(i: nat, j: nat)
    requires i < 10 && j < 10 && DIGITS[i] == DIGITS[j]
    ensures i == j
  {
    assert DIGITS[0] == '0' && DIGITS[1] == '1' && DIGITS[2] == '2' && DIGITS[3] == '3' && DIGITS[4] == '4'
        && DIGITS[5] == '5' && DIGITS[6] == '6' && DIGITS[7] == '7' && DIGITS[8] == '8' && DIGITS[9] == '9';
  }

  /** CalculateReplicaName. */
  function ReplicaName(width: WidthOf, name: Name, replicas: int, num: nat): Name {
    if replicas <= 1 then name else name + "-" + Pad(num, width(replicas))
  }

  /** Replicas of one process never share a name, neither within one number of replicas nor, during a change of
      that number, between the old names and the new. */
  lemma ReplicaNamesDiffer(width: WidthOf, name: Name, m: nat, n: nat, i: nat, j: nat)
    requires WideEnough(width) && i < m && j < n
    requires ReplicaName(width, name, m, i) == ReplicaName(width, name, n, j)
    ensures i == j
  {
    var a, b := ReplicaName(width, name, m, i), ReplicaName(width, name, n, j);
    if m >= 2 && n >= 2 {
      assert |a| == |name| + 1 + width(m) && |b| == |name| + 1 + width(n);
      assert a[|name| + 1..] == Pad(i, width(m)) && b[|name| + 1..] == Pad(j, width(n));
      PadInjective(i, j, width(m));
    }
  }

  /** The number of decimal digits, which is what the logarithm stands for, is wide enough. */
  function DigitCount(r: nat): nat {
    if r < 10 then 1 else 1 + DigitCount(r / 10)
  }

  lemma {:induction false} DigitCountIsWide(r: nat)
    ensures DigitCount(r) >= 1 && Pow10(DigitCount(r)) > r
  {
    if r >= 10 { DigitCountIsWide(r / 10); }
  }
}
