/**
 * Checkpoint file names: `<root>/<model_name>/<total_step:08d>.pth`.
 * Python's `:08d` writes the decimal digits of a non-negative integer and
 * pads them on the left with zeros to at least eight characters.
 */
module Checkpoints {

  predicate IsDigit(c: char) { '0' <= c <= '9' }

  function DigitChar(d: nat): (c: char)
    requires d < 10
    ensures IsDigit(c)
  {
    ['0', '1', '2', '3', '4', '5', '6', '7', '8', '9'][d]
  }

  function DigitValue(c: char): (d: nat)
    requires IsDigit(c)
    ensures d < 10
  {
    (c as int - '0' as int) as nat
  }

  lemma DigitRoundTrip(d: nat)
    requires d < 10
    ensures DigitValue(DigitChar(d)) == d
  {
  }

  /** The decimal representation without leading zeros ("0" for zero). */
  function Decimal(n: nat): (s: string)
    ensures 1 <= |s|
    ensures forall i | 0 <= i < |s| :: IsDigit(s[i])
  {
    if n < 10 then [DigitChar(n)] else Decimal(n / 10) + [DigitChar(n % 10)]
  }

  /** The value of a string of decimal digits, leading zeros allowed. */
  function Value(s: string): nat
    requires forall i | 0 <= i < |s| :: IsDigit(s[i])
  {
    if s == [] then 0 else Value(s[..|s| - 1]) * 10 + DigitValue(s[|s| - 1])
  }

  function Zeros(k: nat): (z: string)
    ensures |z| == k && forall i | 0 <= i < k :: z[i] == '0'
  {
    if k == 0 then [] else Zeros(k - 1) + ['0']
  }

  /** `f"{n:08d}"`. */
  function Pad8(n: nat): (s: string)
  {
    var d := Decimal(n);
    (if |d| < 8 then Zeros(8 - |d|) else []) + d
  }

  /** `f"{root}/{name}/{step:08d}.pth"`. */
  function CheckpointPath(root: string, name: string, step: nat): string
  {
    root + "/" + name + "/" + Pad8(step) + ".pth"
  }

  lemma {:induction false} DecimalValue(n: nat)
    ensures Value(Decimal(n)) == n
  {
    var s := Decimal(n);
    if n < 10 {
      assert s[..0] == [];
      DigitRoundTrip(n);
    } else {
      DecimalValue(n / 10);
      assert s[..|s| - 1] == Decimal(n / 10);
      DigitRoundTrip(n % 10);
    }
  }

  /** A leading zero does not change the value of a digit string. */
  lemma {:induction false} LeadingZero(s: string)
    requires forall i | 0 <= i < |s| :: IsDigit(s[i])
    ensures Value(['0'] + s) == Value(s)
    decreases |s|
  {
    var t := ['0'] + s;
    if s == [] {
      assert t[..0] == [];
    } else {
      var s' := s[..|s| - 1];
      assert t[..|t| - 1] == ['0'] + s';
      LeadingZero(s');
    }
  }

  lemma {:induction false} LeadingZeros(k: nat, s: string)
    requires forall i | 0 <= i < |s| :: IsDigit(s[i])
    ensures Value(Zeros(k) + s) == Value(s)
  {
    if k > 0 {
      var t := ['0'] + s;
      assert Zeros(k) + s == Zeros(k - 1) + t;
      LeadingZero(s);
      LeadingZeros(k - 1, t);
      assert Value(Zeros(k - 1) + t) == Value(t);
    } else {
      assert Zeros(k) + s == s;
    }
  }

  /**
   * The padded step number is at least eight digits long, is exactly
   * eight long while the step has at most eight digits, and reads back
   * as the step: the checkpoint name determines the step it was taken at.
   */
  lemma Pad8RoundTrip(n: nat)
    ensures |Pad8(n)| >= 8
    ensures n < 100000000 ==> |Pad8(n)| == 8
    ensures forall i | 0 <= i < |Pad8(n)| :: IsDigit(Pad8(n)[i])
    ensures Value(Pad8(n)) == n
  {
    var d := Decimal(n);
    var z := Zeros(if |d| < 8 then 8 - |d| else 0);
    assert Pad8(n) == z + d;
    assert forall i | 0 <= i < |z + d| :: IsDigit((z + d)[i]) by {
      forall i | 0 <= i < |z + d| ensures IsDigit((z + d)[i]) {
        if i >= |z| {
          assert (z + d)[i] == d[i - |z|];
        }
      }
    }
    DecimalValue(n);
    LeadingZeros(|z|, d);
    if n < 100000000 {
      DecimalShort(n, 8);
    }
  }

  /** A number below 10^k has at most k digits. */
  lemma {:induction false} DecimalShort(n: nat, k: nat)
    requires 1 <= k && n < Pow10(k)
    ensures |Decimal(n)| <= k
  {
    if n >= 10 {
      assert k > 1;
      DecimalShort(n / 10, k - 1);
    }
  }

  function Pow10(k: nat): (p: nat)
    ensures p >= 1
  {
    if k == 0 then 1 else 10 * Pow10(k - 1)
  }

  /**
   * Within one run (fixed root and model name) two checkpoints share a
   * path only if they were taken at the same step, so a later save never
   * overwrites an earlier one.
   */
  lemma CheckpointPathInjective(root: string, name: string, a: nat, b: nat)
    requires CheckpointPath(root, name, a) == CheckpointPath(root, name, b)
    ensures a == b
  {
    var pre := root + "/" + name + "/";
    var pa, pb := CheckpointPath(root, name, a), CheckpointPath(root, name, b);
    assert pa == pre + Pad8(a) + ".pth";
    assert pb == pre + Pad8(b) + ".pth";
    assert |Pad8(a)| == |Pad8(b)|;
    assert Pad8(a) == pa[|pre|..|pa| - 4];
    assert Pad8(b) == pb[|pre|..|pb| - 4];
    Pad8RoundTrip(a);
    Pad8RoundTrip(b);
  }
}
