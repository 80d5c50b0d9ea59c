/** File names written by the training loop: Python's `str(n)` and `f"{n:03d}"`
    for non-negative integers, and the checkpoint and sample names built from them. */
module Names {

  predicate IsDigit(c: char) { '0' <= c <= '9' }

  predicate AllDigits(s: string) { forall i :: 0 <= i < |s| ==> IsDigit(s[i]) }

  function DigitChar(d: nat): (c: char)
    requires d < 10
    ensures IsDigit(c) && c as int - '0' as int == d
  {
    ('0' as int + d) as char
  }

  /** Decimal notation without leading zeros, as `str(n)` prints a non-negative int. */
  function Decimal(n: nat): (s: string)
    ensures |s| >= 1 && AllDigits(s)
    ensures |s| > 1 ==> s[0] != '0'
  {
    if n < 10 then [DigitChar(n)] else Decimal(n / 10) + [DigitChar(n % 10)]
  }

  /** The value of a string of decimal digits (reading leading zeros as zero). */
  function ParseDecimal(s: string): nat
    requires AllDigits(s)
  {
    if s == [] then 0
    else ParseDecimal(s[..|s| - 1]) * 10 + (s[|s| - 1] as int - '0' as int)
  }

  function Zeros(k: nat): (z: string)
    ensures |z| == k && forall i :: 0 <= i < k ==> z[i] == '0'
  {
    if k == 0 then [] else Zeros(k - 1) + ['0']
  }

  /** `f"{n:0{width}d}"`: the decimal notation left-padded with zeros to at least `width` digits. */
  function Padded(n: nat, width: nat): (s: string)
    ensures |s| >= width && AllDigits(s)
    ensures |s| == if |Decimal(n)| < width then width else |Decimal(n)|
    ensures s[|s| - |Decimal(n)|..] == Decimal(n)
    ensures forall i :: 0 <= i < |s| - |Decimal(n)| ==> s[i] == '0'
  {
    var d := Decimal(n);
    (if |d| < width then Zeros(width - |d|) else []) + d
  }

  lemma {:induction false} DecimalRoundTrip(n: nat)
    ensures ParseDecimal(Decimal(n)) == n
  {
    if n >= 10 {
      var s := Decimal(n);
      assert s[..|s| - 1] == Decimal(n / 10);
      DecimalRoundTrip(n / 10);
    }
  }

  lemma {:induction false} ZerosParse(k: nat)
    ensures ParseDecimal(Zeros(k)) == 0
  {
    if k > 0 {
      assert Zeros(k)[..k - 1] == Zeros(k - 1);
      ZerosParse(k - 1);
    }
  }

  /** Leading zeros do not change the value. */
  lemma {:induction false} LeadingZerosParse(k: nat, s: string)
    requires AllDigits(s)
    ensures AllDigits(Zeros(k) + s) && ParseDecimal(Zeros(k) + s) == ParseDecimal(s)
  {
    var t := Zeros(k) + s;
    assert AllDigits(t) by {
      forall i | 0 <= i < |t| ensures IsDigit(t[i]) {
        if i < k { assert t[i] == Zeros(k)[i]; } else { assert t[i] == s[i - k]; }
      }
    }
    if s == [] {
      assert t == Zeros(k);
      ZerosParse(k);
    } else {
      assert t[..|t| - 1] == Zeros(k) + s[..|s| - 1];
      LeadingZerosParse(k, s[..|s| - 1]);
    }
  }

  lemma PaddedRoundTrip(n: nat, width: nat)
    ensures ParseDecimal(Padded(n, width)) == n
  {
    var d := Decimal(n);
    DecimalRoundTrip(n);
    if |d| < width {
      LeadingZerosParse(width - |d|, d);
    } else {
      assert Padded(n, width) == d;
    }
  }

  /** `"checkpoint_{cur + 1}.pth"` on every iteration but the last, `"final.pth"` on the last
      (main.py:285-287). */
  function CheckpointName(cur: nat, maxIter: int): string
  {
    if cur != maxIter - 1 then "checkpoint_" + Decimal(cur + 1) + ".pth" else "final.pth"
  }

  /** `f"iter_{cur + 1:03d}.png"` (main.py:292). */
  function SampleName(cur: nat): string
  {
    "iter_" + Padded(cur + 1, 3) + ".png"
  }

  /** `osp.join(dir, sub, name)`, written with a plain separator. */
  function JoinPath(dir: string, sub: string, name: string): string
  {
    dir + "/" + sub + "/" + name
  }

  lemma {:induction false} PrefixCancel(p: string, a: string, b: string)
    requires p + a == p + b
    ensures a == b
  {
    assert a == (p + a)[|p|..];
    assert b == (p + b)[|p|..];
  }

  /** Paths under one directory are equal only when their names are. */
  lemma JoinPathInjective(dir: string, sub: string, a: string, b: string)
    ensures JoinPath(dir, sub, a) == JoinPath(dir, sub, b) <==> a == b
  {
    if JoinPath(dir, sub, a) == JoinPath(dir, sub, b) {
      PrefixCancel(dir + "/" + sub + "/", a, b);
    }
  }

  /** The final checkpoint is the only one named `final.pth`. */
  lemma CheckpointNameFinal(cur: nat, maxIter: int)
    ensures CheckpointName(cur, maxIter) == "final.pth" <==> cur == maxIter - 1
  {
    if cur != maxIter - 1 {
      assert CheckpointName(cur, maxIter)[0] == 'c';
    }
  }

  lemma {:induction false} NumberedNameInjective(pre: string, suf: string, x: string, y: string)
    requires pre + x + suf == pre + y + suf
    ensures x == y
  {
    var s := pre + x + suf;
    assert x == s[|pre|..|s| - |suf|];
    var t := pre + y + suf;
    assert y == t[|pre|..|t| - |suf|];
  }

  /** Two iterations of one run never write a checkpoint under the same name. */
  lemma CheckpointNameInjective(a: nat, b: nat, maxIter: int)
    requires CheckpointName(a, maxIter) == CheckpointName(b, maxIter)
    ensures a == b
  {
    CheckpointNameFinal(a, maxIter);
    CheckpointNameFinal(b, maxIter);
    if a != maxIter - 1 && b != maxIter - 1 {
      NumberedNameInjective("checkpoint_", ".pth", Decimal(a + 1), Decimal(b + 1));
      DecimalRoundTrip(a + 1);
      DecimalRoundTrip(b + 1);
    }
  }

  /** Two iterations never write a sample grid under the same name, and the number is
      at least three digits wide. */
  lemma SampleNameInjective(a: nat, b: nat)
    ensures SampleName(a) == SampleName(b) <==> a == b
    ensures |SampleName(a)| >= |"iter_"| + 3 + |".png"|
  {
    if SampleName(a) == SampleName(b) {
      NumberedNameInjective("iter_", ".png", Padded(a + 1, 3), Padded(b + 1, 3));
      PaddedRoundTrip(a + 1, 3);
      PaddedRoundTrip(b + 1, 3);
    }
  }
}
