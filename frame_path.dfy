/** The frame path of the proactive plugin: the stimulus directory, then
    `theta_`, `phi_` and `time_` components zero-padded to 2, 2 and 4
    characters by prepending zeros and keeping the last characters. */
module FramePath {
  import opened Common

  function Pow10(k: nat): (p: nat)
    ensures p >= 1
  {
    if k == 0 then 1 else 10 * Pow10(k - 1)
  }

  predicate IsDigits(s: string) {
    forall k :: 0 <= k < |s| ==> '0' <= s[k] <= '9'
  }

  function DigitChar(d: nat): (c: char)
    requires d < 10
    ensures '0' <= c <= '9' && c as int - '0' as int == d
  {
    ('0' as int + d) as char
  }

  /** The number a digit string denotes. */
  function Value(s: string): nat
    requires IsDigits(s)
  {
    if s == [] then 0 else Value(s[..|s| - 1]) * 10 + (s[|s| - 1] as int - '0' as int)
  }

  /** The decimal representation of n, as `String(n)` writes it. */
  function Decimal(n: nat): (s: string)
    ensures |s| >= 1 && IsDigits(s)
    ensures Value(s) == n
  {
    if n < 10 then [DigitChar(n)]
    else
      var s := Decimal(n / 10) + [DigitChar(n % 10)];
      assert s[..|s| - 1] == Decimal(n / 10);
      s
  }

  function Zeros(w: nat): (s: string)
    ensures |s| == w && IsDigits(s)
  {
    seq(w, _ => '0')
  }

  /** `(pad + n).slice(-pad.length)` with a pad of w zeros. */
  function Pad(n: nat, w: nat): (s: string)
    ensures |s| == w && IsDigits(s)
  {
    var full := Zeros(w) + Decimal(n);
    full[|full| - w..]
  }

  /** The value of a concatenation of digit strings. */
  lemma {:induction false} ValueConcat(a: string, b: string)
    requires IsDigits(a) && IsDigits(b)
    ensures IsDigits(a + b)
    ensures Value(a + b) == Value(a) * Pow10(|b|) + Value(b)
  {
    var ab := a + b;
    assert IsDigits(ab) by {
      assert forall k :: 0 <= k < |ab| ==> ab[k] == if k < |a| then a[k] else b[k - |a|];
    }
    if b != [] {
      var bInit := b[..|b| - 1];
      assert ab[..|ab| - 1] == a + bInit;
      ValueConcat(a, bInit);
      var d := b[|b| - 1] as int - '0' as int;
      assert Value(ab) == Value(a + bInit) * 10 + d;
      assert Value(b) == Value(bInit) * 10 + d;
      ShiftDigit(Value(a), Pow10(|bInit|), Value(bInit), d);
    } else {
      assert ab == a;
    }
  }

  /** Appending a digit to a number made of a high part and a low part. */
  lemma ShiftDigit(x: int, p: int, v: int, d: int)
    ensures (x * p + v) * 10 + d == x * (10 * p) + (v * 10 + d)
  {
    assert (x * p) * 10 == x * (10 * p);
  }

  lemma {:induction false} ValueBound(s: string)
    requires IsDigits(s)
    ensures Value(s) < Pow10(|s|)
  {
    if s != [] {
      ValueBound(s[..|s| - 1]);
    }
  }

  lemma {:induction false} ZerosValue(w: nat)
    ensures Value(Zeros(w)) == 0
  {
    if w > 0 {
      assert Zeros(w)[..w - 1] == Zeros(w - 1);
      ZerosValue(w - 1);
    }
  }

  /** Keeping the last w digits of a digit string takes its value modulo 10^w. */
  lemma SuffixValue(s: string, w: nat)
    requires IsDigits(s) && w <= |s|
    ensures Value(s[|s| - w..]) == Value(s) % Pow10(w)
  {
    var hi, lo := s[..|s| - w], s[|s| - w..];
    assert s == hi + lo;
    ValueConcat(hi, lo);
    ValueBound(lo);
    ModUnique(Value(s), Pow10(w), Value(hi), Value(lo));
  }

  /** A padded component denotes n modulo 10^w: the last w decimal digits. */
  lemma PadValue(n: nat, w: nat)
    ensures Value(Pad(n, w)) == n % Pow10(w)
  {
    var full := Zeros(w) + Decimal(n);
    ValueConcat(Zeros(w), Decimal(n));
    ZerosValue(w);
    SuffixValue(full, w);
  }

  lemma {:induction false} DecimalLength(n: nat, k: nat)
    requires 1 <= k && n < Pow10(k)
    ensures |Decimal(n)| <= k
  {
    if n >= 10 {
      DecimalLength(n / 10, k - 1);
    }
  }

  /** Below 10^w the padded component is the decimal representation with
      leading zeros up to width w. */
  lemma PadSmall(n: nat, w: nat)
    requires 1 <= w && n < Pow10(w)
    ensures |Decimal(n)| <= w
    ensures Pad(n, w) == Zeros(w - |Decimal(n)|) + Decimal(n)
  {
    DecimalLength(n, w);
    var d := Decimal(n);
    var full := Zeros(w) + d;
    assert full[|full| - w..] == Zeros(w - |d|) + d;
  }

  /** Two values below 10^w never share a padded component. */
  lemma PadInjective(a: nat, b: nat, w: nat)
    requires a < Pow10(w) && b < Pow10(w) && Pad(a, w) == Pad(b, w)
    ensures a == b
  {
    PadValue(a, w);
    PadValue(b, w);
    ModUnique(a, Pow10(w), 0, a);
    ModUnique(b, Pow10(w), 0, b);
  }

  /** The image path of view (j, i) at frame t. */
  function FramePath(stimulus: string, j: nat, i: nat, t: nat): (p: string)
    ensures |p| == |stimulus| + 30
  {
    stimulus + "/theta_" + Pad(j, 2) + "/phi_" + Pad(i, 2) + "/time_" + Pad(t, 4) + ".png"
  }

  /** Within the padding widths (j, i < 100, t < 10000) distinct frames have
      distinct paths. */
  lemma FramePathInjective(stimulus: string, j: nat, i: nat, t: nat, j2: nat, i2: nat, t2: nat)
    requires j < 100 && i < 100 && t < 10000 && j2 < 100 && i2 < 100 && t2 < 10000
    requires FramePath(stimulus, j, i, t) == FramePath(stimulus, j2, i2, t2)
    ensures j == j2 && i == i2 && t == t2
  {
    var p, p2 := FramePath(stimulus, j, i, t), FramePath(stimulus, j2, i2, t2);
    var n := |stimulus|;
    assert p[n + 7..n + 9] == Pad(j, 2);
    assert p2[n + 7..n + 9] == Pad(j2, 2);
    assert p[n + 14..n + 16] == Pad(i, 2);
    assert p2[n + 14..n + 16] == Pad(i2, 2);
    assert p[n + 22..n + 26] == Pad(t, 4);
    assert p2[n + 22..n + 26] == Pad(t2, 4);
    assert Pow10(2) == 100 && Pow10(4) == 10000;
    PadInjective(j, j2, 2);
    PadInjective(i, i2, 2);
    PadInjective(t, t2, 4);
  }

  /** The image shown on a tick: the frame path, or the end stimulus once
      the frame index holds `'None'`. */
  function DisplayedImage(stimulus: string, stimulusEnd: string, j: nat, i: nat, t: Option<nat>): (img: string)
    ensures t.None? ==> img == stimulusEnd
    ensures t.Some? ==> |img| == |stimulus| + 30 && img[..|stimulus|] == stimulus
  {
    if t.Some? then FramePath(stimulus, j, i, t.value) else stimulusEnd
  }
}
