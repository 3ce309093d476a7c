/** Scalar signal arithmetic of the tone generator: the frequency-to-increment
    conversion, the one-pole smoothing applied once per block, and the C `fmod`
    used to wrap the phase. Floats are modelled as reals. */
module Dsp {

  /** SAMPLE_RATE: the fixed rate shared by every instance. */
  const SampleRate: real := 48000.0
  /** PI as the literal the generator uses, not the true constant. */
  const Pi: real := 3.14159265359
  /** One full cycle of phase, `2.f * PI`. */
  const TwoPi: real := 2.0 * Pi
  /** Weight kept from the previous value by one smoothing step (`0.95f`). */
  const Alpha: real := 0.95

  /** Declared range and default of the frequency parameter, in Hz. */
  const MinFrequency: real := 20.0
  const MaxFrequency: real := 20000.0
  const DefaultFrequency: real := 440.0
  /** Declared range and default of the volume parameter. */
  const MinVolume: real := 0.0
  const MaxVolume: real := 1.0
  const DefaultVolume: real := 0.3

  /** Phase advance per sample for a tone of `freq` Hz. Up to the Nyquist
      frequency a sample advances the phase by at most half a cycle. */
  function Increment(freq: real): (inc: real)
    ensures freq > 0.0 ==> inc > 0.0
    ensures 0.0 <= freq <= SampleRate / 2.0 ==> 0.0 <= inc <= Pi
  {
    freq * 2.0 * Pi / SampleRate
  }

  /** A higher frequency never gives a smaller increment. */
  lemma IncrementMonotone(f1: real, f2: real)
    requires f1 <= f2
    ensures Increment(f1) <= Increment(f2)
  {
  }

  /** One step of the one-pole filter `current * 0.95 + 0.05 * target`. The new
      value lies between the current value and the target, and its distance to
      the target is exactly 0.95 times the current distance: it never snaps. */
  function Smooth(current: real, target: real): (r: real)
    ensures r - target == Alpha * (current - target)
    ensures current <= target ==> current <= r <= target
    ensures target <= current ==> target <= r <= current
    ensures r == target <==> current == target
  {
    current * 0.95 + 0.05 * target
  }

  /** `a` raised to the power `k`. */
  function Power(a: real, k: nat): real
  {
    if k == 0 then 1.0 else a * Power(a, k - 1)
  }

  /** A power of a factor in (0, 1] stays in (0, 1]; a positive power of a
      factor below one is below one. */
  lemma {:induction false} PowerBounds(a: real, k: nat)
    requires 0.0 < a <= 1.0
    ensures 0.0 < Power(a, k) <= 1.0
    ensures a < 1.0 && k > 0 ==> Power(a, k) < 1.0
  {
    if k > 0 {
      PowerBounds(a, k - 1);
      assert Power(a, k) == a * Power(a, k - 1);
    }
  }

  /** The value after `k` consecutive blocks that all ask for `target`. */
  function SmoothRepeat(x: real, target: real, k: nat): real
  {
    if k == 0 then x else Smooth(SmoothRepeat(x, target, k - 1), target)
  }

  /** Geometric convergence: after `k` blocks with a constant target the
      remaining error is `0.95^k` times the initial error. */
  lemma {:induction false} SmoothRepeatError(x: real, target: real, k: nat)
    ensures SmoothRepeat(x, target, k) - target == Power(Alpha, k) * (x - target)
  {
    if k > 0 {
      SmoothRepeatError(x, target, k - 1);
      var prev := SmoothRepeat(x, target, k - 1);
      var p := Power(Alpha, k - 1);
      var e := x - target;
      assert prev - target == p * e;
      calc {
        SmoothRepeat(x, target, k) - target;
        Alpha * (prev - target);
        Alpha * (p * e);
        (Alpha * p) * e;
      }
    }
  }

  /** With a constant target the error never grows, and after at least one
      block with a differing start it has strictly shrunk. */
  lemma SmoothRepeatConverges(x: real, target: real, k: nat)
    ensures x >= target ==> target <= SmoothRepeat(x, target, k) <= x
    ensures x <= target ==> x <= SmoothRepeat(x, target, k) <= target
    ensures k > 0 && x > target ==> SmoothRepeat(x, target, k) < x
    ensures k > 0 && x < target ==> SmoothRepeat(x, target, k) > x
  {
    SmoothRepeatError(x, target, k);
    PowerBounds(Alpha, k);
    var p := Power(Alpha, k);
    assert SmoothRepeat(x, target, k) == target + p * (x - target);
    if x >= target {
      assert 0.0 <= p * (x - target) <= x - target;
    } else {
      assert x - target <= p * (x - target) <= 0.0;
    }
    if k > 0 && x > target {
      assert p * (x - target) < x - target;
    }
    if k > 0 && x < target {
      assert p * (x - target) > x - target;
    }
  }

  /** The value after one block per target of `targets`, in order. */
  function SmoothAll(x: real, targets: seq<real>): real
    decreases |targets|
  {
    if targets == [] then x else SmoothAll(Smooth(x, targets[0]), targets[1..])
  }

  /** A smoothed value that starts in [lo, hi] stays in [lo, hi] through any
      run of blocks whose targets all lie in [lo, hi]. */
  lemma {:induction false} SmoothAllStaysInRange(x: real, targets: seq<real>, lo: real, hi: real)
    requires lo <= x <= hi
    requires forall k :: 0 <= k < |targets| ==> lo <= targets[k] <= hi
    ensures lo <= SmoothAll(x, targets) <= hi
    decreases |targets|
  {
    if targets != [] {
      var y := Smooth(x, targets[0]);
      assert lo <= y <= hi;
      assert forall k :: 0 <= k < |targets[1..]| ==> targets[1..][k] == targets[k + 1];
      SmoothAllStaysInRange(y, targets[1..], lo, hi);
    }
  }

  /** Truncation toward zero, as C converts the quotient inside `fmod`. */
  function Trunc(x: real): (n: int)
    ensures x >= 0.0 ==> 0 <= n && n as real <= x < n as real + 1.0
    ensures x < 0.0 ==> n <= 0 && n as real - 1.0 < x <= n as real
  {
    if x >= 0.0 then x.Floor else -((-x).Floor)
  }

  /** C `fmod(x, y)` for a positive period: the remainder of truncating
      division, which takes the sign of `x`. A non-negative argument lands in
      [0, y), and one already in [0, y) is left alone. */
  function Fmod(x: real, y: real): (r: real)
    requires y > 0.0
    ensures 0.0 <= x ==> 0.0 <= r < y
    ensures x < 0.0 ==> -y < r <= 0.0
    ensures 0.0 <= x < y ==> r == x
  {
    TruncQuotient(x, y);
    x - Trunc(x / y) as real * y
  }

  /** Multiplying both sides of `a <= q` or `q < b` by a positive period,
      where `q * y == x`, bounds `x` by multiples of the period. */
  lemma ScaleQuotient(x: real, y: real, a: real, b: real)
    requires y > 0.0
    requires a <= x / y < b
    ensures a * y <= x < b * y
    ensures a < x / y ==> a * y < x
  {
    var q := x / y;
    assert q * y == x;
    assert (q - a) * y >= 0.0;
    assert a < q ==> (q - a) * y > 0.0;
    assert (b - q) * y > 0.0;
  }

  /** Less than one period is less than one whole quotient. */
  lemma QuotientBelowOne(x: real, y: real)
    requires y > 0.0 && x < y
    ensures x / y < 1.0
  {
    var q := x / y;
    assert q * y == x;
    assert y - x == (1.0 - q) * y;
  }

  /** The whole number of periods that truncating division takes out of `x`
      leaves less than one period, with the sign of `x`. */
  lemma TruncQuotient(x: real, y: real)
    requires y > 0.0
    ensures x >= 0.0 ==> Trunc(x / y) as real * y <= x < Trunc(x / y) as real * y + y
    ensures x < 0.0 ==> Trunc(x / y) as real * y - y < x <= Trunc(x / y) as real * y
    ensures 0.0 <= x < y ==> Trunc(x / y) == 0
  {
    var n := Trunc(x / y);
    if x >= 0.0 {
      assert x / y >= 0.0;
      ScaleQuotient(x, y, n as real, n as real + 1.0);
      assert (n as real + 1.0) * y == n as real * y + y;
      if x < y {
        QuotientBelowOne(x, y);
      }
    } else {
      assert x / y < 0.0;
      assert n as real - 1.0 < x / y <= n as real;
      if x / y == n as real {
        assert x == n as real * y;
      } else {
        ScaleQuotient(x, y, n as real - 1.0, n as real);
      }
      assert (n as real - 1.0) * y == n as real * y - y;
    }
  }

  /** Floor shifts with a whole-number shift of its argument. */
  lemma FloorShift(z: real, k: int)
    ensures (z + k as real).Floor == z.Floor + k
  {
    var m := z.Floor;
    var n := (z + k as real).Floor;
    assert m as real <= z < m as real + 1.0;
    assert n as real <= z + k as real < n as real + 1.0;
    assert (m + k) as real <= z + k as real < (m + k) as real + 1.0;
    assert n - (m + k) < 1 && (m + k) - n < 1;
  }

  /** Wrapping forgets whole cycles: for a non-negative phase, adding `k`
      full periods does not change the wrapped value. */
  lemma FmodWholeCycles(x: real, y: real, k: nat)
    requires y > 0.0 && x >= 0.0
    ensures Fmod(x + k as real * y, y) == Fmod(x, y)
  {
    var z := x / y;
    var w := x + k as real * y;
    assert z * y == x;
    assert (z + k as real) * y == w;
    assert w / y == z + k as real;
    assert z >= 0.0;
    FloorShift(z, k);
    var n := Trunc(z);
    assert Trunc(w / y) == n + k;
    assert (n + k) as real * y == n as real * y + k as real * y;
    calc {
      Fmod(w, y);
      w - (n + k) as real * y;
      x - n as real * y;
      Fmod(x, y);
    }
  }

  /** The phase after `k` per-sample advances by `inc`, added one at a time
      as the sample loop does. */
  function Advance(phase0: real, inc: real, k: nat): real
  {
    if k == 0 then phase0 else Advance(phase0, inc, k - 1) + inc
  }

  /** `k` advances move the phase by exactly `k` increments. */
  lemma {:induction false} AdvanceLinear(phase0: real, inc: real, k: nat)
    ensures Advance(phase0, inc, k) == phase0 + k as real * inc
  {
    if k > 0 {
      AdvanceLinear(phase0, inc, k - 1);
      assert k as real * inc == (k - 1) as real * inc + inc;
    }
  }

  /** Advancing `a` times and then `b` times is advancing `a + b` times. */
  lemma {:induction false} AdvanceAdd(phase0: real, inc: real, a: nat, b: nat)
    ensures Advance(Advance(phase0, inc, a), inc, b) == Advance(phase0, inc, a + b)
  {
    if b > 0 {
      AdvanceAdd(phase0, inc, a, b - 1);
    }
  }

  /** With a non-negative increment the phase never moves backwards. */
  lemma {:induction false} AdvanceFromStart(phase0: real, inc: real, k: nat)
    requires inc >= 0.0
    ensures Advance(phase0, inc, k) >= phase0
  {
    if k > 0 {
      AdvanceFromStart(phase0, inc, k - 1);
    }
  }

  /** The ranges the host keeps the per-instance state in: a wrapped phase,
      an increment between those of 20 Hz and 20000 Hz, a volume in [0, 1]. */
  predicate StateInRange(phase: real, inc: real, volume: real)
  {
    && 0.0 <= phase < TwoPi
    && Increment(MinFrequency) <= inc <= Increment(MaxFrequency)
    && MinVolume <= volume <= MaxVolume
  }

  /** One block keeps the state in range when the host's targets lie in the
      declared parameter ranges, whatever the number `n` of samples the block
      generates: the increment and volume stay between their bounds, and the
      phase, which only grows during the block, is wrapped into [0, 2*PI). */
  lemma BlockKeepsStateInRange(phase: real, inc: real, volume: real,
                               targetFreq: real, targetVolume: real, n: nat)
    requires StateInRange(phase, inc, volume)
    requires MinFrequency <= targetFreq <= MaxFrequency
    requires MinVolume <= targetVolume <= MaxVolume
    ensures StateInRange(Fmod(Advance(phase, Smooth(inc, Increment(targetFreq)), n), TwoPi),
                         Smooth(inc, Increment(targetFreq)),
                         Smooth(volume, targetVolume))
  {
    IncrementMonotone(MinFrequency, targetFreq);
    IncrementMonotone(targetFreq, MaxFrequency);
    var inc' := Smooth(inc, Increment(targetFreq));
    assert inc' >= Increment(MinFrequency) > 0.0;
    AdvanceLinear(phase, inc', n);
    assert n as real * inc' >= 0.0;
  }
}
