/** Output buffers of one block and the samples written into them. A bus holds
    its channels one after another ("planar", channel-major): sample `i` of
    channel `ch` sits at `ch * samplesPerChannel + i`. */
module Planar {
  import opened Dsp


  /** One output bus of a block (an AudioSampleFrame): its channel count, its
      number of samples per channel, and the storage the host hands over. */
  datatype Bus = Bus(numberOfChannels: nat, samplesPerChannel: nat, data: array<real>)
  {
    /** Number of cells the planar layout of this bus occupies. */
    function Size(): nat
    {
      numberOfChannels * samplesPerChannel
    }

    /** The storage holds the planar region. The second conjunct follows
        from the first (FitsWhenRegionFits); it is kept so that indexing a
        channel slot needs no multiplication reasoning at each use. */
    predicate Fits()
    {
      && Size() <= data.Length
      && forall ch, i :: 0 <= ch < numberOfChannels && 0 <= i < samplesPerChannel ==>
           Index(ch, i, samplesPerChannel) < data.Length
    }
  }

  /** A bus fits its storage exactly when its planar region does. */
  lemma FitsWhenRegionFits(bus: Bus)
    requires bus.Size() <= bus.data.Length
    ensures bus.Fits()
  {
    forall ch, i | 0 <= ch < bus.numberOfChannels && 0 <= i < bus.samplesPerChannel
      ensures Index(ch, i, bus.samplesPerChannel) < bus.data.Length
    {
      IndexInRegion(ch, i, bus.numberOfChannels, bus.samplesPerChannel);
    }
  }

  /** Planar position of sample `i` of channel `ch`, for `s` samples per channel. */
  function Index(ch: nat, i: nat, s: nat): nat
  {
    ch * s + i
  }

  /** Positions of the cells of channels below `c` lie below `c * s`. */
  lemma IndexInRegion(ch: nat, i: nat, c: nat, s: nat)
    requires ch < c && i < s
    ensures Index(ch, i, s) < c * s
  {
    MulMonotone(ch + 1, c, s);
    assert (ch + 1) * s == ch * s + s;
  }

  /** Distinct (channel, sample) pairs occupy distinct cells. */
  lemma IndexInjective(ch1: nat, i1: nat, ch2: nat, i2: nat, s: nat)
    requires i1 < s && i2 < s
    ensures Index(ch1, i1, s) == Index(ch2, i2, s) <==> ch1 == ch2 && i1 == i2
  {
    if ch1 < ch2 {
      IndexInRegion(ch1, i1, ch2, s);
    } else if ch2 < ch1 {
      IndexInRegion(ch2, i2, ch1, s);
    }
  }

  /** A product with a non-negative factor grows with the other factor. */
  lemma MulMonotone(a: int, b: int, s: nat)
    ensures a <= b ==> a * s <= b * s
  {
    assert (b - a) * s == b * s - a * s;
  }

  /** Every cell below `c * s` is the position of exactly one pair with
      channel below `c` and sample below `s`: the pair `(j / s, j % s)`. */
  lemma IndexCovers(j: nat, c: nat, s: nat)
    requires j < c * s
    ensures s > 0 && j / s < c && j % s < s
    ensures Index(j / s, j % s, s) == j
  {
    MulMonotone(c, 0, s);
    assert s != 0;
    assert j == (j / s) * s + j % s;
    MulMonotone(c, j / s, s);
  }

  /** A mono signal `samples` broadcast to `c` channels in planar layout. */
  function FanOut(c: nat, samples: seq<real>): (r: seq<real>)
    ensures |r| == c * |samples|
  {
    if c == 0 then [] else FanOut(c - 1, samples) + samples
  }

  /** The broadcast signal fills `c` channels of `|samples|` cells, and every
      channel repeats the signal: the cell of channel `ch` at sample `i` holds
      sample `i`. */
  lemma {:induction false} FanOutAt(c: nat, samples: seq<real>)
    ensures forall ch, i :: 0 <= ch < c && 0 <= i < |samples| ==>
      Index(ch, i, |samples|) < c * |samples| && FanOut(c, samples)[Index(ch, i, |samples|)] == samples[i]
  {
    var s := |samples|;
    if c > 0 {
      FanOutAt(c - 1, samples);
      forall ch, i | 0 <= ch < c && 0 <= i < s
        ensures Index(ch, i, s) < c * s && FanOut(c, samples)[Index(ch, i, s)] == samples[i]
      {
        IndexInRegion(ch, i, c, s);
        if ch < c - 1 {
          IndexInRegion(ch, i, c - 1, s);
        }
      }
    }
  }

  /** The content of a bus's storage `before` once `c` channels of the mono
      signal `samples` have been written over its planar region. */
  function Fill(before: seq<real>, c: nat, samples: seq<real>): (after: seq<real>)
    requires c * |samples| <= |before|
    ensures |after| == |before|
  {
    FanOut(c, samples) + before[c * |samples|..]
  }

  /** Writing a block over a bus puts sample `i` in every channel at sample
      index `i`, so all channels at one sample index agree. */
  lemma {:induction false} FillAt(before: seq<real>, c: nat, samples: seq<real>)
    requires c * |samples| <= |before|
    ensures forall ch, i :: 0 <= ch < c && 0 <= i < |samples| ==>
      Index(ch, i, |samples|) < c * |samples| && Fill(before, c, samples)[Index(ch, i, |samples|)] == samples[i]
  {
    var s := |samples|;
    var n := c * s;
    var fanned := FanOut(c, samples);
    var after := Fill(before, c, samples);
    FanOutAt(c, samples);
    assert after == fanned + before[n..];
    forall ch, i | 0 <= ch < c && 0 <= i < s
      ensures after[Index(ch, i, s)] == samples[i]
    {
      IndexInRegion(ch, i, c, s);
      var k := Index(ch, i, s);
      assert k < |fanned|;
      assert after[k] == fanned[k];
    }
  }

  /** Writing a block over a bus leaves every cell at or beyond the planar
      region `c * |samples|` as it was. */
  lemma {:induction false} FillKeepsTail(before: seq<real>, c: nat, samples: seq<real>)
    requires c * |samples| <= |before|
    ensures forall j :: c * |samples| <= j < |before| ==>
      Fill(before, c, samples)[j] == before[j]
  {
    var n := c * |samples|;
    var fanned := FanOut(c, samples);
    FanOutAt(c, samples);
    assert Fill(before, c, samples) == fanned + before[n..];
  }

  /** Fill is the only way to be the result of writing a block over a bus:
      storage of the same length whose every channel slot holds its sample
      and whose cells beyond the planar region are unchanged equals it. */
  lemma {:induction false} FillCharacterized(after: seq<real>, before: seq<real>, c: nat, samples: seq<real>)
    requires c * |samples| <= |before| && |after| == |before|
    requires forall ch, i :: 0 <= ch < c && 0 <= i < |samples| ==>
      Index(ch, i, |samples|) < |after| && after[Index(ch, i, |samples|)] == samples[i]
    requires forall j :: c * |samples| <= j < |before| ==> after[j] == before[j]
    ensures after == Fill(before, c, samples)
  {
    var fill := Fill(before, c, samples);
    FillAt(before, c, samples);
    FillKeepsTail(before, c, samples);
    forall j | 0 <= j < |after|
      ensures after[j] == fill[j]
    {
      if j < c * |samples| {
        IndexCovers(j, c, |samples|);
      }
    }
  }

  /** The whole planar region `[0, c * |samples|)` is overwritten: each cell
      holds the sample of its position within its channel. */
  lemma FillOverwritesRegion(before: seq<real>, c: nat, samples: seq<real>)
    requires c * |samples| <= |before|
    ensures forall j :: 0 <= j < c * |samples| ==>
      |samples| > 0 && Fill(before, c, samples)[j] == samples[j % |samples|]
  {
    FillAt(before, c, samples);
    forall j | 0 <= j < c * |samples|
      ensures |samples| > 0 && Fill(before, c, samples)[j] == samples[j % |samples|]
    {
      IndexCovers(j, c, |samples|);
    }
  }

  /** The `k`-th sample of a block: the sine of the phase after `k` advances,
      scaled by the block's volume. */
  function ToneSample(sin: real -> real, phase0: real, inc: real, volume: real, k: nat): real
  {
    sin(Advance(phase0, inc, k)) * volume
  }

  /** The `n` samples of a block starting with the `first`-th. */
  function Tones(sin: real -> real, phase0: real, inc: real, volume: real, first: nat, n: nat): (r: seq<real>)
    ensures |r| == n
  {
    seq(n, m requires 0 <= m < n => ToneSample(sin, phase0, inc, volume, first + m))
  }

  /** Sample `m` of a run starting with the block's `first`-th sample is the
      sine of the phase after `first + m` advances, scaled by the volume. */
  lemma TonesAt(sin: real -> real, phase0: real, inc: real, volume: real, first: nat, n: nat, m: nat)
    requires m < n
    ensures Tones(sin, phase0, inc, volume, first, n)[m] == sin(Advance(phase0, inc, first + m)) * volume
  {
    assert Tones(sin, phase0, inc, volume, first, n)[m] == ToneSample(sin, phase0, inc, volume, first + m);
  }

  /** The same sample in closed form: its phase is the start phase plus
      `first + m` increments, given here as `x`. */
  lemma TonesAtPhase(sin: real -> real, phase0: real, inc: real, volume: real, first: nat, n: nat, m: nat, x: real)
    requires m < n
    requires x == phase0 + (first + m) as real * inc
    ensures Tones(sin, phase0, inc, volume, first, n)[m] == sin(x) * volume
  {
    TonesAt(sin, phase0, inc, volume, first, n, m);
    AdvanceLinear(phase0, inc, first + m);
    var advanced := Advance(phase0, inc, first + m);
    assert advanced == x;
    assert sin(advanced) == sin(x);
  }

  /** A run of samples started after `first` advances is the run started from
      the phase reached by those advances. */
  lemma TonesShift(sin: real -> real, phase0: real, inc: real, volume: real, first: nat, n: nat)
    ensures Tones(sin, Advance(phase0, inc, first), inc, volume, 0, n) == Tones(sin, phase0, inc, volume, first, n)
  {
    var shifted := Tones(sin, Advance(phase0, inc, first), inc, volume, 0, n);
    var later := Tones(sin, phase0, inc, volume, first, n);
    forall m | 0 <= m < n
      ensures shifted[m] == later[m]
    {
      AdvanceAdd(phase0, inc, first, m);
      assert shifted[m] == ToneSample(sin, Advance(phase0, inc, first), inc, volume, m);
      assert later[m] == ToneSample(sin, phase0, inc, volume, first + m);
    }
  }

  /** Consecutive runs of samples join into one run. */
  lemma TonesJoin(sin: real -> real, phase0: real, inc: real, volume: real, first: nat, n1: nat, n2: nat)
    ensures Tones(sin, phase0, inc, volume, first, n1) + Tones(sin, phase0, inc, volume, first + n1, n2)
         == Tones(sin, phase0, inc, volume, first, n1 + n2)
  {
  }

  /** Number of samples per channel generated for the buses before bus `o`. */
  function SamplesBefore(buses: seq<Bus>, o: nat): nat
    requires o <= |buses|
  {
    if o == 0 then 0 else SamplesBefore(buses, o - 1) + buses[o - 1].samplesPerChannel
  }

  /** The next bus starts right after the samples of bus `o`. */
  lemma SamplesBeforeNext(buses: seq<Bus>, o: nat)
    requires o < |buses|
    ensures SamplesBefore(buses, o + 1) == SamplesBefore(buses, o) + buses[o].samplesPerChannel
  {
  }

  /** Number of samples per channel generated for the whole block. */
  function TotalSamples(buses: seq<Bus>): nat
  {
    SamplesBefore(buses, |buses|)
  }

  /** Buses further along start no earlier. */
  lemma {:induction false} SamplesBeforeMonotone(buses: seq<Bus>, a: nat, b: nat)
    requires a <= b <= |buses|
    ensures SamplesBefore(buses, a) <= SamplesBefore(buses, b)
    decreases b
  {
    if a < b {
      SamplesBeforeMonotone(buses, a, b - 1);
    }
  }

  /** The phase is not reset between buses: every sample of an earlier bus
      comes strictly before every sample of a later bus. */
  lemma {:induction false} SamplePositionsOrdered(buses: seq<Bus>, o1: nat, o2: nat)
    requires o1 < o2 <= |buses|
    ensures SamplesBefore(buses, o1) + buses[o1].samplesPerChannel <= SamplesBefore(buses, o2)
  {
    SamplesBeforeMonotone(buses, o1 + 1, o2);
  }

  /** The samples the block writes into bus `o`. */
  function BusTones(buses: seq<Bus>, o: nat, sin: real -> real, phase0: real, inc: real, volume: real): seq<real>
    requires o < |buses|
  {
    Tones(sin, phase0, inc, volume, SamplesBefore(buses, o), buses[o].samplesPerChannel)
  }

  /** Sample `i` of bus `o` is the sine of the block's start phase advanced by
      one increment for every sample generated before it, in the buses before
      `o` and earlier in bus `o`, scaled by the volume; that phase is `x`. */
  lemma BusSampleAt(buses: seq<Bus>, o: nat, i: nat, sin: real -> real, phase0: real, inc: real, volume: real, x: real)
    requires o < |buses| && i < buses[o].samplesPerChannel
    requires x == phase0 + (SamplesBefore(buses, o) + i) as real * inc
    ensures |BusTones(buses, o, sin, phase0, inc, volume)| == buses[o].samplesPerChannel
    ensures BusTones(buses, o, sin, phase0, inc, volume)[i] == sin(x) * volume
  {
    TonesAtPhase(sin, phase0, inc, volume, SamplesBefore(buses, o), buses[o].samplesPerChannel, i, x);
  }

  /** The samples of buses `0 .. o-1`, read bus after bus. */
  function BusStream(buses: seq<Bus>, o: nat, sin: real -> real, phase0: real, inc: real, volume: real): seq<real>
    requires o <= |buses|
  {
    if o == 0 then [] else BusStream(buses, o - 1, sin, phase0, inc, volume) + BusTones(buses, o - 1, sin, phase0, inc, volume)
  }

  /** Each bus continues the waveform where the previous bus stopped: read
      bus after bus, the block is one uninterrupted run of samples. */
  lemma {:induction false} BusStreamContinuous(buses: seq<Bus>, o: nat, sin: real -> real, phase0: real, inc: real, volume: real)
    requires o <= |buses|
    ensures BusStream(buses, o, sin, phase0, inc, volume) == Tones(sin, phase0, inc, volume, 0, SamplesBefore(buses, o))
  {
    if o > 0 {
      BusStreamContinuous(buses, o - 1, sin, phase0, inc, volume);
      TonesJoin(sin, phase0, inc, volume, 0, SamplesBefore(buses, o - 1), buses[o - 1].samplesPerChannel);
    }
  }
}
