/** One oscillator instance: its state (OscillatorState) and the per-block
    callback that smooths the parameters, fills every output bus with the
    sine tone and wraps the phase (ProcessAudio). */
module OscBank {
  import opened Dsp
  import opened Planar

  /** The storage arrays of a block's buses. */
  function Storage(buses: seq<Bus>): set<array<real>>
  {
    set o | 0 <= o < |buses| :: buses[o].data
  }

  /** The current contents of every bus's storage, bus by bus. */
  ghost function Contents(buses: seq<Bus>): (r: seq<seq<real>>)
    reads Storage(buses)
    ensures |r| == |buses|
    ensures forall o :: 0 <= o < |buses| ==> r[o] == buses[o].data[..]
  {
    seq(|buses|, o requires 0 <= o < |buses| reads Storage(buses) => buses[o].data[..])
  }

  /** What the host hands over: each bus's storage holds its planar region,
      and no two buses share storage. */
  predicate SeparateBuses(buses: seq<Bus>)
  {
    && (forall o :: 0 <= o < |buses| ==> buses[o].Fits())
    && (forall o1, o2 :: 0 <= o1 < |buses| && 0 <= o2 < |buses| && o1 != o2 ==> buses[o1].data != buses[o2].data)
  }

  /** Per-instance synthesis state, updated in place once per block. */
  class Oscillator {
    /** Position in the sine cycle. */
    var phase: real
    /** Smoothed phase advance per sample. */
    var phaseIncrement: real
    /** Smoothed output amplitude. */
    var currentVolume: real

    /** A fresh instance: phase 0, the increment of the default 440 Hz, and
        the default volume 0.3; this state lies within the declared ranges. */
    constructor ()
      ensures phase == 0.0
      ensures phaseIncrement == Increment(DefaultFrequency)
      ensures currentVolume == DefaultVolume
      ensures InRange()
    {
      phase := 0.0;
      phaseIncrement := 440.0 * 2.0 * Pi / SampleRate;
      currentVolume := 0.3;
    }

    /** The state lies within the ranges the host's parameters allow. */
    predicate InRange()
      reads this
    {
      StateInRange(phase, phaseIncrement, currentVolume)
    }

    /** Processes one block. The increment and the volume take one smoothing
        step towards the targets before any sample is produced, so every
        sample of the block uses the same increment and volume. Bus `o` is
        then filled, in every channel, with the samples numbered from the
        count of samples of the buses before it: the phase runs on across
        buses. Nothing outside the planar region of a bus is touched. The
        phase ends wrapped with C `fmod`; a state in range stays in range
        for targets in the declared ranges. The callback always asks to be
        kept alive. */
    method ProcessBlock(targetFreq: real, targetVolume: real, buses: seq<Bus>, sin: real -> real)
      returns (keepAlive: bool)
      requires SeparateBuses(buses)
      modifies this, Storage(buses)
      ensures phaseIncrement == Smooth(old(phaseIncrement), Increment(targetFreq))
      ensures currentVolume == Smooth(old(currentVolume), targetVolume)
      ensures phase == Fmod(Advance(old(phase), phaseIncrement, TotalSamples(buses)), TwoPi)
      ensures old(phase) >= 0.0 && phaseIncrement >= 0.0 ==> 0.0 <= phase < TwoPi
      ensures forall o :: 0 <= o < |buses| ==>
        buses[o].data[..] == Fill(old(buses[o].data[..]), buses[o].numberOfChannels,
                                  BusTones(buses, o, sin, old(phase), phaseIncrement, currentVolume))
      ensures (old(InRange()) && MinFrequency <= targetFreq <= MaxFrequency
               && MinVolume <= targetVolume <= MaxVolume) ==> InRange()
      ensures keepAlive
    {
      var targetPhaseIncrement := Increment(targetFreq);
      phaseIncrement := Smooth(phaseIncrement, targetPhaseIncrement);
      currentVolume := Smooth(currentVolume, targetVolume);

      ghost var phase0 := phase;
      RenderBuses(buses, sin);
      if phase0 >= 0.0 && phaseIncrement >= 0.0 {
        AdvanceFromStart(phase0, phaseIncrement, TotalSamples(buses));
      }
      phase := Fmod(phase, 2.0 * Pi);
      if old(InRange()) && MinFrequency <= targetFreq <= MaxFrequency && MinVolume <= targetVolume <= MaxVolume {
        BlockKeepsStateInRange(phase0, old(phaseIncrement), old(currentVolume), targetFreq, targetVolume, TotalSamples(buses));
      }
      keepAlive := true;
    }

    /** The bus loop of a block: bus `o` receives the run of samples that
        starts after the samples of the buses before it, so the phase runs on
        from bus to bus, and the phase ends advanced once per sample of every
        bus. */
    method RenderBuses(buses: seq<Bus>, sin: real -> real)
      requires SeparateBuses(buses)
      modifies this`phase, Storage(buses)
      ensures phase == Advance(old(phase), phaseIncrement, TotalSamples(buses))
      ensures forall o :: 0 <= o < |buses| ==>
        buses[o].data[..] == Fill(old(buses[o].data[..]), buses[o].numberOfChannels,
                                  BusTones(buses, o, sin, old(phase), phaseIncrement, currentVolume))
    {
      ghost var phase0 := phase;
      ghost var initial := Contents(buses);
      RenderedAtStart(buses, sin, phase0, initial);
      var o := 0;
      while o < |buses|
        invariant 0 <= o <= |buses|
        invariant Rendered(buses, o, sin, phase0, initial)
      {
        RenderStep(buses, o, sin, phase0, initial);
        o := o + 1;
      }
      RenderedAtEnd(buses, sin, phase0, initial);
    }

    /** Before the bus loop, no bus has been rendered and the phase has not
        moved. */
    lemma RenderedAtStart(buses: seq<Bus>, sin: real -> real, phase0: real, initial: seq<seq<real>>)
      requires SeparateBuses(buses)
      requires phase == phase0 && initial == Contents(buses)
      ensures Rendered(buses, 0, sin, phase0, initial)
    {
    }

    /** After the bus loop, every bus holds its run and the phase has moved
        once per sample of every bus. */
    lemma RenderedAtEnd(buses: seq<Bus>, sin: real -> real, phase0: real, initial: seq<seq<real>>)
      requires Rendered(buses, |buses|, sin, phase0, initial)
      ensures phase == Advance(phase0, phaseIncrement, TotalSamples(buses))
      ensures forall o :: 0 <= o < |buses| ==>
        buses[o].data[..] == Fill(initial[o], buses[o].numberOfChannels,
                                  BusTones(buses, o, sin, phase0, phaseIncrement, currentVolume))
    {
      forall o | 0 <= o < |buses|
        ensures buses[o].data[..] == Fill(initial[o], buses[o].numberOfChannels,
                                          BusTones(buses, o, sin, phase0, phaseIncrement, currentVolume))
      {
        assert BusRendered(buses, o, sin, phase0, phaseIncrement, currentVolume, initial);
      }
    }

    /** The state after the buses before `o` have been rendered, for a block
        that started at phase `phase0` over storage holding `initial`. */
    ghost predicate Rendered(buses: seq<Bus>, o: nat, sin: real -> real, phase0: real, initial: seq<seq<real>>)
      reads this, Storage(buses)
    {
      && o <= |buses| && |initial| == |buses|
      && (forall q :: 0 <= q < |buses| ==> buses[q].Fits() && |initial[q]| == buses[q].data.Length)
      && phase == Advance(phase0, phaseIncrement, SamplesBefore(buses, o))
      && (forall q :: 0 <= q < o ==> BusRendered(buses, q, sin, phase0, phaseIncrement, currentVolume, initial))
      && (forall q :: o <= q < |buses| ==> buses[q].data[..] == initial[q])
    }

    /** Bus `q` holds, in every channel, its run of the block's samples over
        the storage it started with. */
    ghost predicate BusRendered(buses: seq<Bus>, q: nat, sin: real -> real, phase0: real, inc: real, volume: real,
                                initial: seq<seq<real>>)
      requires q < |buses| && q < |initial| && buses[q].Fits()
      requires |initial[q]| == buses[q].data.Length
      reads buses[q].data
    {
      buses[q].data[..] == Fill(initial[q], buses[q].numberOfChannels, BusTones(buses, q, sin, phase0, inc, volume))
    }

    /** One pass of the bus loop: renders bus `o`. */
    method RenderStep(buses: seq<Bus>, o: nat, sin: real -> real, ghost phase0: real, ghost initial: seq<seq<real>>)
      requires SeparateBuses(buses) && o < |buses|
      requires Rendered(buses, o, sin, phase0, initial)
      modifies this`phase, buses[o].data
      ensures Rendered(buses, o + 1, sin, phase0, initial)
    {
      var bus := buses[o];
      SamplesBeforeNext(buses, o);
      RenderBus(bus, sin, phase0, SamplesBefore(buses, o), SamplesBefore(buses, o + 1));
      forall q | 0 <= q < |buses| && q != o
        ensures buses[q].data[..] == old(buses[q].data[..])
      {
        assert buses[q].data != bus.data;
      }
    }

    /** The sample loop for one bus whose first sample is sample `first` of a
        block that started at phase `phase0`: each sample is the sine of the
        current phase scaled by the volume, written to every channel, and the
        phase advances once per sample, after it has been read. */
    method RenderBus(bus: Bus, sin: real -> real, ghost phase0: real, ghost first: nat, ghost last: nat)
      requires bus.Fits()
      requires phase == Advance(phase0, phaseIncrement, first)
      requires last == first + bus.samplesPerChannel
      modifies this`phase, bus.data
      ensures phase == Advance(phase0, phaseIncrement, last)
      ensures bus.data[..] == Fill(old(bus.data[..]), bus.numberOfChannels,
                                   Tones(sin, phase0, phaseIncrement, currentVolume, first, bus.samplesPerChannel))
    {
      var channels := bus.numberOfChannels;
      var s := bus.samplesPerChannel;
      ghost var tones := Tones(sin, phase0, phaseIncrement, currentVolume, first, s);
      ghost var before := bus.data[..];
      var i := 0;
      while i < s
        invariant 0 <= i <= s
        invariant phase == Advance(phase0, phaseIncrement, first + i)
        invariant forall ch, m :: 0 <= ch < channels && 0 <= m < s ==>
          bus.data[Index(ch, m, s)] == if m < i then tones[m] else before[Index(ch, m, s)]
        invariant forall j :: channels * s <= j < bus.data.Length ==> bus.data[j] == before[j]
      {
        var sample := sin(phase);
        TonesAt(sin, phase0, phaseIncrement, currentVolume, first, s, i);
        phase := phase + phaseIncrement;
        WriteChannels(bus, i, sample * currentVolume);
        i := i + 1;
      }

      FillCharacterized(bus.data[..], before, channels, tones);
    }
  }

  /** The channel loop for one sample: `value` goes to sample `i` of every
      channel of the bus, and no other cell changes. */
  method WriteChannels(bus: Bus, i: nat, value: real)
    requires bus.Fits() && i < bus.samplesPerChannel
    modifies bus.data
    ensures forall c, m :: 0 <= c < bus.numberOfChannels && 0 <= m < bus.samplesPerChannel ==>
      bus.data[Index(c, m, bus.samplesPerChannel)] ==
        if m == i then value else old(bus.data[Index(c, m, bus.samplesPerChannel)])
    ensures forall j :: bus.Size() <= j < bus.data.Length ==> bus.data[j] == old(bus.data[j])
  {
    var channels := bus.numberOfChannels;
    var s := bus.samplesPerChannel;
    var ch := 0;
    while ch < channels
      invariant 0 <= ch <= channels
      invariant forall c, m :: 0 <= c < channels && 0 <= m < s ==>
        bus.data[Index(c, m, s)] ==
          if m == i && c < ch then value else old(bus.data[Index(c, m, s)])
      invariant forall j :: channels * s <= j < bus.data.Length ==> bus.data[j] == old(bus.data[j])
    {
      forall c, m | 0 <= c < channels && 0 <= m < s
        ensures Index(c, m, s) == Index(ch, i, s) <==> c == ch && m == i
      {
        IndexInjective(c, m, ch, i, s);
      }
      IndexInRegion(ch, i, channels, s);
      bus.data[Index(ch, i, s)] := value;
      ch := ch + 1;
    }
  }

  /** Four samples of any tone, started at phase 0, written over a mono bus of
      four cells: the bus then holds the sines of 0, 1, 2 and 3 increments,
      scaled. */
  lemma DefaultMonoBlock(before: seq<real>, sin: real -> real, inc: real, volume: real)
    requires |before| == 4
    ensures Fill(before, 1, Tones(sin, 0.0, inc, volume, 0, 4))
         == [sin(0.0) * volume, sin(inc) * volume, sin(2.0 * inc) * volume, sin(3.0 * inc) * volume]
  {
    var tones := Tones(sin, 0.0, inc, volume, 0, 4);
    var after := Fill(before, 1, tones);
    FillAt(before, 1, tones);
    assert after[0] == after[Index(0, 0, 4)] && after[1] == after[Index(0, 1, 4)];
    assert after[2] == after[Index(0, 2, 4)] && after[3] == after[Index(0, 3, 4)];
    TonesAtPhase(sin, 0.0, inc, volume, 0, 4, 0, 0.0);
    TonesAtPhase(sin, 0.0, inc, volume, 0, 4, 1, inc);
    TonesAtPhase(sin, 0.0, inc, volume, 0, 4, 2, 2.0 * inc);
    TonesAtPhase(sin, 0.0, inc, volume, 0, 4, 3, 3.0 * inc);
    var expected := [sin(0.0) * volume, sin(inc) * volume, sin(2.0 * inc) * volume, sin(3.0 * inc) * volume];
    assert |after| == |expected|;
    assert forall i :: 0 <= i < 4 ==> after[i] == expected[i];
  }

  /** Four samples starting with sample `first` written over a stereo bus of
      eight cells: both channels hold the same run, at every sample index. */
  lemma StereoBlock(before: seq<real>, sin: real -> real, inc: real, volume: real, first: nat, x0: real, x3: real)
    requires |before| == 8
    requires x0 == first as real * inc && x3 == (first + 3) as real * inc
    ensures var after := Fill(before, 2, Tones(sin, 0.0, inc, volume, first, 4));
      && |after| == 8
      && (forall i :: 0 <= i < 4 ==> after[i] == after[i + 4])
      && after[0] == after[4] == sin(x0) * volume
      && after[3] == after[7] == sin(x3) * volume
  {
    var tones := Tones(sin, 0.0, inc, volume, first, 4);
    var after := Fill(before, 2, tones);
    FillAt(before, 2, tones);
    forall i | 0 <= i < 4
      ensures after[i] == after[i + 4]
    {
      assert after[i] == after[Index(0, i, 4)] && after[i + 4] == after[Index(1, i, 4)];
    }
    assert after[0] == after[Index(0, 0, 4)] && after[4] == after[Index(1, 0, 4)];
    assert after[3] == after[Index(0, 3, 4)] && after[7] == after[Index(1, 3, 4)];
    TonesAtPhase(sin, 0.0, inc, volume, first, 4, 0, x0);
    TonesAtPhase(sin, 0.0, inc, volume, first, 4, 3, x3);
  }

  /** A fresh instance processes one block of four samples on one mono bus
      with the default parameters as targets: the samples are the sines of
      0, 1, 2 and 3 increments of 440 Hz scaled by 0.3, and the phase ends at
      four increments, still below one cycle. */
  method DefaultBlockScenario(sin: real -> real) returns (samples: seq<real>, phaseAfter: real)
    ensures var inc := Increment(DefaultFrequency);
      samples == [sin(0.0) * 0.3, sin(inc) * 0.3, sin(2.0 * inc) * 0.3, sin(3.0 * inc) * 0.3]
    ensures phaseAfter == 4.0 * Increment(DefaultFrequency)
  {
    var osc := new Oscillator();
    var data := new real[4];
    var buses := [Bus(1, 4, data)];
    ghost var before := data[..];
    FitsWhenRegionFits(buses[0]);
    var keepAlive := osc.ProcessBlock(DefaultFrequency, DefaultVolume, buses, sin);
    samples := data[..];
    phaseAfter := osc.phase;

    ghost var inc := Increment(DefaultFrequency);
    assert osc.phaseIncrement == inc && osc.currentVolume == 0.3;
    assert BusTones(buses, 0, sin, 0.0, inc, 0.3) == Tones(sin, 0.0, inc, 0.3, 0, 4);
    DefaultMonoBlock(before, sin, inc, 0.3);
    AdvanceLinear(0.0, inc, 4);
  }

  /** A fresh instance processes one block on two stereo buses of four samples
      each: both channels of a bus agree at every sample index, but the second
      bus starts four increments further on, so the buses differ. */
  method TwoBusScenario(sin: real -> real) returns (first: seq<real>, second: seq<real>)
    ensures var inc := Increment(DefaultFrequency);
      && |first| == 8 && |second| == 8
      && (forall i :: 0 <= i < 4 ==> first[i] == first[i + 4] && second[i] == second[i + 4])
      && first[0] == first[4] == sin(0.0) * 0.3
      && second[0] == second[4] == sin(4.0 * inc) * 0.3
      && first[3] == first[7] == sin(3.0 * inc) * 0.3
      && second[3] == second[7] == sin(7.0 * inc) * 0.3
  {
    var osc := new Oscillator();
    var left := new real[8];
    var right := new real[8];
    var buses := [Bus(2, 4, left), Bus(2, 4, right)];
    ghost var beforeLeft := left[..];
    ghost var beforeRight := right[..];
    FitsWhenRegionFits(buses[0]);
    FitsWhenRegionFits(buses[1]);
    var keepAlive := osc.ProcessBlock(DefaultFrequency, DefaultVolume, buses, sin);
    first := left[..];
    second := right[..];

    ghost var inc := Increment(DefaultFrequency);
    assert osc.phaseIncrement == inc && osc.currentVolume == 0.3;
    assert SamplesBefore(buses, 1) == 4;
    assert BusTones(buses, 0, sin, 0.0, inc, 0.3) == Tones(sin, 0.0, inc, 0.3, 0, 4);
    assert BusTones(buses, 1, sin, 0.0, inc, 0.3) == Tones(sin, 0.0, inc, 0.3, 4, 4);
    StereoBlock(beforeLeft, sin, inc, 0.3, 0, 0.0, 3.0 * inc);
    StereoBlock(beforeRight, sin, inc, 0.3, 4, 4.0 * inc, 7.0 * inc);
  }
}
