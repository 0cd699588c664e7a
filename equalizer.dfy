/**
 * The equalizer processor (`EqualizerAudioProcessor`): two mono chains, left
 * and right, reconfigured from the parameter snapshot in `prepareToPlay` and at
 * the start of every `processBlock`.
 *
 * Filter design is library code and stays abstract: a `Designer` supplies the
 * peak-filter design, the decibel-to-gain conversion and the high-order
 * Butterworth high-pass design as plain functions.
 */
module Equalizer {
  import opened Slopes
  import opened CutFilter
  import opened Chain
  import opened Parameters
  import opened AudioBuffers

  /** The filter-design functions the processor calls:
      `makePeakFilter(sampleRate, frequency, quality, gainFactor)`,
      `decibelsToGain(decibels)` and
      `designIIRHighpassHighOrderButterworthMethod(frequency, sampleRate, order)`. */
  datatype Designer<C> = Designer(
    peakFilter: (real, real, real, real) -> C,
    decibelsToGain: real -> real,
    highpassButterworth: (real, real, nat) -> seq<C>)
  {
    /** The Butterworth design of an even order yields one second-order section per pair of poles. */
    ghost predicate WellFormed() {
      forall frequency: real, sampleRate: real, order: nat
        :: order > 0 && order % 2 == 0 ==> |highpassButterworth(frequency, sampleRate, order)| == order / 2
    }
  }

  /** The Butterworth order requested for a slope, `2 * (slope + 1)`: one second-order
      section per active stage, and 6 dB per octave per order. */
  function ButterworthOrder(slope: Slope): (order: nat)
    ensures order > 0 && order % 2 == 0
    ensures order / 2 == slope.Index() + 1
    ensures 6 * order == slope.DecibelsPerOctave()
  {
    2 * (slope.Index() + 1)
  }

  /** The peak coefficients `updatePeakFilter` designs at `sampleRate`: `makePeakFilter`
      on the peak frequency, the quality and the peak gain converted from decibels. */
  function PeakContents<C>(d: Designer<C>, sampleRate: real, cs: ChainSettings): C {
    d.peakFilter(sampleRate, cs.peakFreq, cs.peakQuality, d.decibelsToGain(cs.peakGainInDecibels))
  }

  /** The cut-bank frequencies and slopes never reach the peak stage, and the peak gain
      enters only through its conversion from decibels. */
  lemma PeakIgnoresCutSettings<C>(d: Designer<C>, sampleRate: real, cs1: ChainSettings, cs2: ChainSettings)
    requires cs1.peakFreq == cs2.peakFreq && cs1.peakQuality == cs2.peakQuality
    requires d.decibelsToGain(cs1.peakGainInDecibels) == d.decibelsToGain(cs2.peakGainInDecibels)
    ensures PeakContents(d, sampleRate, cs1) == PeakContents(d, sampleRate, cs2)
  {
  }

  /** The low-cut coefficient array designed at `sampleRate`: exactly one set per
      stage the slope enables. */
  function LowCutCoefficients<C>(d: Designer<C>, sampleRate: real, cs: ChainSettings): (cut: seq<C>)
    ensures d.WellFormed() ==> |cut| == cs.lowCutSlope.Index() + 1
  {
    d.highpassButterworth(cs.lowCutFreq, sampleRate, ButterworthOrder(cs.lowCutSlope))
  }

  /** The configuration of one chain after an update from `cs`: the low cut designed at
      `cutRate`, the peak at `peakRate`. */
  function Reconfigure<C>(st: ChainState<C>, d: Designer<C>, cs: ChainSettings, cutRate: real, peakRate: real): (r: ChainState<C>)
    requires st.WellShaped() && d.WellFormed()
    ensures r.WellShaped()
  {
    Configure(st, PeakContents(d, peakRate, cs), LowCutCoefficients(d, cutRate, cs), cs.lowCutSlope)
  }

  /** What one update does to a chain: the high-cut bank is untouched, the peak holds the
      designed contents and the low-cut bank runs exactly `ButterworthOrder / 2` stages,
      each holding its designed section. */
  lemma ReconfigureEffect<C>(st: ChainState<C>, d: Designer<C>, cs: ChainSettings, cutRate: real, peakRate: real)
    requires st.WellShaped() && d.WellFormed()
    ensures Reconfigure(st, d, cs, cutRate, peakRate).highCut == st.highCut
    ensures Reconfigure(st, d, cs, cutRate, peakRate).peak == PeakContents(d, peakRate, cs)
    ensures ContiguousPrefix(Reconfigure(st, d, cs, cutRate, peakRate).lowCut.bypassed,
                             ButterworthOrder(cs.lowCutSlope) / 2)
    ensures Reconfigure(st, d, cs, cutRate, peakRate).lowCut.coefficients[..ButterworthOrder(cs.lowCutSlope) / 2] ==
            LowCutCoefficients(d, cutRate, cs)
  {
    ConfigureEffect(st, PeakContents(d, peakRate, cs), LowCutCoefficients(d, cutRate, cs), cs.lowCutSlope);
  }

  /** Processing two blocks with unchanged parameters leaves the configuration of one. */
  lemma ReconfigureIdempotent<C>(st: ChainState<C>, d: Designer<C>, cs: ChainSettings, cutRate: real, peakRate: real)
    requires st.WellShaped() && d.WellFormed()
    ensures Reconfigure(Reconfigure(st, d, cs, cutRate, peakRate), d, cs, cutRate, peakRate) ==
            Reconfigure(st, d, cs, cutRate, peakRate)
  {
    ConfigureIdempotent(st, PeakContents(d, peakRate, cs), LowCutCoefficients(d, cutRate, cs), cs.lowCutSlope);
  }

  /** The processor: `leftChain` and `rightChain`, and the sample rate the host has set
      (what `getSampleRate()` returns). */
  class EqualizerProcessor<C> {
    const leftChain: MonoChain<C>
    const rightChain: MonoChain<C>
    var sampleRate: real

    ghost function Repr(): set<object> {
      leftChain.Repr() + rightChain.Repr()
    }

    /** Both chains are well formed, share no object, and are configured identically:
        every update is applied to both with the same inputs. */
    ghost predicate Valid()
      reads Repr()
    {
      leftChain.Valid() && rightChain.Valid() &&
      leftChain.Repr() !! rightChain.Repr() &&
      leftChain.State() == rightChain.State()
    }

    /** Two default-constructed chains whose filters hold `init`. */
    constructor (init: C, hostSampleRate: real)
      ensures Valid() && fresh(Repr())
      ensures sampleRate == hostSampleRate
      ensures leftChain.State() ==
              ChainState(BankState([init, init, init, init], [false, false, false, false]), init,
                         BankState([init, init, init, init], [false, false, false, false]))
    {
      leftChain := new MonoChain(init);
      rightChain := new MonoChain(init);
      sampleRate := hostSampleRate;
    }

    /** `updatePeakFilter`: design one coefficient object at `getSampleRate()` and copy
        its contents into both chains' peak stages. */
    method UpdatePeakFilter(cs: ChainSettings, d: Designer<C>)
      requires Valid()
      modifies leftChain.peak, rightChain.peak
      ensures Valid()
      ensures leftChain.State() == old(leftChain.State()).(peak := PeakContents(d, sampleRate, cs))
      ensures rightChain.State() == leftChain.State()
    {
      var peakCoeffic := new Coefficients(PeakContents(d, sampleRate, cs));
      UpdateCoefficients(leftChain.peak, peakCoeffic);
      UpdateCoefficients(rightChain.peak, peakCoeffic);
    }

    /** The configuration part of `prepareToPlay`: the peak is designed at
        `getSampleRate()`, the low cut at the `newSampleRate` argument, and both chains'
        low-cut banks receive the same coefficients and slope. */
    method PrepareToPlay(newSampleRate: real, samplesPerBlock: int, params: map<string, real>, d: Designer<C>)
      requires Valid() && Readable(params) && d.WellFormed()
      modifies leftChain.peak, rightChain.peak, leftChain.lowCut.Repr(), rightChain.lowCut.Repr()
      ensures Valid()
      ensures leftChain.State() ==
              Reconfigure(old(leftChain.State()), d, GetChainSettings(params), newSampleRate, sampleRate)
      ensures rightChain.State() == leftChain.State()
      ensures leftChain.State().highCut == old(leftChain.State().highCut)
    {
      var chainSettings := GetChainSettings(params);
      UpdatePeakFilter(chainSettings, d);
      var cutCoefficient := d.highpassButterworth(chainSettings.lowCutFreq, newSampleRate,
                                                  ButterworthOrder(chainSettings.lowCutSlope));
      leftChain.lowCut.UpdateCutFilter(cutCoefficient, chainSettings.lowCutSlope);
      rightChain.lowCut.UpdateCutFilter(cutCoefficient, chainSettings.lowCutSlope);
    }

    /** `processBlock` up to the point where the buffer is handed to the chains:
        output channels without input are zeroed, every other sample is as it came,
        and both chains are reconfigured at `getSampleRate()`. */
    method ProcessBlock(buffer: array2<real>, totalNumInputChannels: nat, totalNumOutputChannels: nat,
                        params: map<string, real>, d: Designer<C>)
      requires Valid() && Readable(params) && d.WellFormed()
      requires totalNumInputChannels < totalNumOutputChannels ==> totalNumOutputChannels <= buffer.Length0
      modifies buffer, leftChain.peak, rightChain.peak, leftChain.lowCut.Repr(), rightChain.lowCut.Repr()
      ensures Valid()
      ensures forall c, j | 0 <= c < buffer.Length0 && 0 <= j < buffer.Length1 ::
                buffer[c, j] == if totalNumInputChannels <= c < totalNumOutputChannels
                                then 0.0 else old(buffer[c, j])
      ensures leftChain.State() ==
              Reconfigure(old(leftChain.State()), d, GetChainSettings(params), sampleRate, sampleRate)
      ensures rightChain.State() == leftChain.State()
      ensures leftChain.State().highCut == old(leftChain.State().highCut)
    {
      ClearUnusedOutputChannels(buffer, totalNumInputChannels, totalNumOutputChannels);
      var chainSettings := GetChainSettings(params);
      UpdatePeakFilter(chainSettings, d);
      var cutCoefficient := d.highpassButterworth(chainSettings.lowCutFreq, sampleRate,
                                                  ButterworthOrder(chainSettings.lowCutSlope));
      leftChain.lowCut.UpdateCutFilter(cutCoefficient, chainSettings.lowCutSlope);
      rightChain.lowCut.UpdateCutFilter(cutCoefficient, chainSettings.lowCutSlope);
    }
  }
}
