/**
 * The configuration value types of the equalizer: the four filter slopes of
 * a cut bank and the settings snapshot the processor derives from its
 * parameters every block.
 */
module Slopes {

  /** The roll-off of a cut bank: 12, 24, 36 or 48 dB per octave.
      The enumerators are declared in this order, so their C++ values are 0..3. */
  datatype Slope = Slope12 | Slope24 | Slope36 | Slope48 {

    /** The enumerator's integer value, which is also the index of the
        highest cut-bank stage the slope enables. */
    function Index(): (i: nat)
      ensures i < 4
    {
      match this
      case Slope12 => 0
      case Slope24 => 1
      case Slope36 => 2
      case Slope48 => 3
    }

    /** The roll-off in dB per octave that the slope stands for. */
    function DecibelsPerOctave(): (d: nat)
      ensures d == 12 * (Index() + 1)
    {
      match this
      case Slope12 => 12
      case Slope24 => 24
      case Slope36 => 36
      case Slope48 => 48
    }
  }

  /** `static_cast<Slope>(i)` for an index inside the enumeration. */
  function SlopeFromIndex(i: nat): (s: Slope)
    requires i < 4
    ensures s.Index() == i
  {
    if i == 0 then Slope12
    else if i == 1 then Slope24
    else if i == 2 then Slope36
    else Slope48
  }

  /** The enumerators are ordered by their values and each value names one slope. */
  lemma SlopeIndexRoundTrip(s: Slope, t: Slope)
    ensures SlopeFromIndex(s.Index()) == s
    ensures s.Index() == t.Index() <==> s == t
    ensures s.Index() < t.Index() <==> s.DecibelsPerOctave() < t.DecibelsPerOctave()
  {
  }

  /** C++ float-to-integer conversion: truncation toward zero. */
  function Truncate(x: real): (n: int)
    ensures x >= 0.0 ==> n as real <= x < n as real + 1.0
    ensures x < 0.0 ==> n as real - 1.0 < x <= n as real
  {
    if x >= 0.0 then x.Floor else -((-x).Floor)
  }

  /** `static_cast<Slope>(x)` of a raw float parameter value: the value is truncated
      toward zero and must land on one of the four enumerators. */
  function SlopeFromRaw(x: real): (s: Slope)
    requires -1.0 < x < 4.0
    ensures s.Index() == Truncate(x)
  {
    SlopeFromIndex(Truncate(x))
  }

  /** The per-block settings snapshot (the `ChainSettings` struct). Frequencies and
      quality are modelled as exact reals. */
  datatype ChainSettings = ChainSettings(
    peakFreq: real, peakGainInDecibels: real, peakQuality: real,
    lowCutFreq: real, highCutFreq: real,
    lowCutSlope: Slope, highCutSlope: Slope)

  /** A default-constructed `ChainSettings`: quality 1, both slopes 12 dB/oct, every
      other field 0. */
  function DefaultChainSettings(): (cs: ChainSettings)
    ensures cs.peakQuality == 1.0
    ensures cs.peakFreq == cs.peakGainInDecibels == cs.lowCutFreq == cs.highCutFreq == 0.0
    ensures cs.lowCutSlope.Index() == cs.highCutSlope.Index() == 0
  {
    ChainSettings(0.0, 0.0, 1.0, 0.0, 0.0, Slope12, Slope12)
  }
}
