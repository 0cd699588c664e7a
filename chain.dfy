/**
 * One channel's processing chain (`MonoChain`): a low-cut bank, a peak filter
 * and a high-cut bank, in that fixed order, and the copy of coefficient
 * contents through a coefficient pointer (`updateCoefficinets`).
 */
module Chain {
  import opened Slopes
  import opened CutFilter

  /** A reference-counted coefficient object (`IIR::Coefficients`), reached through
      a `CoefficientsPtr`; `value` is its contents. */
  class Coefficients<C> {
    var value: C

    constructor (value: C)
      ensures this.value == value
    {
      this.value := value;
    }
  }

  /** `updateCoefficinets(old, replacements)`: `*old = *replacements`. The pointer
      `target` is not reseated; only the object it points to receives the contents. */
  method UpdateCoefficients<C>(target: Coefficients<C>, replacements: Coefficients<C>)
    modifies target
    ensures target.value == old(replacements.value)
  {
    target.value := replacements.value;
  }

  /** The `ChainPositions` enumeration: where each element sits in a `MonoChain`.
      `MonoChain` reaches its elements by field name (`lowCut`, `peak`, `highCut`);
      the enumeration is kept as the map from those names to their positions. */
  datatype ChainPosition = LowCut | Peak | HighCut {
    function Index(): (i: nat)
      ensures i < 3
    {
      match this
      case LowCut => 0
      case Peak => 1
      case HighCut => 2
    }
  }

  /** The position of chain element `i`. */
  function PositionAt(i: nat): (p: ChainPosition)
    requires i < 3
    ensures p.Index() == i
  {
    if i == 0 then LowCut else if i == 1 then Peak else HighCut
  }

  /** Each of the three positions names exactly one element, in the order low cut, peak, high cut. */
  lemma PositionsAreDistinct(p: ChainPosition, q: ChainPosition)
    ensures PositionAt(p.Index()) == p
    ensures p.Index() == q.Index() <==> p == q
  {
  }

  /** The observable configuration of a chain. */
  datatype ChainState<C> = ChainState(lowCut: BankState<C>, peak: C, highCut: BankState<C>) {
    predicate WellShaped() {
      lowCut.WellShaped() && highCut.WellShaped()
    }
  }

  /** What `prepareToPlay` and `processBlock` do to one chain: the peak stage
      receives `peakContents`, the low-cut bank is updated for `slope` with `cut`,
      and the high-cut bank is left as it was. */
  function Configure<C>(st: ChainState<C>, peakContents: C, cut: seq<C>, slope: Slope): (r: ChainState<C>)
    requires st.WellShaped() && |cut| > slope.Index()
    ensures r.WellShaped()
  {
    ChainState(Update(st.lowCut, cut, slope), peakContents, st.highCut)
  }

  /** Configuring keeps the high-cut bank, puts the peak contents in place and
      leaves the low-cut bank as a contiguous prefix of `slope.Index() + 1` stages. */
  lemma ConfigureEffect<C>(st: ChainState<C>, peakContents: C, cut: seq<C>, slope: Slope)
    requires st.WellShaped() && |cut| > slope.Index()
    ensures Configure(st, peakContents, cut, slope).highCut == st.highCut
    ensures Configure(st, peakContents, cut, slope).peak == peakContents
    ensures ContiguousPrefix(Configure(st, peakContents, cut, slope).lowCut.bypassed, slope.Index() + 1)
    ensures Configure(st, peakContents, cut, slope).lowCut.coefficients[..slope.Index() + 1] ==
            cut[..slope.Index() + 1]
  {
    UpdateClosedForm(st.lowCut, cut, slope);
  }

  /** Configuring twice with the same inputs is the same as configuring once. */
  lemma ConfigureIdempotent<C>(st: ChainState<C>, peakContents: C, cut: seq<C>, slope: Slope)
    requires st.WellShaped() && |cut| > slope.Index()
    ensures Configure(Configure(st, peakContents, cut, slope), peakContents, cut, slope) ==
            Configure(st, peakContents, cut, slope)
  {
    UpdateIdempotent(st.lowCut, cut, slope);
  }

  /** Two chains configured with the same inputs agree on every element that is
      in the signal path afterwards (the peak stage and the active low-cut stages),
      whatever their prior configurations were. */
  lemma ConfigureAgreesOnActiveStages<C>(st1: ChainState<C>, st2: ChainState<C>, peakContents: C, cut: seq<C>, slope: Slope)
    requires st1.WellShaped() && st2.WellShaped() && |cut| > slope.Index()
    ensures Configure(st1, peakContents, cut, slope).peak == Configure(st2, peakContents, cut, slope).peak
    ensures Configure(st1, peakContents, cut, slope).lowCut.bypassed ==
            Configure(st2, peakContents, cut, slope).lowCut.bypassed
    ensures Configure(st1, peakContents, cut, slope).lowCut.coefficients[..slope.Index() + 1] ==
            Configure(st2, peakContents, cut, slope).lowCut.coefficients[..slope.Index() + 1]
  {
    UpdateIgnoresPriorBypass(st1.lowCut, st2.lowCut, cut, slope);
  }

  /** `MonoChain = ProcessorChain<CutFilter, Filter, CutFilter>`: elements at
      positions `LowCut`, `Peak` and `HighCut`. The elements are never reseated. */
  class MonoChain<C> {
    const lowCut: CutBank<C>
    const peak: Coefficients<C>
    const highCut: CutBank<C>

    ghost function Repr(): set<object> {
      lowCut.Repr() + {peak} + highCut.Repr()
    }

    /** Both banks have four stages and no two elements share an object. */
    ghost predicate Valid() {
      lowCut.Valid() && highCut.Valid() &&
      lowCut.Repr() !! highCut.Repr() &&
      peak !in lowCut.Repr() + highCut.Repr()
    }

    ghost function State(): (st: ChainState<C>)
      reads Repr()
      requires Valid()
      ensures st.WellShaped()
    {
      ChainState(lowCut.State(), peak.value, highCut.State())
    }

    /** A default-constructed chain: every filter holds `init` and nothing is bypassed. */
    constructor (init: C)
      ensures Valid() && fresh(Repr())
      ensures State().peak == init
      ensures State().lowCut == State().highCut ==
              BankState([init, init, init, init], [false, false, false, false])
    {
      lowCut := new CutBank(init);
      peak := new Coefficients(init);
      highCut := new CutBank(init);
    }
  }
}
