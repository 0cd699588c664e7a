/**
 * A cut bank (`CutFilter`): four IIR filter stages in a processor chain, each
 * with its own coefficient object and bypass flag, and the `updateCutFilter`
 * routine that reconfigures it for a slope.
 *
 * Coefficient sets are an abstract type `C`; only their contents move.
 */
module CutFilter {
  import opened Slopes

  /** Number of stages in every cut bank. */
  const StageCount: nat := 4

  /** The observable configuration of a bank: the contents of each stage's
      coefficient object and each stage's bypass flag. */
  datatype BankState<C> = BankState(coefficients: seq<C>, bypassed: seq<bool>) {
    predicate WellShaped() {
      |coefficients| == StageCount && |bypassed| == StageCount
    }
  }

  /** Stages `0 .. n-1` are active and the rest are bypassed. */
  predicate ContiguousPrefix(bypassed: seq<bool>, n: nat) {
    forall i | 0 <= i < |bypassed| :: bypassed[i] <==> i >= n
  }

  /** The four `setBypassed<i>(true)` calls. */
  function BypassAll<C>(b: BankState<C>): (r: BankState<C>)
    requires b.WellShaped()
    ensures r.WellShaped() && r.coefficients == b.coefficients
    ensures ContiguousPrefix(r.bypassed, 0)
  {
    b.(bypassed := [true, true, true, true])
  }

  /** One case of the switch: copy `c` into stage `i`'s coefficient object and
      un-bypass the stage. */
  function SetStage<C>(b: BankState<C>, i: nat, c: C): (r: BankState<C>)
    requires b.WellShaped() && i < StageCount
    ensures r.WellShaped()
    ensures r.coefficients[i] == c && !r.bypassed[i]
    ensures r.coefficients[..i] == b.coefficients[..i] && r.coefficients[i + 1..] == b.coefficients[i + 1..]
    ensures r.bypassed[..i] == b.bypassed[..i] && r.bypassed[i + 1..] == b.bypassed[i + 1..]
  {
    b.(coefficients := b.coefficients[i := c], bypassed := b.bypassed[i := false])
  }

  /** The switch entered at case `k`: each case falls through to the next lower one,
      so stages `k, k-1, .., 0` are set in that order. */
  function FallThrough<C>(b: BankState<C>, cut: seq<C>, k: nat): (r: BankState<C>)
    requires b.WellShaped() && k < StageCount && k < |cut|
    ensures r.WellShaped()
    decreases k
  {
    var b' := SetStage(b, k, cut[k]);
    if k == 0 then b' else FallThrough(b', cut, k - 1)
  }

  /** `updateCutFilter(bank, cut, slope)`: bypass every stage, then enter the
      switch at the case of `slope`. Only `cut[0 .. slope.Index()]` is read. */
  function Update<C>(b: BankState<C>, cut: seq<C>, slope: Slope): (r: BankState<C>)
    requires b.WellShaped() && |cut| > slope.Index()
    ensures r.WellShaped()
  {
    FallThrough(BypassAll(b), cut, slope.Index())
  }

  /** The cascade from case `k` sets exactly stages `0..k` and touches nothing else. */
  lemma {:induction false} FallThroughEffect<C>(b: BankState<C>, cut: seq<C>, k: nat, i: nat)
    requires b.WellShaped() && k < StageCount && k < |cut| && i < StageCount
    ensures FallThrough(b, cut, k).coefficients[i] == if i <= k then cut[i] else b.coefficients[i]
    ensures FallThrough(b, cut, k).bypassed[i] == if i <= k then false else b.bypassed[i]
    decreases k
  {
    if k > 0 {
      FallThroughEffect(SetStage(b, k, cut[k]), cut, k - 1, i);
    }
  }

  /** After the update, stage `i` is bypassed exactly when `i > slope.Index()`; an
      active stage holds `cut[i]` and a bypassed one keeps its previous contents. */
  lemma UpdateEffect<C>(b: BankState<C>, cut: seq<C>, slope: Slope, i: nat)
    requires b.WellShaped() && |cut| > slope.Index() && i < StageCount
    ensures Update(b, cut, slope).bypassed[i] == (i > slope.Index())
    ensures Update(b, cut, slope).coefficients[i] ==
            if i <= slope.Index() then cut[i] else b.coefficients[i]
  {
    FallThroughEffect(BypassAll(b), cut, slope.Index(), i);
  }

  /** The closed form of the update as a whole state. */
  lemma UpdateClosedForm<C>(b: BankState<C>, cut: seq<C>, slope: Slope)
    requires b.WellShaped() && |cut| > slope.Index()
    ensures ContiguousPrefix(Update(b, cut, slope).bypassed, slope.Index() + 1)
    ensures Update(b, cut, slope).coefficients[..slope.Index() + 1] == cut[..slope.Index() + 1]
    ensures Update(b, cut, slope).coefficients[slope.Index() + 1..] == b.coefficients[slope.Index() + 1..]
  {
    var r := Update(b, cut, slope);
    var n := slope.Index() + 1;
    forall i | 0 <= i < StageCount
      ensures r.bypassed[i] == (i >= n)
      ensures r.coefficients[i] == if i < n then cut[i] else b.coefficients[i]
    {
      UpdateEffect(b, cut, slope, i);
    }
    assert r.coefficients[..n] == cut[..n];
    assert r.coefficients[n..] == b.coefficients[n..];
  }

  /** The prior bypass flags do not matter: two banks with the same coefficient
      contents end up in the same state, and active stages agree whatever the prior
      contents were. */
  lemma UpdateIgnoresPriorBypass<C>(b1: BankState<C>, b2: BankState<C>, cut: seq<C>, slope: Slope)
    requires b1.WellShaped() && b2.WellShaped() && |cut| > slope.Index()
    ensures Update(b1, cut, slope).bypassed == Update(b2, cut, slope).bypassed
    ensures Update(b1, cut, slope).coefficients[..slope.Index() + 1] ==
            Update(b2, cut, slope).coefficients[..slope.Index() + 1]
    ensures b1.coefficients == b2.coefficients ==> Update(b1, cut, slope) == Update(b2, cut, slope)
  {
    var r1, r2 := Update(b1, cut, slope), Update(b2, cut, slope);
    forall i | 0 <= i < StageCount
      ensures r1.bypassed[i] == r2.bypassed[i]
      ensures i <= slope.Index() || b1.coefficients == b2.coefficients ==> r1.coefficients[i] == r2.coefficients[i]
    {
      UpdateEffect(b1, cut, slope, i);
      UpdateEffect(b2, cut, slope, i);
    }
    assert r1.coefficients[..slope.Index() + 1] == r2.coefficients[..slope.Index() + 1];
  }

  /** Applying the same update twice gives the state of applying it once. */
  lemma UpdateIdempotent<C>(b: BankState<C>, cut: seq<C>, slope: Slope)
    requires b.WellShaped() && |cut| > slope.Index()
    ensures Update(Update(b, cut, slope), cut, slope) == Update(b, cut, slope)
  {
    var r := Update(b, cut, slope);
    var rr := Update(r, cut, slope);
    forall i | 0 <= i < StageCount
      ensures rr.bypassed[i] == r.bypassed[i] && rr.coefficients[i] == r.coefficients[i]
    {
      UpdateEffect(b, cut, slope, i);
      UpdateEffect(r, cut, slope, i);
    }
  }

  /** The closed form determines the state: a bank whose flags and contents are those
      `UpdateEffect` describes is the result of the update. */
  lemma UpdateCharacterized<C>(b: BankState<C>, a: BankState<C>, cut: seq<C>, slope: Slope)
    requires b.WellShaped() && a.WellShaped() && |cut| > slope.Index()
    requires forall i | 0 <= i < StageCount :: a.bypassed[i] == (i > slope.Index())
    requires forall i | 0 <= i < StageCount ::
               a.coefficients[i] == if i <= slope.Index() then cut[i] else b.coefficients[i]
    ensures a == Update(b, cut, slope)
  {
    var r := Update(b, cut, slope);
    forall i | 0 <= i < StageCount
      ensures a.coefficients[i] == r.coefficients[i] && a.bypassed[i] == r.bypassed[i]
    {
      UpdateEffect(b, cut, slope, i);
    }
  }

  /** A cut bank object: `ProcessorChain<Filter, Filter, Filter, Filter>`. The two
      arrays are never reseated; each slot of `coefficients` stands for the
      coefficient object the stage's filter points to. */
  class CutBank<C> {
    const coefficients: array<C>
    const bypassed: array<bool>

    ghost predicate Valid() {
      coefficients.Length == StageCount && bypassed.Length == StageCount &&
      coefficients as object != bypassed as object
    }

    ghost function Repr(): set<object> {
      {coefficients, bypassed}
    }

    ghost function State(): (b: BankState<C>)
      reads coefficients, bypassed
      requires Valid()
      ensures b.WellShaped()
    {
      BankState(coefficients[..], bypassed[..])
    }

    /** A fresh chain: every stage holds the filter's initial coefficients and none is bypassed. */
    constructor (init: C)
      ensures Valid() && fresh(coefficients) && fresh(bypassed)
      ensures State() == BankState([init, init, init, init], [false, false, false, false])
    {
      coefficients := new C[StageCount](_ => init);
      bypassed := new bool[StageCount](_ => false);
      new;
      assert coefficients[..] == [init, init, init, init];
      assert bypassed[..] == [false, false, false, false];
    }

    /** `updateCutFilter`: bypass all four stages, then assign stages
        `slope.Index(), .., 0` and un-bypass them, as the fall-through switch does. */
    method UpdateCutFilter(cut: seq<C>, slope: Slope)
      requires Valid() && |cut| > slope.Index()
      modifies coefficients, bypassed
      ensures Valid()
      ensures forall i | 0 <= i < StageCount :: bypassed[i] == (i > slope.Index())
      ensures forall i | 0 <= i < StageCount ::
                coefficients[i] == if i <= slope.Index() then cut[i] else old(coefficients[i])
      ensures State() == Update(old(State()), cut, slope)
    {
      ghost var before := State();
      bypassed[0] := true;
      bypassed[1] := true;
      bypassed[2] := true;
      bypassed[3] := true;

      // The switch enters at the case of `slope` and falls through to case 0.
      var s := slope.Index();
      if s >= 3 {
        coefficients[3] := cut[3];
        bypassed[3] := false;
      }
      if s >= 2 {
        coefficients[2] := cut[2];
        bypassed[2] := false;
      }
      if s >= 1 {
        coefficients[1] := cut[1];
        bypassed[1] := false;
      }
      coefficients[0] := cut[0];
      bypassed[0] := false;

      UpdateCharacterized(before, State(), cut, slope);
    }
  }
}
