/**
 * The equalizer's parameter table (`EqualizerParameterLayout`) and the mapping
 * of a parameter snapshot into `ChainSettings` (`getChainSettings`).
 *
 * The parameter store itself is not modelled: a snapshot is a map from
 * parameter id to its current raw value.
 */
module Parameters {
  import opened Slopes
  import opened Decimal

  /** `NormalisableRange(start, end, interval, skew)`. */
  datatype Range = Range(start: real, end: real, interval: real, skew: real)

  /** An entry of the layout: `AudioParameterFloat` or `AudioParameterChoice`. */
  datatype Parameter =
    | FloatParameter(id: string, name: string, range: Range, defaultValue: real)
    | ChoiceParameter(id: string, name: string, choices: seq<string>, defaultIndex: nat)

  const LowCutFreqId: string := "LowCut Freq"
  const HighCutFreqId: string := "HighCut Freq"
  const PeakFreqId: string := "Peak Freq"
  const PeakGainId: string := "Peak Gain"
  const PeakQualityId: string := "Peak Quality"
  const LowCutSlopeId: string := "LowCut Slope"
  const HighCutSlopeId: string := "HighCut Slope"

  /** The text of choice `i` of a slope parameter: `12 + i * 12` followed by " db/Oct". */
  function SlopeLabel(i: nat): string {
    NatToString(12 + i * 12) + " db/Oct"
  }

  /** The four choices of a slope parameter, in order. */
  function SlopeLabels(): (labels: seq<string>)
    ensures |labels| == 4
  {
    seq(4, i requires 0 <= i < 4 => SlopeLabel(i))
  }

  /** The table of the seven parameters, in the order they are added. */
  function ParameterLayout(): (layout: seq<Parameter>)
    ensures |layout| == 7
    ensures forall i | 0 <= i < 5 :: layout[i].FloatParameter?
    ensures layout[5].ChoiceParameter? && layout[6].ChoiceParameter?
  {
    [ FloatParameter(LowCutFreqId, LowCutFreqId, Range(20.0, 20000.0, 1.0, 0.25), 20.0),
      FloatParameter(HighCutFreqId, HighCutFreqId, Range(20.0, 20000.0, 1.0, 0.25), 20000.0),
      FloatParameter(PeakFreqId, PeakFreqId, Range(20.0, 20000.0, 1.0, 0.25), 750.0),
      FloatParameter(PeakGainId, PeakGainId, Range(-24.0, 24.0, 1.0, 1.0), 0.0),
      FloatParameter(PeakQualityId, PeakQualityId, Range(0.1, 10.0, 0.05, 1.0), 1.0),
      ChoiceParameter(LowCutSlopeId, LowCutSlopeId, SlopeLabels(), 0),
      ChoiceParameter(HighCutSlopeId, HighCutSlopeId, SlopeLabels(), 0) ]
  }

  /** `EqualizerParameterLayout`: adds the five float parameters, builds the slope
      labels in a loop and adds the two choice parameters. */
  method EqualizerParameterLayout() returns (layout: seq<Parameter>)
    ensures layout == ParameterLayout()
  {
    layout := [];
    layout := layout + [FloatParameter(LowCutFreqId, LowCutFreqId, Range(20.0, 20000.0, 1.0, 0.25), 20.0)];
    layout := layout + [FloatParameter(HighCutFreqId, HighCutFreqId, Range(20.0, 20000.0, 1.0, 0.25), 20000.0)];
    layout := layout + [FloatParameter(PeakFreqId, PeakFreqId, Range(20.0, 20000.0, 1.0, 0.25), 750.0)];
    layout := layout + [FloatParameter(PeakGainId, PeakGainId, Range(-24.0, 24.0, 1.0, 1.0), 0.0)];
    layout := layout + [FloatParameter(PeakQualityId, PeakQualityId, Range(0.1, 10.0, 0.05, 1.0), 1.0)];

    var stringArray: seq<string> := [];
    for i := 0 to 4
      invariant stringArray == SlopeLabels()[..i]
    {
      var str := NatToString(12 + i * 12);
      str := str + " db/Oct";
      stringArray := stringArray + [str];
    }
    assert stringArray == SlopeLabels();

    layout := layout + [ChoiceParameter(LowCutSlopeId, LowCutSlopeId, stringArray, 0)];
    layout := layout + [ChoiceParameter(HighCutSlopeId, HighCutSlopeId, stringArray, 0)];
  }

  /** A raw value the store can hold for `p`: within the float range, or a choice index. */
  predicate WithinRange(p: Parameter, v: real) {
    match p
    case FloatParameter(_, _, range, _) => range.start <= v <= range.end
    case ChoiceParameter(_, _, choices, _) => 0.0 <= v <= (|choices| - 1) as real && v.Floor as real == v
  }

  /** The raw value of `p` before anything is changed. */
  function DefaultValue(p: Parameter): real {
    match p
    case FloatParameter(_, _, _, d) => d
    case ChoiceParameter(_, _, _, d) => d as real
  }

  /** A snapshot of a store built from `layout`: every parameter has a value in its range. */
  predicate IsSnapshot(layout: seq<Parameter>, params: map<string, real>) {
    forall i | 0 <= i < |layout| :: layout[i].id in params && WithinRange(layout[i], params[layout[i].id])
  }

  /** The snapshot of a freshly built store: every parameter at its default. */
  function Defaults(layout: seq<Parameter>): (store: map<string, real>)
    ensures forall i | 0 <= i < |layout| :: layout[i].id in store
  {
    if layout == [] then map[]
    else Defaults(layout[1..])[layout[0].id := DefaultValue(layout[0])]
  }

  /** What `getChainSettings` reads: the seven ids are present, and each slope value
      truncates to one of the four `Slope` enumerators. */
  predicate Readable(params: map<string, real>) {
    LowCutFreqId in params && HighCutFreqId in params && PeakFreqId in params &&
    PeakGainId in params && PeakQualityId in params &&
    LowCutSlopeId in params && HighCutSlopeId in params &&
    -1.0 < params[LowCutSlopeId] < 4.0 && -1.0 < params[HighCutSlopeId] < 4.0
  }

  /** `getChainSettings`: a default `ChainSettings` whose every field is then set from
      the parameter of the same name, the slopes through a cast to `Slope`. */
  function GetChainSettings(params: map<string, real>): (cs: ChainSettings)
    requires Readable(params)
    ensures cs.lowCutFreq == params[LowCutFreqId] && cs.highCutFreq == params[HighCutFreqId]
    ensures cs.peakFreq == params[PeakFreqId] && cs.peakGainInDecibels == params[PeakGainId]
    ensures cs.peakQuality == params[PeakQualityId]
    ensures cs.lowCutSlope.Index() == Truncate(params[LowCutSlopeId])
    ensures cs.highCutSlope.Index() == Truncate(params[HighCutSlopeId])
  {
    DefaultChainSettings().(
      lowCutFreq := params[LowCutFreqId],
      highCutFreq := params[HighCutFreqId],
      peakFreq := params[PeakFreqId],
      peakGainInDecibels := params[PeakGainId],
      peakQuality := params[PeakQualityId],
      lowCutSlope := SlopeFromRaw(params[LowCutSlopeId]),
      highCutSlope := SlopeFromRaw(params[HighCutSlopeId]))
  }

  /** The snapshot that holds `cs`: each field under its parameter's id, slopes as indices. */
  function SettingsSnapshot(cs: ChainSettings): (store: map<string, real>)
    ensures Readable(store)
    ensures store.Keys == {LowCutFreqId, HighCutFreqId, PeakFreqId, PeakGainId, PeakQualityId,
                           LowCutSlopeId, HighCutSlopeId}
  {
    map[LowCutFreqId := cs.lowCutFreq, HighCutFreqId := cs.highCutFreq,
        PeakFreqId := cs.peakFreq, PeakGainId := cs.peakGainInDecibels,
        PeakQualityId := cs.peakQuality,
        LowCutSlopeId := cs.lowCutSlope.Index() as real,
        HighCutSlopeId := cs.highCutSlope.Index() as real]
  }

  /** The layout has seven parameters with distinct ids, each named by its id, with a
      well-formed range or four slope choices, and a default inside its range. */
  lemma LayoutWellFormed()
    ensures |ParameterLayout()| == 7
    ensures forall i, j | 0 <= i < j < 7 :: ParameterLayout()[i].id != ParameterLayout()[j].id
    ensures forall i | 0 <= i < 7 :: ParameterLayout()[i].name == ParameterLayout()[i].id
    ensures forall i | 0 <= i < 7 :: WithinRange(ParameterLayout()[i], DefaultValue(ParameterLayout()[i]))
    ensures forall i | 0 <= i < 7 :: ParameterLayout()[i].FloatParameter? ==>
              ParameterLayout()[i].range.start < ParameterLayout()[i].range.end &&
              ParameterLayout()[i].range.interval > 0.0 && ParameterLayout()[i].range.skew > 0.0
    ensures forall i | 0 <= i < 7 :: ParameterLayout()[i].ChoiceParameter? ==>
              i >= 5 && ParameterLayout()[i].choices == SlopeLabels() && ParameterLayout()[i].defaultIndex == 0
  {
  }

  /** The four labels are "12 db/Oct", "24 db/Oct", "36 db/Oct" and "48 db/Oct". */
  lemma SlopeLabelsText()
    ensures SlopeLabels() == ["12 db/Oct", "24 db/Oct", "36 db/Oct", "48 db/Oct"]
  {
    assert NatToString(12) == "12";
    assert NatToString(24) == "24";
    assert NatToString(36) == "36";
    assert NatToString(48) == "48";
    assert SlopeLabel(0) == "12 db/Oct" && SlopeLabel(1) == "24 db/Oct";
    assert SlopeLabel(2) == "36 db/Oct" && SlopeLabel(3) == "48 db/Oct";
  }

  /** Choice `s.Index()` of a slope parameter names the roll-off of `s`, and no two
      choices have the same text. */
  lemma SlopeLabelOfSlope(s: Slope, t: Slope)
    ensures SlopeLabels()[s.Index()] == NatToString(s.DecibelsPerOctave()) + " db/Oct"
    ensures SlopeLabels()[s.Index()] == SlopeLabels()[t.Index()] <==> s == t
  {
    var a, b := NatToString(s.DecibelsPerOctave()), NatToString(t.DecibelsPerOctave());
    var suffix := " db/Oct";
    if a + suffix == b + suffix {
      assert a == (a + suffix)[..|a + suffix| - |suffix|];
      assert b == (b + suffix)[..|b + suffix| - |suffix|];
      NatToStringInjective(s.DecibelsPerOctave(), t.DecibelsPerOctave());
    }
  }

  /** Every snapshot of the layout can be read by `getChainSettings`, and the
      settings it yields lie in the declared ranges. */
  lemma SnapshotSettingsInRange(params: map<string, real>)
    requires IsSnapshot(ParameterLayout(), params)
    ensures Readable(params)
    ensures 20.0 <= GetChainSettings(params).lowCutFreq <= 20000.0
    ensures 20.0 <= GetChainSettings(params).highCutFreq <= 20000.0
    ensures 20.0 <= GetChainSettings(params).peakFreq <= 20000.0
    ensures -24.0 <= GetChainSettings(params).peakGainInDecibels <= 24.0
    ensures 0.1 <= GetChainSettings(params).peakQuality <= 10.0
    ensures GetChainSettings(params).lowCutSlope.Index() as real == params[LowCutSlopeId]
    ensures GetChainSettings(params).highCutSlope.Index() as real == params[HighCutSlopeId]
  {
    var layout := ParameterLayout();
    assert layout[0].id in params && WithinRange(layout[0], params[layout[0].id]);
    assert layout[1].id in params && WithinRange(layout[1], params[layout[1].id]);
    assert layout[2].id in params && WithinRange(layout[2], params[layout[2].id]);
    assert layout[3].id in params && WithinRange(layout[3], params[layout[3].id]);
    assert layout[4].id in params && WithinRange(layout[4], params[layout[4].id]);
    assert layout[5].id in params && WithinRange(layout[5], params[layout[5].id]);
    assert layout[6].id in params && WithinRange(layout[6], params[layout[6].id]);
  }

  /** Storing settings and reading them back gives the same settings. */
  lemma SettingsRoundTrip(cs: ChainSettings)
    ensures Readable(SettingsSnapshot(cs))
    ensures GetChainSettings(SettingsSnapshot(cs)) == cs
  {
    var p := SettingsSnapshot(cs);
    assert p[LowCutSlopeId] == cs.lowCutSlope.Index() as real;
    assert p[HighCutSlopeId] == cs.highCutSlope.Index() as real;
    SlopeIndexRoundTrip(cs.lowCutSlope, cs.lowCutSlope);
    SlopeIndexRoundTrip(cs.highCutSlope, cs.highCutSlope);
  }

  /** Reading a snapshot of the layout loses nothing: storing the settings read
      gives back the value of every parameter. */
  lemma SnapshotRoundTrip(params: map<string, real>)
    requires IsSnapshot(ParameterLayout(), params)
    ensures Readable(params)
    ensures forall i | 0 <= i < |ParameterLayout()| ::
              SettingsSnapshot(GetChainSettings(params))[ParameterLayout()[i].id] == params[ParameterLayout()[i].id]
  {
    SnapshotSettingsInRange(params);
  }

  /** In a fresh store built from a layout with distinct ids, every parameter of the
      layout holds its default. */
  lemma {:induction false} DefaultsHoldDefault(layout: seq<Parameter>, i: nat)
    requires i < |layout|
    requires forall j, k | 0 <= j < k < |layout| :: layout[j].id != layout[k].id
    ensures layout[i].id in Defaults(layout)
    ensures Defaults(layout)[layout[i].id] == DefaultValue(layout[i])
  {
    if i > 0 {
      DefaultsHoldDefault(layout[1..], i - 1);
      assert layout[1..][i - 1] == layout[i];
    }
  }

  /** A store fresh from the layout is a snapshot of it, and its settings are the
      layout's defaults: cut-offs 20 Hz and 20000 Hz, peak at 750 Hz, 0 dB, quality 1,
      both slopes 12 dB/oct. These differ from a default-constructed `ChainSettings`. */
  lemma DefaultSettings()
    ensures IsSnapshot(ParameterLayout(), Defaults(ParameterLayout()))
    ensures GetChainSettings(Defaults(ParameterLayout())) ==
            ChainSettings(750.0, 0.0, 1.0, 20.0, 20000.0, Slope12, Slope12)
    ensures GetChainSettings(Defaults(ParameterLayout())) != DefaultChainSettings()
  {
    var layout := ParameterLayout();
    var d := Defaults(layout);
    LayoutWellFormed();
    forall i | 0 <= i < |layout|
      ensures layout[i].id in d && d[layout[i].id] == DefaultValue(layout[i])
    {
      DefaultsHoldDefault(layout, i);
    }
    assert d[layout[0].id] == 20.0 && d[layout[1].id] == 20000.0 && d[layout[2].id] == 750.0;
    assert d[layout[3].id] == 0.0 && d[layout[4].id] == 1.0;
    assert d[layout[5].id] == 0.0 && d[layout[6].id] == 0.0;
  }
}
