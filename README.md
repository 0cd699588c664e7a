# Equalizer configuration state machine, in Dafny

This project models the configuration logic of a JUCE three-band equalizer plugin
(`EqualizerAudioProcessor`). It covers the logic the repository owns around its filter
chains:

- **Cut bank.** A `CutFilter` has four IIR stages. Each stage has a coefficient object
  and a bypass flag. `updateCutFilter` first bypasses all four stages. A fall-through
  `switch` then copies coefficient sets `s, s-1, .., 0` into their stages and
  un-bypasses them.
- **Mono chain.** A `MonoChain` is `[LowCut bank, Peak filter, HighCut bank]`.
  `updateCoefficinets` copies coefficient contents through a pointer.
- **Processor.** The processor owns a left and a right chain.
  - `prepareToPlay` and `processBlock` read the parameter snapshot (`getChainSettings`).
  - They design and copy the peak coefficients into both chains.
  - They request a Butterworth high-pass of order `2 * (slope + 1)`.
  - They push the same coefficient array and slope into both low-cut banks.
  - Before that, `processBlock` zeroes the output channels that have no input.
- **Parameter table.** `EqualizerParameterLayout` declares seven parameters. The two
  slope parameters share four choice labels, `"12 db/Oct"` to `"48 db/Oct"`.

Coefficient sets are an abstract type parameter `C`. Filter design is library code: the
`Designer` datatype supplies it as three plain functions (`makePeakFilter`,
`decibelsToGain`, `designIIRHighpassHighOrderButterworthMethod`). The designer has one
assumed property: an even-order Butterworth design returns `order / 2` sections.
Parameter values are exact reals. The parameter store is a map from parameter id to raw
value.

Modules, one per component: `Slopes` (the `Slope` enum and `ChainSettings`), `Decimal`
(the integer-to-text conversion the labels use), `CutFilter` (the bank's specification
and the `CutBank` class), `Chain` (coefficient objects, chain positions, `MonoChain`),
`Parameters` (the layout and `getChainSettings`), `AudioBuffers` (channel clearing) and
`Equalizer` (the processor class).

### What the model states

- **Contiguous prefix.** After an update for slope `s`, stages `0..s` are active and
  hold `cut[0..s]`. Stages above `s` are bypassed and keep their previous contents.
  - `Update` mirrors the code step by step: bypass all, then the fall-through cascade.
  - `UpdateEffect` and `UpdateClosedForm` prove the closed form from it.
  - The method `CutBank.UpdateCutFilter` is proved against `Update`.
- **Idempotence.** The result does not depend on the prior bypass flags, and applying
  the same update twice gives the state of one application.
- **Left/right equality.** This is an invariant of `EqualizerProcessor.Valid()`: the two
  chains' configurations (every bypass flag and every coefficient content) are always
  equal. It holds because every update reaches both chains with the same inputs.
  Equality of the inactive stages depends on that history.
  `Chain.ConfigureAgreesOnActiveStages` proves the part that holds for any prior state.
- **High cut untouched.** Neither `PrepareToPlay` nor `ProcessBlock` modifies a high-cut
  bank. Their `modifies` clauses leave those banks out, and their postconditions state it.
- **Designed stage count.** The requested order `2 * (slope + 1)` is 2, 4, 6 or 8. It
  yields exactly one section per enabled stage and 6 dB per octave per order.
- **Parameter table.**
  - The seven ids are distinct.
  - Each default lies in its declared range.
  - Label `i` is the decimal text of `12 + 12 * i` followed by `" db/Oct"`. The labels
    are pairwise distinct.
- **Reading a snapshot.** A snapshot within the layout's ranges is always readable by
  `getChainSettings`. Settings survive a store/read round trip. The defaults read back as
  20 Hz, 20000 Hz, 750 Hz, 0 dB, quality 1 and 12 dB/oct.

### Behaviour of the code worth noting

- **High-cut bank.** Only the low-cut bank is ever configured. The high-cut bank keeps
  its default coefficients with all four stages active.
- **Slope encoding.** The slope is an index 0–3 and enables stages `0..index`.
- **No clamping.** Nothing is clamped. `static_cast<Slope>` truncates the raw value
  toward zero. `Slopes.SlopeFromRaw` requires the truncated value to name an enumerator.
- **Two sample rates in `prepareToPlay`.** The peak filter is designed at
  `getSampleRate()`, the processor's stored rate. The low cut is designed at the
  `sampleRate` argument. `PrepareToPlay` keeps the two apart.

## Model

| member | source | states |
|---|---|---|
| `Slopes.Slope.Index` | Source/PluginProcessor.h:17-23 | the four enumerators have the values 0, 1, 2, 3 |
| `Slopes.Slope.DecibelsPerOctave` | Source/PluginProcessor.h:17-23 | slope with index `i` stands for `12 * (i + 1)` dB per octave |
| `Slopes.SlopeFromIndex` | Source/PluginProcessor.cpp:309-310 | casting an index below 4 to `Slope` gives the enumerator with that value |
| `Slopes.SlopeIndexRoundTrip` | Source/PluginProcessor.h:17-23 | enumerators are ordered by value, distinct values mean distinct slopes, and the cast inverts `Index` |
| `Slopes.Truncate` | Source/PluginProcessor.cpp:309-310 | float-to-integer conversion truncates toward zero |
| `Slopes.SlopeFromRaw` | Source/PluginProcessor.cpp:309-310 | a raw slope value in (-1, 4) casts to the enumerator whose value is its truncation |
| `Slopes.DefaultChainSettings` | Source/PluginProcessor.h:25-31 | a default `ChainSettings` has quality 1, both slopes `Slope_12`, all other fields 0 |
| `Decimal.NatToString` | Source/PluginProcessor.cpp:265-266 | `String << int` gives one or more digits with no leading zero |
| `Decimal.DecimalRoundTrip` | Source/PluginProcessor.cpp:265-266 | the decimal text read back gives the number |
| `Decimal.NatToStringInjective` | Source/PluginProcessor.cpp:265-266 | distinct numbers have distinct decimal texts |
| `CutFilter.BypassAll` | Source/PluginProcessor.h:108-111 | all four stages become bypassed; coefficient contents are kept |
| `CutFilter.SetStage` | Source/PluginProcessor.h:115-137 | one `case`: stage `i` receives the contents `c` and is un-bypassed; every other stage is unchanged |
| `CutFilter.FallThrough` | Source/PluginProcessor.h:113-140 | the switch entered at case `k` keeps the bank four stages wide |
| `CutFilter.Update` | Source/PluginProcessor.h:102-142 | the whole update keeps the bank four stages wide; only `cut[0..s]` is read |
| `CutFilter.FallThroughEffect` | Source/PluginProcessor.h:113-140 | the cascade from case `k` assigns and un-bypasses exactly stages `0..k` and nothing else |
| `CutFilter.UpdateEffect` | Source/PluginProcessor.h:108-140 | stage `i` is bypassed iff `i > s`; active stages hold `cut[i]`, bypassed ones keep their previous contents |
| `CutFilter.UpdateClosedForm` | Source/PluginProcessor.h:108-140 | bypass flags form a contiguous prefix of `s + 1` active stages; stages `0..s` equal `cut[0..s]` and the rest are as before |
| `CutFilter.UpdateIgnoresPriorBypass` | Source/PluginProcessor.h:108-111 | the resulting flags and active contents do not depend on the prior state; equal prior contents give equal results |
| `CutFilter.UpdateIdempotent` | Source/PluginProcessor.h:108-140 | applying the same update twice equals applying it once |
| `CutFilter.UpdateCharacterized` | Source/PluginProcessor.h:108-140 | a bank whose flags are `i > s` and whose contents are `cut[0..s]` then the old ones is exactly the result of the update |
| `CutFilter.CutBank.constructor` | Source/PluginProcessor.h:84 | a new bank has four stages holding the initial coefficients, none bypassed |
| `CutFilter.CutBank.UpdateCutFilter` | Source/PluginProcessor.h:102-142 | in place: flags become `i > s`, stages `0..s` hold `cut[i]`, others keep their contents, and the new state is `Update` of the old |
| `Chain.Coefficients.constructor` | Source/PluginProcessor.h:98 | a coefficient object, reached through a `CoefficientsPtr`, holds the given contents |
| `Chain.UpdateCoefficients` | Source/PluginProcessor.cpp:291-294 | the target object receives the replacement's contents; the pointer is not reseated |
| `Chain.ChainPosition.Index` | Source/PluginProcessor.h:90-95 | `LowCut`, `Peak`, `HighCut` are positions 0, 1, 2 |
| `Chain.PositionAt` | Source/PluginProcessor.h:90-95 | each index below 3 names the position with that value |
| `Chain.PositionsAreDistinct` | Source/PluginProcessor.h:90-95 | the three positions are distinct and `PositionAt` inverts `Index` |
| `Chain.Configure` | Source/PluginProcessor.cpp:110-123 | the per-chain update (peak contents set, low cut updated, high cut passed through) keeps the chain's shape |
| `Chain.ConfigureEffect` | Source/PluginProcessor.cpp:110-123 | configuring a chain keeps its high-cut bank, sets the peak contents and leaves a contiguous prefix of designed low-cut stages |
| `Chain.ConfigureIdempotent` | Source/PluginProcessor.cpp:175-191 | configuring twice with the same inputs equals configuring once |
| `Chain.ConfigureAgreesOnActiveStages` | Source/PluginProcessor.cpp:117-123 | two chains given the same inputs agree on the peak, all low-cut flags and all active low-cut contents, whatever their prior state |
| `Chain.MonoChain.constructor` | Source/PluginProcessor.h:86-88 | a chain is low-cut bank, peak filter and high-cut bank, with no shared objects |
| `Parameters.ParameterLayout` | Source/PluginProcessor.cpp:232-277 | the table has seven entries: five float parameters followed by two choice parameters |
| `Parameters.SlopeLabels` | Source/PluginProcessor.cpp:261-269 | there are exactly four slope labels |
| `Parameters.EqualizerParameterLayout` | Source/PluginProcessor.cpp:232-277 | the loop-built layout equals the parameter table `ParameterLayout` |
| `Parameters.LayoutWellFormed` | Source/PluginProcessor.cpp:236-272 | seven parameters with distinct ids, well-formed ranges, each default within its range, and the slope choices defaulting to index 0 |
| `Parameters.SlopeLabelsText` | Source/PluginProcessor.cpp:261-269 | the labels are "12 db/Oct", "24 db/Oct", "36 db/Oct", "48 db/Oct" |
| `Parameters.SlopeLabelOfSlope` | Source/PluginProcessor.cpp:261-269 | label `s.Index()` names the roll-off of slope `s`, and labels of distinct slopes differ |
| `Parameters.GetChainSettings` | Source/PluginProcessor.cpp:296-313 | each settings field is the value of its same-named parameter; each slope is the enumerator of the truncated raw value |
| `Parameters.SettingsSnapshot` | Source/PluginProcessor.cpp:304-310 | a store holding given settings has exactly the seven parameter ids and is readable by `getChainSettings` |
| `Parameters.SnapshotSettingsInRange` | Source/PluginProcessor.cpp:296-313 | every snapshot of the layout is readable, and each settings field lies in its parameter's range |
| `Parameters.SettingsRoundTrip` | Source/PluginProcessor.cpp:296-313 | storing settings under the parameter ids and reading them back gives the same settings |
| `Parameters.SnapshotRoundTrip` | Source/PluginProcessor.cpp:304-310 | reading a snapshot and storing the result back reproduces every parameter's value |
| `Parameters.Defaults` | Source/PluginProcessor.cpp:236-272 | a freshly built store holds a value for every parameter of the layout |
| `Parameters.DefaultsHoldDefault` | Source/PluginProcessor.cpp:236-272 | in a fresh store every parameter of a layout with distinct ids holds its declared default |
| `Parameters.DefaultSettings` | Source/PluginProcessor.cpp:232-313 | a fresh store reads as 750 Hz / 0 dB / Q 1 / 20 Hz / 20000 Hz / 12 dB/oct, unlike a default `ChainSettings` |
| `AudioBuffers.Clear` | Source/PluginProcessor.cpp:173 | the given range of one channel becomes zero; every other sample is unchanged |
| `AudioBuffers.ClearUnusedOutputChannels` | Source/PluginProcessor.cpp:172-173 | channels `in..out-1` are zeroed over all samples, all others unchanged; nothing changes when `in >= out` |
| `Equalizer.ButterworthOrder` | Source/PluginProcessor.cpp:114-116 | the requested order is even and positive, has one section per enabled stage, and gives 6 dB/oct per order |
| `Equalizer.PeakIgnoresCutSettings` | Source/PluginProcessor.cpp:281-284 | the peak contents depend only on the peak frequency, the quality and the gain after `decibelsToGain`: the cut-bank frequencies and slopes never reach the peak stage |
| `Equalizer.LowCutCoefficients` | Source/PluginProcessor.cpp:180-182 | the designed array has exactly `slope + 1` sections |
| `Equalizer.Reconfigure` | Source/PluginProcessor.cpp:175-191 | a configured chain keeps its shape |
| `Equalizer.ReconfigureEffect` | Source/PluginProcessor.cpp:175-191 | after an update: high-cut untouched, peak designed, low cut runs exactly `order / 2` stages holding the designed sections |
| `Equalizer.ReconfigureIdempotent` | Source/PluginProcessor.cpp:175-191 | two blocks with unchanged parameters leave the configuration of one |
| `Equalizer.EqualizerProcessor.constructor` | Source/PluginProcessor.h:88 | both chains start identical, with initial coefficients and nothing bypassed |
| `Equalizer.EqualizerProcessor.UpdatePeakFilter` | Source/PluginProcessor.cpp:279-289 | both peak stages receive the same designed contents; nothing else changes |
| `Equalizer.EqualizerProcessor.PrepareToPlay` | Source/PluginProcessor.cpp:94-126 | both chains are reconfigured identically (cut at the argument rate, peak at `getSampleRate()`); high cut unchanged |
| `Equalizer.EqualizerProcessor.ProcessBlock` | Source/PluginProcessor.cpp:160-191 | unused outputs are zeroed, other samples kept, both chains reconfigured identically at `getSampleRate()`; high cut unchanged |

## Left out

- Filter design and coefficient numerics are not modelled. These are
  `designIIRHighpassHighOrderButterworthMethod`, `makePeakFilter` and `decibelsToGain`:
  floating-point library code that is not part of this model. They are parameters
  (`Designer`).
- Sample processing is not modelled: `leftChain.process` / `rightChain.process`,
  `AudioBlock`, `ProcessContextReplacing` and `ScopedNoDenormals`. This is library DSP on
  floats. So the filter delay state is not modelled either.
- The chains' `prepare` calls have no counterpart. They only reset the filters' DSP
  state; the `ProcessSpec` (`samplesPerBlock`, one channel) has no counterpart.
- Equalizer.EqualizerProcessor.ProcessBlock: describes the buffer only up to the point
  where it is handed to the chains. The chains then overwrite channels 0 and 1 with
  filtered audio, which is not modelled.
- Host lifecycle and boilerplate are not modelled: name, MIDI flags, tail length,
  programs, editor creation, and `isBusesLayoutSupported`. They depend on compile-time
  macros and the host.
- The channel counts and the stored sample rate are inputs. The channel counts come from
  the host's bus layout. The stored rate is the field `sampleRate`, which the host sets.
- `getStateInformation` / `setStateInformation` have empty bodies, so there is nothing to
  model.
- `releaseResources` has an empty body, so there is nothing to model.
- The parameter store (`AudioProcessorValueTreeState`) and its atomic `load()` reads are
  not modelled. A snapshot is a plain map, because thread safety is outside this model.
- The step and skew of each `NormalisableRange` are recorded, but the
  mapping between normalised and real values is not modelled. It lives in library code.
- `updateLowCutFilters`, `updateHighCutFilters` and `updateAllFilters` are declared but
  never defined, so there is nothing to model.
- Float literals such as `0.1f` are taken as exact reals.
