/**
 * The part of `processBlock` that touches samples directly: clearing the
 * output channels that received no input. A buffer is a channels-by-samples
 * array of sample values.
 */
module AudioBuffers {

  /** `AudioBuffer::clear(channel, startSample, numSamples)`: zero that range of one
      channel and leave every other sample as it was. */
  method Clear(buffer: array2<real>, channel: nat, startSample: nat, numSamples: nat)
    requires channel < buffer.Length0 && startSample + numSamples <= buffer.Length1
    modifies buffer
    ensures forall c, j | 0 <= c < buffer.Length0 && 0 <= j < buffer.Length1 ::
              buffer[c, j] == if c == channel && startSample <= j < startSample + numSamples
                              then 0.0 else old(buffer[c, j])
  {
    var j := startSample;
    while j < startSample + numSamples
      invariant startSample <= j <= startSample + numSamples
      invariant forall c, k | 0 <= c < buffer.Length0 && 0 <= k < buffer.Length1 ::
                  buffer[c, k] == if c == channel && startSample <= k < j then 0.0 else old(buffer[c, k])
    {
      buffer[channel, j] := 0.0;
      j := j + 1;
    }
  }

  /** The loop over channels `totalNumInputChannels .. totalNumOutputChannels - 1`:
      each of them is zeroed over all samples; every other channel is unchanged,
      and nothing changes when there are at least as many inputs as outputs. */
  method ClearUnusedOutputChannels(buffer: array2<real>, totalNumInputChannels: nat, totalNumOutputChannels: nat)
    requires totalNumInputChannels < totalNumOutputChannels ==> totalNumOutputChannels <= buffer.Length0
    modifies buffer
    ensures forall c, j | 0 <= c < buffer.Length0 && 0 <= j < buffer.Length1 ::
              buffer[c, j] == if totalNumInputChannels <= c < totalNumOutputChannels
                              then 0.0 else old(buffer[c, j])
  {
    var i := totalNumInputChannels;
    while i < totalNumOutputChannels
      invariant totalNumInputChannels <= i
      invariant i == totalNumInputChannels || i <= totalNumOutputChannels
      invariant forall c, j | 0 <= c < buffer.Length0 && 0 <= j < buffer.Length1 ::
                  buffer[c, j] == if totalNumInputChannels <= c < i then 0.0 else old(buffer[c, j])
    {
      Clear(buffer, i, 0, buffer.Length1);
      i := i + 1;
    }
  }
}
