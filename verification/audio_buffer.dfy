/** The Web Audio `AudioBuffer` the codec consumes and produces: a sample
    rate and one sequence of normalized samples per channel. */
module AudioBuffers {

  datatype AudioBuffer = AudioBuffer(sampleRate: nat, channels: seq<seq<real>>) {

    function NumberOfChannels(): nat
    {
      |channels|
    }

    /** What an `AudioBuffer` guarantees: at least one channel, and all
        channels of one length. */
    predicate Valid()
    {
      && |channels| >= 1
      && forall c | 0 <= c < |channels| :: |channels[c]| == |channels[0]|
    }

    /** The number of sample frames. */
    function Length(): nat
      requires Valid()
    {
      |channels[0]|
    }

    function GetChannelData(c: nat): (data: seq<real>)
      requires Valid() && c < NumberOfChannels()
      ensures |data| == Length()
    {
      channels[c]
    }
  }
}
