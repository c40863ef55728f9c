/**
 * The lifecycle of the audio engine: `init` creates the sequencer and the
 * mixer, binds the audio buffer to the mixer's mixed output and starts the
 * registered synthesizers on their own mixer channels; `deinit` undoes it.
 *
 * The engine's collaborators are modelled by the state the engine sets on
 * them: the buffer keeps the source it reads from and its minimum sample lag,
 * the mixer its channels, sample rate and clock, a synthesizer its sample
 * rate. The `initChanged` notification channel is a ghost log of the values
 * sent on it.
 */
module Audio {

  /** `unsigned int` is 32 bits wide; storing an `int` in it wraps modulo 2^32. */
  const U32Modulus: int := 0x1_0000_0000

  /** The conversion of a signed `int` argument to the `unsigned int` member. */
  function ToUnsigned(x: int): (r: nat)
    ensures r < U32Modulus
    ensures 0 <= x < U32Modulus ==> r == x
    ensures -U32Modulus <= x < 0 ==> r == x + U32Modulus
  {
    x % U32Modulus
  }

  /** `uint16_t`, the type of `readBufferSize`. */
  type uint16 = x: int | 0 <= x < 0x1_0000

  /** The codes of `mu::Ret` that `init` returns. */
  datatype Ret = Ok | InternalError

  class Synthesizer {
    var sampleRate: nat

    constructor (sampleRate: nat)
      ensures this.sampleRate == sampleRate
    {
      this.sampleRate := sampleRate;
    }

    method SetSampleRate(rate: nat)
      modifies this
      ensures sampleRate == rate
    {
      sampleRate := rate;
    }
  }

  /** What a mixer channel plays: a synthesizer, or the source of a sequencer track. */
  datatype AudioSource =
    | SynthesizerSource(synth: Synthesizer)
    | TrackSource(track: int)

  /** The sequencer; only its identity (and so its clock's) matters here. */
  class Sequencer {
    constructor ()
    {
    }
  }

  class Mixer {
    var channels: seq<AudioSource>
    var sampleRate: nat
    /** The sequencer whose clock drives the mixer, once one is set. */
    var clock: Sequencer?

    constructor ()
      ensures channels == [] && sampleRate == 0 && clock == null
    {
      channels := [];
      sampleRate := 0;
      clock := null;
    }

    method SetClock(sequencer: Sequencer)
      modifies this
      ensures clock == sequencer && channels == old(channels) && sampleRate == old(sampleRate)
    {
      clock := sequencer;
    }

    method SetSampleRate(rate: nat)
      modifies this
      ensures sampleRate == rate && channels == old(channels) && clock == old(clock)
    {
      sampleRate := rate;
    }

    /** Adds one channel playing `source`; its id is its position. */
    method AddChannel(source: AudioSource) returns (id: nat)
      modifies this
      ensures channels == old(channels) + [source] && id == |old(channels)|
      ensures sampleRate == old(sampleRate) && clock == old(clock)
    {
      id := |channels|;
      channels := channels + [source];
    }
  }

  class AudioBuffer {
    /** The mixer whose mixed output the buffer reads; null for none. */
    var source: Mixer?
    var minSampleLag: nat

    constructor ()
      ensures source == null && minSampleLag == 0
    {
      source := null;
      minSampleLag := 0;
    }

    method SetSource(mixer: Mixer?)
      modifies this
      ensures source == mixer && minSampleLag == old(minSampleLag)
    {
      source := mixer;
    }

    method SetMinSampleLag(lag: nat)
      modifies this
      ensures minSampleLag == lag && source == old(source)
    {
      minSampleLag := lag;
    }
  }

  /** The mixer channels `init` opens for `synths`, in order. */
  function SynthesizerChannels(synths: seq<Synthesizer>): (cs: seq<AudioSource>)
    ensures |cs| == |synths|
    ensures forall i :: 0 <= i < |synths| ==> cs[i] == SynthesizerSource(synths[i])
  {
    if synths == [] then []
    else SynthesizerChannels(synths[..|synths| - 1]) + [SynthesizerSource(synths[|synths| - 1])]
  }

  lemma SynthesizerChannelsSnoc(channels: seq<AudioSource>, synths: seq<Synthesizer>, synth: Synthesizer)
    ensures channels + SynthesizerChannels(synths + [synth])
            == (channels + SynthesizerChannels(synths)) + [SynthesizerSource(synth)]
  {
    assert (synths + [synth])[..|synths|] == synths;
  }

  /** After `n` transitions from the initial state the engine is inited exactly when `n` is odd. */
  function Odd(n: nat): bool
  {
    if n == 0 then false else !Odd(n - 1)
  }

  lemma {:induction false} OddParity(n: nat)
    ensures Odd(n) == (n % 2 == 1)
  {
    if n > 0 {
      OddParity(n - 1);
    }
  }

  /**
   * The values sent on `initChanged` after `n` transitions: one per
   * transition, the state it entered.
   */
  function Toggles(n: nat): (log: seq<bool>)
    ensures |log| == n
  {
    if n == 0 then [] else Toggles(n - 1) + [Odd(n)]
  }

  /** The values sent alternate, starting with `true`. */
  lemma {:induction false} TogglesAlternate(n: nat)
    ensures forall i :: 0 <= i < n ==> Toggles(n)[i] == (i % 2 == 0)
  {
    if n > 0 {
      TogglesAlternate(n - 1);
      OddParity(n);
      assert forall i :: 0 <= i < n - 1 ==> Toggles(n)[i] == Toggles(n - 1)[i];
    }
  }

  /** A transition out of state `inited` sends `!inited`, and the log stays the toggles of its length. */
  lemma NotifyTransition(log: seq<bool>, inited: bool)
    requires log == Toggles(|log|) && inited == Odd(|log|)
    ensures log + [!inited] == Toggles(|log| + 1)
    ensures !inited == Odd(|log| + 1)
  {
  }

  class AudioEngine {
    var inited: bool
    var sampleRate: nat
    var buffer: AudioBuffer?
    var mixer: Mixer?
    var sequencer: Sequencer?
    ghost var initChanged: seq<bool>

    /**
     * The engine is inited exactly when it holds a mixer and a sequencer; the
     * mixer runs on the sequencer's clock; the current buffer reads the
     * mixer's output; and every transition has been notified once.
     */
    ghost predicate Valid()
      reads this, mixer, buffer
    {
      Wired() && Notified()
    }

    ghost predicate Wired()
      reads this, mixer, buffer
    {
      && (inited <==> mixer != null)
      && (inited <==> sequencer != null)
      && (mixer != null ==> mixer.clock == sequencer)
      && (mixer != null && buffer != null ==> buffer.source == mixer)
    }

    ghost predicate Notified()
      reads this
    {
      initChanged == Toggles(|initChanged|) && inited == Odd(|initChanged|)
    }

    constructor ()
      ensures Valid() && !inited && buffer == null && initChanged == []
    {
      inited := false;
      sampleRate := 0;
      buffer := null;
      mixer := null;
      sequencer := null;
      initChanged := [];
    }

    /** `isInited()`: the engine owns a mixer and a sequencer exactly when it is inited, after an odd number of transitions. */
    function IsInited(): (r: bool)
      reads this, mixer, buffer
      ensures Valid() ==> (r <==> mixer != null && sequencer != null)
      ensures Valid() ==> (r <==> Odd(|initChanged|))
    {
      inited
    }

    function SampleRate(): nat
      reads this
    {
      sampleRate
    }

    /**
     * `init(sampleRate, readBufferSize)`, with the synthesizers registered at
     * that moment given as `synths`.
     */
    method Init(rate: int, readBufferSize: uint16, synths: seq<Synthesizer>) returns (r: Ret)
      requires Valid()
      modifies this, buffer, synths
      ensures Valid()
      ensures old(inited) ==> r == Ok && unchanged(this) && (buffer != null ==> unchanged(buffer)) && unchanged(synths)
      ensures !old(inited) && old(buffer) == null ==>
                r == InternalError && unchanged(this) && unchanged(synths)
      ensures !old(inited) && old(buffer) != null ==>
                && r == Ok && IsInited()
                && fresh(mixer) && fresh(sequencer) && buffer == old(buffer)
                && buffer.source == mixer && buffer.minSampleLag == readBufferSize
                && SampleRate() == ToUnsigned(rate) && mixer.sampleRate == SampleRate()
                && mixer.channels == SynthesizerChannels(synths)
                && (forall s :: s in synths ==> s.sampleRate == SampleRate())
                && initChanged == old(initChanged) + [true]
    {
      if IsInited() {
        return Ok;
      }
      if buffer == null {
        return InternalError;
      }
      InitInstance(rate, readBufferSize, synths);
      return Ok;
    }

    /** The part of `init` past its two guards. */
    method InitInstance(rate: int, readBufferSize: uint16, synths: seq<Synthesizer>)
      requires Valid() && !inited && buffer != null
      modifies this, buffer, synths
      ensures Valid()
      ensures && IsInited()
              && fresh(mixer) && fresh(sequencer) && buffer == old(buffer)
              && buffer.source == mixer && buffer.minSampleLag == readBufferSize
              && SampleRate() == ToUnsigned(rate) && mixer.sampleRate == SampleRate()
              && mixer.channels == SynthesizerChannels(synths)
              && (forall s :: s in synths ==> s.sampleRate == SampleRate())
              && initChanged == old(initChanged) + [true]
    {
      var s := new Sequencer();
      var m := new Mixer();
      sequencer := s;
      mixer := m;
      m.SetClock(s);
      buffer.SetSource(m);
      sampleRate := ToUnsigned(rate);
      m.SetSampleRate(ToUnsigned(rate));
      buffer.SetMinSampleLag(readBufferSize);
      StartSynthesizers(synths);
      assert m.channels == [] + SynthesizerChannels(synths);

      NotifyTransition(initChanged, inited);
      inited := true;
      initChanged := initChanged + [inited];
    }

    /** The loop of `init` that starts every registered synthesizer. */
    method StartSynthesizers(synths: seq<Synthesizer>)
      requires mixer != null
      modifies mixer, synths
      ensures mixer.channels == old(mixer.channels) + SynthesizerChannels(synths)
      ensures forall s :: s in synths ==> s.sampleRate == SampleRate()
      ensures mixer.sampleRate == old(mixer.sampleRate) && mixer.clock == old(mixer.clock)
    {
      for i := 0 to |synths|
        invariant mixer.channels == old(mixer.channels) + SynthesizerChannels(synths[..i])
        invariant forall j :: 0 <= j < i ==> synths[j].sampleRate == SampleRate()
        invariant mixer.sampleRate == old(mixer.sampleRate) && mixer.clock == old(mixer.clock)
      {
        var _ := StartSynthesizer(synths[i]);
        SynthesizerChannelsSnoc(old(mixer.channels), synths[..i], synths[i]);
        assert synths[..i + 1] == synths[..i] + [synths[i]];
      }
      assert synths[..|synths|] == synths;
    }

    /** `deinit()`: detaches the buffer and drops the mixer and the sequencer. */
    method Deinit()
      requires Valid()
      requires inited ==> buffer != null
      modifies this, buffer
      ensures Valid()
      ensures !old(inited) ==> unchanged(this) && (buffer != null ==> unchanged(buffer))
      ensures old(inited) ==>
                && !IsInited() && mixer == null && sequencer == null
                && buffer == old(buffer) && buffer.source == null
                && buffer.minSampleLag == old(buffer.minSampleLag)
                && initChanged == old(initChanged) + [false]
      ensures SampleRate() == old(SampleRate())
    {
      if IsInited() {
        buffer.SetSource(null);
        mixer := null;
        sequencer := null;
        NotifyTransition(initChanged, inited);
        inited := false;
        initChanged := initChanged + [inited];
      }
    }

    /** `startSynthesizer(synth)`: the synthesizer runs at the engine's rate on a new channel. */
    method StartSynthesizer(synth: Synthesizer) returns (id: nat)
      requires mixer != null
      modifies synth, mixer
      ensures synth.sampleRate == SampleRate()
      ensures mixer.channels == old(mixer.channels) + [SynthesizerSource(synth)]
      ensures id == |old(mixer.channels)|
      ensures mixer.sampleRate == old(mixer.sampleRate) && mixer.clock == old(mixer.clock)
    {
      synth.SetSampleRate(SampleRate());
      id := mixer.AddChannel(SynthesizerSource(synth));
    }

    /** The handler `init` subscribes to the sequencer's track-added channel. */
    method OnAudioTrackAdded(track: int)
      requires mixer != null
      modifies mixer
      ensures mixer.channels == old(mixer.channels) + [TrackSource(track)]
      ensures mixer.sampleRate == old(mixer.sampleRate) && mixer.clock == old(mixer.clock)
    {
      var _ := mixer.AddChannel(TrackSource(track));
    }

    /** `setAudioBuffer(buffer)`: the new buffer reads the mixer's output if there is a mixer. */
    method SetAudioBuffer(b: AudioBuffer?)
      requires Valid()
      modifies this, b
      ensures Valid()
      ensures buffer == b
      ensures inited == old(inited) && sampleRate == old(sampleRate) && mixer == old(mixer)
      ensures sequencer == old(sequencer) && initChanged == old(initChanged)
      ensures b != null && mixer != null ==> b.source == mixer && b.minSampleLag == old(b.minSampleLag)
      ensures b != null && mixer == null ==> unchanged(b)
    {
      buffer := b;
      if buffer != null && mixer != null {
        buffer.SetSource(mixer);
      }
    }
  }
}
