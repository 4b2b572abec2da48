/**
 * Sample providers of the audio engine (MusicSynth/AudioPlaybackEngine.cs):
 * the provider that replays a cached sound through a cursor, the file
 * reader that disposes itself at the end of its file, and the rule that
 * fits an input's channel count to the mixer's. Samples are `real`s; the
 * NAudio devices, mixer and decoders are not part of this model.
 */
module Audio {
  import opened Wrappers

  /** The exceptions `Array.Copy` raises before it copies anything. */
  datatype CopyError = NegativeLength | NegativeIndex | DestinationTooShort

  /** `Math.Min(availableSamples, count)`: how many samples one `Read` copies. */
  function SamplesToCopy(available: int, count: int): (n: int)
    ensures n <= available && n <= count
    ensures n == available || n == count
  {
    if available <= count then available else count
  }

  /**
   * The checks `Array.Copy` makes on the destination side, in its order,
   * for `n` samples written at `offset` into a buffer of `length` cells.
   */
  function CopyCheck(n: int, offset: int, length: int): (e: Option<CopyError>)
    ensures e.None? <==> 0 <= n && 0 <= offset && offset + n <= length
    ensures e == Some(NegativeLength) <==> n < 0
  {
    if n < 0 then Some(NegativeLength)
    else if offset < 0 then Some(NegativeIndex)
    else if offset > length - n then Some(DestinationTooShort)
    else None
  }

  /** A request for a non-negative count into a buffer with room for it copies exactly that many, or what is left. */
  lemma ReadFits(available: int, count: int, offset: int, length: int)
    requires 0 <= available && 0 <= count && 0 <= offset && offset + count <= length
    ensures CopyCheck(SamplesToCopy(available, count), offset, length).None?
    ensures 0 <= SamplesToCopy(available, count) <= count
  {
  }

  /** `CachedSound`: the decoded samples of a file and its channel count, fixed once loaded. */
  class CachedSound {
    const audioData: seq<real>
    const channels: int

    constructor (audioData: seq<real>, channels: int)
      ensures this.audioData == audioData && this.channels == channels
    {
      this.audioData, this.channels := audioData, channels;
    }
  }

  /** `CachedSoundSampleProvider`: hands out a cached sound from a cursor that only moves forward. */
  class CachedSoundSampleProvider {
    const cachedSound: CachedSound
    var position: int
    /** Every sample handed out so far, in order. */
    ghost var delivered: seq<real>

    /** The cursor stays within the sound, and what has been handed out is the sound up to the cursor. */
    ghost predicate Valid()
      reads this
    {
      0 <= position <= |cachedSound.audioData| && delivered == cachedSound.audioData[..position]
    }

    /** The samples not yet handed out. */
    function Pending(): int
      reads this
    {
      |cachedSound.audioData| - position
    }

    constructor (cachedSound: CachedSound)
      ensures this.cachedSound == cachedSound && position == 0 && Valid()
    {
      this.cachedSound := cachedSound;
      position := 0;
      delivered := [];
    }

    /**
     * `Read`: copy min(pending, count) samples from the cursor into
     * `buffer` at `offset`, advance the cursor by as many and return the
     * number. When `Array.Copy` refuses the arguments nothing changes and
     * the exception is the failure.
     */
    method Read(buffer: array<real>, offset: int, count: int) returns (r: Result<int, CopyError>)
      requires Valid()
      modifies this, buffer
      ensures Valid()
      ensures r.Failure? <==> CopyCheck(SamplesToCopy(old(Pending()), count), offset, buffer.Length).Some?
      ensures r.Failure? ==> r.error == CopyCheck(SamplesToCopy(old(Pending()), count), offset, buffer.Length).value
      ensures r.Failure? ==> position == old(position) && buffer[..] == old(buffer[..])
      ensures r.Success? ==> r.value == SamplesToCopy(old(Pending()), count) && 0 <= r.value
      ensures r.Success? ==> position == old(position) + r.value
      ensures r.Success? ==> buffer[..] == old(buffer[..offset]) + cachedSound.audioData[old(position)..position]
                                           + old(buffer[offset + r.value..])
      ensures r.Success? ==> delivered == old(delivered) + cachedSound.audioData[old(position)..position]
      ensures old(Pending()) == 0 ==> position == old(position) && buffer[..] == old(buffer[..])
      ensures old(Pending()) == 0 && r.Success? ==> r.value == 0
    {
      var n := SamplesToCopy(|cachedSound.audioData| - position, count);
      var check := CopyCheck(n, offset, buffer.Length);
      if check.Some? {
        return Failure(check.value);
      }
      forall i | 0 <= i < n {
        buffer[offset + i] := cachedSound.audioData[position + i];
      }
      assert buffer[..] == old(buffer[..offset]) + cachedSound.audioData[position..position + n]
                           + old(buffer[offset + n..]);
      delivered := delivered + cachedSound.audioData[position..position + n];
      position := position + n;
      r := Success(n);
    }
  }

  /**
   * `AudioFileReader`, the NAudio decoder: in this model the decoded samples
   * of the file behind a cursor, and whether it has been disposed.
   */
  class AudioFileReader {
    const decoded: CachedSoundSampleProvider
    var disposed: bool

    constructor (decoded: CachedSoundSampleProvider)
      ensures this.decoded == decoded && !disposed
    {
      this.decoded := decoded;
      disposed := false;
    }

    method Read(buffer: array<real>, offset: int, count: int) returns (r: Result<int, CopyError>)
      requires decoded.Valid() && !disposed
      modifies decoded, buffer
      ensures decoded.Valid()
      ensures r.Failure? <==> CopyCheck(SamplesToCopy(old(decoded.Pending()), count), offset, buffer.Length).Some?
      ensures r.Failure? ==> r.error == CopyCheck(SamplesToCopy(old(decoded.Pending()), count), offset, buffer.Length).value
      ensures r.Failure? ==> decoded.position == old(decoded.position) && buffer[..] == old(buffer[..])
      ensures r.Success? ==> r.value == SamplesToCopy(old(decoded.Pending()), count)
      ensures r.Success? ==> decoded.position == old(decoded.position) + r.value
      ensures r.Success? ==> buffer[..] == old(buffer[..offset]) + decoded.cachedSound.audioData[old(decoded.position)..decoded.position]
                                           + old(buffer[offset + r.value..])
    {
      r := decoded.Read(buffer, offset, count);
    }

    method Dispose()
      modifies this
      ensures disposed
    {
      disposed := true;
    }
  }

  /** `AutoDisposeFileReader`: reads through a file reader and disposes it the first time it returns nothing. */
  class AutoDisposeFileReader {
    const reader: AudioFileReader
    var isDisposed: bool

    /** The flag and the reader agree, and the reader's cursor is consistent. */
    ghost predicate Valid()
      reads this, reader, reader.decoded
    {
      reader.decoded.Valid() && isDisposed == reader.disposed
    }

    constructor (reader: AudioFileReader)
      requires reader.decoded.Valid() && !reader.disposed
      ensures this.reader == reader && !isDisposed && Valid()
    {
      this.reader := reader;
      isDisposed := false;
    }

    /**
     * `Read`: 0 once disposed, without touching the reader; otherwise the
     * reader's own read, and when that returns 0 the reader is disposed and
     * the flag set.
     */
    method Read(buffer: array<real>, offset: int, count: int) returns (r: Result<int, CopyError>)
      requires Valid()
      modifies this, reader, reader.decoded, buffer
      ensures Valid()
      ensures old(isDisposed) ==> r == Success(0) && isDisposed
      ensures old(isDisposed) ==> unchanged(reader) && unchanged(reader.decoded) && unchanged(buffer)
      ensures !old(isDisposed) ==>
        (r.Failure? <==> CopyCheck(SamplesToCopy(old(reader.decoded.Pending()), count), offset, buffer.Length).Some?)
      ensures !old(isDisposed) && r.Failure? ==>
        r.error == CopyCheck(SamplesToCopy(old(reader.decoded.Pending()), count), offset, buffer.Length).value &&
        reader.decoded.position == old(reader.decoded.position) && buffer[..] == old(buffer[..])
      ensures !old(isDisposed) && r.Success? ==> r.value == SamplesToCopy(old(reader.decoded.Pending()), count)
      ensures !old(isDisposed) && r.Success? ==>
        reader.decoded.position == old(reader.decoded.position) + r.value &&
        buffer[..] == old(buffer[..offset]) + reader.decoded.cachedSound.audioData[old(reader.decoded.position)..reader.decoded.position]
                      + old(buffer[offset + r.value..])
      ensures !old(isDisposed) ==> (isDisposed <==> r == Success(0))
    {
      if isDisposed {
        return Success(0);
      }
      r := reader.Read(buffer, offset, count);
      if r.Success? && r.value == 0 {
        reader.Dispose();
        isDisposed := true;
      }
    }
  }

  /** An input to the mixer: a provider with its own channel count, or NAudio's mono-to-stereo wrapper around one. */
  datatype SampleProvider = Source(channels: int) | MonoToStereo(input: SampleProvider)

  /** `WaveFormat.Channels` of a provider: the wrapper always yields two. */
  function Channels(p: SampleProvider): int
  {
    match p
    case Source(c) => c
    case MonoToStereo(_) => 2
  }

  /** The exception `ConvertToRightChannelCount` throws for a pair of channel counts it does not handle. */
  datatype ConversionError = ConversionNotImplemented

  /**
   * `ConvertToRightChannelCount`: the input itself when its channel count is
   * the mixer's, mono wrapped as stereo for a stereo mixer, and a failure
   * for every other pair.
   */
  function ConvertToRightChannelCount(input: SampleProvider, mixerChannels: int): (r: Result<SampleProvider, ConversionError>)
  {
    if Channels(input) == mixerChannels then Success(input)
    else if Channels(input) == 1 && mixerChannels == 2 then Success(MonoToStereo(input))
    else Failure(ConversionNotImplemented)
  }

  /**
   * What the conversion guarantees: it succeeds exactly for matching counts
   * and for mono into stereo, and whatever it returns has the mixer's
   * channel count and leaves a matching input alone.
   */
  lemma ConversionMatchesMixer(input: SampleProvider, mixerChannels: int)
    ensures ConvertToRightChannelCount(input, mixerChannels).Success? <==>
      Channels(input) == mixerChannels || (Channels(input) == 1 && mixerChannels == 2)
    ensures ConvertToRightChannelCount(input, mixerChannels).Success? ==>
      Channels(ConvertToRightChannelCount(input, mixerChannels).value) == mixerChannels
    ensures Channels(input) == mixerChannels ==> ConvertToRightChannelCount(input, mixerChannels) == Success(input)
    ensures Channels(input) == 1 && mixerChannels == 2 ==>
      ConvertToRightChannelCount(input, mixerChannels) == Success(MonoToStereo(input))
  {
  }

  /** Converting a converted input again changes nothing: it already has the mixer's channel count. */
  lemma ConversionIdempotent(input: SampleProvider, mixerChannels: int)
    requires ConvertToRightChannelCount(input, mixerChannels).Success?
    ensures var once := ConvertToRightChannelCount(input, mixerChannels).value;
      ConvertToRightChannelCount(once, mixerChannels) == Success(once)
  {
  }
}
