/**
 * The recorded audio: an ordered list of chunks, each the block of mono
 * samples one audio callback delivered (dictate.py, `audio_callback`,
 * `stop_recording`, `transcribe`).
 */
module Audio {
  import opened Wrappers

  /** One 32-bit float sample; no arithmetic is ever done on samples here. */
  type Sample = real
  /** One callback's frame buffer (`indata`, mono). */
  type Chunk = seq<Sample>

  const SampleRate: nat := 16000
  /** Recordings shorter than 100 ms are dropped: `int(SAMPLE_RATE * 0.1)` is 1600. */
  const MinSamples: nat := SampleRate / 10

  /** `sum(len(a) for a in audio_data)`. */
  function TotalSamples(chunks: seq<Chunk>): nat {
    if chunks == [] then 0 else |chunks[0]| + TotalSamples(chunks[1..])
  }

  /** The samples of all chunks, in order. */
  function Flatten(chunks: seq<Chunk>): seq<Sample> {
    if chunks == [] then [] else chunks[0] + Flatten(chunks[1..])
  }

  /** `np.concatenate(audio_data, axis=0)`: raises ValueError on an empty list. */
  function Concatenate(chunks: seq<Chunk>): (r: Option<seq<Sample>>)
    ensures r.None? <==> chunks == []
    ensures r.Some? ==> |r.value| == TotalSamples(chunks)
  {
    FlattenLength(chunks);
    if chunks == [] then None else Some(Flatten(chunks))
  }

  /** The sample count is the length of the concatenated audio. */
  lemma {:induction false} FlattenLength(chunks: seq<Chunk>)
    ensures |Flatten(chunks)| == TotalSamples(chunks)
  {
    if chunks != [] {
      FlattenLength(chunks[1..]);
    }
  }

  /** Concatenation is transparent to chunking: splitting the chunk list
      anywhere and concatenating the parts gives the same samples. */
  lemma {:induction false} FlattenAppend(a: seq<Chunk>, b: seq<Chunk>)
    ensures Flatten(a + b) == Flatten(a) + Flatten(b)
  {
    if a != [] {
      assert (a + b)[1..] == a[1..] + b;
      FlattenAppend(a[1..], b);
    } else {
      assert a + b == b;
    }
  }

  /** Sample counts add up over appended chunk lists. */
  lemma TotalSamplesAppend(a: seq<Chunk>, b: seq<Chunk>)
    ensures TotalSamples(a + b) == TotalSamples(a) + TotalSamples(b)
  {
    FlattenAppend(a, b);
    FlattenLength(a);
    FlattenLength(b);
    FlattenLength(a + b);
  }

  /** A recording long enough to keep is never an empty chunk list, so
      concatenating it never fails. */
  lemma KeptRecordingConcatenates(chunks: seq<Chunk>)
    requires TotalSamples(chunks) >= MinSamples
    ensures Concatenate(chunks) == Some(Flatten(chunks))
  {
  }
}
