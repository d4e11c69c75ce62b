/** Audio chunks and their concatenation along the time axis.

    A sample is an opaque value `S`; a chunk is the sequence of samples one
    inference step yields (a single channel). Concatenation keeps chunk order
    and neither mixes, overlaps, drops nor resamples anything.
 */
module Audio {

  type Chunk<S> = seq<S>

  /** The output artifact: the audio written to the temporary file and the
      sample rate it is written at. */
  datatype Artifact<S> = Artifact(audio: seq<S>, sampleRate: int)

  /** The chunks joined one after the other. */
  function Flatten<S>(chunks: seq<Chunk<S>>): (audio: seq<S>)
  {
    if |chunks| == 0 then [] else chunks[0] + Flatten(chunks[1..])
  }

  /** The summed sample counts of the chunks. */
  function TotalLength<S>(chunks: seq<Chunk<S>>): (n: nat)
  {
    if |chunks| == 0 then 0 else |chunks[0]| + TotalLength(chunks[1..])
  }

  /** Where chunk `i` starts: the summed lengths of chunks 0..i-1. */
  function Offset<S>(chunks: seq<Chunk<S>>, i: nat): (start: nat)
    requires i <= |chunks|
  {
    TotalLength(chunks[..i])
  }

  /** Appending one chunk to the list appends its samples to the audio. */
  lemma {:induction false} FlattenSnoc<S>(chunks: seq<Chunk<S>>, c: Chunk<S>)
    ensures Flatten(chunks + [c]) == Flatten(chunks) + c
    ensures TotalLength(chunks + [c]) == TotalLength(chunks) + |c|
    decreases |chunks|
  {
    if |chunks| == 0 {
      assert chunks + [c] == [c];
      assert [c][1..] == [];
    } else {
      assert (chunks + [c])[1..] == chunks[1..] + [c];
      FlattenSnoc(chunks[1..], c);
    }
  }

  /** The concatenated audio is exactly as long as all chunks together. */
  lemma {:induction false} FlattenLength<S>(chunks: seq<Chunk<S>>)
    ensures |Flatten(chunks)| == TotalLength(chunks)
    decreases |chunks|
  {
    if |chunks| > 0 {
      FlattenLength(chunks[1..]);
    }
  }

  /** Chunk `i` occupies, unchanged, the slice that starts at the summed
      lengths of the chunks before it. */
  lemma {:induction false} ChunkPlacement<S>(chunks: seq<Chunk<S>>, i: nat)
    requires i < |chunks|
    ensures Offset(chunks, i) + |chunks[i]| <= |Flatten(chunks)|
    ensures Flatten(chunks)[Offset(chunks, i)..Offset(chunks, i) + |chunks[i]|] == chunks[i]
    decreases i
  {
    FlattenLength(chunks);
    if i == 0 {
      assert chunks[..0] == [];
    } else {
      var rest := chunks[1..];
      ChunkPlacement(rest, i - 1);
      FlattenLength(rest);
      assert chunks[..i][1..] == rest[..i - 1];
      assert Offset(chunks, i) == |chunks[0]| + Offset(rest, i - 1);
      assert rest[i - 1] == chunks[i];
    }
  }

  /** Length and placement determine the concatenation: any sequence as long
      as all chunks together, holding every chunk at its offset, is the
      concatenation. */
  lemma {:induction false} PlacementDeterminesFlatten<S>(chunks: seq<Chunk<S>>, a: seq<S>)
    requires |a| == TotalLength(chunks)
    requires forall i :: 0 <= i < |chunks| ==>
               Offset(chunks, i) + |chunks[i]| <= |a| &&
               a[Offset(chunks, i)..Offset(chunks, i) + |chunks[i]|] == chunks[i]
    ensures a == Flatten(chunks)
    decreases |chunks|
  {
    if |chunks| > 0 {
      var n := |chunks[0]|;
      var rest := chunks[1..];
      assert chunks[..0] == [];
      assert Offset(chunks, 0) == 0;
      assert a[..n] == chunks[0];
      forall j | 0 <= j < |rest|
        ensures Offset(rest, j) + |rest[j]| <= |a[n..]|
        ensures a[n..][Offset(rest, j)..Offset(rest, j) + |rest[j]|] == rest[j]
      {
        assert chunks[..j + 1][1..] == rest[..j];
        assert Offset(chunks, j + 1) == n + Offset(rest, j);
        assert chunks[j + 1] == rest[j];
      }
      PlacementDeterminesFlatten(rest, a[n..]);
      assert a == a[..n] + a[n..];
    }
  }

  /** `torch.cat(audio_chunks, dim=1)`: joins the collected chunks in order. */
  method Concatenate<S>(chunks: seq<Chunk<S>>) returns (audio: seq<S>)
    ensures audio == Flatten(chunks)
    ensures |audio| == TotalLength(chunks)
    ensures forall i :: 0 <= i < |chunks| ==>
              Offset(chunks, i) + |chunks[i]| <= |audio| &&
              audio[Offset(chunks, i)..Offset(chunks, i) + |chunks[i]|] == chunks[i]
  {
    audio := [];
    var k := 0;
    while k < |chunks|
      invariant 0 <= k <= |chunks|
      invariant audio == Flatten(chunks[..k])
    {
      assert chunks[..k + 1] == chunks[..k] + [chunks[k]];
      FlattenSnoc(chunks[..k], chunks[k]);
      audio := audio + chunks[k];
      k := k + 1;
    }
    assert chunks[..k] == chunks;
    FlattenLength(chunks);
    forall i | 0 <= i < |chunks|
      ensures Offset(chunks, i) + |chunks[i]| <= |audio|
      ensures audio[Offset(chunks, i)..Offset(chunks, i) + |chunks[i]|] == chunks[i]
    {
      ChunkPlacement(chunks, i);
    }
  }
}
