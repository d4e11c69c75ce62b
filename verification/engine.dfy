/** The zero-shot TTS model, seen only from outside.

    The loaded model instance is an input value: the behaviour of its
    `inference_zero_shot` entry point on each call, and its fixed sample rate.
    What a call produces is abstracted as the finite list of chunks it yields,
    followed either by normal exhaustion or by a fault (an `Exception`)
    carrying its rendered message.
 */
module Engine {
  import opened Results
  import opened Audio

  /** The arguments of one `inference_zero_shot(text, prompt, audio, stream=…)` call. */
  datatype Call = Call(text: string, prompt: string, promptAudio: string, stream: bool)

  /** What iterating over the model's generator produces. */
  datatype Generation<S> =
    | Finished(chunks: seq<Chunk<S>>)
    | Faulted(chunks: seq<Chunk<S>>, message: string)

  /** The loaded model instance (`cosyvoice`). */
  datatype Model<S> = Model(inferenceZeroShot: Call -> Generation<S>, sampleRate: int)

  /** Draining the generator into a list: every yielded chunk, in order, or
      the fault's message once the generator raises (chunks collected so far
      are then lost). */
  function Collect<S>(g: Generation<S>): (r: Result<seq<Chunk<S>>>)
    ensures g.Finished? <==> r.Ok?
    ensures r.Ok? ==> r.value == g.chunks
    ensures r.Err? ==> r.message == g.message
  {
    match g
    case Finished(cs) => Ok(cs)
    case Faulted(_, m) => Err(m)
  }

  /** The `for output in …: audio_chunks.append(output["tts_speech"])` loop:
      consumes the generator one chunk at a time. `yielded` is the number of
      chunks consumed before the generator stopped or raised. */
  method Drain<S>(g: Generation<S>) returns (r: Result<seq<Chunk<S>>>, yielded: nat)
    ensures yielded == |g.chunks|
    ensures g.Finished? <==> r.Ok?
    ensures r.Ok? ==> r.value == g.chunks
    ensures r.Err? ==> r.message == g.message
    ensures r == Collect(g)
  {
    var audioChunks: seq<Chunk<S>> := [];
    yielded := 0;
    while yielded < |g.chunks|
      invariant yielded <= |g.chunks|
      invariant audioChunks == g.chunks[..yielded]
    {
      audioChunks := audioChunks + [g.chunks[yielded]];
      yielded := yielded + 1;
    }
    match g
    case Finished(_) =>
      r := Ok(audioChunks);
    case Faulted(_, m) =>
      r := Err(m);
  }
}
