/** The synthesis request handler `generate_speech` of the Japanese web UI.

    It validates the text and then the reference audio, builds the
    conditioning prompt, drains the model's chunk generator, joins the chunks
    and hands back the artifact. Validation errors are raised before the
    `try`; every `Exception` raised inside it, the empty-result error
    included, is caught and re-raised with the generation-error prefix.
 */
module WebUI {
  import opened Results
  import opened Prompt
  import opened Audio
  import opened Engine

  const MissingTextMessage: string := "合成テキストを入力してください"
  const MissingAudioMessage: string := "参照音声をアップロードしてください"
  const EmptyResultMessage: string := "音声の生成に失敗しました"
  const GenerationErrorPrefix: string := "音声生成エラー: "

  /** The four values the UI passes in; each may be `None` in Python. */
  datatype Request = Request(
    text: Option<string>,
    promptAudio: Option<string>,
    promptText: Option<string>,
    stream: bool)

  /** What one request produced: the artifact or the error message shown to
      the user, and the model call that was made, if any. */
  datatype Response<S> = Response(result: Result<Artifact<S>>, invoked: Option<Call>)

  predicate HasPrefix(s: string, p: string)
  {
    |p| <= |s| && s[..|p|] == p
  }

  /** Both inputs the handler insists on are truthy. */
  predicate Valid(req: Request)
  {
    Truthy(req.text) && Truthy(req.promptAudio)
  }

  /** The call made for a valid request. */
  function CallFor(req: Request): (c: Call)
    requires Valid(req)
    ensures c.text == req.text.value && c.promptAudio == req.promptAudio.value
    ensures c.prompt == PromptPrefix + TextOf(req.promptText)
    ensures c.stream == req.stream
  {
    Call(req.text.value, FullPrompt(req.promptText), req.promptAudio.value, req.stream)
  }

  /** The body of the `try`, with errors not yet re-wrapped: the drained
      chunks joined at the model's sample rate, the fault's message, or the
      empty-result error when the generator yielded nothing. */
  function TryBody<S>(g: Generation<S>, sampleRate: int): (r: Result<Artifact<S>>)
    ensures r.Ok? <==> g.Finished? && |g.chunks| > 0
    ensures r.Ok? ==> r.value.sampleRate == sampleRate
    ensures r.Ok? ==> |r.value.audio| == TotalLength(g.chunks)
    ensures r.Ok? ==> forall i :: 0 <= i < |g.chunks| ==>
              Offset(g.chunks, i) + |g.chunks[i]| <= |r.value.audio| &&
              r.value.audio[Offset(g.chunks, i)..Offset(g.chunks, i) + |g.chunks[i]|] == g.chunks[i]
    ensures g.Faulted? ==> r == Err(g.message)
    ensures g.Finished? && |g.chunks| == 0 ==> r == Err(EmptyResultMessage)
  {
    match Collect(g)
    case Err(m) => Err(m)
    case Ok(chunks) =>
      if |chunks| > 0 then
        FlattenLength(chunks);
        assert forall i :: 0 <= i < |chunks| ==>
            Offset(chunks, i) + |chunks[i]| <= |Flatten(chunks)| &&
            Flatten(chunks)[Offset(chunks, i)..Offset(chunks, i) + |chunks[i]|] == chunks[i] by {
          forall i | 0 <= i < |chunks|
            ensures Offset(chunks, i) + |chunks[i]| <= |Flatten(chunks)|
            ensures Flatten(chunks)[Offset(chunks, i)..Offset(chunks, i) + |chunks[i]|] == chunks[i]
          {
            ChunkPlacement(chunks, i);
          }
        }
        Ok(Artifact(Flatten(chunks), sampleRate))
      else
        Err(EmptyResultMessage)
  }

  /** The `except Exception as e` clause: the message gets the prefix. */
  function Rewrap<T>(r: Result<T>): (w: Result<T>)
    ensures r.Ok? ==> w == r
    ensures r.Err? ==> w.Err? && HasPrefix(w.message, GenerationErrorPrefix)
                       && w.message[|GenerationErrorPrefix|..] == r.message
  {
    match r
    case Ok(v) => Ok(v)
    case Err(m) => Err(GenerationErrorPrefix + m)
  }

  /** `generate_speech(text, prompt_audio, prompt_text, stream, cosyvoice)`. */
  function Handle<S>(req: Request, model: Model<S>): (resp: Response<S>)
    ensures !Truthy(req.text) ==> resp == Response(Err(MissingTextMessage), None)
    ensures Truthy(req.text) && !Truthy(req.promptAudio)
            ==> resp == Response(Err(MissingAudioMessage), None)
    ensures Valid(req) ==> resp.invoked == Some(CallFor(req))
    ensures resp.invoked.Some? ==> Valid(req)
  {
    if !Truthy(req.text) then
      Response(Err(MissingTextMessage), None)
    else if !Truthy(req.promptAudio) then
      Response(Err(MissingAudioMessage), None)
    else
      var call := Call(req.text.value, FullPrompt(req.promptText), req.promptAudio.value, req.stream);
      Response(Rewrap(TryBody(model.inferenceZeroShot(call), model.sampleRate)), Some(call))
  }

  /** The handler written the way the source is: validation, prompt, the
      draining loop, `torch.cat`, and the artifact at the model's rate. */
  method GenerateSpeech<S>(req: Request, model: Model<S>) returns (result: Result<Artifact<S>>, invoked: Option<Call>)
    ensures Response(result, invoked) == Handle(req, model)
  {
    if !Truthy(req.text) {
      return Err(MissingTextMessage), None;
    }
    if !Truthy(req.promptAudio) {
      return Err(MissingAudioMessage), None;
    }
    var fullPrompt := FullPrompt(req.promptText);
    var call := Call(req.text.value, fullPrompt, req.promptAudio.value, req.stream);
    invoked := Some(call);
    var g := model.inferenceZeroShot(call);
    var drained, _ := Drain(g);
    match drained
    case Err(m) =>
      result := Err(GenerationErrorPrefix + m);
    case Ok(audioChunks) =>
      if |audioChunks| > 0 {
        var audio := Concatenate(audioChunks);
        result := Ok(Artifact(audio, model.sampleRate));
      } else {
        result := Err(GenerationErrorPrefix + EmptyResultMessage);
      }
  }

  /** The outcome of a request, stated over the generation the model
      produced for the call it was given. That `Flatten` is the in-order
      concatenation, and the only sequence with its length and chunk
      placement, is proved in `Audio`. */
  lemma {:induction false} Outcome<S>(req: Request, model: Model<S>)
    requires Valid(req)
    ensures var g := model.inferenceZeroShot(CallFor(req));
            var r := Handle(req, model).result;
            && (r.Ok? <==> g.Finished? && |g.chunks| > 0)
            && (r.Ok? ==> r.value == Artifact(Flatten(g.chunks), model.sampleRate))
            && (g.Faulted? ==> r == Err(GenerationErrorPrefix + g.message))
            && (g.Finished? && |g.chunks| == 0
                ==> r == Err(GenerationErrorPrefix + EmptyResultMessage))
  {
  }

  /** When a validation fails the model is not consulted: the response is the
      same whatever the model does. */
  lemma ValidationIgnoresModel<S>(req: Request, m1: Model<S>, m2: Model<S>)
    requires !Valid(req)
    ensures Handle(req, m1) == Handle(req, m2)
    ensures Handle(req, m1).result.Err? && Handle(req, m1).invoked.None?
  {
  }

  /** A valid request's response depends on the model only through what it
      yields for the one call made, and through its sample rate. */
  lemma OnlyTheCallMatters<S>(req: Request, m1: Model<S>, m2: Model<S>)
    requires Valid(req)
    requires m1.inferenceZeroShot(CallFor(req)) == m2.inferenceZeroShot(CallFor(req))
    requires m1.sampleRate == m2.sampleRate
    ensures Handle(req, m1) == Handle(req, m2)
  {
  }

  /** The streaming flag is only forwarded to the model: flipping it changes
      the call in that one field, and when the model yields the same for both
      calls the result is the same. */
  lemma StreamOnlyForwarded<S>(req: Request, model: Model<S>, b: bool)
    requires Valid(req)
    requires model.inferenceZeroShot(CallFor(req))
          == model.inferenceZeroShot(CallFor(req).(stream := b))
    ensures Handle(req.(stream := b), model).invoked == Some(CallFor(req).(stream := b))
    ensures Handle(req.(stream := b), model).result == Handle(req, model).result
  {
  }

  /** Validation errors are raised outside the `try` and carry no prefix;
      every other error does. */
  lemma {:induction false} ErrorProvenance<S>(req: Request, model: Model<S>)
    requires Handle(req, model).result.Err?
    ensures HasPrefix(Handle(req, model).result.message, GenerationErrorPrefix) <==> Valid(req)
  {
    var msg := Handle(req, model).result.message;
    if !Truthy(req.text) {
      assert msg[0] == '合' != GenerationErrorPrefix[0];
    } else if !Truthy(req.promptAudio) {
      assert msg[0] == '参' != GenerationErrorPrefix[0];
    }
  }

  /** Unlike a model fault, the empty result has no error kind of its own:
      it reads exactly like a fault whose message is the empty-result text,
      whatever chunks preceded that fault. */
  lemma EmptyResultLooksLikeFault<S>(req: Request, model: Model<S>, cs: seq<Chunk<S>>)
    requires Valid(req)
    requires model.inferenceZeroShot(CallFor(req)) == Finished([])
    ensures Handle(req, model).result
         == Rewrap(TryBody(Faulted(cs, EmptyResultMessage), model.sampleRate))
         == Err(GenerationErrorPrefix + EmptyResultMessage)
  {
  }

  /** Three streamed chunks of 1600 samples at 16 kHz give 4800 samples,
      0.3 seconds of audio. */
  lemma {:induction false} ThreeChunksScenario<S>(req: Request, model: Model<S>, c1: Chunk<S>, c2: Chunk<S>, c3: Chunk<S>)
    requires Valid(req) && req.stream
    requires model.sampleRate == 16000
    requires |c1| == |c2| == |c3| == 1600
    requires model.inferenceZeroShot(CallFor(req)) == Finished([c1, c2, c3])
    ensures Handle(req, model).result.Ok?
    ensures |Handle(req, model).result.value.audio| == 4800
    ensures 10 * |Handle(req, model).result.value.audio| == 3 * Handle(req, model).result.value.sampleRate
  {
    var cs := [c1, c2, c3];
    assert cs[1..] == [c2, c3] && cs[1..][1..] == [c3] && cs[1..][1..][1..] == [];
    assert TotalLength([c3]) == 1600;
    assert TotalLength([c2, c3]) == 3200;
    assert TotalLength(cs) == 4800;
  }

  /** A fault after one chunk: the chunk is discarded and no artifact is
      returned. */
  lemma FaultAfterOneChunkScenario<S>(req: Request, model: Model<S>, c: Chunk<S>, msg: string)
    requires Valid(req)
    requires model.inferenceZeroShot(CallFor(req)) == Faulted([c], msg)
    ensures Handle(req, model).result == Err(GenerationErrorPrefix + msg)
  {
  }
}
