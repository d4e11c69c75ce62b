# Fun-CosyVoice3 web UI: the synthesis request handler

This project models `generate_speech` in Dafny. It is the handler behind the
"音声生成" button of the Japanese web UI for the Fun-CosyVoice3 zero-shot
voice-cloning model. Given the text, a reference clip, an optional reference
transcript and a streaming flag, the handler does five things in order:

1. It rejects missing text, then a missing reference clip.
2. It frames the conditioning prompt as
   `"You are a helpful assistant.<|endofprompt|>"` followed by the transcript.
3. It drains the model's chunk generator.
4. It joins the chunks along the time axis.
5. It returns the audio at the model's sample rate.

Every `Exception` raised inside its `try` is re-raised with the prefix
`"音声生成エラー: "`.

The model is abstracted as follows:

- The loaded model instance is a value `Model(inferenceZeroShot, sampleRate)`.
- `inferenceZeroShot` maps each call `(text, prompt, promptAudio, stream)` to
  a `Generation`. A generation is either some chunks that end normally
  (`Finished`) or some chunks followed by a fault, an `Exception`, with its message (`Faulted`).
- Samples have an opaque type `S`. A chunk is a `seq<S>`.
- The temporary WAV file is an `Artifact(audio, sampleRate)` value.
- Inputs that Gradio may pass as `None` are `Option<string>`. Python's
  truthiness test (`if not text`) is `Truthy`: the value is present and
  non-empty.
- `Response` records the model call the handler made, if any. This makes the
  claim that the model is never invoked a statement about the model's output.

Modules:

- `Results`: `Option`, `Result`, and truthiness.
- `Prompt`: the prompt framing and the sentinel's occurrences.
- `Audio`: chunk concatenation.
- `Engine`: the model call and draining its generator.
- `WebUI`: the handler, both as a function (`Handle`) and as a method that
  follows the source step by step (`GenerateSpeech`).

Behaviours of the code that a reader may not expect:

- An empty generation is not a separate error kind. The code raises it inside
  the `try`, so it comes back as `"音声生成エラー: 音声の生成に失敗しました"`.
  That message is indistinguishable from a model fault whose own message is
  `"音声の生成に失敗しました"` (`WebUI.EmptyResultLooksLikeFault`).
- The end-of-prompt sentinel is not guaranteed to occur exactly once. The
  transcript is appended unchecked, so the prompt contains one sentinel plus
  every sentinel inside the transcript (`Prompt.SentinelOccurrences`,
  `Prompt.SentinelOnceIff`).
- The reference clip is only checked for truthiness. The code does not check
  that the file exists, that it is readable or how long it is.

## Model

| member | source | states |
|---|---|---|
| Prompt.PrefixIsPreambleThenSentinel | webui_jp.py:57-61 | The literal prefix is exactly the 28-character preamble "You are a helpful assistant." followed by the 15-character sentinel "<\|endofprompt\|>". |
| Prompt.FullPrompt | webui_jp.py:58-61 | Both branches give the prefix followed by the transcript text: the prompt starts with the prefix, the rest is the transcript verbatim, and an empty or absent transcript gives the bare prefix. |
| Prompt.SentinelOccurrences | webui_jp.py:58-61 | The sentinel occurs in the full prompt right after the preamble, and at every place it occurs inside the transcript (shifted by the prefix length), and nowhere else. |
| Prompt.SentinelOnceIff | webui_jp.py:58-61 | The sentinel occurs exactly once in the prompt if and only if the transcript does not contain it. |
| Engine.Collect | webui_jp.py:64-72 | Draining succeeds exactly when the generator ends without a fault. It then gives all yielded chunks in order. A fault gives the fault's message and discards the chunks. |
| Engine.Drain | webui_jp.py:65-72 | The loop consumes every yielded chunk. On normal exhaustion the collected list is the yielded chunks in order. On a fault the result is the fault's message. |
| Audio.FlattenSnoc | webui_jp.py:72-76 | Appending one more chunk to the list appends its samples to the end of the joined audio and adds its length to the total. |
| Audio.FlattenLength | webui_jp.py:76 | The joined audio has exactly the summed length of the chunks. |
| Audio.ChunkPlacement | webui_jp.py:76 | Chunk i lies unchanged in the joined audio at the slice that starts at the summed lengths of chunks 0..i-1. |
| Audio.PlacementDeterminesFlatten | webui_jp.py:76 | Any sequence with the summed length that holds every chunk at its offset is the concatenation, so concatenation means no mixing, overlap or reordering. |
| Audio.Concatenate | webui_jp.py:74-76 | The joining loop yields the in-order concatenation, with the summed length and every chunk at its offset. |
| WebUI.CallFor | webui_jp.py:58-71 | The model receives the text and the reference path unchanged, the prompt as prefix plus transcript, and the streaming flag as given. |
| WebUI.TryBody | webui_jp.py:64-85 | Inside the try, the result is an artifact exactly when the generator finished with at least one chunk. The artifact is at the model's sample rate and holds every chunk in order at its offset, with the summed length. A fault gives its message. Zero chunks give the empty-result message. |
| WebUI.Rewrap | webui_jp.py:87-88 | The except clause passes a success through. It turns an error into one whose message is the generation-error prefix followed by the original message. |
| WebUI.Handle | webui_jp.py:30-88 | Falsy text gives the text error whatever else is given. Truthy text with a falsy clip gives the clip error. In both cases no call is made. A valid request makes exactly one call, with the request's values. |
| WebUI.GenerateSpeech | webui_jp.py:30-88 | The step-by-step handler (validation, prompt, draining loop, joining loop, artifact) returns exactly what the functional description returns, including the call made. |
| WebUI.Outcome | webui_jp.py:64-88 | For a valid request: success if and only if the model finished with at least one chunk, and the artifact is then the chunks joined at the model's sample rate. A fault after any number of chunks gives the prefixed fault message. Zero chunks give the prefixed empty-result message. |
| WebUI.ValidationIgnoresModel | webui_jp.py:50-54 | An invalid request's response is an error with no call, and it is the same for every model. |
| WebUI.OnlyTheCallMatters | webui_jp.py:66-82 | Two models that yield the same for the one call made, and have the same sample rate, give the same response. |
| WebUI.StreamOnlyForwarded | webui_jp.py:66-71 | Changing the streaming flag changes only that field of the call. If the model yields the same either way, the result does not change. |
| WebUI.ErrorProvenance | webui_jp.py:50-88 | An error message carries the generation-error prefix if and only if both validations passed. The validation errors are raised outside the try and are not prefixed. |
| WebUI.EmptyResultLooksLikeFault | webui_jp.py:75-88 | A generation with no chunks produces "音声生成エラー: 音声の生成に失敗しました". That is the same error as a fault whose message is the empty-result text. |
| WebUI.ThreeChunksScenario | webui_jp.py:64-83 | Three chunks of 1600 samples at 16000 Hz give a 4800-sample artifact, which is 0.3 seconds. |
| WebUI.FaultAfterOneChunkScenario | webui_jp.py:64-88 | A fault after one chunk gives the prefixed fault message, and no artifact is returned. |

## Left out

- `load_model`, `create_ui` and `main` (webui_jp.py:20-27, 91-222) are model loading, Gradio layout and event wiring, argument parsing and server launch. None of them is request logic.
- The `sys.path` setup (webui_jp.py:13) only configures the environment.
- download_model.py is not part of this model. It consists of network downloads wrapped in try/except, plus prints and process exit.
- The TTS engine itself is external and runs on the GPU. It appears only as the generation it produces for a call.
- Audio is single-channel. The channel dimension of the `[channels, samples]` tensors that `torch.cat(..., dim=1)` joins is not modelled, and neither are the float sample values.
- WAV encoding, the temporary file's name and its cleanup are not modelled. The artifact is the audio and its sample rate, not a path.
- Failures of `torch.cat`, `tempfile` and `torchaudio.save` are not modelled. A missing `"tts_speech"` key in a model output is not modelled either. The same except clause would catch all of these and prefix them.
- A fault that is a `BaseException` but not an `Exception` is not modelled. Examples are `KeyboardInterrupt`, `SystemExit` and `GeneratorExit`. Such a fault escapes the `except Exception` clause (webui_jp.py:87) without the prefix. Every `Faulted` generation is modelled as an `Exception`.
- A generator that never ends is not modelled. It would keep the draining loop (webui_jp.py:66-72) running forever. A `Generation` always ends after finitely many chunks.
- `str(e)` is taken to be the message the exception was raised with. How the Gradio library renders its own `Error` under `str` is library behaviour and is not modelled.
- The model runs as one shared instance, and concurrent requests to it are not modelled. No code in the handler deals with them.
