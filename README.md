# KittenTTS web UI — a verified model of its core

KittenTTS web UI is a small text-to-speech front end. A Next.js page lets the
user type text, pick a model and a voice, generate speech from a FastAPI
backend, and play, pause, resume and download the result. A same-origin proxy
route forwards synthesis requests to the backend under a deadline. The
backend validates the model and voice against its catalogs and caches loaded
models.

This project models three pieces of that system in Dafny and proves their
properties:

- `playback.dfy` (module `Playback`): the page's session controller, the
  `Home` component of `nextjs_website/app/page.tsx`. The state machine is
  given twice. The `Session` datatype and its `After…` transition functions
  are the specification. The class `Home` holds the same state in fields
  (`audioUrl`, `isPlaying`, `loading`, `error`, `audioRef` and the inputs),
  and each of its handlers is proved to make exactly the matching transition
  and to keep the invariant.
  - Object URLs and players are abstract handles, numbered in order of
    creation.
  - A ghost set `liveUrls` holds the URLs created and not yet revoked.
  - A ghost set `sounding` holds the players producing sound.
  - `handleGenerate` is split at its `await` into `BeginGenerate` and
    `FinishGenerate`, so input edits can happen while the request is in
    flight, as they can in the page. The fetch's outcome is a parameter.
- `tts_proxy.dfy` (module `TtsProxy`): the route `GET /api/tts` of
  `nextjs_website/app/api/tts/route.ts`.
  - `URLSearchParams` is modelled as a list of name/value pairs, with `get`
    (`Lookup`) and `set` (`SetParam`).
  - `BuildOutboundParams` performs the handler's `set` calls in order.
  - `HandleGet` is the handler as a total function. It takes the query and
    the outcome of the backend fetch, and returns the query it forwarded
    (if any) with the response.
- `tts_backend.dfy` (module `TtsBackend`): `python_backend/main.py`. It
  covers the catalogs, `list_models`/`list_voices`, the validation that
  `text_to_speech` does first, and `get_model`'s cache. The cache lives in
  the class `TtsService` as a map. The synthesis engine is opaque.
- `catalog_agreement.dfy` (module `CatalogAgreement`): the page's drop-down
  catalogs agree with the backend's, so every offered selection passes
  validation.
- `wrappers.dfy`: `Option` and `Bytes`.

Two facts of the code are modelled as written:

- The page fetches the backend directly (`page.tsx:5`, `:130`). It does not
  go through the proxy route, so the two are modelled separately.
- There is no request-sequence token. An input edit during a generation does
  not discard that generation's result (`EditDuringGenerationKeepsResult`).

The proxy does not trim `text`, so whitespace-only text is forwarded
(`WhitespaceTextIsForwarded`). The deadline `TimeoutMs` is declared as
`5 * 60 * 1000` milliseconds, as in the route.

## Model

| member | source | states |
|---|---|---|
| `Playback.Initial` | nextjs_website/app/page.tsx:100-107 | The first-render state (empty text, first catalog model, voice "Jasper", no audio, no error) satisfies the session invariant. |
| `Playback.GenerateRequest` | nextjs_website/app/page.tsx:123-129 | The request text is never empty. It is the typed text when there is one and exactly the default sentence when the text is empty. The selected voice and model are sent unchanged. |
| `Playback.FailureMessage` | nextjs_website/app/page.tsx:131-144 | On a non-ok response, the error is the body's non-empty `detail`, else "TTS generation failed". On a thrown failure, it is the error's message, else "Failed to generate audio. Is the backend running?". |
| `Playback.DownloadLinkOf` | nextjs_website/app/page.tsx:178-184 | A download link exists exactly when there is an audio URL. Its href is that URL and its filename is "output.wav". |
| `Playback.ClearAudioReleasesEverything` | nextjs_website/app/page.tsx:109-120 | After `clearAudio`: no player, not playing, no audio URL. No unrevoked URL and no sounding player remain. Inputs, `loading` and `error` are unchanged. |
| `Playback.StepKeepsInv` | nextjs_website/app/page.tsx:109-184 | Every UI event keeps the invariant: playing implies a player; a player implies an audio URL, which is its source; the only live URL is `audioUrl`; only the current player sounds, and only while playing; loading implies no audio and no error. |
| `Playback.RunKeepsInv` | nextjs_website/app/page.tsx:109-184 | Every sequence of UI events keeps the invariant (induction over the events). |
| `Playback.AtMostOneLiveUrl` | nextjs_website/app/page.tsx:116-138 | In a consistent state, at most one object URL is unrevoked and it is the current `audioUrl`. At most one player sounds. |
| `Playback.NoUrlLeaks` | nextjs_website/app/page.tsx:109-184 | From the first render, whatever the user does, the invariant holds and at most one object URL is live. |
| `Playback.InputEditDropsAudio` | nextjs_website/app/page.tsx:211-244 | Editing the text, model or voice stores the new value and leaves no URL, player, live URL or sounding player. `loading` and `error` are untouched. |
| `Playback.GenerateStartReleasesPrevious` | nextjs_website/app/page.tsx:122-126 | Starting a generation sets `loading`, clears `error`, and releases the previous audio and player before the request is built. The request is the one the pre-click state determines. |
| `Playback.FetchSettledOutcomes` | nextjs_website/app/page.tsx:128-147 | After the fetch settles, `loading` is false. Success yields a URL for exactly the fetched bytes, numbered with the counter's value before the step, the only live one, with no error. Together with `RunNeverRewindsCounters` this number was never given to an earlier URL. Failure sets the derived error and leaves no audio. |
| `Playback.StepNeverRewindsCounters` | nextjs_website/app/page.tsx:137 | No event lowers the count of object URLs or players created. |
| `Playback.RunNeverRewindsCounters` | nextjs_website/app/page.tsx:168 | Over any sequence of events both counters only grow, so each new URL or player gets a number no earlier one had. |
| `Playback.ToggleWithoutAudioIsNoOp` | nextjs_website/app/page.tsx:150-151 | Play/pause without an audio URL changes nothing. |
| `Playback.PauseThenResumeRestores` | nextjs_website/app/page.tsx:153-165 | Pausing keeps the same player and stops its sound. Resuming restores exactly the pre-pause state, with no new player created. |
| `Playback.FirstPlayCreatesOnePlayer` | nextjs_website/app/page.tsx:167-171 | With audio and no player, play creates exactly one new player bound to the audio URL and starts it. |
| `Playback.EndedKeepsAudioForReplayAndDownload` | nextjs_website/app/page.tsx:172-175 | End of audio stops playback and drops the player but keeps the URL. Download still offers the same link, and the next play creates a fresh player for it. |
| `Playback.DownloadChangesNothing` | nextjs_website/app/page.tsx:178-184 | In the event model, a download click is the identity step. The component-level guarantee is that `Home.HandleDownload` has no `modifies` clause. |
| `Playback.GeneratedAudioIsDownloadable` | nextjs_website/app/page.tsx:122-184 | Generate, then a successful fetch: download offers exactly the fetched bytes as "output.wav". |
| `Playback.EditDuringGenerationKeepsResult` | nextjs_website/app/page.tsx:122-147 | For any text, model or voice edit made while a generation is in flight, the generation is neither cancelled nor discarded. After a successful fetch its bytes are the current audio, `loading` is false, there is no error, and the session holds the edited value with the other inputs unchanged. |
| `Playback.Home.constructor` | nextjs_website/app/page.tsx:100-107 | The component starts in the first-render state. |
| `Playback.Home.ClearAudio` | nextjs_website/app/page.tsx:109-120 | Pauses and drops the player, clears `isPlaying`, revokes and drops the URL: exactly `AfterClearAudio`. |
| `Playback.Home.OnTextChange` | nextjs_website/app/page.tsx:211 | Stores the text, then clears the audio; keeps the invariant. |
| `Playback.Home.OnModelChange` | nextjs_website/app/page.tsx:225 | Stores the model, then clears the audio; keeps the invariant. |
| `Playback.Home.OnVoiceChange` | nextjs_website/app/page.tsx:244 | Stores the voice, then clears the audio; keeps the invariant. |
| `Playback.Home.BeginGenerate` | nextjs_website/app/page.tsx:122-130 | Not while loading (the button is disabled then). Sets `loading`, clears `error`, clears the audio, and returns the request `GenerateRequest` describes. |
| `Playback.Home.FinishGenerate` | nextjs_website/app/page.tsx:130-147 | Applies the fetch outcome: a new object URL, or the error message. Ends `loading` and keeps the invariant. |
| `Playback.Home.TogglePlayback` | nextjs_website/app/page.tsx:150-176 | No-op without audio. Otherwise pause, resume, or create-and-play: exactly `AfterToggle`; keeps the invariant. |
| `Playback.Home.OnEnded` | nextjs_website/app/page.tsx:172-175 | Clears `isPlaying` and drops the player, keeping the URL; keeps the invariant. |
| `Playback.Home.HandleDownload` | nextjs_website/app/page.tsx:178-184 | Returns a link exactly when there is an audio URL (that URL, named "output.wav"). It has no `modifies` clause, so it cannot change any field. |
| `TtsProxy.SetParamLookup` | nextjs_website/app/api/tts/route.ts:18-21 | After `params.set(name, value)`, `get(name)` is `value` and every other name reads as before. |
| `TtsProxy.SetParamAppends` | nextjs_website/app/api/tts/route.ts:18-21 | `set` on a name not yet present appends the pair at the end. |
| `TtsProxy.OutboundParams` | nextjs_website/app/api/tts/route.ts:18-21 | The forwarded query starts with `text`. It has one more pair each for a non-empty `voice` and a non-empty `model`. |
| `TtsProxy.BuildOutboundParams` | nextjs_website/app/api/tts/route.ts:18-21 | The handler's three conditional `set` calls on an empty query build exactly `OutboundParams`. |
| `TtsProxy.OutboundParamsForwardFaithfully` | nextjs_website/app/api/tts/route.ts:18-21 | The backend sees `text` unchanged, and `voice`/`model` exactly when they are non-empty, with values unchanged. No other name is sent. |
| `TtsProxy.Translate` | nextjs_website/app/api/tts/route.ts:33-56 | Abort gives 504 with the timeout detail. Any other failure gives 502 with the unreachable detail. An ok response gives 200 with the backend's bytes, `audio/wav` and `attachment; filename="output.wav"`. A non-ok response keeps the backend's status and JSON, or `{detail: "Backend error"}` if the JSON does not parse. |
| `TtsProxy.HandleGet` | nextjs_website/app/api/tts/route.ts:8-57 | Total. Missing or empty `text` gives 400 "Missing 'text' parameter" with no backend call. Otherwise exactly one query (`OutboundParams` of the inbound values) is forwarded and the outcome is translated. |
| `TtsProxy.SuccessIffBackendAudio` | nextjs_website/app/api/tts/route.ts:14-45 | The proxy answers 2xx exactly when `text` was given and the backend answered 2xx. Such an answer is always the audio response with the backend's bytes, unchanged. |
| `TtsProxy.ErrorDetailsDistinct` | nextjs_website/app/api/tts/route.ts:15-56 | The missing-text, timeout, unreachable and "Backend error" details are pairwise distinct. |
| `TtsProxy.WhitespaceTextIsForwarded` | nextjs_website/app/api/tts/route.ts:14-19 | `text` is not trimmed. Any non-empty text made only of spaces, tabs, line feeds or carriage returns is forwarded unchanged. |
| `TtsBackend.Validate` | python_backend/main.py:55-58 | A request passes iff its model and voice are both in the catalogs. An unknown model gives 400 "Unknown model: {model}", checked first. With a known model, an unknown voice gives 400 "Unknown voice: {voice}". |
| `TtsBackend.DefaultsPassValidation` | python_backend/main.py:20-58 | The default voice "Jasper" and default model "KittenML/kitten-tts-mini-0.8" pass validation. |
| `TtsBackend.ModelCheckedBeforeVoice` | python_backend/main.py:55-58 | With both model and voice unknown, the error reports the model. |
| `TtsBackend.ListModels` | python_backend/main.py:39-41 | `{"models": …}` lists exactly the models that validation accepts. |
| `TtsBackend.ListVoices` | python_backend/main.py:44-46 | `{"voices": …}` lists exactly the voices that validation accepts. |
| `TtsBackend.TtsService.constructor` | python_backend/main.py:30 | The model cache starts empty. |
| `TtsBackend.TtsService.GetModel` | python_backend/main.py:33-36 | Afterwards the name is cached and the cached engine is returned. A cached name returns the same engine and constructs nothing. Otherwise exactly one engine is built and added. No other entry changes. |
| `TtsBackend.TtsService.TextToSpeech` | python_backend/main.py:49-73 | Applies the defaults, then validates. A rejected request returns the 400 error and leaves the cache untouched. An accepted one uses the cached engine and answers `audio/wav` named "output.wav". It changes only the entry for its model: an already cached model leaves the cache and the engine count unchanged, and an uncached one adds exactly one engine. Cache keys stay within `AVAILABLE_MODELS`. |
| `CatalogAgreement.CatalogsAgree` | nextjs_website/app/page.tsx:7-26 | The page's model values and voices equal the backend's catalogs, entry for entry. |
| `CatalogAgreement.OfferedSelectionsAccepted` | python_backend/main.py:20-58 | Every model and voice the drop-downs offer passes backend validation. |
| `CatalogAgreement.GenerateRequestAccepted` | nextjs_website/app/page.tsx:129 | A page request whose selections came from the drop-downs passes backend validation. |
| `CatalogAgreement.InitialSelectionsAccepted` | nextjs_website/app/page.tsx:101-102 | The first-render model and voice are offered by the drop-downs and pass backend validation. |

## Left out

- Speech synthesis is opaque. Building a `KittenTTS` model gives an `Engine` handle. `generate` gives a `Synthesis` record of the engine, text and voice. The float audio and the 24000 Hz WAV writing are not modelled.
- `TtsBackend.TtsService.GetModel`: requests are modelled one at a time. FastAPI runs `text_to_speech` on a thread pool, and two concurrent first requests for one model can both pass the check at `python_backend/main.py:34` and both construct at `:35`; the second construction replaces the first entry. That interleaving is not modelled.
- `TtsBackend.TtsService.GetModel` and `TextToSpeech`: constructing an engine (`python_backend/main.py:35`) and `generate` (`:61`) never fail in the model. In the service either can raise, which answers 500 and leaves the cache as it was.
- Temporary files and their deletion after the response (`_cleanup_task`) are not modelled: they are filesystem I/O and run after the response.
- CORS middleware, uvicorn startup and `python_backend/precache_models.py` are framework setup and a download script.
- A `/tts` request without `text` is rejected by FastAPI's parameter handling (422) before `text_to_speech` runs. That framework behaviour is not modelled, so `TextToSpeech` takes `text` as given.
- Network calls, `setTimeout`/`AbortController`/`clearTimeout` and body reading are not performed. Their result is the `BackendOutcome` or `FetchOutcome` parameter. `TimeoutMs` is declared, but no clock is modelled.
- A failure reading the body of an ok response is expressed as `Failed` in the proxy and `FetchThrew` in the page.
- Serialising the query (`URLSearchParams.toString`, percent-encoding) and building the backend URL from `BACKEND_URL` or the environment are not modelled. The forwarded query is kept as name/value pairs.
- JSON responses of the proxy carry only status and body. The `Content-Type: application/json` header that `NextResponse.json` adds is not modelled.
- A backend status is passed through as any integer. The range `NextResponse` accepts is not modelled. A backend that itself answers 502 or 504 therefore yields the same status as the proxy's own 502/504, and only the detail differs.
- `Playback.FailureMessage`: the page's `detail` is taken to be a string or absent. A non-string `detail`, such as the list FastAPI sends with a 422, is converted to text by `new Error(…)`; this is not modelled.
- A player's playback position (pause keeps it, `clearAudio` rewinds to 0 before dropping the player) is not modelled. Players are tracked only as created, current and sounding.
- JSX, icons and styling are not modelled. One rendering fact is kept: Generate is disabled while `loading`, which becomes `BeginGenerate`'s precondition and the no-op for `GenerateClicked` in `Step`. `nextjs_website/app/layout.tsx` is not part of this model.
- React batching and closure capture are not modelled. Each state setter is an immediate field update.
- The drop-downs produce only catalog values. `OnModelChange`/`OnVoiceChange` still accept any string. The catalog lemmas take "came from a drop-down" as their hypothesis.
