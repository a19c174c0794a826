/**
  The speech-synthesis backend service (python_backend/main.py): its model
  and voice catalogs, the listing endpoints, the request validation that
  `GET /tts` performs before synthesising, and the cache of loaded models.

  The synthesis engine is opaque: constructing a model yields an `Engine`
  handle, and generation yields a `Synthesis` record of what was asked of
  which engine. Writing the WAV file and deleting it afterwards are not
  modelled.
 */
module TtsBackend {
  import opened Wrappers

  /** The model identifiers the service accepts, in listing order. */
  const AvailableModels: seq<string> := [
    "KittenML/kitten-tts-mini-0.8",
    "KittenML/kitten-tts-micro-0.8",
    "KittenML/kitten-tts-nano-0.8",
    "KittenML/kitten-tts-nano-0.8-int8"
  ]

  /** The voice names the service accepts, in listing order. */
  const AvailableVoices: seq<string> :=
    ["Bella", "Jasper", "Luna", "Bruno", "Rosie", "Hugo", "Kiki", "Leo"]

  /** Values used when the query leaves `voice` or `model` out. */
  const DefaultVoice := "Jasper"
  const DefaultModel := "KittenML/kitten-tts-mini-0.8"

  const AudioMediaType := "audio/wav"
  const AudioFilename := "output.wav"

  /** `HTTPException(status_code, detail)`. */
  datatype HttpError = HttpError(status: int, detail: string)

  /**
    The checks `GET /tts` makes before any synthesis: the model first, then
    the voice. `None` means the request passes.
   */
  function Validate(voice: string, model: string): (r: Option<HttpError>)
    ensures r.None? <==> model in AvailableModels && voice in AvailableVoices
    ensures model !in AvailableModels ==> r == Some(HttpError(400, "Unknown model: " + model))
    ensures model in AvailableModels && voice !in AvailableVoices ==>
              r == Some(HttpError(400, "Unknown voice: " + voice))
  {
    if model !in AvailableModels then Some(HttpError(400, "Unknown model: " + model))
    else if voice !in AvailableVoices then Some(HttpError(400, "Unknown voice: " + voice))
    else None
  }

  /** A request that names neither a voice nor a model passes validation. */
  lemma DefaultsPassValidation()
    ensures Validate(DefaultVoice, DefaultModel).None?
  {
  }

  /** When both are unknown, the error names the model. */
  lemma ModelCheckedBeforeVoice(voice: string, model: string)
    requires model !in AvailableModels && voice !in AvailableVoices
    ensures Validate(voice, model) == Some(HttpError(400, "Unknown model: " + model))
  {
  }

  /** The JSON object `{key: values}` returned by a listing endpoint. */
  datatype Listing = Listing(key: string, values: seq<string>)

  /**
    `GET /models`: the listed models are exactly those that validation
    accepts (with any accepted voice).
   */
  function ListModels(): (r: Listing)
    ensures r.key == "models"
    ensures forall m :: m in r.values <==> Validate(DefaultVoice, m).None?
  {
    DefaultsPassValidation();
    Listing("models", AvailableModels)
  }

  /**
    `GET /voices`: the listed voices are exactly those that validation
    accepts (with any accepted model).
   */
  function ListVoices(): (r: Listing)
    ensures r.key == "voices"
    ensures forall v :: v in r.values <==> Validate(v, DefaultModel).None?
  {
    DefaultsPassValidation();
    Listing("voices", AvailableVoices)
  }

  /** A loaded model: the n-th engine constructed, for the named model. */
  datatype Engine = Engine(id: nat, modelName: string)

  /** What one call of the engine's `generate` was asked to synthesise. */
  datatype Synthesis = Synthesis(engine: Engine, text: string, voice: string)

  /** The reply of `GET /tts`: an error, or a file response carrying the audio. */
  datatype TtsReply =
    | Rejected(error: HttpError)
    | FileReply(audio: Synthesis, mediaType: string, filename: string)

  /** The service: its module-level model cache and the engines built so far. */
  class TtsService {
    /** `_model_cache`: model name to loaded engine. */
    var modelCache: map<string, Engine>
    /** How many engines have been constructed (the id of the next one). */
    var constructed: nat

    /** Each cached engine was built for its key, and before the next id. */
    ghost predicate Valid()
      reads this
    {
      forall n :: n in modelCache ==> modelCache[n].modelName == n && modelCache[n].id < constructed
    }

    constructor ()
      ensures Valid()
      ensures modelCache == map[] && constructed == 0
    {
      modelCache := map[];
      constructed := 0;
    }

    /**
      `get_model`: the cached engine for `name`, constructing and caching one
      only when there is none. An existing entry is never replaced or removed
      and other keys are untouched.
     */
    method GetModel(name: string) returns (engine: Engine)
      requires Valid()
      modifies this
      ensures Valid()
      ensures name in modelCache && engine == modelCache[name] && engine.modelName == name
      ensures name in old(modelCache) ==>
                engine == old(modelCache)[name] && modelCache == old(modelCache)
                && constructed == old(constructed)
      ensures name !in old(modelCache) ==>
                engine == Engine(old(constructed), name)
                && modelCache == old(modelCache)[name := engine]
                && constructed == old(constructed) + 1
    {
      if name !in modelCache {
        var built := Engine(constructed, name);
        constructed := constructed + 1;
        modelCache := modelCache[name := built];
      }
      engine := modelCache[name];
    }

    /**
      `GET /tts` with the query's defaults already applied: validation, then
      the cached engine, then generation. A rejected request leaves the cache
      untouched; an accepted one is answered with a WAV file named
      `output.wav`. Since only validated names reach the cache, a cache whose
      keys were all catalog models stays so.
     */
    method TextToSpeech(text: string, voice: Option<string>, model: Option<string>)
      returns (reply: TtsReply)
      requires Valid()
      modifies this
      ensures Valid()
      ensures var v, m := voice.GetOr(DefaultVoice), model.GetOr(DefaultModel);
              match Validate(v, m)
              case Some(err) =>
                reply == Rejected(err) && modelCache == old(modelCache) && constructed == old(constructed)
              case None =>
                m in modelCache
                && reply == FileReply(Synthesis(modelCache[m], text, v), AudioMediaType, AudioFilename)
                && modelCache == old(modelCache)[m := modelCache[m]]
                && (m in old(modelCache) ==>
                      modelCache == old(modelCache) && constructed == old(constructed))
                && (m !in old(modelCache) ==> constructed == old(constructed) + 1)
      ensures (forall n :: n in old(modelCache) ==> n in AvailableModels) ==>
                forall n :: n in modelCache ==> n in AvailableModels
    {
      var v := voice.GetOr(DefaultVoice);
      var m := model.GetOr(DefaultModel);
      var rejection := Validate(v, m);
      if rejection.Some? {
        return Rejected(rejection.value);
      }
      var engine := GetModel(m);
      reply := FileReply(Synthesis(engine, text, v), AudioMediaType, AudioFilename);
    }
  }
}
