/**
  The same-origin proxy route `GET /api/tts` of the web site
  (nextjs_website/app/api/tts/route.ts).

  The handler reads `text`, `voice` and `model` from the query string, rejects
  a missing or empty `text` without contacting the backend, otherwise forwards
  one request to the backend under a deadline and translates what happened
  (a response, an abort at the deadline, any other failure) into one
  normalised response. The network call itself is not modelled: its outcome
  is a parameter, and the handler reports the query it would have forwarded.
 */
module TtsProxy {
  import opened Wrappers

  /** The deadline for the backend call: five minutes, in milliseconds. */
  const TimeoutMs: nat := 5 * 60 * 1000

  const MissingTextDetail := "Missing 'text' parameter"
  const BackendErrorDetail := "Backend error"
  const TimeoutDetail := "Request timed out. The model may still be loading."
  const UnreachableDetail := "Cannot reach the TTS backend. Is it running?"

  const AudioContentType := "audio/wav"
  const AudioDisposition := "attachment; filename=\"output.wav\""

  // ---------------------------------------------------------------------------
  // Query strings (URLSearchParams)
  // ---------------------------------------------------------------------------

  /** One `name=value` pair of a query string, in order of appearance. */
  datatype Param = Param(name: string, value: string)

  /** `URLSearchParams.get`: the value of the first pair with that name. */
  function Lookup(ps: seq<Param>, name: string): Option<string>
  {
    if ps == [] then None
    else if ps[0].name == name then Some(ps[0].value)
    else Lookup(ps[1..], name)
  }

  /** The pairs of `ps` whose name is not `name`, in order. */
  function RemoveNamed(ps: seq<Param>, name: string): (r: seq<Param>)
    ensures forall i :: 0 <= i < |r| ==> r[i].name != name
  {
    if ps == [] then []
    else (if ps[0].name == name then [] else [ps[0]]) + RemoveNamed(ps[1..], name)
  }

  /**
    `URLSearchParams.set`: the first pair with that name gets the new value and
    any later pairs with that name are removed; without such a pair, the pair
    is appended.
   */
  function SetParam(ps: seq<Param>, name: string, value: string): seq<Param>
  {
    if ps == [] then [Param(name, value)]
    else if ps[0].name == name then [Param(name, value)] + RemoveNamed(ps[1..], name)
    else [ps[0]] + SetParam(ps[1..], name, value)
  }

  lemma {:induction false} LookupRemoveNamed(ps: seq<Param>, name: string, other: string)
    requires other != name
    ensures Lookup(RemoveNamed(ps, name), other) == Lookup(ps, other)
  {
    if ps != [] {
      LookupRemoveNamed(ps[1..], name, other);
      var rest := RemoveNamed(ps[1..], name);
      if ps[0].name == name {
        assert RemoveNamed(ps, name) == rest;
      } else {
        assert RemoveNamed(ps, name) == [ps[0]] + rest;
        assert ([ps[0]] + rest)[1..] == rest;
      }
    }
  }

  /** After `set(name, value)`, `get(name)` is `value` and every other name reads as before. */
  lemma {:induction false} SetParamLookup(ps: seq<Param>, name: string, value: string, other: string)
    ensures Lookup(SetParam(ps, name, value), name) == Some(value)
    ensures other != name ==> Lookup(SetParam(ps, name, value), other) == Lookup(ps, other)
  {
    if ps == [] {
    } else if ps[0].name == name {
      var r := [Param(name, value)] + RemoveNamed(ps[1..], name);
      assert r[1..] == RemoveNamed(ps[1..], name);
      if other != name {
        LookupRemoveNamed(ps[1..], name, other);
      }
    } else {
      SetParamLookup(ps[1..], name, value, other);
      var r := [ps[0]] + SetParam(ps[1..], name, value);
      assert r[1..] == SetParam(ps[1..], name, value);
    }
  }

  /** On a name not yet present, `set` appends the pair at the end. */
  lemma {:induction false} SetParamAppends(ps: seq<Param>, name: string, value: string)
    requires forall i :: 0 <= i < |ps| ==> ps[i].name != name
    ensures SetParam(ps, name, value) == ps + [Param(name, value)]
  {
    if ps != [] {
      SetParamAppends(ps[1..], name, value);
      assert ps == [ps[0]] + ps[1..];
    }
  }

  /** JavaScript truthiness of a query value that may be `null`: present and non-empty. */
  predicate Present(v: Option<string>) {
    v.Some? && v.value != ""
  }

  /**
    The query forwarded to the backend: `text` first, then `voice` and `model`
    only when they are non-empty, each value unchanged.
   */
  function OutboundParams(text: string, voice: Option<string>, model: Option<string>): (ps: seq<Param>)
    ensures |ps| == 1 + (if Present(voice) then 1 else 0) + (if Present(model) then 1 else 0)
    ensures ps[0] == Param("text", text)
  {
    [Param("text", text)]
    + (if Present(voice) then [Param("voice", voice.value)] else [])
    + (if Present(model) then [Param("model", model.value)] else [])
  }

  /**
    The three `params.set` calls of the handler, run in order on an empty
    query, build exactly `OutboundParams`.
   */
  method BuildOutboundParams(text: string, voice: Option<string>, model: Option<string>)
    returns (params: seq<Param>)
    ensures params == OutboundParams(text, voice, model)
  {
    params := [];
    params := SetParam(params, "text", text);
    if Present(voice) {
      SetParamAppends(params, "voice", voice.value);
      params := SetParam(params, "voice", voice.value);
    }
    if Present(model) {
      assert forall i :: 0 <= i < |params| ==> params[i].name in {"text", "voice"};
      SetParamAppends(params, "model", model.value);
      params := SetParam(params, "model", model.value);
    }
  }

  /**
    What the backend sees: `text` unchanged, `voice` and `model` exactly when
    they were non-empty, with their values unchanged, and no other name.
   */
  lemma OutboundParamsForwardFaithfully(text: string, voice: Option<string>, model: Option<string>)
    ensures Lookup(OutboundParams(text, voice, model), "text") == Some(text)
    ensures Lookup(OutboundParams(text, voice, model), "voice") == (if Present(voice) then voice else None)
    ensures Lookup(OutboundParams(text, voice, model), "model") == (if Present(model) then model else None)
    ensures forall i :: 0 <= i < |OutboundParams(text, voice, model)| ==>
              OutboundParams(text, voice, model)[i].name in {"text", "voice", "model"}
  {
    var ps := OutboundParams(text, voice, model);
    var tail := if Present(model) then [Param("model", model.value)] else [];
    assert Lookup(tail, "voice") == None;
    assert Lookup(tail, "model") == (if Present(model) then model else None);
    if Present(voice) {
      var rest := [Param("voice", voice.value)] + tail;
      assert rest[1..] == tail;
      assert ps[1..] == rest;
    } else {
      assert ps[1..] == tail;
    }
  }

  // ---------------------------------------------------------------------------
  // Backend outcomes and proxy responses
  // ---------------------------------------------------------------------------

  /** A JSON value, as parsed from a body. */
  datatype Json =
    | JNull
    | JBool(b: bool)
    | JNumber(n: int)
    | JString(s: string)
    | JArray(items: seq<Json>)
    | JObject(members: seq<(string, Json)>)

  /** The error body `{ "detail": … }`. */
  function DetailBody(detail: string): Json {
    JObject([("detail", JString(detail))])
  }

  /**
    What the single backend fetch produced:
    - `Responded`: a response arrived; `json` is the result of parsing its body
      as JSON (`None` when parsing failed), `body` its raw bytes;
    - `Aborted`: the deadline fired and the fetch was aborted (`AbortError`);
    - `Failed`: any other thrown failure (connection refused, DNS, reset).
   */
  datatype BackendOutcome =
    | Responded(status: int, json: Option<Json>, body: Bytes)
    | Aborted
    | Failed

  /** `Response.ok`: the status is in the 2xx range. */
  predicate IsOk(status: int) {
    200 <= status <= 299
  }

  /** A response of the proxy: a JSON body, or audio bytes with headers. */
  datatype ProxyResponse =
    | JsonReply(status: int, json: Json)
    | AudioReply(status: int, headers: seq<(string, string)>, audio: Bytes)

  /** The headers of a successful audio response. */
  const AudioHeaders: seq<(string, string)> :=
    [("Content-Type", AudioContentType), ("Content-Disposition", AudioDisposition)]

  /** How the handler turns the backend's outcome into its own response. */
  function Translate(outcome: BackendOutcome): (r: ProxyResponse)
    ensures outcome.Aborted? ==> r == JsonReply(504, DetailBody(TimeoutDetail))
    ensures outcome.Failed? ==> r == JsonReply(502, DetailBody(UnreachableDetail))
    ensures outcome.Responded? && IsOk(outcome.status) ==>
              r == AudioReply(200, AudioHeaders, outcome.body)
    ensures outcome.Responded? && !IsOk(outcome.status) ==>
              r == JsonReply(outcome.status, outcome.json.GetOr(DetailBody(BackendErrorDetail)))
  {
    match outcome
    case Aborted => JsonReply(504, DetailBody(TimeoutDetail))
    case Failed => JsonReply(502, DetailBody(UnreachableDetail))
    case Responded(status, json, body) =>
      if IsOk(status) then AudioReply(200, AudioHeaders, body)
      else JsonReply(status, json.GetOr(DetailBody(BackendErrorDetail)))
  }

  /**
    One invocation of the handler: the query it forwarded to the backend
    (`None` when it made no backend call) and the response it returned.
   */
  datatype Exchange = Exchange(forwarded: Option<seq<Param>>, response: ProxyResponse)

  /**
    The handler `GET`. Total: every query and every backend outcome give
    exactly one response, and at most one query is forwarded. The outcome is
    consulted only when a query was forwarded.
   */
  function HandleGet(query: seq<Param>, outcome: BackendOutcome): (x: Exchange)
    ensures x.forwarded.None? <==> !Present(Lookup(query, "text"))
    ensures x.forwarded.None? ==> x.response == JsonReply(400, DetailBody(MissingTextDetail))
    ensures x.forwarded.Some? ==>
              x.forwarded.value == OutboundParams(Lookup(query, "text").value,
                                                  Lookup(query, "voice"), Lookup(query, "model"))
              && x.response == Translate(outcome)
  {
    var text := Lookup(query, "text");
    if !Present(text) then
      Exchange(None, JsonReply(400, DetailBody(MissingTextDetail)))
    else
      Exchange(Some(OutboundParams(text.value, Lookup(query, "voice"), Lookup(query, "model"))),
               Translate(outcome))
  }

  /** The status of a response. */
  function StatusOf(r: ProxyResponse): int {
    match r
    case JsonReply(status, _) => status
    case AudioReply(status, _, _) => status
  }

  /**
    A success status from the proxy always carries audio, and it happens
    exactly when `text` was given and the backend answered with a 2xx
    status; the audio is then the backend's bytes, unchanged.
   */
  lemma SuccessIffBackendAudio(query: seq<Param>, outcome: BackendOutcome)
    ensures IsOk(StatusOf(HandleGet(query, outcome).response))
            <==> Present(Lookup(query, "text")) && outcome.Responded? && IsOk(outcome.status)
    ensures IsOk(StatusOf(HandleGet(query, outcome).response)) ==>
              HandleGet(query, outcome).response == AudioReply(200, AudioHeaders, outcome.body)
  {
  }

  /**
    The three fixed error details of the handler differ from one another and
    from the substitute for an unparsable backend error, so a caller can tell
    a missing text, a timeout and an unreachable backend apart.
   */
  lemma ErrorDetailsDistinct()
    ensures MissingTextDetail != TimeoutDetail
    ensures MissingTextDetail != UnreachableDetail
    ensures TimeoutDetail != UnreachableDetail
    ensures BackendErrorDetail !in {MissingTextDetail, TimeoutDetail, UnreachableDetail}
  {
  }

  /** JavaScript whitespace of the common kinds: space, tab, line feed, carriage return. */
  predicate IsBlank(t: string) {
    forall i :: 0 <= i < |t| ==> t[i] in " \t\n\r"
  }

  /**
    The handler does not trim `text`: a non-empty text made only of
    whitespace is forwarded, unchanged.
   */
  lemma WhitespaceTextIsForwarded(query: seq<Param>, outcome: BackendOutcome, t: string)
    requires Lookup(query, "text") == Some(t) && |t| > 0 && IsBlank(t)
    ensures HandleGet(query, outcome).forwarded.Some?
    ensures Lookup(HandleGet(query, outcome).forwarded.value, "text") == Some(t)
  {
    OutboundParamsForwardFaithfully(t, Lookup(query, "voice"), Lookup(query, "model"));
  }
}
