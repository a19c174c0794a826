/**
  The playback session controller of the home page
  (nextjs_website/app/page.tsx, component `Home`).

  The page keeps the inputs `text`, `model` and `voice`, the flags `loading`
  and `isPlaying`, an `error` message, the object URL `audioUrl` of the last
  generated audio and the player `audioRef`. It fetches audio from the
  backend, turns it into an object URL, plays, pauses, resumes and downloads
  it, and throws it away whenever an input changes.

  Object URLs and players are abstract handles numbered in order of
  creation. Two ghost sets record resources: the object URLs not yet
  revoked (`liveUrls`) and the players currently producing sound
  (`sounding`). The fetch is not performed: its outcome is a parameter.

  `Session` and the `After…` functions are the specification: one function
  per handler, from the state before to the state after. The class `Home`
  holds the same state in fields and its methods are proved to make exactly
  those transitions.
 */
module Playback {
  import opened Wrappers

  // ---------------------------------------------------------------------------
  // Catalogs and fixed texts
  // ---------------------------------------------------------------------------

  /** An entry of the model drop-down. */
  datatype ModelOption = ModelOption(value: string, displayName: string)

  const Models: seq<ModelOption> := [
    ModelOption("KittenML/kitten-tts-mini-0.8", "kitten-tts-mini (80M)"),
    ModelOption("KittenML/kitten-tts-micro-0.8", "kitten-tts-micro (40M)"),
    ModelOption("KittenML/kitten-tts-nano-0.8", "kitten-tts-nano (15M)"),
    ModelOption("KittenML/kitten-tts-nano-0.8-int8", "kitten-tts-nano-int8 (15M)")
  ]

  const Voices: seq<string> := ["Bella", "Jasper", "Luna", "Bruno", "Rosie", "Hugo", "Kiki", "Leo"]

  const InitialVoice := "Jasper"

  /** The sentence synthesised when the text box is empty. */
  const DefaultSentence := "The quick brown fox jumps over the lazy dog"
  const GenerationFailedMessage := "TTS generation failed"
  const BackendDownMessage := "Failed to generate audio. Is the backend running?"
  const DownloadFilename := "output.wav"

  /** The values the model drop-down can produce. */
  predicate IsModelValue(m: string) {
    exists i :: 0 <= i < |Models| && Models[i].value == m
  }

  // ---------------------------------------------------------------------------
  // Handles, outcomes, state
  // ---------------------------------------------------------------------------

  /** An object URL: the n-th one created, referring to a blob. */
  datatype ObjectUrl = ObjectUrl(id: nat, blob: Bytes)

  /** An audio player (`new Audio(src)`): the n-th one created, and its source. */
  datatype Player = Player(id: nat, src: ObjectUrl)

  /**
    How the backend fetch of one generation ended:
    - `FetchOk`: an ok response whose body was read as `blob`;
    - `FetchNotOk`: a non-ok response; `detail` is the `detail` field of its
      JSON body, `None` when the body did not parse or had no such field;
    - `FetchThrew`: the fetch or the body read threw; `message` is the
      thrown value's message when it was an `Error`, `None` otherwise.
   */
  datatype FetchOutcome =
    | FetchOk(blob: Bytes)
    | FetchNotOk(detail: Option<string>)
    | FetchThrew(message: Option<string>)

  /** The query of the backend request: `text`, `voice` and `model`. */
  datatype BackendRequest = BackendRequest(text: string, voice: string, model: string)

  /** The link the download handler clicks: its `href` and `download` name. */
  datatype DownloadLink = DownloadLink(href: ObjectUrl, filename: string)

  /** The state of the page, with the two resource sets and the handle counters. */
  datatype Session = Session(
    text: string,
    model: string,
    voice: string,
    loading: bool,
    error: Option<string>,
    audioUrl: Option<ObjectUrl>,
    isPlaying: bool,
    audioRef: Option<Player>,
    liveUrls: set<ObjectUrl>,
    sounding: set<nat>,
    urlsCreated: nat,
    playersCreated: nat)

  /** The set holding the URL, if any. */
  function UrlSet(u: Option<ObjectUrl>): set<ObjectUrl> {
    if u.Some? then {u.value} else {}
  }

  /**
    The session invariant:
    - playing implies a player, and a player implies an audio URL, which is
      the player's source;
    - the only unrevoked object URL is the current `audioUrl`;
    - the only player producing sound is the current one, and only while
      `isPlaying`;
    - handles in use were created before the counters' current values;
    - while a generation is in flight there is no audio and no error.
   */
  predicate Inv(s: Session) {
    ResourcesTracked(s) && (s.loading ==> s.audioUrl.None? && s.error.None?)
  }

  /** The part of `Inv` about handles and resources. */
  predicate ResourcesTracked(s: Session) {
    (s.isPlaying ==> s.audioRef.Some?)
    && (s.audioRef.Some? ==>
          s.audioUrl.Some? && s.audioRef.value.src == s.audioUrl.value
          && s.audioRef.value.id < s.playersCreated)
    && s.liveUrls == UrlSet(s.audioUrl)
    && s.sounding == (if s.isPlaying then {s.audioRef.value.id} else {})
    && (s.audioUrl.Some? ==> s.audioUrl.value.id < s.urlsCreated)
  }

  /** The state on first render. */
  function Initial(): (s: Session)
    ensures Inv(s)
  {
    Session("", Models[0].value, InitialVoice, false, None, None, false, None, {}, {}, 0, 0)
  }

  // ---------------------------------------------------------------------------
  // The handlers, as transitions
  // ---------------------------------------------------------------------------

  /**
    `clearAudio`: stop and drop the player, clear `isPlaying`, and revoke and
    drop the audio URL.
   */
  function AfterClearAudio(s: Session): Session {
    var stopped :=
      if s.audioRef.Some? then s.(sounding := s.sounding - {s.audioRef.value.id}, audioRef := None)
      else s;
    var idle := stopped.(isPlaying := false);
    if idle.audioUrl.Some? then idle.(liveUrls := idle.liveUrls - {idle.audioUrl.value}, audioUrl := None)
    else idle
  }

  /** The `onChange` handler of the text box. */
  function AfterTextChange(s: Session, text: string): Session {
    AfterClearAudio(s.(text := text))
  }

  /** The `onChange` handler of the model drop-down. */
  function AfterModelChange(s: Session, model: string): Session {
    AfterClearAudio(s.(model := model))
  }

  /** The `onChange` handler of the voice drop-down. */
  function AfterVoiceChange(s: Session, voice: string): Session {
    AfterClearAudio(s.(voice := voice))
  }

  /** `handleGenerate` up to the fetch: set `loading`, clear `error`, clear the audio. */
  function AfterGenerateStart(s: Session): Session {
    AfterClearAudio(s.(loading := true, error := None))
  }

  /**
    The request `handleGenerate` sends: the text, or the default sentence
    when the text box is empty, with the selected voice and model.
   */
  function GenerateRequest(s: Session): (r: BackendRequest)
    ensures r.text != ""
    ensures s.text != "" ==> r.text == s.text
    ensures s.text == "" ==> r.text == DefaultSentence
    ensures r.voice == s.voice && r.model == s.model
  {
    BackendRequest(if s.text == "" then DefaultSentence else s.text, s.voice, s.model)
  }

  /** The message `handleGenerate` shows for a failed fetch. */
  function FailureMessage(outcome: FetchOutcome): (msg: string)
    requires !outcome.FetchOk?
    ensures outcome.FetchNotOk? && outcome.detail.Some? && outcome.detail.value != "" ==>
              msg == outcome.detail.value
    ensures outcome.FetchNotOk? && (outcome.detail.None? || outcome.detail.value == "") ==>
              msg == GenerationFailedMessage
    ensures outcome.FetchThrew? ==> msg == outcome.message.GetOr(BackendDownMessage)
  {
    match outcome
    case FetchNotOk(detail) =>
      if detail.Some? && detail.value != "" then detail.value else GenerationFailedMessage
    case FetchThrew(message) => message.GetOr(BackendDownMessage)
  }

  /**
    `handleGenerate` after the fetch settles: on success a new object URL
    for the blob becomes `audioUrl`; on failure `error` is set; either way
    `loading` ends.
   */
  function AfterFetchSettled(s: Session, outcome: FetchOutcome): Session {
    var settled :=
      match outcome
      case FetchOk(blob) =>
        var url := ObjectUrl(s.urlsCreated, blob);
        s.(audioUrl := Some(url), liveUrls := s.liveUrls + {url}, urlsCreated := s.urlsCreated + 1)
      case _ => s.(error := Some(FailureMessage(outcome)));
    settled.(loading := false)
  }

  /**
    `togglePlayback`: nothing without audio; pause a playing player; resume
    an existing one; otherwise create a player for the audio URL and play it.
   */
  function AfterToggle(s: Session): Session {
    if s.audioUrl.None? then s
    else if s.isPlaying && s.audioRef.Some? then
      s.(sounding := s.sounding - {s.audioRef.value.id}, isPlaying := false)
    else if s.audioRef.Some? then
      s.(sounding := s.sounding + {s.audioRef.value.id}, isPlaying := true)
    else
      var audio := Player(s.playersCreated, s.audioUrl.value);
      s.(audioRef := Some(audio), playersCreated := s.playersCreated + 1,
         sounding := s.sounding + {audio.id}, isPlaying := true)
  }

  /**
    The player's `onended` callback: the player has stopped; clear
    `isPlaying` and drop the player, keeping the audio URL.
   */
  function AfterEnded(s: Session): Session {
    var stopped := if s.audioRef.Some? then s.sounding - {s.audioRef.value.id} else s.sounding;
    s.(isPlaying := false, audioRef := None, sounding := stopped)
  }

  /** `handleDownload`: the link it clicks, if there is audio. It changes no state. */
  function DownloadLinkOf(s: Session): (link: Option<DownloadLink>)
    ensures link.Some? <==> s.audioUrl.Some?
    ensures link.Some? ==> link.value.href == s.audioUrl.value && link.value.filename == "output.wav"
  {
    if s.audioUrl.None? then None else Some(DownloadLink(s.audioUrl.value, DownloadFilename))
  }

  // ---------------------------------------------------------------------------
  // Events and runs
  // ---------------------------------------------------------------------------

  /** Everything that can happen to the page. */
  datatype UiEvent =
    | TextChanged(text: string)
    | ModelChanged(model: string)
    | VoiceChanged(voice: string)
    | GenerateClicked
    | FetchSettled(outcome: FetchOutcome)
    | PlayToggled
    | PlaybackEnded
    | DownloadClicked

  /**
    One event. The Generate button is disabled while `loading`, so a click
    then does nothing; a fetch can settle only while one is in flight.
   */
  function Step(s: Session, e: UiEvent): Session {
    match e
    case TextChanged(t) => AfterTextChange(s, t)
    case ModelChanged(m) => AfterModelChange(s, m)
    case VoiceChanged(v) => AfterVoiceChange(s, v)
    case GenerateClicked => if s.loading then s else AfterGenerateStart(s)
    case FetchSettled(o) => if s.loading then AfterFetchSettled(s, o) else s
    case PlayToggled => AfterToggle(s)
    case PlaybackEnded => AfterEnded(s)
    case DownloadClicked => s
  }

  /** A sequence of events, in order. */
  function Run(s: Session, events: seq<UiEvent>): Session
    decreases |events|
  {
    if events == [] then s else Run(Step(s, events[0]), events[1..])
  }

  // ---------------------------------------------------------------------------
  // Properties
  // ---------------------------------------------------------------------------

  /**
    After `clearAudio` on a consistent state: no player, not playing, no
    audio URL, no unrevoked URL and nothing sounding; the inputs, `loading`
    and `error` are as before.
   */
  lemma ClearAudioReleasesEverything(s: Session)
    requires ResourcesTracked(s)
    ensures var r := AfterClearAudio(s);
            ResourcesTracked(r) && r.audioRef.None? && !r.isPlaying && r.audioUrl.None?
            && r.liveUrls == {} && r.sounding == {}
            && r.text == s.text && r.model == s.model && r.voice == s.voice
            && r.loading == s.loading && r.error == s.error
  {
  }

  /** Every event keeps the invariant. */
  lemma StepKeepsInv(s: Session, e: UiEvent)
    requires Inv(s)
    ensures Inv(Step(s, e))
  {
  }

  /** Every sequence of events keeps the invariant. */
  lemma {:induction false} RunKeepsInv(s: Session, events: seq<UiEvent>)
    requires Inv(s)
    ensures Inv(Run(s, events))
    decreases |events|
  {
    if events != [] {
      StepKeepsInv(s, events[0]);
      RunKeepsInv(Step(s, events[0]), events[1..]);
    }
  }

  /**
    In a consistent state at most one object URL is unrevoked, it is the
    current audio URL, and at most one player is producing sound.
   */
  lemma AtMostOneLiveUrl(s: Session)
    requires Inv(s)
    ensures |s.liveUrls| <= 1 && |s.sounding| <= 1
    ensures forall u :: u in s.liveUrls ==> s.audioUrl == Some(u)
  {
  }

  /** Whatever the user does from the first render, no object URL leaks. */
  lemma NoUrlLeaks(events: seq<UiEvent>)
    ensures Inv(Run(Initial(), events))
    ensures |Run(Initial(), events).liveUrls| <= 1
  {
    RunKeepsInv(Initial(), events);
    AtMostOneLiveUrl(Run(Initial(), events));
  }

  /** Editing the text, the model or the voice leaves no audio reachable. */
  lemma InputEditDropsAudio(s: Session, e: UiEvent)
    requires Inv(s)
    requires e.TextChanged? || e.ModelChanged? || e.VoiceChanged?
    ensures var r := Step(s, e);
            r.audioUrl.None? && r.audioRef.None? && !r.isPlaying
            && r.liveUrls == {} && r.sounding == {}
            && r.loading == s.loading && r.error == s.error
            && r.text == (if e.TextChanged? then e.text else s.text)
            && r.model == (if e.ModelChanged? then e.model else s.model)
            && r.voice == (if e.VoiceChanged? then e.voice else s.voice)
  {
  }

  /**
    Starting a generation sets `loading`, clears `error`, and releases the
    previous audio and player before the request goes out.
   */
  lemma GenerateStartReleasesPrevious(s: Session)
    requires Inv(s) && !s.loading
    ensures var r := AfterGenerateStart(s);
            Inv(r) && r.loading && r.error.None? && r.audioUrl.None? && r.audioRef.None?
            && !r.isPlaying && r.liveUrls == {} && r.sounding == {}
            && GenerateRequest(r) == GenerateRequest(s)
  {
  }

  /**
    However the fetch ends, `loading` is false afterwards. A failure sets
    `error` to the backend's detail, or to the fixed fallback, and leaves no
    audio; a success makes a new object URL for exactly the fetched bytes,
    distinct from every URL created before, and leaves `error` empty.
   */
  lemma FetchSettledOutcomes(s: Session, outcome: FetchOutcome)
    requires Inv(s) && s.loading
    ensures var r := AfterFetchSettled(s, outcome);
            Inv(r) && !r.loading
            && (outcome.FetchOk? ==>
                  r.audioUrl == Some(ObjectUrl(s.urlsCreated, outcome.blob))
                  && r.liveUrls == {r.audioUrl.value} && r.error.None?)
            && (!outcome.FetchOk? ==>
                  r.audioUrl.None? && r.liveUrls == {} && r.error == Some(FailureMessage(outcome)))
  {
  }

  /** No event lowers the handle counters, so a new handle's number was never used before. */
  lemma StepNeverRewindsCounters(s: Session, e: UiEvent)
    ensures Step(s, e).urlsCreated >= s.urlsCreated
    ensures Step(s, e).playersCreated >= s.playersCreated
  {
  }

  /**
    Over any sequence of events the handle counters only grow: every URL
    or player created later has a number larger than any created so far.
   */
  lemma {:induction false} RunNeverRewindsCounters(s: Session, events: seq<UiEvent>)
    ensures Run(s, events).urlsCreated >= s.urlsCreated
    ensures Run(s, events).playersCreated >= s.playersCreated
    decreases |events|
  {
    if events != [] {
      StepNeverRewindsCounters(s, events[0]);
      RunNeverRewindsCounters(Step(s, events[0]), events[1..]);
    }
  }

  /** Play/pause does nothing when there is no audio. */
  lemma ToggleWithoutAudioIsNoOp(s: Session)
    requires s.audioUrl.None?
    ensures AfterToggle(s) == s
  {
  }

  /**
    The first play creates exactly one player, bound to the audio URL, and
    starts it.
   */
  lemma FirstPlayCreatesOnePlayer(s: Session)
    requires Inv(s) && s.audioUrl.Some? && s.audioRef.None?
    ensures var r := AfterToggle(s);
            Inv(r) && r.isPlaying && r.audioRef == Some(Player(s.playersCreated, s.audioUrl.value))
            && r.playersCreated == s.playersCreated + 1 && r.sounding == {s.playersCreated}
            && r.audioUrl == s.audioUrl && r.liveUrls == s.liveUrls
  {
  }

  /**
    Pausing keeps the same player, and resuming then restores exactly the
    state before the pause, without creating a second player.
   */
  lemma PauseThenResumeRestores(s: Session)
    requires Inv(s) && s.isPlaying
    ensures var paused := AfterToggle(s);
            Inv(paused) && !paused.isPlaying && paused.audioRef == s.audioRef
            && paused.sounding == {} && paused.playersCreated == s.playersCreated
            && AfterToggle(paused) == s
  {
  }

  /**
    When the audio ends, playback stops and the player is dropped, but the
    audio URL stays: download still offers it, and the next play creates a
    fresh player for it.
   */
  lemma EndedKeepsAudioForReplayAndDownload(s: Session)
    requires Inv(s) && s.isPlaying
    ensures var r := AfterEnded(s);
            Inv(r) && !r.isPlaying && r.audioRef.None? && r.sounding == {}
            && r.audioUrl == s.audioUrl && r.liveUrls == s.liveUrls
            && DownloadLinkOf(r) == DownloadLinkOf(s)
            && AfterToggle(r).audioRef == Some(Player(s.playersCreated, s.audioUrl.value))
  {
  }

  /** Downloading changes nothing. */
  lemma DownloadChangesNothing(s: Session)
    ensures Step(s, DownloadClicked) == s
  {
  }

  /** After a successful generation, download offers exactly the fetched bytes as `output.wav`. */
  lemma GeneratedAudioIsDownloadable(s: Session, blob: Bytes)
    requires Inv(s) && !s.loading
    ensures var r := Run(s, [GenerateClicked, FetchSettled(FetchOk(blob))]);
            DownloadLinkOf(r).Some?
            && DownloadLinkOf(r).value.href.blob == blob
            && DownloadLinkOf(r).value.filename == "output.wav"
  {
    var settle := FetchSettled(FetchOk(blob));
    var started := Step(s, GenerateClicked);
    GenerateStartReleasesPrevious(s);
    assert Run(s, [GenerateClicked, settle]) == Run(started, [settle]);
    assert Run(started, [settle]) == Step(started, settle);
    FetchSettledOutcomes(started, FetchOk(blob));
  }

  /**
    There is no request sequence token: an edit of the text, the model or
    the voice while a generation is in flight does not cancel or discard
    it, so its result becomes the current audio next to the new inputs.
   */
  lemma EditDuringGenerationKeepsResult(s: Session, edit: UiEvent, blob: Bytes)
    requires Inv(s) && !s.loading
    requires edit.TextChanged? || edit.ModelChanged? || edit.VoiceChanged?
    ensures var r := Run(s, [GenerateClicked, edit, FetchSettled(FetchOk(blob))]);
            r.audioUrl.Some? && r.audioUrl.value.blob == blob && r.error.None? && !r.loading
            && r.text == (if edit.TextChanged? then edit.text else s.text)
            && r.model == (if edit.ModelChanged? then edit.model else s.model)
            && r.voice == (if edit.VoiceChanged? then edit.voice else s.voice)
  {
    var settle := FetchSettled(FetchOk(blob));
    var started := Step(s, GenerateClicked);
    GenerateStartReleasesPrevious(s);
    var edited := Step(started, edit);
    InputEditDropsAudio(started, edit);
    assert Run(s, [GenerateClicked, edit, settle]) == Run(started, [edit, settle]);
    assert Run(started, [edit, settle]) == Run(edited, [settle]);
    assert Run(edited, [settle]) == Step(edited, settle);
    FetchSettledOutcomes(edited, FetchOk(blob));
  }

  // ---------------------------------------------------------------------------
  // The component, with its state held in fields
  // ---------------------------------------------------------------------------

  /** The `Home` component: its state cells, its player ref and its handlers. */
  class Home {
    var text: string
    var model: string
    var voice: string
    var loading: bool
    var error: Option<string>
    var audioUrl: Option<ObjectUrl>
    var isPlaying: bool
    /** `audioRef.current`. */
    var audioRef: Option<Player>
    /** Object URLs and players created so far (the next handle numbers). */
    var urlsCreated: nat
    var playersCreated: nat
    /** Object URLs created and not yet revoked. */
    ghost var liveUrls: set<ObjectUrl>
    /** Players producing sound. */
    ghost var sounding: set<nat>

    /** The state the fields hold. */
    ghost function State(): Session
      reads this
    {
      Session(text, model, voice, loading, error, audioUrl, isPlaying, audioRef,
              liveUrls, sounding, urlsCreated, playersCreated)
    }

    ghost predicate Valid()
      reads this
    {
      Inv(State())
    }

    constructor ()
      ensures Valid() && State() == Initial()
    {
      text, model, voice := "", Models[0].value, InitialVoice;
      loading, error := false, None;
      audioUrl, isPlaying, audioRef := None, false, None;
      urlsCreated, playersCreated := 0, 0;
      liveUrls, sounding := {}, {};
    }

    /** `clearAudio`. It is also run mid-handler, so it does not assume `Valid()`. */
    method ClearAudio()
      modifies this
      ensures State() == AfterClearAudio(old(State()))
    {
      if audioRef.Some? {
        // pause(), rewind, and drop the player
        sounding := sounding - {audioRef.value.id};
        audioRef := None;
      }
      isPlaying := false;
      if audioUrl.Some? {
        // URL.revokeObjectURL(audioUrl)
        liveUrls := liveUrls - {audioUrl.value};
        audioUrl := None;
      }
    }

    /** The text box's `onChange`. */
    method OnTextChange(value: string)
      requires Valid()
      modifies this
      ensures Valid() && State() == AfterTextChange(old(State()), value)
    {
      text := value;
      ClearAudio();
      StepKeepsInv(old(State()), TextChanged(value));
    }

    /** The model drop-down's `onChange`. */
    method OnModelChange(value: string)
      requires Valid()
      modifies this
      ensures Valid() && State() == AfterModelChange(old(State()), value)
    {
      model := value;
      ClearAudio();
      StepKeepsInv(old(State()), ModelChanged(value));
    }

    /** The voice drop-down's `onChange`. */
    method OnVoiceChange(value: string)
      requires Valid()
      modifies this
      ensures Valid() && State() == AfterVoiceChange(old(State()), value)
    {
      voice := value;
      ClearAudio();
      StepKeepsInv(old(State()), VoiceChanged(value));
    }

    /**
      `handleGenerate` up to its `await`: returns the request to send. The
      button is disabled while `loading`, so this never runs then.
     */
    method BeginGenerate() returns (request: BackendRequest)
      requires Valid() && !loading
      modifies this
      ensures Valid() && State() == AfterGenerateStart(old(State()))
      ensures request == GenerateRequest(old(State()))
    {
      var input := if text == "" then DefaultSentence else text;
      loading := true;
      error := None;
      ClearAudio();
      request := BackendRequest(input, voice, model);
      StepKeepsInv(old(State()), GenerateClicked);
    }

    /** `handleGenerate` from its `await` on, once the fetch has settled. */
    method FinishGenerate(outcome: FetchOutcome)
      requires Valid() && loading
      modifies this
      ensures Valid() && State() == AfterFetchSettled(old(State()), outcome)
    {
      match outcome {
        case FetchOk(blob) =>
          // URL.createObjectURL(blob)
          var url := ObjectUrl(urlsCreated, blob);
          urlsCreated := urlsCreated + 1;
          liveUrls := liveUrls + {url};
          audioUrl := Some(url);
        case FetchNotOk(_) =>
          error := Some(FailureMessage(outcome));
        case FetchThrew(_) =>
          error := Some(FailureMessage(outcome));
      }
      loading := false;
      StepKeepsInv(old(State()), FetchSettled(outcome));
    }

    /** `togglePlayback`. */
    method TogglePlayback()
      requires Valid()
      modifies this
      ensures Valid() && State() == AfterToggle(old(State()))
    {
      if audioUrl.None? {
        return;
      }
      if isPlaying && audioRef.Some? {
        // pause, keeping the player to resume
        sounding := sounding - {audioRef.value.id};
        isPlaying := false;
        return;
      }
      if audioRef.Some? {
        // resume the existing player
        sounding := sounding + {audioRef.value.id};
        isPlaying := true;
        return;
      }
      // first play: new Audio(audioUrl)
      var audio := Player(playersCreated, audioUrl.value);
      playersCreated := playersCreated + 1;
      audioRef := Some(audio);
      sounding := sounding + {audio.id};
      isPlaying := true;
    }

    /** The player's `onended` callback. */
    method OnEnded()
      requires Valid()
      modifies this
      ensures Valid() && State() == AfterEnded(old(State()))
    {
      if audioRef.Some? {
        sounding := sounding - {audioRef.value.id};
      }
      isPlaying := false;
      audioRef := None;
    }

    /** `handleDownload`: the link it clicks, if any; the state is not touched. */
    method HandleDownload() returns (link: Option<DownloadLink>)
      ensures link.Some? <==> audioUrl.Some?
      ensures link.Some? ==> link.value == DownloadLink(audioUrl.value, "output.wav")
    {
      if audioUrl.None? {
        return None;
      }
      link := Some(DownloadLink(audioUrl.value, DownloadFilename));
    }
  }
}
