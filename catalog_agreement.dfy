/**
  The model and voice catalogs of the page (nextjs_website/app/page.tsx)
  and of the backend (python_backend/main.py) are written out separately.
  They agree, entry for entry, so whatever the drop-downs offer passes the
  backend's validation.
 */
module CatalogAgreement {
  import Playback
  import TtsBackend

  /** The page offers exactly the backend's models and voices, in the same order. */
  lemma CatalogsAgree()
    ensures |Playback.Models| == |TtsBackend.AvailableModels|
    ensures forall i :: 0 <= i < |Playback.Models| ==>
              Playback.Models[i].value == TtsBackend.AvailableModels[i]
    ensures Playback.Voices == TtsBackend.AvailableVoices
  {
  }

  /** Every model and voice the drop-downs offer passes the backend's validation. */
  lemma OfferedSelectionsAccepted(model: string, voice: string)
    requires Playback.IsModelValue(model) && voice in Playback.Voices
    ensures TtsBackend.Validate(voice, model).None?
  {
  }

  /** The request of a session whose selections came from the drop-downs passes validation. */
  lemma GenerateRequestAccepted(s: Playback.Session)
    requires Playback.IsModelValue(s.model) && s.voice in Playback.Voices
    ensures TtsBackend.Validate(Playback.GenerateRequest(s).voice, Playback.GenerateRequest(s).model).None?
  {
  }

  /** The selections on first render are offered by the drop-downs, so they pass too. */
  lemma InitialSelectionsAccepted()
    ensures Playback.IsModelValue(Playback.Initial().model)
    ensures Playback.Initial().voice in Playback.Voices
    ensures TtsBackend.Validate(Playback.Initial().voice, Playback.Initial().model).None?
  {
  }
}
