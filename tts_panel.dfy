/** The speech panel (`TTSPanel.tsx`): whether speech is being generated,
    the audio url shown, the props it was last rendered with, and the
    generate button. Generation is split at its await; the text and voice
    the handler's closure captured at the click are kept for the second
    half, since a render in between brings new props but not a new
    closure. */
module TtsPanel {
  import opened Wrappers
  import Tts
  import Text

  const DefaultText := ""
  const DefaultVoice := "af_nova"

  /** A prop with its default: `undefined` takes the default. */
  function WithDefault(p: Option<string>, default: string): (v: string)
    ensures p.Some? ==> v == p.value
    ensures p.None? ==> v == default
  {
    if p.Some? then p.value else default
  }

  class Panel {
    var text: string
    var voice: string
    var initialAudioUrl: Option<string>
    var isGenerating: bool
    var audioUrl: Option<string>
    // The text and voice of the render whose handler made the last call.
    var callText: string
    var callVoice: string

    /** Mounting: not generating, showing the initial url; the mount run of
        the effect stores that same url again. */
    constructor (text: Option<string>, voice: Option<string>, initialAudioUrl: Option<string>)
      ensures this.text == WithDefault(text, DefaultText)
      ensures this.voice == WithDefault(voice, DefaultVoice)
      ensures this.initialAudioUrl == initialAudioUrl
      ensures !isGenerating && audioUrl == initialAudioUrl
      ensures callText == this.text && callVoice == this.voice
    {
      this.text := WithDefault(text, DefaultText);
      this.voice := WithDefault(voice, DefaultVoice);
      this.initialAudioUrl := initialAudioUrl;
      isGenerating, audioUrl := false, initialAudioUrl;
      callText, callVoice := this.text, this.voice;
    }

    /** A render with new props. The effect runs only when
        `initialAudioUrl` changed, and then stores it only when it is
        truthy. */
    method Rerender(text: Option<string>, voice: Option<string>, initialAudioUrl: Option<string>)
      modifies this
      ensures this.text == WithDefault(text, DefaultText)
      ensures this.voice == WithDefault(voice, DefaultVoice)
      ensures this.initialAudioUrl == initialAudioUrl
      ensures initialAudioUrl != old(this.initialAudioUrl) && Text.Truthy(initialAudioUrl) ==>
                audioUrl == initialAudioUrl
      ensures !(initialAudioUrl != old(this.initialAudioUrl) && Text.Truthy(initialAudioUrl)) ==>
                audioUrl == old(audioUrl)
      ensures isGenerating == old(isGenerating)
      ensures callText == old(callText) && callVoice == old(callVoice)
    {
      this.text := WithDefault(text, DefaultText);
      this.voice := WithDefault(voice, DefaultVoice);
      if initialAudioUrl != this.initialAudioUrl && Text.Truthy(initialAudioUrl) {
        audioUrl := initialAudioUrl;
      }
      this.initialAudioUrl := initialAudioUrl;
    }

    /** `handleGenerateTTS` up to the await: nothing happens for empty
        text; otherwise the generating flag is raised and the call is made
        with the current text and voice. */
    method BeginGenerate() returns (started: bool)
      modifies this
      ensures started <==> text != ""
      ensures started ==> isGenerating
      ensures !started ==> isGenerating == old(isGenerating)
      ensures started ==> callText == text && callVoice == voice
      ensures !started ==> callText == old(callText) && callVoice == old(callVoice)
      ensures audioUrl == old(audioUrl)
      ensures text == old(text) && voice == old(voice) && initialAudioUrl == old(initialAudioUrl)
    {
      started := text != "";
      if started {
        isGenerating := true;
        callText, callVoice := text, voice;
      }
    }

    /** `handleGenerateTTS` after the speech call settles: the outcome is
        that of the call made with the captured text and voice. On success
        the url is stored and handed to `onAudioGenerated`; on failure
        nothing is handed over and the url is kept; the flag is lowered
        either way. */
    method FinishGenerate(outcome: Tts.CallOutcome) returns (notified: Option<string>)
      modifies this
      ensures var r := Tts.GenerateTts(old(callText), old(callVoice), outcome).1;
              && (r.Success? ==> audioUrl == Some(r.value) && notified == Some(r.value))
              && (r.Failure? ==> audioUrl == old(audioUrl) && notified == None)
      ensures !isGenerating
      ensures text == old(text) && voice == old(voice) && initialAudioUrl == old(initialAudioUrl)
      ensures callText == old(callText) && callVoice == old(callVoice)
    {
      var result := Tts.GenerateTts(callText, callVoice, outcome).1;
      if result.Success? {
        audioUrl := Some(result.value);
        notified := Some(result.value);
      } else {
        notified := None;
      }
      isGenerating := false;
    }

    /** The whole handler, reporting the flag while the call is out. */
    method Generate(outcome: Tts.CallOutcome) returns (generatingMeanwhile: bool, notified: Option<string>)
      modifies this
      ensures old(text) == "" ==>
                !generatingMeanwhile && notified == None
                && isGenerating == old(isGenerating) && audioUrl == old(audioUrl)
      ensures old(text) != "" ==> generatingMeanwhile && !isGenerating
      ensures old(text) != "" ==>
                var r := Tts.GenerateTts(old(text), old(voice), outcome).1;
                && (r.Success? ==> audioUrl == Some(r.value) && notified == Some(r.value))
                && (r.Failure? ==> audioUrl == old(audioUrl) && notified == None)
      ensures text == old(text) && voice == old(voice) && initialAudioUrl == old(initialAudioUrl)
    {
      var started := BeginGenerate();
      generatingMeanwhile := isGenerating && started;
      if started {
        notified := FinishGenerate(outcome);
      } else {
        notified := None;
      }
    }

    /** The generate button: `None` while an audio element is shown
        instead, else whether it is disabled. */
    function GenerateButton(): (disabled: Option<bool>)
      reads this
      ensures disabled.Some? <==> !Text.Truthy(audioUrl)
      ensures disabled.Some? ==> (disabled.value <==> isGenerating || text == "")
    {
      if Text.Truthy(audioUrl) then None else Some(isGenerating || text == "")
    }
  }

  /** After a successful generation the button is gone, whatever the
      panel showed before. */
  method GenerateThenButton(text: string, outcome: Tts.CallOutcome) returns (button: Option<bool>)
    ensures Tts.GenerateTts(text, DefaultVoice, outcome).1.Success? ==> button == None
    ensures Tts.GenerateTts(text, DefaultVoice, outcome).1.Failure? ==> button == Some(text == "")
  {
    var panel := new Panel(Some(text), None, None);
    var _, _ := panel.Generate(outcome);
    button := panel.GenerateButton();
  }

  /** A render clearing the text while the call is out does not change what
      the call settles with: the url of the speech for the text of the
      click is still handed over. */
  method RerenderWhileGenerating(outcome: Tts.CallOutcome) returns (notified: Option<string>)
    ensures var r := Tts.GenerateTts("hi", DefaultVoice, outcome).1;
            && (r.Success? ==> notified == Some(r.value))
            && (r.Failure? ==> notified == None)
  {
    var panel := new Panel(Some("hi"), None, None);
    var started := panel.BeginGenerate();
    panel.Rerender(Some(""), None, None);
    notified := panel.FinishGenerate(outcome);
  }
}
