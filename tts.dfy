/** Speech synthesis request (`generateTTS`): the prompt check, the language
    derived from the voice id, the endpoint and input sent to the speech
    service, the progress messages passed on, and the check of the reply. */
module Tts {
  import opened Wrappers
  import opened Voices

  /** `languageMap`: voice-id prefix to language. */
  const LanguageMap: map<string, Language> := map[
    "a" := AmericanEnglish, "b" := BritishEnglish, "f" := French, "g" := German,
    "i" := Italian, "p" := Polish, "pt" := Portuguese, "s" := Spanish, "t" := Turkish
  ]

  /** `s.charAt(0)`: the first character as a string, "" for "". */
  function CharAt0(s: string): (r: string)
    ensures |r| <= 1
    ensures r == [] <==> s == []
    ensures s != [] ==> r[0] == s[0]
  {
    if s == [] then "" else [s[0]]
  }

  /** The language of a voice: the table entry for its first character, or
      American English when the table has none. So a voice whose first letter
      is that of a language other than Portuguese is read as that language,
      and any other voice (the empty one included) as American English. */
  function LanguageOf(voice: string): (l: Language)
    ensures voice != [] && voice[0] in {'a', 'b', 'f', 'g', 'i', 'p', 's', 't'} ==>
              Initial(l) == voice[0]
    ensures !(voice != [] && voice[0] in {'a', 'b', 'f', 'g', 'i', 'p', 's', 't'}) ==>
              l == AmericanEnglish
  {
    var key := CharAt0(voice);
    assert voice != [] ==> key == [voice[0]];
    if key in LanguageMap then LanguageMap[key] else AmericanEnglish
  }

  /** The derived language is looked up by at most one character, so the
      two-character key "pt" is never used: no voice is read as Portuguese. */
  lemma PortugueseUnreachable(voice: string)
    ensures LanguageOf(voice) != Portuguese
  {
  }

  /** Every voice starting with 'p', the Portuguese ones included, is read as
      Polish. */
  lemma PVoicesArePolish(voice: string)
    requires voice != [] && voice[0] == 'p'
    ensures LanguageOf(voice) == Polish
  {
    assert CharAt0(voice) == "p";
  }

  /** A voice starting with the letter of a language other than Portuguese
      is read as that language. */
  lemma LanguageOfInitial(l: Language, voice: string)
    requires l != Portuguese && voice != [] && voice[0] == Initial(l)
    ensures LanguageOf(voice) == l
  {
    assert CharAt0(voice) == [Initial(l)];
  }

  /** Every voice of a language other than Portuguese is read back as that
      language. */
  lemma TableVoicesRoundTrip(l: Language, voice: string)
    requires l != Portuguese && voice in VoicesByLanguage(l)
    ensures LanguageOf(voice) == l
  {
    VoiceInitial(l, voice);
    LanguageOfInitial(l, voice);
  }

  /** The Portuguese voices are read as Polish. */
  lemma PortugueseVoicesArePolish(voice: string)
    requires voice in VoicesByLanguage(Portuguese)
    ensures LanguageOf(voice) == Polish
  {
    TableInitials(Portuguese);
    PVoicesArePolish(voice);
  }

  /** The service request: endpoint and the `prompt`/`voice` input. */
  datatype Request = Request(endpoint: string, prompt: string, voice: string)

  const EndpointBase := "fal-ai/kokoro/"

  /** The request built for a non-empty prompt. */
  function BuildRequest(prompt: string, voice: string): (r: Request)
    ensures r.endpoint == EndpointBase + Name(LanguageOf(voice))
    ensures r.prompt == prompt && r.voice == voice
  {
    Request(EndpointBase + Name(LanguageOf(voice)), prompt, voice)
  }

  /** The endpoint names the language: two requests with the same endpoint
      were for voices read as the same language. */
  lemma EndpointDeterminesLanguage(p1: string, v1: string, p2: string, v2: string)
    requires BuildRequest(p1, v1).endpoint == BuildRequest(p2, v2).endpoint
    ensures LanguageOf(v1) == LanguageOf(v2)
  {
    var n1, n2 := Name(LanguageOf(v1)), Name(LanguageOf(v2));
    assert n1 == BuildRequest(p1, v1).endpoint[|EndpointBase|..];
    assert n2 == BuildRequest(p2, v2).endpoint[|EndpointBase|..];
    NameInjective(LanguageOf(v1), LanguageOf(v2));
  }

  /** Queue status of a progress update. */
  datatype Status = InQueue | InProgress | Completed

  /** One queue update; `logs` is `None` when the update carries no logs. */
  datatype QueueUpdate = QueueUpdate(status: Status, logs: Option<seq<string>>)

  /** The messages handed to `onProgress`, in order: every log message of
      every IN_PROGRESS update, nothing when there is no callback. */
  function ProgressMessages(updates: seq<QueueUpdate>, hasCallback: bool): (msgs: seq<string>)
    ensures !hasCallback ==> msgs == []
    ensures forall m :: m in msgs ==>
              exists k :: 0 <= k < |updates| && updates[k].status == InProgress
                          && updates[k].logs.Some? && m in updates[k].logs.value
  {
    if !hasCallback || updates == [] then []
    else
      var first := updates[0];
      var rest := ProgressMessages(updates[1..], hasCallback);
      var msgs := (if first.status == InProgress && first.logs.Some? then first.logs.value else []) + rest;
      assert forall m :: m in rest ==>
               exists k :: 0 <= k < |updates| && updates[k].status == InProgress
                           && updates[k].logs.Some? && m in updates[k].logs.value by {
        forall m | m in rest
          ensures exists k :: 0 <= k < |updates| && updates[k].status == InProgress
                              && updates[k].logs.Some? && m in updates[k].logs.value {
          var k :| 0 <= k < |updates[1..]| && updates[1..][k].status == InProgress
                   && updates[1..][k].logs.Some? && m in updates[1..][k].logs.value;
          assert updates[k + 1] == updates[1..][k];
        }
      }
      msgs
  }

  /** Every log message of every IN_PROGRESS update is passed on. */
  lemma {:induction false} ProgressComplete(updates: seq<QueueUpdate>, k: nat, m: string)
    requires k < |updates| && updates[k].status == InProgress
    requires updates[k].logs.Some? && m in updates[k].logs.value
    ensures m in ProgressMessages(updates, true)
  {
    if k > 0 {
      ProgressComplete(updates[1..], k - 1, m);
    }
  }

  /** Updates that are not IN_PROGRESS contribute nothing. */
  lemma {:induction false} NoProgressOutsideInProgress(updates: seq<QueueUpdate>)
    requires forall k :: 0 <= k < |updates| ==> updates[k].status != InProgress
    ensures ProgressMessages(updates, true) == []
  {
    if updates != [] {
      NoProgressOutsideInProgress(updates[1..]);
    }
  }

  /** The progress messages of a concatenation of update streams concatenate. */
  lemma {:induction false} ProgressAppend(u: seq<QueueUpdate>, w: seq<QueueUpdate>)
    ensures ProgressMessages(u + w, true) == ProgressMessages(u, true) + ProgressMessages(w, true)
  {
    if u == [] {
      assert u + w == w;
    } else {
      assert (u + w)[0] == u[0] && (u + w)[1..] == u[1..] + w;
      ProgressAppend(u[1..], w);
      var h := if u[0].status == InProgress && u[0].logs.Some? then u[0].logs.value else [];
      assert ProgressMessages(u + w, true) == h + ProgressMessages(u[1..] + w, true);
      assert ProgressMessages(u, true) == h + ProgressMessages(u[1..], true);
    }
  }

  /** The service's answer: `audioUrl` is `result.data?.audio?.url`. */
  datatype Response = Response(audioUrl: Option<string>)

  /** What the awaited service call did. */
  datatype CallOutcome = Responded(response: Response) | Threw(error: string)

  const PromptRequired := "Prompt is required"
  const NoAudioUrl := "No audio URL in response"

  /** The url returned for a service answer: the audio url when it is a
      non-empty string, else the "No audio URL" error. */
  function AudioUrl(response: Response): (r: Result<string, string>)
    ensures r.Success? <==> response.audioUrl.Some? && response.audioUrl.value != ""
    ensures r.Success? ==> r.value == response.audioUrl.value
    ensures r.Failure? ==> r.error == NoAudioUrl
  {
    match response.audioUrl
    case Some(url) => if url != "" then Success(url) else Failure(NoAudioUrl)
    case None => Failure(NoAudioUrl)
  }

  /** `generateTTS`: the request sent (`None` when the prompt check failed
      and no service call was made) and the url or error it settles with. */
  function GenerateTts(prompt: string, voice: string, outcome: CallOutcome)
    : (r: (Option<Request>, Result<string, string>))
    ensures prompt == "" ==> r == (None, Failure(PromptRequired))
    ensures prompt != "" ==> r.0 == Some(BuildRequest(prompt, voice))
    ensures prompt != "" && outcome.Threw? ==> r.1 == Failure(outcome.error)
    ensures prompt != "" && outcome.Responded? ==> r.1 == AudioUrl(outcome.response)
    ensures r.1.Success? ==> r.1.value != ""
  {
    if prompt == "" then (None, Failure(PromptRequired))
    else
      var request := BuildRequest(prompt, voice);
      match outcome
      case Threw(e) => (Some(request), Failure(e))
      case Responded(response) => (Some(request), AudioUrl(response))
  }
}
