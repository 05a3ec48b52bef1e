# Storyboard generator: a verified model of its core units

The storyboard generator is a browser application. It turns a text prompt into a row of generated images. It can also ask a chat model for a five-scene narrative, synthesise speech for a text, and compose a video clip with an audio track. This project models the program's small self-contained units in Dafny, one module per source file, and proves what each promises:

- `NarrativeGenerator` (`narrativeGenerator.ts`):
  - the table of in-flight narrative requests, a class whose `Request` and `Settle` steps make identical concurrent prompts share one chat call;
  - the validation and shaping of the chat reply;
  - the count check of the expanded prompts;
  - the `Scene N: ` splitter of the story prompts. This is proved sound and complete against the regular expression, with a split-after-join round trip.
- `Voices` (`types.ts`): the language type and the two constant voice tables. The proofs cover the initial-letter discipline, the Polish/Portuguese overlap, distinct menu ids, and the menu listing exactly the per-language voices.
- `Tts` (`tts.ts`): covers these steps:
  - the prompt check;
  - the language derived from a voice id's first character, where the two-letter `pt` key is unreachable;
  - the endpoint and input;
  - the progress messages passed on;
  - the check of the reply.
- `FfmpegCompose` (`ffmpegCompose.ts`): the two-track compose request set up for a 5 or 10 second clip, with a parse-back lemma showing nothing is lost or swapped, and the result check.
- `FalAi` (`falAi.ts`): object-spread merging of the image configuration (defaults, then the custom configuration, then the prompt), the url mapping of the reply, and the `generateImages` alias.
- `App` (`App.tsx`): a class holding the sequence list and the loading flag. Generation is split at its await into a begin step and a finish step. Delete is by index.
- `StoryboardPrompt`, `StoryboardSequence`, `TtsPanel` (the three components): the view-model state of the prompt form, of the prompt editor and image slots, and of the speech panel.
- `Text`: JavaScript's `trim` and `endsWith`. The whitespace test of `trim` is a parameter.
- `Wrappers`: `Option` and `Result`.

External services (the chat model, the fal queue and subscription calls, JSON parsing) are not called. Each operation that awaits one takes what the call produced or threw as a parameter. An async handler is split at its await, and a whole-handler method composes the two halves.

A JavaScript `undefined` is `None`. For object spread, a property is `Absent`, `Undefined` or `Defined(v)`, because a present `undefined` overrides like any other value. JavaScript truthiness is modelled where the code relies on it: an empty string is falsy and an empty array is truthy.

`src/App.tsx:15` appends new sequences at the end of the list, and `src/App.tsx:25` deletes a sequence by its position. The model does the same.

## Model

| member | source | states |
|---|---|---|
| Text.Trim | src/components/StoryboardPrompt.tsx:14 | `trim` returns the infix after the leading white space. Only white space lies on either side of it, it has no white space at either end, and it is empty exactly when the input is all white space |
| Text.TrimIdempotent | src/components/StoryboardPrompt.tsx:14-15 | trimming a trimmed string changes nothing |
| Text.TrimOfTrimmed | src/utils/narrativeGenerator.ts:105 | a string without white space at its ends is its own trim |
| Text.EndsWith | src/components/StoryboardSequence.tsx:100 | `endsWith` holds exactly when the string is some prefix followed by the suffix |
| Voices.Name | src/utils/types.ts:2-11 | every language name is a non-empty run of lower-case letters and hyphens, so it fills one segment of the endpoint path |
| Voices.NameInjective | src/utils/types.ts:2-11 | no two languages share a name |
| Voices.VoicesByLanguage | src/utils/types.ts:42-52 | every language has a non-empty voice list |
| Voices.TableInitials | src/utils/types.ts:43-51 | every voice listed for a language is non-empty and starts with that language's letter: a, b, f, g, i, p, p, s, t |
| Voices.VoiceInitial | src/utils/types.ts:43-51 | any one listed voice starts with its language's letter |
| Voices.PolishIsPortuguese | src/utils/types.ts:48-49 | the Polish and Portuguese lists are the same list |
| Voices.MenuIsBlocks | src/utils/types.ts:54-91 | the voice menu is, in order, the per-language blocks of options, with a single block of `p` voices |
| Voices.Ids | src/utils/types.ts:54-91 | the ids of a list of options, position by position |
| Voices.BlockIsTable | src/utils/types.ts:42-91 | each menu block lists exactly its language's voices, in table order |
| Voices.MenuIsTableOrder | src/utils/types.ts:42-91 | the menu's ids are the per-language lists concatenated in table order, Portuguese once through Polish |
| Voices.MenuMatchesTables | src/utils/types.ts:42-91 | an id is in the menu if and only if it is in some language's list |
| Voices.TableDistinct | src/utils/types.ts:42-52 | no language's list repeats a voice |
| Voices.TableVoicesDistinct | src/utils/types.ts:42-52 | across the eight distinct lists no voice occurs twice |
| Voices.MenuIdsDistinct | src/utils/types.ts:54-91 | the menu's ids are pairwise distinct |
| Tts.CharAt0 | src/utils/tts.ts:45 | `charAt(0)` gives at most one character: the first, or "" exactly for "" |
| Tts.PortugueseUnreachable | src/utils/tts.ts:40-45 | no voice is read as Portuguese, since the lookup key has at most one character and `pt` has two |
| Tts.PVoicesArePolish | src/utils/tts.ts:39-45 | every voice starting with `p` is read as Polish |
| Tts.LanguageOf | src/utils/tts.ts:33-45 | a voice starting with a table letter is read as the language with that letter; any other voice, the empty one included, is read as American English |
| Tts.LanguageOfInitial | src/utils/tts.ts:33-45 | a voice starting with the letter of a language other than Portuguese is read as that language |
| Tts.TableVoicesRoundTrip | src/utils/tts.ts:45 | every voice listed under a language other than Portuguese is read back as that language |
| Tts.PortugueseVoicesArePolish | src/utils/tts.ts:39-45 | the voices listed under Portuguese are read as Polish |
| Tts.BuildRequest | src/utils/tts.ts:49-53 | the endpoint is `fal-ai/kokoro/` followed by the derived language's name, and the input carries the prompt and voice unchanged |
| Tts.EndpointDeterminesLanguage | src/utils/tts.ts:49 | two requests with the same endpoint were for voices read as the same language |
| Tts.ProgressMessages | src/utils/tts.ts:55-59 | no callback means no messages, and every message passed on is a log message of an IN_PROGRESS update |
| Tts.ProgressComplete | src/utils/tts.ts:56-57 | every log message of every IN_PROGRESS update is passed on |
| Tts.NoProgressOutsideInProgress | src/utils/tts.ts:56 | updates that are not IN_PROGRESS pass nothing on |
| Tts.ProgressAppend | src/utils/tts.ts:55-59 | the messages of two update streams in sequence are the two message lists in sequence |
| Tts.AudioUrl | src/utils/tts.ts:62-66 | the reply succeeds if and only if its audio url is a non-empty string, which is then returned; otherwise it fails with "No audio URL in response" |
| Tts.GenerateTts | src/utils/tts.ts:23-70 | an empty prompt fails with "Prompt is required" and no request is made. Otherwise the request is `BuildRequest`'s, a thrown error is rethrown unchanged and the reply is checked. A returned url is never empty |
| NarrativeGenerator.AppendSuffix | src/utils/narrativeGenerator.ts:65-67 | same length and order, each prompt followed by the fixed style suffix |
| NarrativeGenerator.SuffixRoundTrip | src/utils/narrativeGenerator.ts:65-67 | every shaped prompt ends with the suffix, and removing it gives back the reply's prompts |
| NarrativeGenerator.ShapeReply | src/utils/narrativeGenerator.ts:59-69 | success if and only if the narrative is a non-empty string and there are exactly five image prompts. Success gives the narrative, five empty dialogues and the suffixed prompts; failure gives "Invalid response format from OpenAI" |
| NarrativeGenerator.Settlement | src/utils/narrativeGenerator.ts:57-72 | whenever the request rejects, it rejects with an `Error`: a parsed reply is shaped, a thrown `Error` keeps its message, and any other thrown value becomes "Failed to generate narrative" |
| NarrativeGenerator.PendingRequests.constructor | src/utils/narrativeGenerator.ts:10 | the table starts empty, with no call made and nothing settled |
| NarrativeGenerator.PendingRequests.Request | src/utils/narrativeGenerator.ts:20-82 | a prompt already in flight gets that same request and no new call. Otherwise one call is made and registered under the exact prompt string. The table invariant is kept |
| NarrativeGenerator.PendingRequests.Settle | src/utils/narrativeGenerator.ts:73-76 | on success or failure, settling records the outcome and removes the prompt's entry. Nothing else changes |
| NarrativeGenerator.PendingRequests.Observed | src/utils/narrativeGenerator.ts:21-24 | every awaiting caller sees the recorded outcome once the request has settled, and nothing before |
| NarrativeGenerator.SharedRequest | src/utils/narrativeGenerator.ts:18-83 | three identical prompts before settling share one request and one call, and all observe its outcome. The same prompt after settling starts a second call |
| NarrativeGenerator.ExpandedPrompts | src/utils/narrativeGenerator.ts:134-144 | success if and only if `prompts` is present (an empty array counts) and has exactly `count` elements, and then it is returned unchanged. A thrown error is rethrown unchanged |
| NarrativeGenerator.ExpandedPromptsNegativeCount | src/utils/narrativeGenerator.ts:136 | a negative count always fails |
| NarrativeGenerator.DigitRun | src/utils/narrativeGenerator.ts:104 | the maximal run of digits from a position |
| NarrativeGenerator.MarkerAt | src/utils/narrativeGenerator.ts:104 | a match of `Scene \d+: ` is at least nine characters long and lies within the string |
| NarrativeGenerator.MarkerAtSound | src/utils/narrativeGenerator.ts:104 | what the matcher finds is a word of `Scene \d+: ` |
| NarrativeGenerator.MarkerAtComplete | src/utils/narrativeGenerator.ts:104 | every word of `Scene \d+: ` at the start of a string is the match found, so the match is unique |
| NarrativeGenerator.FindMarker | src/utils/narrativeGenerator.ts:104 | the leftmost match position at or after a start, or the end when there is none |
| NarrativeGenerator.Split | src/utils/narrativeGenerator.ts:104 | `split` always returns at least one piece, and the first piece is a prefix of the content |
| NarrativeGenerator.SplitPiecesHaveNoMarker | src/utils/narrativeGenerator.ts:104 | no piece of the split contains a match |
| NarrativeGenerator.SplitStep | src/utils/narrativeGenerator.ts:104 | the split cuts at the first marker: a marker-free head, a marker, then the split of the rest |
| NarrativeGenerator.SplitJoin | src/utils/narrativeGenerator.ts:104 | splitting `head Scene n1: t1 Scene n2: t2 …` gives back the head and the texts, in order, when none contains a marker |
| NarrativeGenerator.NonEmpty | src/utils/narrativeGenerator.ts:104 | `filter(Boolean)` keeps exactly the non-empty pieces |
| NarrativeGenerator.NonEmptyAppend | src/utils/narrativeGenerator.ts:104 | the filter keeps order: it distributes over concatenation |
| NarrativeGenerator.TrimAll | src/utils/narrativeGenerator.ts:105 | position by position, every piece is trimmed |
| NarrativeGenerator.StoryPrompts | src/utils/narrativeGenerator.ts:104-105 | missing content gives no prompts, and every prompt returned is trimmed |
| NarrativeGenerator.StoryPromptsOfScenes | src/utils/narrativeGenerator.ts:104-105 | a reply of the form `Scene 1: t1 Scene 2: t2 …` with trimmed, non-empty texts gives exactly those texts, in order |
| NarrativeGenerator.StoryPromptsWithBlankPreamble | src/utils/narrativeGenerator.ts:104-105 | white space before the first marker survives the filter and becomes an empty first prompt |
| FfmpegCompose.DurationMs | src/utils/ffmpegCompose.ts:75 | the keyframe duration is the clip length in whole milliseconds: 5000 or 10000 |
| FfmpegCompose.BuildRequest | src/utils/ffmpegCompose.ts:78-105 | exactly two tracks, `video` and then `audio`. Each has one keyframe at 0 lasting the clip, playing the input's video and the input's audio respectively |
| FfmpegCompose.ParseBuild | src/utils/ffmpegCompose.ts:80-103 | reading the request back gives the input: video, audio and duration from their own places |
| FfmpegCompose.BuildRequestInjective | src/utils/ffmpegCompose.ts:88-99 | distinct inputs give distinct requests |
| FfmpegCompose.ComposeVideoWithAudio | src/utils/ffmpegCompose.ts:73-120 | the request is always built. Success if and only if the result's `video_url` is a non-empty string, which is returned; a thrown error is rethrown unchanged, and otherwise it fails with "No video URL in FFMPEG composition result" |
| FalAi.Spread | src/utils/falAi.ts:64-68 | one property of a spread: present when either side has it, and the upper side's whenever the upper side has it, even as `undefined` |
| FalAi.Overlay | src/utils/falAi.ts:64-68 | `{ ...lower, ...upper }`: each of the ten properties is the upper object's when it has that property, even as `undefined`, and the lower object's otherwise |
| FalAi.OverlayEmpty | src/utils/falAi.ts:64-68 | spreading `{}` on either side changes nothing |
| FalAi.OverlayAssociative | src/utils/falAi.ts:64-68 | spreading is associative and idempotent |
| FalAi.Merge | src/utils/falAi.ts:64-68 | the prompt argument always wins. Every other property comes from the custom configuration when it has the property at all, even `undefined`, and from the defaults otherwise |
| FalAi.MergeWithoutCustom | src/utils/falAi.ts:41-68 | with no custom configuration: the defaults plus the prompt, that is 720 by 1280, four images, guidance 5, 35 steps, safety checker on at `v1`, no seed |
| FalAi.CustomPromptIgnored | src/utils/falAi.ts:66-67 | a `prompt` in the custom configuration never reaches the request |
| FalAi.Urls | src/utils/falAi.ts:85 | one url per image, in response order |
| FalAi.UrlsAppend | src/utils/falAi.ts:85 | the url list distributes over concatenation of image lists |
| FalAi.GenerateRealisticVisionImages | src/utils/falAi.ts:59-90 | the merged configuration is sent. Success if and only if `images` is present (an empty array counts), and then the urls are returned. A missing `images` fails with "No images were generated", and a thrown error is rethrown unchanged |
| FalAi.GenerateImages | src/utils/falAi.ts:93 | the alias behaves exactly as `generateRealisticVisionImages` |
| App.WithoutIndex | src/App.tsx:25 | an index in range removes exactly that element and keeps the rest in order; an index out of range leaves the list unchanged |
| App.WithoutIndexPositions | src/App.tsx:25 | an in-range delete shortens the list by one, keeps earlier elements in place and shifts later ones down by one |
| App.Generated | src/App.tsx:14 | the new sequence when the image call succeeded, nothing when it failed |
| App.StoryboardApp.constructor | src/App.tsx:8-9 | no sequences and not loading at start |
| App.StoryboardApp.BeginGenerate | src/App.tsx:12 | the loading flag is raised and the list is unchanged |
| App.StoryboardApp.FinishGenerate | src/App.tsx:14-21 | a success appends the new sequence after the unchanged earlier ones, a failure keeps the list, and loading ends on both paths |
| App.StoryboardApp.GenerateSequence | src/App.tsx:11-22 | loading while the call is out and not afterwards; the list is appended to on success and unchanged on failure |
| App.StoryboardApp.DeleteSequence | src/App.tsx:24-27 | the list becomes the list without that index, and the flag is kept |
| StoryboardPrompt.Submitted | src/components/StoryboardPrompt.tsx:14-15 | nothing is sent if and only if the buffer is all white space. Otherwise the buffer's infix without its surrounding white space is sent: non-empty, with no white space at either end |
| StoryboardPrompt.ResubmitSame | src/components/StoryboardPrompt.tsx:14-15 | submitting the value that was sent sends it again unchanged |
| StoryboardPrompt.PromptForm.constructor | src/components/StoryboardPrompt.tsx:10 | the buffer starts empty |
| StoryboardPrompt.PromptForm.Change | src/components/StoryboardPrompt.tsx:27 | typing replaces the buffer |
| StoryboardPrompt.PromptForm.Submit | src/components/StoryboardPrompt.tsx:12-18 | at most one `onGenerate` call, with the trimmed buffer. The buffer is cleared exactly when a call is made and unchanged otherwise |
| StoryboardSequence.PromptEditor.constructor | src/components/StoryboardSequence.tsx:30-31 | not editing, with the buffer holding the prompt |
| StoryboardSequence.PromptEditor.Rerender | src/components/StoryboardSequence.tsx:30-31 | new props leave the edit state as it was |
| StoryboardSequence.PromptEditor.EditClick | src/components/StoryboardSequence.tsx:84 | offered only outside edit mode: edit mode on, buffer unchanged |
| StoryboardSequence.PromptEditor.Change | src/components/StoryboardSequence.tsx:56 | offered only in edit mode: typing replaces the buffer only |
| StoryboardSequence.PromptEditor.Save | src/components/StoryboardSequence.tsx:33-36 | offered only in edit mode: the buffer is handed to `onUpdatePrompt` and edit mode ends |
| StoryboardSequence.PromptEditor.Cancel | src/components/StoryboardSequence.tsx:38-41 | offered only in edit mode: the buffer goes back to the current prompt and edit mode ends, with nothing handed over |
| StoryboardSequence.EditThenCancel | src/components/StoryboardSequence.tsx:38-41 | edit, type, cancel: the buffer is the prompt again and editing is off |
| StoryboardSequence.EditThenSave | src/components/StoryboardSequence.tsx:33-36 | edit, type twice, save: exactly the last text typed is handed over |
| StoryboardSequence.IsVideo | src/components/StoryboardSequence.tsx:100 | a url is a video exactly when it is at least four characters long and is some name followed by `.mp4` |
| StoryboardSequence.IsVideoSuffix | src/components/StoryboardSequence.tsx:100 | any name followed by `.mp4` is a video, and a url shorter than `.mp4` is not |
| StoryboardSequence.View | src/components/StoryboardSequence.tsx:100-115 | a slot is shown as a video if and only if its url ends with `.mp4`, otherwise as an image of that url |
| StoryboardSequence.Buttons | src/components/StoryboardSequence.tsx:118-151 | regenerate is always offered, and the 5 s and 10 s animations are offered exactly for non-video slots; each button is for this index and disabled exactly while the index is being regenerated |
| StoryboardSequence.Slots | src/components/StoryboardSequence.tsx:98-156 | one view and one button row per image, position by position |
| StoryboardSequence.AnimateOnlyOnImages | src/components/StoryboardSequence.tsx:130-151 | any animate action in a row is on an image slot, for that slot's index, for 5 or 10 seconds, and enabled exactly when the slot is not being regenerated |
| TtsPanel.WithDefault | src/components/TTSPanel.tsx:13 | an omitted prop takes its default |
| TtsPanel.Panel.constructor | src/components/TTSPanel.tsx:13-21 | text defaults to "" and voice to `af_nova`; not generating, showing the initial audio url |
| TtsPanel.Panel.Rerender | src/components/TTSPanel.tsx:17-21 | a changed, truthy `initialAudioUrl` replaces the url shown; anything else leaves it |
| TtsPanel.Panel.BeginGenerate | src/components/TTSPanel.tsx:23-28 | empty text changes nothing; otherwise the generating flag is raised and the call is made with the text and voice of this render, which the handler's closure keeps |
| TtsPanel.Panel.FinishGenerate | src/components/TTSPanel.tsx:23-37 | the outcome is that of the call made with the text and voice captured at the click, whatever was rendered since; on success the url is stored and handed to `onAudioGenerated`; on failure nothing is handed over and the url is kept; the flag is lowered either way |
| TtsPanel.Panel.Generate | src/components/TTSPanel.tsx:23-38 | the whole handler: a no-op for empty text. Otherwise it is generating while the call is out and not afterwards, with the success and failure effects as above |
| TtsPanel.Panel.GenerateButton | src/components/TTSPanel.tsx:42-48 | the button is shown exactly when no truthy url is shown, and disabled exactly when generating or the text is empty |
| TtsPanel.RerenderWhileGenerating | src/components/TTSPanel.tsx:23-32 | clearing the text while the call is out does not change what is handed to `onAudioGenerated`: the url of the speech for the clicked text |
| TtsPanel.GenerateThenButton | src/components/TTSPanel.tsx:23-48 | after a successful generation the button is gone; after a failure it is shown, disabled exactly when the text is empty |

## Left out

- External calls are parameters, never performed: OpenAI chat completions, `JSON.parse` of the reply, `fal.subscribe`, `fal.queue.submit` and `fal.queue.result`.
- Logging (`console.*`) and the wording, temperatures and token limits of the chat requests. They have no effect on results.
- `src/utils/klingVideo.ts` and `src/utils/zapcap.ts` are not part of this model. They are upload-and-poll wrappers around external services.
- Promise interleaving:
  - the cache is modelled as discrete `Request` and `Settle` steps, with settling after registration;
  - a client that throws synchronously, where the `finally` would run before the `set`, is not modelled;
  - the stale `sequences` captured by overlapping generations in `App.tsx` is not modelled: `FinishGenerate` appends to the current list.
- Rendering and styling: the JSX, CSS class names, spinners, alt texts, and `ModelSelector.tsx`, `ImageLoadingPlaceholder.tsx`, `ErrorBoundary.tsx` and `tailwind.config.js`.
- The model-name lookup at `src/components/StoryboardSequence.tsx:49` is not modelled: `src/utils/falAi.ts` does not export `MODELS` or `ModelType`, so the table it reads is not part of this model.
- Text.Trim: the white-space set of JavaScript's `trim` is a parameter rather than Unicode's table of white space and line terminators.
- NarrativeGenerator.ShapeReply: reply fields are strings, arrays of strings, or missing. Other JSON values are not modelled, such as a numeric `narrative` or a five-character string in place of `imagePrompts`.
- NarrativeGenerator.StoryPrompts: models the content after the chat call. An error from the call itself propagates uncaught in the source and is not represented.
- Tts.LanguageOf: the voice is any string rather than the `TTSVoice` union, so unlisted voices are covered too.
- FfmpegCompose.BuildRequest: a `Blob` or `File` input is an opaque handle; only urls are strings.
- FalAi.Merge: numbers are `int` or `real` as written in the defaults. Properties outside `RealisticVisionConfig` are not modelled.
- TtsPanel.Panel.FinishGenerate: the progress callback passed by the panel only logs, so it is not modelled.
