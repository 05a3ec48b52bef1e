/** Compose request construction (`ffmpegCompose.ts`): a clip duration of 5
    or 10 seconds becomes a two-track request whose tracks each hold one
    keyframe spanning the clip, followed by the check of the composition
    result. The submit and result calls are a parameter: what they
    produced or threw. */
module FfmpegCompose {
  import opened Wrappers

  /** The `duration` of a `ComposeInput`, in seconds. */
  type ClipSeconds = d: int | d == 5 || d == 10 witness 5

  /** What a track plays: a url, or a blob or file handed over as is. */
  datatype Media = Link(url: string) | Blob(handle: nat)

  datatype ComposeInput = ComposeInput(videoUrl: Media, audioUrl: Media, duration: ClipSeconds)

  datatype Keyframe = Keyframe(timestamp: int, duration: int, url: Media)

  datatype TrackType = VideoTrack | AudioTrack

  datatype Track = Track(id: string, kind: TrackType, keyframes: seq<Keyframe>)

  datatype ComposeRequest = ComposeRequest(endpoint: string, tracks: seq<Track>)

  const Endpoint := "fal-ai/ffmpeg-api/compose"
  const NoVideoUrl := "No video URL in FFMPEG composition result"

  /** The keyframe duration in milliseconds. */
  function DurationMs(d: ClipSeconds): (ms: int)
    ensures ms == 5000 || ms == 10000
    ensures ms / 1000 == d && ms % 1000 == 0
  {
    d * 1000
  }

  /** The request object: a `video` track then an `audio` track, each with
      one keyframe at time 0 lasting the whole clip, playing the input's
      video and audio respectively. */
  function BuildRequest(input: ComposeInput): (r: ComposeRequest)
    ensures r.endpoint == Endpoint && |r.tracks| == 2
    ensures r.tracks[0].id == "video" && r.tracks[0].kind == VideoTrack
    ensures r.tracks[1].id == "audio" && r.tracks[1].kind == AudioTrack
    ensures forall t :: t in r.tracks ==>
              |t.keyframes| == 1 && t.keyframes[0].timestamp == 0
              && t.keyframes[0].duration == DurationMs(input.duration)
    ensures r.tracks[0].keyframes[0].url == input.videoUrl
    ensures r.tracks[1].keyframes[0].url == input.audioUrl
  {
    var ms := DurationMs(input.duration);
    ComposeRequest(Endpoint, [
      Track("video", VideoTrack, [Keyframe(0, ms, input.videoUrl)]),
      Track("audio", AudioTrack, [Keyframe(0, ms, input.audioUrl)])
    ])
  }

  /** Reads the input back out of a request of that shape. */
  function ParseRequest(r: ComposeRequest): (input: Option<ComposeInput>)
  {
    if |r.tracks| == 2 && |r.tracks[0].keyframes| == 1 && |r.tracks[1].keyframes| == 1
       && r.tracks[0].keyframes[0].duration in {5000, 10000}
    then
      var seconds: ClipSeconds := if r.tracks[0].keyframes[0].duration == 5000 then 5 else 10;
      Some(ComposeInput(r.tracks[0].keyframes[0].url, r.tracks[1].keyframes[0].url, seconds))
    else None
  }

  /** Building loses nothing and swaps nothing: the video, the audio and the
      duration are read back from their own places. */
  lemma ParseBuild(input: ComposeInput)
    ensures ParseRequest(BuildRequest(input)) == Some(input)
  {
  }

  /** Hence distinct inputs give distinct requests. */
  lemma BuildRequestInjective(a: ComposeInput, b: ComposeInput)
    ensures BuildRequest(a) == BuildRequest(b) ==> a == b
  {
    ParseBuild(a);
    ParseBuild(b);
  }

  /** `result.data`, reduced to the field the code reads. */
  datatype ComposeOutput = ComposeOutput(videoUrl: Option<string>)

  /** What the submit and result calls did; whatever either threw is
      rethrown unchanged. */
  datatype CallOutcome = Completed(data: ComposeOutput) | Threw(error: string)

  /** `composeVideoWithAudio`: the request submitted, and the url or error
      the promise settles with. */
  function ComposeVideoWithAudio(input: ComposeInput, outcome: CallOutcome)
    : (r: (ComposeRequest, Result<string, string>))
    ensures r.0 == BuildRequest(input)
    ensures r.1.Success? <==> outcome.Completed? && outcome.data.videoUrl.Some?
                              && outcome.data.videoUrl.value != ""
    ensures r.1.Success? ==> r.1.value == outcome.data.videoUrl.value
    ensures outcome.Threw? ==> r.1 == Failure(outcome.error)
    ensures outcome.Completed? && r.1.Failure? ==> r.1.error == NoVideoUrl
  {
    var result :=
      match outcome
      case Threw(e) => Failure(e)
      case Completed(data) =>
        if data.videoUrl.None? || data.videoUrl.value == "" then Failure(NoVideoUrl)
        else Success(data.videoUrl.value);
    (BuildRequest(input), result)
  }
}
