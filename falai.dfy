/** Image generation (`falAi.ts`): the configuration sent to the image
    model is the defaults overlaid by the caller's partial configuration,
    overlaid by the prompt; the reply's images become their urls. The fal
    call is a parameter: what it produced or threw. */
module FalAi {
  import opened Wrappers

  /** A property of a JavaScript object literal: absent, present but
      `undefined`, or defined. Spreading copies a present `undefined` too. */
  datatype Prop<+T> = Absent | Undefined | Defined(value: T)

  datatype ImageSize = ImageSize(width: int, height: int)

  datatype Lora = Lora(path: string, scale: real)

  /** `Partial<RealisticVisionConfig>`. */
  datatype Config = Config(
    prompt: Prop<string>,
    imageSize: Prop<ImageSize>,
    numImages: Prop<int>,
    negativePrompt: Prop<string>,
    seed: Prop<int>,
    loras: Prop<seq<Lora>>,
    guidanceScale: Prop<real>,
    numInferenceSteps: Prop<int>,
    enableSafetyChecker: Prop<bool>,
    safetyCheckerVersion: Prop<string>)

  /** `{}`: the default `customConfig`. */
  const EmptyConfig := Config(Absent, Absent, Absent, Absent, Absent, Absent, Absent, Absent, Absent, Absent)

  const DefaultLora := Lora("https://civitai.com/api/download/models/209105?type=Model&format=SafeTensor", 0.6)

  /** The default negative prompt, written in pieces. */
  const DefaultNegativePrompt :=
    "(worst quality, low quality, normal quality, lowres, low " +
    "details, oversaturated, undersaturated, overexposed, " +
    "underexposed, grayscale, bw, bad photo, bad photography, bad " +
    "art:1.4), (watermark, signature, text font, username, error, " +
    "logo, words, letters, digits, autograph, trademark, " +
    "name:1.2), (blur, blurry, grainy), morbid, ugly, " +
    "asymmetrical, mutated malformed, mutilated, poorly lit, bad " +
    "shadow, draft, cropped, out of frame, cut off, censored, " +
    "jpeg artifacts, out of focus, glitch, duplicate, " +
    "(airbrushed, cartoon, anime, semi-realistic, cgi, render, " +
    "blender, digital art, manga, amateur:1.3), (3D ,3D Game, 3D " +
    "Game Scene, 3D Character:1.1), (bad hands, bad anatomy, bad " +
    "body, bad face, bad teeth, bad arms, bad legs, " +
    "deformities:1.3)"

  /** `defaultRealisticVisionConfig`: no prompt and no seed. */
  const Defaults := Config(
    Absent,
    Defined(ImageSize(720, 1280)),
    Defined(4),
    Defined(DefaultNegativePrompt),
    Absent,
    Defined([DefaultLora]),
    Defined(5.0),
    Defined(35),
    Defined(true),
    Defined("v1"))

  /** One property of `{ ...lower, ...upper }`: the result has it when
      either side has it, and it is upper's whenever upper has it. */
  function Spread<T>(lower: Prop<T>, upper: Prop<T>): (r: Prop<T>)
    ensures r.Absent? <==> lower.Absent? && upper.Absent?
    ensures !upper.Absent? ==> r == upper
  {
    if upper.Absent? then lower else upper
  }

  /** `{ ...lower, ...upper }`, property by property: every property the
      upper object has, even as `undefined`, is taken from it, and every
      other from the lower object. */
  function Overlay(lower: Config, upper: Config): (c: Config)
    ensures upper.prompt.Absent? ==> c.prompt == lower.prompt
    ensures !upper.prompt.Absent? ==> c.prompt == upper.prompt
    ensures upper.imageSize.Absent? ==> c.imageSize == lower.imageSize
    ensures !upper.imageSize.Absent? ==> c.imageSize == upper.imageSize
    ensures upper.numImages.Absent? ==> c.numImages == lower.numImages
    ensures !upper.numImages.Absent? ==> c.numImages == upper.numImages
    ensures upper.negativePrompt.Absent? ==> c.negativePrompt == lower.negativePrompt
    ensures !upper.negativePrompt.Absent? ==> c.negativePrompt == upper.negativePrompt
    ensures upper.seed.Absent? ==> c.seed == lower.seed
    ensures !upper.seed.Absent? ==> c.seed == upper.seed
    ensures upper.loras.Absent? ==> c.loras == lower.loras
    ensures !upper.loras.Absent? ==> c.loras == upper.loras
    ensures upper.guidanceScale.Absent? ==> c.guidanceScale == lower.guidanceScale
    ensures !upper.guidanceScale.Absent? ==> c.guidanceScale == upper.guidanceScale
    ensures upper.numInferenceSteps.Absent? ==> c.numInferenceSteps == lower.numInferenceSteps
    ensures !upper.numInferenceSteps.Absent? ==> c.numInferenceSteps == upper.numInferenceSteps
    ensures upper.enableSafetyChecker.Absent? ==> c.enableSafetyChecker == lower.enableSafetyChecker
    ensures !upper.enableSafetyChecker.Absent? ==> c.enableSafetyChecker == upper.enableSafetyChecker
    ensures upper.safetyCheckerVersion.Absent? ==> c.safetyCheckerVersion == lower.safetyCheckerVersion
    ensures !upper.safetyCheckerVersion.Absent? ==> c.safetyCheckerVersion == upper.safetyCheckerVersion
  {
    Config(
      Spread(lower.prompt, upper.prompt),
      Spread(lower.imageSize, upper.imageSize),
      Spread(lower.numImages, upper.numImages),
      Spread(lower.negativePrompt, upper.negativePrompt),
      Spread(lower.seed, upper.seed),
      Spread(lower.loras, upper.loras),
      Spread(lower.guidanceScale, upper.guidanceScale),
      Spread(lower.numInferenceSteps, upper.numInferenceSteps),
      Spread(lower.enableSafetyChecker, upper.enableSafetyChecker),
      Spread(lower.safetyCheckerVersion, upper.safetyCheckerVersion))
  }

  /** The empty object is a unit of spreading on both sides. */
  lemma OverlayEmpty(c: Config)
    ensures Overlay(c, EmptyConfig) == c && Overlay(EmptyConfig, c) == c
  {
  }

  /** Spreading is associative and idempotent. */
  lemma OverlayAssociative(a: Config, b: Config, c: Config)
    ensures Overlay(Overlay(a, b), c) == Overlay(a, Overlay(b, c))
    ensures Overlay(a, a) == a
  {
  }

  /** The effective configuration: defaults, then the custom
      configuration, then the prompt argument. The prompt argument always
      wins; every other property comes from the custom configuration when
      it has that property at all (even `undefined`), and from the
      defaults otherwise. */
  function Merge(prompt: string, custom: Config): (c: Config)
    ensures c.prompt == Defined(prompt)
    ensures custom.imageSize.Absent? ==> c.imageSize == Defaults.imageSize
    ensures !custom.imageSize.Absent? ==> c.imageSize == custom.imageSize
    ensures custom.numImages.Absent? ==> c.numImages == Defaults.numImages
    ensures !custom.numImages.Absent? ==> c.numImages == custom.numImages
    ensures custom.negativePrompt.Absent? ==> c.negativePrompt == Defaults.negativePrompt
    ensures !custom.negativePrompt.Absent? ==> c.negativePrompt == custom.negativePrompt
    ensures c.seed == custom.seed
    ensures custom.loras.Absent? ==> c.loras == Defaults.loras
    ensures !custom.loras.Absent? ==> c.loras == custom.loras
    ensures custom.guidanceScale.Absent? ==> c.guidanceScale == Defaults.guidanceScale
    ensures !custom.guidanceScale.Absent? ==> c.guidanceScale == custom.guidanceScale
    ensures custom.numInferenceSteps.Absent? ==> c.numInferenceSteps == Defaults.numInferenceSteps
    ensures !custom.numInferenceSteps.Absent? ==> c.numInferenceSteps == custom.numInferenceSteps
    ensures custom.enableSafetyChecker.Absent? ==> c.enableSafetyChecker == Defaults.enableSafetyChecker
    ensures !custom.enableSafetyChecker.Absent? ==> c.enableSafetyChecker == custom.enableSafetyChecker
    ensures custom.safetyCheckerVersion.Absent? ==> c.safetyCheckerVersion == Defaults.safetyCheckerVersion
    ensures !custom.safetyCheckerVersion.Absent? ==> c.safetyCheckerVersion == custom.safetyCheckerVersion
  {
    Overlay(Overlay(Defaults, custom), EmptyConfig.(prompt := Defined(prompt)))
  }

  /** Without a custom configuration the request carries the defaults:
      720 by 1280, four images, guidance 5, 35 steps, the safety checker
      on at version `v1`, the negative prompt and the one LoRA. */
  lemma MergeWithoutCustom(prompt: string)
    ensures var c := Merge(prompt, EmptyConfig);
            && c == Defaults.(prompt := Defined(prompt))
            && c.imageSize == Defined(ImageSize(720, 1280))
            && c.numImages == Defined(4)
            && c.guidanceScale == Defined(5.0)
            && c.numInferenceSteps == Defined(35)
            && c.enableSafetyChecker == Defined(true)
            && c.safetyCheckerVersion == Defined("v1")
            && c.seed == Absent
  {
  }

  /** A `prompt` inside the custom configuration never reaches the
      request. */
  lemma CustomPromptIgnored(prompt: string, custom: Config, other: Prop<string>)
    ensures Merge(prompt, custom) == Merge(prompt, custom.(prompt := other))
  {
  }

  datatype Image = Image(url: string)

  /** `data`, reduced to the field the code reads: `images` may be missing. */
  datatype ImagesOutput = ImagesOutput(images: Option<seq<Image>>)

  /** What `fal.subscribe` did; whatever it threw is rethrown unchanged. */
  datatype CallOutcome = Completed(data: ImagesOutput) | Threw(error: string)

  const NoImages := "No images were generated"

  /** `images.map(image => image.url)`. */
  function Urls(images: seq<Image>): (urls: seq<string>)
    ensures |urls| == |images|
    ensures forall i :: 0 <= i < |urls| ==> urls[i] == images[i].url
  {
    if images == [] then [] else [images[0].url] + Urls(images[1..])
  }

  /** The url list keeps the order of the images: it distributes over
      concatenation. */
  lemma {:induction false} UrlsAppend(a: seq<Image>, b: seq<Image>)
    ensures Urls(a + b) == Urls(a) + Urls(b)
  {
    if a == [] {
      assert a + b == b;
    } else {
      assert (a + b)[1..] == a[1..] + b;
      UrlsAppend(a[1..], b);
    }
  }

  /** `generateRealisticVisionImages(prompt, customConfig)`: the
      configuration sent, and what the promise settles with. A missing
      `images` fails; an empty array is present and gives no urls. */
  function GenerateRealisticVisionImages(prompt: string, custom: Config, outcome: CallOutcome)
    : (r: (Config, Result<seq<string>, string>))
    ensures r.0 == Merge(prompt, custom)
    ensures r.1.Success? <==> outcome.Completed? && outcome.data.images.Some?
    ensures r.1.Success? ==> r.1.value == Urls(outcome.data.images.value)
    ensures outcome.Threw? ==> r.1 == Failure(outcome.error)
    ensures outcome.Completed? && r.1.Failure? ==> r.1.error == NoImages
  {
    var result :=
      match outcome
      case Threw(e) => Failure(e)
      case Completed(data) =>
        if data.images.None? then Failure(NoImages) else Success(Urls(data.images.value));
    (Merge(prompt, custom), result)
  }

  /** `generateImages` is the same function under another name. */
  function GenerateImages(prompt: string, custom: Config, outcome: CallOutcome)
    : (r: (Config, Result<seq<string>, string>))
    ensures r == GenerateRealisticVisionImages(prompt, custom, outcome)
  {
    GenerateRealisticVisionImages(prompt, custom, outcome)
  }
}
