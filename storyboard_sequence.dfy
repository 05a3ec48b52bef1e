/** One storyboard row (`StoryboardSequence.tsx`): the edit buffer of its
    prompt, and for each image slot how it is shown and which actions it
    offers. */
module StoryboardSequence {
  import Text

  /** `Sequence`. */
  datatype Sequence = Sequence(id: string, prompt: string, images: seq<string>)

  /** The edit state of the prompt, with the `sequence` prop last
      rendered. */
  class PromptEditor {
    var sequence: Sequence
    var isEditing: bool
    var editedPrompt: string

    /** Mounting: not editing, the buffer holding the prompt. */
    constructor (sequence: Sequence)
      ensures this.sequence == sequence
      ensures !isEditing && editedPrompt == sequence.prompt
    {
      this.sequence := sequence;
      isEditing, editedPrompt := false, sequence.prompt;
    }

    /** A later render with new props: state set up by `useState` is kept. */
    method Rerender(sequence: Sequence)
      modifies this
      ensures this.sequence == sequence
      ensures isEditing == old(isEditing) && editedPrompt == old(editedPrompt)
    {
      this.sequence := sequence;
    }

    /** The pencil button, shown only outside edit mode. */
    method EditClick()
      requires !isEditing
      modifies this
      ensures isEditing && editedPrompt == old(editedPrompt) && sequence == old(sequence)
    {
      isEditing := true;
    }

    /** The edit input's `onChange`; the input exists only in edit mode. */
    method Change(value: string)
      requires isEditing
      modifies this
      ensures editedPrompt == value
      ensures isEditing == old(isEditing) && sequence == old(sequence)
    {
      editedPrompt := value;
    }

    /** `handleSavePrompt`: hands the buffer to `onUpdatePrompt` and leaves
        edit mode; the buffer is kept. Its button exists only in edit
        mode. */
    method Save() returns (updated: string)
      requires isEditing
      modifies this
      ensures updated == old(editedPrompt)
      ensures !isEditing && editedPrompt == old(editedPrompt) && sequence == old(sequence)
    {
      updated := editedPrompt;
      isEditing := false;
    }

    /** `handleCancelEdit`: the buffer goes back to the current prompt and
        edit mode ends; nothing is handed to `onUpdatePrompt`. Its button
        exists only in edit mode. */
    method Cancel()
      requires isEditing
      modifies this
      ensures !isEditing && editedPrompt == sequence.prompt && sequence == old(sequence)
    {
      editedPrompt := sequence.prompt;
      isEditing := false;
    }
  }

  /** Editing and cancelling discards whatever was typed. */
  method EditThenCancel(sequence: Sequence, typed: string) returns (buffer: string, editing: bool)
    ensures buffer == sequence.prompt && !editing
  {
    var editor := new PromptEditor(sequence);
    editor.EditClick();
    editor.Change(typed);
    editor.Cancel();
    buffer, editing := editor.editedPrompt, editor.isEditing;
  }

  /** Editing and saving hands over exactly what was typed last. */
  method EditThenSave(sequence: Sequence, first: string, last: string)
    returns (updated: string, editing: bool)
    ensures updated == last && !editing
  {
    var editor := new PromptEditor(sequence);
    editor.EditClick();
    editor.Change(first);
    editor.Change(last);
    updated := editor.Save();
    editing := editor.isEditing;
  }

  const VideoSuffix := ".mp4"

  /** A slot whose url ends with `.mp4` holds a video. */
  predicate IsVideo(url: string): (b: bool)
    ensures b <==> |url| >= 4 && url == url[..|url| - 4] + ".mp4"
  {
    Text.EndsWith(url, VideoSuffix)
  }

  /** Any name followed by `.mp4` is a video, and a url shorter than the
      suffix never is. */
  lemma IsVideoSuffix(name: string, url: string)
    ensures IsVideo(name + VideoSuffix)
    ensures |url| < 4 ==> !IsVideo(url)
  {
    assert (name + VideoSuffix)[|name|..] == VideoSuffix;
  }

  datatype SlotView = VideoElement(src: string) | ImageElement(src: string)

  datatype Action = Regenerate(index: int) | Animate(index: int, duration: int)

  datatype Button = Button(action: Action, disabled: bool)

  /** How slot `index` with `url` is shown. */
  function View(url: string): (v: SlotView)
    ensures v.src == url
    ensures v.VideoElement? <==> IsVideo(url)
  {
    if IsVideo(url) then VideoElement(url) else ImageElement(url)
  }

  /** The buttons of slot `index`: regenerate always, then the 5 s and 10 s
      animations for a slot that is not a video; all of them disabled
      exactly while the slot is being regenerated. */
  function Buttons(url: string, index: int, regenerating: set<int>): (bs: seq<Button>)
    ensures |bs| == if IsVideo(url) then 1 else 3
    ensures bs[0].action == Regenerate(index)
    ensures !IsVideo(url) ==> bs[1].action == Animate(index, 5) && bs[2].action == Animate(index, 10)
    ensures forall b :: b in bs ==> b.action.index == index && (b.disabled <==> index in regenerating)
  {
    var disabled := index in regenerating;
    var regenerate := Button(Regenerate(index), disabled);
    if IsVideo(url) then [regenerate]
    else [regenerate, Button(Animate(index, 5), disabled), Button(Animate(index, 10), disabled)]
  }

  /** `sequence.images.map((url, index) => …)`. */
  function Slots(images: seq<string>, regenerating: set<int>): (slots: seq<(SlotView, seq<Button>)>)
    ensures |slots| == |images|
    ensures forall i :: 0 <= i < |slots| ==> slots[i] == (View(images[i]), Buttons(images[i], i, regenerating))
  {
    seq(|images|, i requires 0 <= i < |images| => (View(images[i]), Buttons(images[i], i, regenerating)))
  }

  /** Across a whole row an animation is offered only on an image slot,
      for that slot and for 5 or 10 seconds, and only enabled when the slot
      is not being regenerated. */
  lemma AnimateOnlyOnImages(images: seq<string>, regenerating: set<int>, i: int, b: Button)
    requires 0 <= i < |images| && b in Slots(images, regenerating)[i].1 && b.action.Animate?
    ensures !IsVideo(images[i]) && Slots(images, regenerating)[i].0.ImageElement?
    ensures b.action.index == i && (b.action.duration == 5 || b.action.duration == 10)
    ensures !b.disabled <==> i !in regenerating
  {
    var bs := Buttons(images[i], i, regenerating);
    assert b in bs;
  }
}
