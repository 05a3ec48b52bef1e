/** The top-level component (`App.tsx`): the list of generated image
    sequences and the loading flag. Generation is split at its await: the
    handler's first step raises the flag, and the step after the image call
    settles appends or keeps the list and lowers the flag. */
module App {
  import opened Wrappers
  import FalAi

  /** `s.filter((_, i) => i !== index)`: element by element, keeping every
      position but `index`. */
  function WithoutIndex<T>(s: seq<T>, index: int): (r: seq<T>)
    ensures 0 <= index < |s| ==> r == s[..index] + s[index + 1..]
    ensures !(0 <= index < |s|) ==> r == s
    decreases |s|
  {
    if s == [] then []
    else (if index == 0 then [] else [s[0]]) + WithoutIndex(s[1..], index - 1)
  }

  /** Deleting an existing index shortens the list by one and shifts the
      later elements down by one place. */
  lemma WithoutIndexPositions<T>(s: seq<T>, index: int)
    requires 0 <= index < |s|
    ensures |WithoutIndex(s, index)| == |s| - 1
    ensures forall j :: 0 <= j < index ==> WithoutIndex(s, index)[j] == s[j]
    ensures forall j :: index <= j < |s| - 1 ==> WithoutIndex(s, index)[j] == s[j + 1]
  {
  }

  /** What the image call contributes: the new sequence, or nothing. */
  function Generated(prompt: string, outcome: FalAi.CallOutcome): (r: Option<seq<string>>)
    ensures r.Some? <==> FalAi.GenerateImages(prompt, FalAi.EmptyConfig, outcome).1.Success?
    ensures r.Some? ==> r.value == FalAi.GenerateImages(prompt, FalAi.EmptyConfig, outcome).1.value
  {
    var result := FalAi.GenerateImages(prompt, FalAi.EmptyConfig, outcome).1;
    if result.Success? then Some(result.value) else None
  }

  class StoryboardApp {
    var sequences: seq<seq<string>>
    var isLoading: bool

    constructor ()
      ensures sequences == [] && !isLoading
    {
      sequences, isLoading := [], false;
    }

    /** `handleGenerateSequence` up to the await. */
    method BeginGenerate()
      modifies this
      ensures isLoading && sequences == old(sequences)
    {
      isLoading := true;
    }

    /** `handleGenerateSequence` after the image call settles: a new
        sequence is appended after the existing ones, a failure keeps the
        list, and the flag is lowered either way. */
    method FinishGenerate(prompt: string, outcome: FalAi.CallOutcome)
      modifies this
      ensures Generated(prompt, outcome).Some? ==>
                sequences == old(sequences) + [Generated(prompt, outcome).value]
      ensures Generated(prompt, outcome).None? ==> sequences == old(sequences)
      ensures !isLoading
    {
      var generated := Generated(prompt, outcome);
      if generated.Some? {
        sequences := sequences + [generated.value];
      }
      isLoading := false;
    }

    /** The whole handler, reporting the flag while the call is out. */
    method GenerateSequence(prompt: string, outcome: FalAi.CallOutcome) returns (loadingMeanwhile: bool)
      modifies this
      ensures loadingMeanwhile && !isLoading
      ensures Generated(prompt, outcome).Some? ==>
                sequences == old(sequences) + [Generated(prompt, outcome).value]
      ensures Generated(prompt, outcome).None? ==> sequences == old(sequences)
    {
      BeginGenerate();
      loadingMeanwhile := isLoading;
      FinishGenerate(prompt, outcome);
    }

    /** `handleDeleteSequence`. */
    method DeleteSequence(index: int)
      modifies this
      ensures sequences == WithoutIndex(old(sequences), index)
      ensures isLoading == old(isLoading)
    {
      sequences := WithoutIndex(sequences, index);
    }
  }
}
