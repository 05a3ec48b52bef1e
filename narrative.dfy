/** Narrative generation (`narrativeGenerator.ts`): the shaping of the chat
    reply into a five-scene narrative, the table of in-flight requests that
    makes identical concurrent prompts share one call, the count check of the
    expanded prompts, and the `Scene N: ` splitter of the story prompts. The
    chat service and `JSON.parse` are parameters: what they produced or
    threw. */
module NarrativeGenerator {
  import opened Wrappers
  import Text

  /** A thrown JavaScript value: an `Error` with its message, or anything else. */
  datatype Thrown = ErrorObject(message: string) | OtherValue

  /** What the awaited chat call followed by `JSON.parse` did. */
  datatype ChatOutcome<T> = Parsed(reply: T) | Threw(error: Thrown)

  /** The fields of the parsed narrative reply the code reads; `None` is a
      missing field. */
  datatype Reply = Reply(narrative: Option<string>, imagePrompts: Option<seq<string>>)

  /** `NarrativeResult`. */
  datatype NarrativeResult = NarrativeResult(narrative: string, dialogues: seq<string>, imagePrompts: seq<string>)

  const SceneCount := 5
  const InvalidFormat := "Invalid response format from OpenAI"
  const GenericFailure := "Failed to generate narrative"
  const ImageSuffix := ", 9:16 aspect ratio, cinematic lighting, high quality, detailed, photorealistic"

  /** Each image prompt with the fixed style suffix appended, same length and
      order. */
  function AppendSuffix(prompts: seq<string>): (r: seq<string>)
    ensures |r| == |prompts|
    ensures forall i :: 0 <= i < |r| ==> r[i] == prompts[i] + ImageSuffix
  {
    if prompts == [] then [] else [prompts[0] + ImageSuffix] + AppendSuffix(prompts[1..])
  }

  /** Drops the style suffix again. */
  function RemoveSuffix(prompts: seq<string>): (r: seq<string>)
    requires forall i :: 0 <= i < |prompts| ==> Text.EndsWith(prompts[i], ImageSuffix)
  {
    seq(|prompts|, i requires 0 <= i < |prompts| =>
      assert Text.EndsWith(prompts[i], ImageSuffix);
      prompts[i][..|prompts[i]| - |ImageSuffix|])
  }

  /** Appending the suffix loses nothing: removing it gives the reply's
      prompts back. */
  lemma SuffixRoundTrip(prompts: seq<string>)
    ensures var r := AppendSuffix(prompts);
            (forall i :: 0 <= i < |r| ==> Text.EndsWith(r[i], ImageSuffix))
            && RemoveSuffix(r) == prompts
  {
    var r := AppendSuffix(prompts);
    forall i | 0 <= i < |r| ensures Text.EndsWith(r[i], ImageSuffix) && r[i][..|r[i]| - |ImageSuffix|] == prompts[i] {
      assert r[i] == prompts[i] + ImageSuffix;
    }
  }

  /** Validation and normalisation of the parsed reply: rejected unless the
      narrative is a non-empty string and there are exactly five image
      prompts; otherwise the narrative, five empty dialogues and the
      suffixed prompts. */
  function ShapeReply(reply: Reply): (r: Result<NarrativeResult, Thrown>)
    ensures r.Success? <==> Text.Truthy(reply.narrative) && reply.imagePrompts.Some?
                            && |reply.imagePrompts.value| == SceneCount
    ensures r.Failure? ==> r.error == ErrorObject(InvalidFormat)
    ensures r.Success? ==> r.value.narrative == reply.narrative.value
    ensures r.Success? ==> r.value.dialogues == ["", "", "", "", ""]
    ensures r.Success? ==> |r.value.imagePrompts| == |reply.imagePrompts.value|
    ensures r.Success? ==> forall i :: 0 <= i < |r.value.imagePrompts| ==>
              r.value.imagePrompts[i] == reply.imagePrompts.value[i] + ImageSuffix
  {
    if !Text.Truthy(reply.narrative) || reply.imagePrompts.None? || |reply.imagePrompts.value| != SceneCount then
      Failure(ErrorObject(InvalidFormat))
    else
      Success(NarrativeResult(reply.narrative.value, seq(SceneCount, _ => ""),
                              AppendSuffix(reply.imagePrompts.value)))
  }

  /** What the request's promise settles with. Whatever was thrown is
      rethrown as an `Error`: its message for an `Error`, the generic message
      for anything else. */
  function Settlement(outcome: ChatOutcome<Reply>): (r: Result<NarrativeResult, Thrown>)
    ensures r.Failure? ==> r.error.ErrorObject?
    ensures outcome.Parsed? ==> r == ShapeReply(outcome.reply)
    ensures outcome.Threw? && outcome.error.ErrorObject? ==> r == Failure(outcome.error)
    ensures outcome.Threw? && outcome.error.OtherValue? ==> r == Failure(ErrorObject(GenericFailure))
  {
    match outcome
    case Parsed(reply) => ShapeReply(reply)
    case Threw(ErrorObject(m)) => Failure(ErrorObject(m))
    case Threw(OtherValue) => Failure(ErrorObject(GenericFailure))
  }

  /** A request is named by the index of the chat call that serves it. */
  type RequestId = nat

  /** `pendingRequests`: the process-wide table from the exact prompt string
      to the request in flight for it, with the log of chat calls made and
      the outcome of every settled request. */
  class PendingRequests {
    var pending: map<string, RequestId>
    var calls: seq<string>
    var settled: map<RequestId, Result<NarrativeResult, Thrown>>

    /** Each pending prompt names a call made with that very prompt which has
        not settled yet; settled requests are calls that were made. */
    ghost predicate Valid()
      reads this
    {
      && (forall p :: p in pending ==> pending[p] < |calls| && calls[pending[p]] == p)
      && (forall p :: p in pending ==> pending[p] !in settled)
      && (forall id :: id in settled ==> id < |calls|)
    }

    constructor ()
      ensures Valid()
      ensures pending == map[] && calls == [] && settled == map[]
    {
      pending, calls, settled := map[], [], map[];
    }

    /** `generateNarrative(prompt)` up to its first await: an identical prompt
        in flight gets that same request and no call is made; otherwise a
        call is made and registered under the un-normalised prompt. */
    method Request(prompt: string) returns (id: RequestId)
      requires Valid()
      modifies this
      ensures Valid()
      ensures prompt in old(pending) ==>
                id == old(pending)[prompt] && calls == old(calls) && pending == old(pending)
      ensures prompt !in old(pending) ==>
                id == |old(calls)| && calls == old(calls) + [prompt]
                && pending == old(pending)[prompt := id]
      ensures settled == old(settled)
    {
      if prompt in pending {
        id := pending[prompt];
      } else {
        id := |calls|;
        calls := calls + [prompt];
        pending := pending[prompt := id];
      }
    }

    /** The request in flight for `prompt` settles with what its chat call
        produced; the `finally` removes the prompt's entry on success and on
        failure alike. */
    method Settle(prompt: string, outcome: ChatOutcome<Reply>)
      requires Valid() && prompt in pending
      modifies this
      ensures Valid()
      ensures pending == old(pending) - {prompt}
      ensures settled == old(settled)[old(pending)[prompt] := Settlement(outcome)]
      ensures calls == old(calls)
    {
      settled := settled[pending[prompt] := Settlement(outcome)];
      pending := pending - {prompt};
    }

    /** What every caller awaiting request `id` observes: `None` while it is
        in flight. */
    function Observed(id: RequestId): (r: Option<Result<NarrativeResult, Thrown>>)
      reads this
      ensures r.Some? <==> id in settled
      ensures r.Some? ==> r.value == settled[id]
    {
      if id in settled then Some(settled[id]) else None
    }
  }

  /** Three identical prompts before the first settles make one chat call and
      share one outcome; the same prompt after settling makes a fresh call. */
  method SharedRequest(prompt: string, outcome: ChatOutcome<Reply>)
    returns (first: RequestId, second: RequestId, third: RequestId, later: RequestId,
             callsBefore: nat, callsAfter: nat,
             observed: Option<Result<NarrativeResult, Thrown>>)
    ensures first == second == third && callsBefore == 1
    ensures observed == Some(Settlement(outcome))
    ensures later != first && callsAfter == 2
  {
    var cache := new PendingRequests();
    first := cache.Request(prompt);
    second := cache.Request(prompt);
    third := cache.Request(prompt);
    callsBefore := |cache.calls|;
    cache.Settle(prompt, outcome);
    observed := cache.Observed(first);
    later := cache.Request(prompt);
    callsAfter := |cache.calls|;
  }

  /** `generateExpandedPrompts`: a thrown value is rethrown unchanged; the
      reply's `prompts` are returned unchanged when present (an empty array
      counts as present) and of exactly `count` elements. */
  function ExpandedPrompts(outcome: ChatOutcome<Option<seq<string>>>, count: int)
    : (r: Result<seq<string>, Thrown>)
    ensures r.Success? <==> outcome.Parsed? && outcome.reply.Some? && |outcome.reply.value| == count
    ensures r.Success? ==> r.value == outcome.reply.value
    ensures outcome.Threw? ==> r == Failure(outcome.error)
    ensures outcome.Parsed? && r.Failure? ==> r.error == ErrorObject(InvalidFormat)
  {
    match outcome
    case Threw(e) => Failure(e)
    case Parsed(None) => Failure(ErrorObject(InvalidFormat))
    case Parsed(Some(prompts)) =>
      if |prompts| == count then Success(prompts) else Failure(ErrorObject(InvalidFormat))
  }

  /** A negative count is never met. */
  lemma ExpandedPromptsNegativeCount(outcome: ChatOutcome<Option<seq<string>>>, count: int)
    requires count < 0
    ensures ExpandedPrompts(outcome, count).Failure?
  {
  }

  // ---------------------------------------------------------------------
  // generateStoryPrompts: `content.split(/Scene \d+: /)`, keep the truthy
  // pieces, trim each.

  predicate IsDigit(c: char) {
    '0' <= c <= '9'
  }

  const ScenePrefix := "Scene "
  const SceneSeparator := ": "

  /** The number of consecutive digits of `t` from index `j` on. */
  function DigitRun(t: string, j: nat): (n: nat)
    requires j <= |t|
    ensures j + n <= |t|
    ensures forall k :: j <= k < j + n ==> IsDigit(t[k])
    ensures j + n < |t| ==> !IsDigit(t[j + n])
    decreases |t| - j
  {
    if j < |t| && IsDigit(t[j]) then 1 + DigitRun(t, j + 1) else 0
  }

  /** `t` begins with `Scene `, compared character by character. */
  predicate StartsScene(t: string) {
    6 <= |t| && t[0] == 'S' && t[1] == 'c' && t[2] == 'e' && t[3] == 'n' && t[4] == 'e' && t[5] == ' '
  }

  /** The length of the match of `/Scene \d+: /` at the start of `t`, if
      there is one: `\d+` takes every digit, and matching fewer could not be
      followed by the colon. */
  function MarkerAt(t: string): (r: Option<nat>)
    ensures r.Some? ==> 9 <= r.value <= |t|
  {
    if StartsScene(t) then
      var n := DigitRun(t, 6);
      if 0 < n && 6 + n + 2 <= |t| && t[6 + n] == ':' && t[6 + n + 1] == ' ' then Some(8 + n) else None
    else None
  }

  /** The words of the regular expression `Scene \d+: `. */
  ghost predicate IsMarker(w: string) {
    && 9 <= |w|
    && w[..6] == ScenePrefix
    && w[|w| - 2..] == SceneSeparator
    && forall k :: 6 <= k < |w| - 2 ==> IsDigit(w[k])
  }

  /** What `MarkerAt` finds is a word of the expression. */
  lemma MarkerAtSound(t: string)
    requires MarkerAt(t).Some?
    ensures IsMarker(t[..MarkerAt(t).value])
  {
    var L := MarkerAt(t).value;
    var w := t[..L];
    assert w[..6] == t[..6];
    assert w[|w| - 2..] == t[L - 2..L];
    forall k | 6 <= k < |w| - 2 ensures IsDigit(w[k]) {
      assert w[k] == t[k];
    }
  }

  lemma DigitRunExact(t: string, j: nat, e: nat)
    requires j <= e < |t| && !IsDigit(t[e])
    requires forall k :: j <= k < e ==> IsDigit(t[k])
    ensures DigitRun(t, j) == e - j
    decreases e - j
  {
    if j < e {
      DigitRunExact(t, j + 1, e);
    }
  }

  /** Every word of the expression that starts `t` is the one `MarkerAt`
      finds. */
  lemma MarkerAtComplete(t: string, L: nat)
    requires L <= |t| && IsMarker(t[..L])
    ensures MarkerAt(t) == Some(L)
  {
    var w := t[..L];
    assert t[..6] == w[..6];
    forall k | 6 <= k < L - 2 ensures IsDigit(t[k]) {
      assert t[k] == w[k];
    }
    assert t[L - 2] == w[|w| - 2..][0] == ':';
    DigitRunExact(t, 6, L - 2);
    assert t[L - 2..L] == w[|w| - 2..];
  }

  /** No match but the first of its characters is an `S`. */
  lemma MarkerHasOneS(t: string, o: nat)
    requires MarkerAt(t).Some? && 1 <= o < MarkerAt(t).value
    ensures t[o] != 'S'
  {
    var L := MarkerAt(t).value;
    MarkerAtSound(t);
    var w := t[..L];
    assert t[o] == w[o];
    if o < 6 {
      assert w[o] == w[..6][o] == ScenePrefix[o];
    } else if o >= L - 2 {
      assert w[o] == w[|w| - 2..][o - (L - 2)];
    }
  }

  /** A match inside a prefix is unaffected by what follows the prefix. */
  lemma MarkerAtPrefix(u: string, v: string)
    requires MarkerAt(u + v).Some? && MarkerAt(u + v).value <= |u|
    ensures MarkerAt(u) == MarkerAt(u + v)
  {
    var L := MarkerAt(u + v).value;
    MarkerAtSound(u + v);
    assert (u + v)[..L] == u[..L];
    MarkerAtComplete(u, L);
  }

  /** A numeral of at least one digit. */
  ghost predicate IsNumeral(d: string) {
    d != [] && forall k :: 0 <= k < |d| ==> IsDigit(d[k])
  }

  /** `Scene <d>: `. */
  function Marker(d: string): (m: string)
  {
    ScenePrefix + d + SceneSeparator
  }

  lemma MarkerStartsMatch(d: string, rest: string)
    requires IsNumeral(d)
    ensures MarkerAt(Marker(d) + rest) == Some(|Marker(d)|)
  {
    var m := Marker(d);
    assert m[..6] == ScenePrefix;
    assert m[|m| - 2..] == SceneSeparator;
    forall k | 6 <= k < |m| - 2 ensures IsDigit(m[k]) {
      assert m[k] == d[k - 6];
    }
    assert (m + rest)[..|m|] == m;
    MarkerAtComplete(m + rest, |m|);
  }

  /** A string in which the expression matches nowhere. */
  ghost predicate NoMarker(x: string) {
    forall k :: 0 <= k <= |x| ==> MarkerAt(x[k..]).None?
  }

  /** The leftmost position at or after `from` where the expression
      matches, or `|s|`. */
  function FindMarker(s: string, from: nat): (j: nat)
    requires from <= |s|
    ensures from <= j <= |s|
    ensures forall k :: from <= k < j ==> MarkerAt(s[k..]).None?
    ensures j < |s| ==> MarkerAt(s[j..]).Some?
    decreases |s| - from
  {
    if from == |s| then |s|
    else if MarkerAt(s[from..]).Some? then from
    else FindMarker(s, from + 1)
  }

  lemma {:induction false} FindMarkerAt(s: string, from: nat, j: nat)
    requires from <= j <= |s|
    requires forall k :: from <= k < j ==> MarkerAt(s[k..]).None?
    requires j == |s| || MarkerAt(s[j..]).Some?
    ensures FindMarker(s, from) == j
    decreases j - from
  {
    if from < j {
      FindMarkerAt(s, from + 1, j);
    }
  }

  /** `String.prototype.split` with the expression: the pieces between
      leftmost non-overlapping matches, the markers themselves dropped.
      There is always a first piece, and it is a prefix of the input. */
  function Split(s: string): (r: seq<string>)
    ensures |r| >= 1
    ensures r[0] <= s
    decreases |s|
  {
    var j := FindMarker(s, 0);
    if j == |s| then [s]
    else
      var L := MarkerAt(s[j..]).value;
      [s[..j]] + Split(s[j + L..])
  }

  /** The piece before the leftmost match holds no match. */
  lemma FirstPieceHasNoMarker(s: string)
    ensures NoMarker(s[..FindMarker(s, 0)])
  {
    var j := FindMarker(s, 0);
    var x := s[..j];
    forall k | 0 <= k <= |x| ensures MarkerAt(x[k..]).None? {
      if k < |x| && MarkerAt(x[k..]).Some? {
        assert x[k..] + s[j..] == s[k..];
        MarkerAtExtends(x[k..], s[j..]);
        assert false;
      }
    }
  }

  /** No piece of a split holds a match. */
  lemma {:induction false} SplitPiecesHaveNoMarker(s: string)
    ensures forall p :: p in Split(s) ==> NoMarker(p)
    decreases |s|
  {
    var j := FindMarker(s, 0);
    FirstPieceHasNoMarker(s);
    if j == |s| {
      assert s[..j] == s;
    } else {
      var L := MarkerAt(s[j..]).value;
      SplitPiecesHaveNoMarker(s[j + L..]);
    }
  }

  lemma MarkerAtExtends(u: string, v: string)
    requires MarkerAt(u).Some?
    ensures MarkerAt(u + v) == MarkerAt(u)
  {
    var L := MarkerAt(u).value;
    MarkerAtSound(u);
    assert (u + v)[..L] == u[..L];
    MarkerAtComplete(u + v, L);
  }

  lemma SplitNoMarker(x: string)
    requires NoMarker(x)
    ensures Split(x) == [x]
  {
    FindMarkerAt(x, 0, |x|);
  }

  /** Splitting at the first marker. */
  lemma SplitStep(x: string, d: string, rest: string)
    requires NoMarker(x) && IsNumeral(d)
    ensures Split(x + Marker(d) + rest) == [x] + Split(rest)
  {
    var m := Marker(d);
    var s := x + m + rest;
    forall k | 0 <= k < |x| ensures MarkerAt(s[k..]).None? {
      assert s[k..] == x[k..] + (m + rest);
      if MarkerAt(s[k..]).Some? {
        var L := MarkerAt(s[k..]).value;
        if k + L <= |x| {
          MarkerAtPrefix(x[k..], m + rest);
          assert false;
        } else {
          assert s[k..][|x| - k] == s[|x|] == m[0] == 'S';
          MarkerHasOneS(s[k..], |x| - k);
          assert false;
        }
      }
    }
    assert s[|x|..] == m + rest;
    MarkerStartsMatch(d, rest);
    FindMarkerAt(s, 0, |x|);
    assert s[..|x|] == x;
    assert s[|x| + |m|..] == rest;
  }

  /** A text led by `head` and then one `Scene <number>: <text>` per scene. */
  function Join(head: string, scenes: seq<(string, string)>): (s: string)
    decreases |scenes|
  {
    if scenes == [] then head
    else head + Marker(scenes[0].0) + Join(scenes[0].1, scenes[1..])
  }

  function Texts(scenes: seq<(string, string)>): (ts: seq<string>)
    ensures |ts| == |scenes|
    ensures forall i :: 0 <= i < |ts| ==> ts[i] == scenes[i].1
  {
    if scenes == [] then [] else [scenes[0].1] + Texts(scenes[1..])
  }

  /** Scenes whose numbers are numerals and whose texts hold no marker. */
  ghost predicate WellFormed(scenes: seq<(string, string)>) {
    forall i :: 0 <= i < |scenes| ==> IsNumeral(scenes[i].0) && NoMarker(scenes[i].1)
  }

  /** The round trip: splitting a joined text gives back the head and the
      scene texts, in order. */
  lemma {:induction false} SplitJoin(head: string, scenes: seq<(string, string)>)
    requires NoMarker(head) && WellFormed(scenes)
    ensures Split(Join(head, scenes)) == [head] + Texts(scenes)
    decreases |scenes|
  {
    if scenes == [] {
      SplitNoMarker(head);
    } else {
      assert IsNumeral(scenes[0].0) && NoMarker(scenes[0].1);
      SplitJoin(scenes[0].1, scenes[1..]);
      SplitStep(head, scenes[0].0, Join(scenes[0].1, scenes[1..]));
    }
  }

  /** `filter(Boolean)`: the non-empty pieces. */
  function NonEmpty(pieces: seq<string>): (r: seq<string>)
    ensures |r| <= |pieces|
    ensures forall x :: x in r <==> x in pieces && x != ""
  {
    if pieces == [] then []
    else if pieces[0] == "" then NonEmpty(pieces[1..])
    else [pieces[0]] + NonEmpty(pieces[1..])
  }

  /** The filter keeps the order: it distributes over concatenation. */
  lemma {:induction false} NonEmptyAppend(a: seq<string>, b: seq<string>)
    ensures NonEmpty(a + b) == NonEmpty(a) + NonEmpty(b)
  {
    if a == [] {
      assert a + b == b;
    } else {
      assert (a + b)[0] == a[0] && (a + b)[1..] == a[1..] + b;
      NonEmptyAppend(a[1..], b);
    }
  }

  lemma {:induction false} NonEmptyKeepsAll(xs: seq<string>)
    requires forall i :: 0 <= i < |xs| ==> xs[i] != ""
    ensures NonEmpty(xs) == xs
  {
    if xs != [] {
      NonEmptyKeepsAll(xs[1..]);
    }
  }

  /** `map(p => p.trim())`. */
  function TrimAll(xs: seq<string>, ws: char -> bool): (r: seq<string>)
    ensures |r| == |xs|
    ensures forall i :: 0 <= i < |r| ==> r[i] == Text.Trim(xs[i], ws) && Text.Trimmed(r[i], ws)
  {
    if xs == [] then [] else [Text.Trim(xs[0], ws)] + TrimAll(xs[1..], ws)
  }

  lemma TrimAllOfTrimmed(xs: seq<string>, ws: char -> bool)
    requires forall i :: 0 <= i < |xs| ==> Text.Trimmed(xs[i], ws)
    ensures TrimAll(xs, ws) == xs
  {
    forall i | 0 <= i < |xs| ensures TrimAll(xs, ws)[i] == xs[i] {
      Text.TrimOfTrimmed(xs[i], ws);
    }
  }

  /** `generateStoryPrompts` after the chat call: no content gives no
      prompts; otherwise the trimmed non-empty pieces of the split. */
  function StoryPrompts(content: Option<string>, ws: char -> bool): (r: seq<string>)
    ensures content.None? ==> r == []
    ensures forall i :: 0 <= i < |r| ==> Text.Trimmed(r[i], ws)
  {
    match content
    case None => []
    case Some(c) => TrimAll(NonEmpty(Split(c)), ws)
  }

  lemma EmptyHasNoMarker()
    ensures NoMarker("")
  {
    assert ""[0..] == "";
  }

  /** A reply that is exactly `Scene 1: <text>Scene 2: <text>…` gives its
      scene texts, in order, when they are non-empty and already trimmed. */
  lemma StoryPromptsOfScenes(scenes: seq<(string, string)>, ws: char -> bool)
    requires WellFormed(scenes)
    requires forall i :: 0 <= i < |scenes| ==> scenes[i].1 != "" && Text.Trimmed(scenes[i].1, ws)
    ensures StoryPrompts(Some(Join("", scenes)), ws) == Texts(scenes)
  {
    var ts := Texts(scenes);
    EmptyHasNoMarker();
    SplitJoin("", scenes);
    NonEmptyAppend([""], ts);
    NonEmptyKeepsAll(ts);
    TrimAllOfTrimmed(ts, ws);
  }

  /** A preamble of white space before the first marker survives the filter
      and becomes an empty first prompt. */
  lemma StoryPromptsWithBlankPreamble(head: string, scenes: seq<(string, string)>, ws: char -> bool)
    requires head != "" && Text.AllSpace(head, ws) && NoMarker(head) && WellFormed(scenes)
    requires forall i :: 0 <= i < |scenes| ==> scenes[i].1 != "" && Text.Trimmed(scenes[i].1, ws)
    ensures StoryPrompts(Some(Join(head, scenes)), ws) == [""] + Texts(scenes)
  {
    var ts := Texts(scenes);
    SplitJoin(head, scenes);
    NonEmptyAppend([head], ts);
    NonEmptyKeepsAll(ts);
    TrimAllOfTrimmed(ts, ws);
    assert TrimAll([head] + ts, ws)[1..] == TrimAll(ts, ws);
  }
}
