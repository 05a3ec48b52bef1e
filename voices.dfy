/** The speech-synthesis languages and voice tables of the application. */
module Voices {

  /** `TTSLanguage`. */
  datatype Language =
    | AmericanEnglish | BritishEnglish | French | German | Italian
    | Polish | Portuguese | Spanish | Turkish

  /** The language's string name, as used in endpoint paths: a non-empty
      run of lower-case letters and hyphens, so it is one path segment. */
  function Name(l: Language): (n: string)
    ensures n != []
    ensures forall k :: 0 <= k < |n| ==> 'a' <= n[k] <= 'z' || n[k] == '-'
  {
    match l
    case AmericanEnglish => "american-english"
    case BritishEnglish => "british-english"
    case French => "french"
    case German => "german"
    case Italian => "italian"
    case Polish => "polish"
    case Portuguese => "portuguese"
    case Spanish => "spanish"
    case Turkish => "turkish"
  }

  /** No two languages share a name. */
  lemma NameInjective(l: Language, m: Language)
    ensures Name(l) == Name(m) ==> l == m
  {
    if Name(l) == Name(m) {
      assert Name(l)[0] == Name(m)[0] && Name(l)[1] == Name(m)[1];
    }
  }

  /** The letter every voice of a language starts with. Polish and Portuguese
      share 'p'. */
  function Initial(l: Language): (c: char)
  {
    match l
    case AmericanEnglish => 'a'
    case BritishEnglish => 'b'
    case French => 'f'
    case German => 'g'
    case Italian => 'i'
    case Polish => 'p'
    case Portuguese => 'p'
    case Spanish => 's'
    case Turkish => 't'
  }

  /** `voicesByLanguage`: the voice ids offered for each language. */
  function VoicesByLanguage(l: Language): (vs: seq<string>)
    ensures |vs| > 0
  {
    match l
    case AmericanEnglish =>
      ["af_aoede", "af_nova", "af_sarah", "af_nicole", "af_river", "am_adam", "am_michael", "am_liam"]
    case BritishEnglish => ["bf_emma", "bf_lucy", "bm_adam", "bm_james"]
    case French => ["ff_emma", "ff_lucy", "fm_adam", "fm_james"]
    case German => ["gf_emma", "gf_lucy", "gm_adam", "gm_james"]
    case Italian => ["if_emma", "if_lucy", "im_adam", "im_james"]
    case Polish => ["pf_emma", "pf_lucy", "pm_adam", "pm_james"]
    case Portuguese => ["pf_emma", "pf_lucy", "pm_adam", "pm_james"]
    case Spanish => ["sf_emma", "sf_lucy", "sm_adam", "sm_james"]
    case Turkish => ["tf_emma", "tf_lucy", "tm_adam", "tm_james"]
  }

  /** Every voice of a language starts with the language's letter. */
  lemma TableInitials(l: Language)
    ensures forall v :: v in VoicesByLanguage(l) ==> |v| > 0 && v[0] == Initial(l)
  {
  }

  /** The letter of one listed voice. */
  lemma VoiceInitial(l: Language, voice: string)
    requires voice in VoicesByLanguage(l)
    ensures |voice| > 0 && voice[0] == Initial(l)
  {
    TableInitials(l);
  }

  /** The Polish and Portuguese lists are the same list. */
  lemma PolishIsPortuguese()
    ensures VoicesByLanguage(Polish) == VoicesByLanguage(Portuguese)
  {
  }

  /** `VoiceOption`: a voice id with its display name. */
  datatype VoiceOption = VoiceOption(id: string, name: string)

  /** `languageVoices`: the menu of every voice. */
  const LanguageVoices: seq<VoiceOption> := [
    VoiceOption("af_aoede", "Aoede"), VoiceOption("af_nova", "Nova"),
    VoiceOption("af_sarah", "Sarah"), VoiceOption("af_nicole", "Nicole"),
    VoiceOption("af_river", "River"), VoiceOption("am_adam", "Adam"),
    VoiceOption("am_michael", "Michael"), VoiceOption("am_liam", "Liam"),
    VoiceOption("bf_emma", "Emma"), VoiceOption("bf_lucy", "Lucy"),
    VoiceOption("bm_adam", "Adam"), VoiceOption("bm_james", "James"),
    VoiceOption("ff_emma", "Emma"), VoiceOption("ff_lucy", "Lucy"),
    VoiceOption("fm_adam", "Adam"), VoiceOption("fm_james", "James"),
    VoiceOption("gf_emma", "Emma"), VoiceOption("gf_lucy", "Lucy"),
    VoiceOption("gm_adam", "Adam"), VoiceOption("gm_james", "James"),
    VoiceOption("if_emma", "Emma"), VoiceOption("if_lucy", "Lucy"),
    VoiceOption("im_adam", "Adam"), VoiceOption("im_james", "James"),
    VoiceOption("pf_emma", "Emma"), VoiceOption("pf_lucy", "Lucy"),
    VoiceOption("pm_adam", "Adam"), VoiceOption("pm_james", "James"),
    VoiceOption("sf_emma", "Emma"), VoiceOption("sf_lucy", "Lucy"),
    VoiceOption("sm_adam", "Adam"), VoiceOption("sm_james", "James"),
    VoiceOption("tf_emma", "Emma"), VoiceOption("tf_lucy", "Lucy"),
    VoiceOption("tm_adam", "Adam"), VoiceOption("tm_james", "James")
  ]

  /** The entries of `languageVoices` for one language, in menu order. The
      menu has a single block of 'p' voices, listed under Polish. The menu
      is cut into these blocks so that its facts can be proved one block at
      a time. */
  function MenuBlock(l: Language): (block: seq<VoiceOption>)
  {
    match l
    case AmericanEnglish => [
        VoiceOption("af_aoede", "Aoede"), VoiceOption("af_nova", "Nova"),
        VoiceOption("af_sarah", "Sarah"), VoiceOption("af_nicole", "Nicole"),
        VoiceOption("af_river", "River"), VoiceOption("am_adam", "Adam"),
        VoiceOption("am_michael", "Michael"), VoiceOption("am_liam", "Liam")]
    case BritishEnglish => [
        VoiceOption("bf_emma", "Emma"), VoiceOption("bf_lucy", "Lucy"),
        VoiceOption("bm_adam", "Adam"), VoiceOption("bm_james", "James")]
    case French => [
        VoiceOption("ff_emma", "Emma"), VoiceOption("ff_lucy", "Lucy"),
        VoiceOption("fm_adam", "Adam"), VoiceOption("fm_james", "James")]
    case German => [
        VoiceOption("gf_emma", "Emma"), VoiceOption("gf_lucy", "Lucy"),
        VoiceOption("gm_adam", "Adam"), VoiceOption("gm_james", "James")]
    case Italian => [
        VoiceOption("if_emma", "Emma"), VoiceOption("if_lucy", "Lucy"),
        VoiceOption("im_adam", "Adam"), VoiceOption("im_james", "James")]
    case Polish => [
        VoiceOption("pf_emma", "Emma"), VoiceOption("pf_lucy", "Lucy"),
        VoiceOption("pm_adam", "Adam"), VoiceOption("pm_james", "James")]
    case Portuguese => []
    case Spanish => [
        VoiceOption("sf_emma", "Emma"), VoiceOption("sf_lucy", "Lucy"),
        VoiceOption("sm_adam", "Adam"), VoiceOption("sm_james", "James")]
    case Turkish => [
        VoiceOption("tf_emma", "Emma"), VoiceOption("tf_lucy", "Lucy"),
        VoiceOption("tm_adam", "Adam"), VoiceOption("tm_james", "James")]
  }

  /** The menu is its blocks, in table order. */
  lemma MenuIsBlocks()
    ensures LanguageVoices == MenuBlock(AmericanEnglish) + MenuBlock(BritishEnglish)
      + MenuBlock(French) + MenuBlock(German) + MenuBlock(Italian) + MenuBlock(Polish)
      + MenuBlock(Spanish) + MenuBlock(Turkish)
  {
  }

  /** The ids of the menu, in menu order. */
  function Ids(options: seq<VoiceOption>): (ids: seq<string>)
    ensures |ids| == |options|
    ensures forall i :: 0 <= i < |options| ==> ids[i] == options[i].id
  {
    seq(|options|, i requires 0 <= i < |options| => options[i].id)
  }

  lemma IdsAppend(a: seq<VoiceOption>, b: seq<VoiceOption>)
    ensures Ids(a + b) == Ids(a) + Ids(b)
  {
  }

  lemma IdsOfFour(b: seq<VoiceOption>)
    requires |b| == 4
    ensures Ids(b) == [b[0].id, b[1].id, b[2].id, b[3].id]
  {
  }

  lemma IdsOfEight(b: seq<VoiceOption>)
    requires |b| == 8
    ensures Ids(b) == [b[0].id, b[1].id, b[2].id, b[3].id, b[4].id, b[5].id, b[6].id, b[7].id]
  {
  }

  /** Each menu block lists exactly its language's voices, in table order. */
  lemma BlockIsTable(l: Language)
    requires l != Portuguese
    ensures Ids(MenuBlock(l)) == VoicesByLanguage(l)
  {
    match l
    case AmericanEnglish => IdsOfEight(MenuBlock(AmericanEnglish));
    case BritishEnglish => IdsOfFour(MenuBlock(BritishEnglish));
    case French => IdsOfFour(MenuBlock(French));
    case German => IdsOfFour(MenuBlock(German));
    case Italian => IdsOfFour(MenuBlock(Italian));
    case Polish => IdsOfFour(MenuBlock(Polish));
    case Spanish => IdsOfFour(MenuBlock(Spanish));
    case Turkish => IdsOfFour(MenuBlock(Turkish));
  }

  /** The voices of every language, Portuguese left out since its list is
      Polish's. */
  function TableVoices(): (vs: seq<string>)
  {
    VoicesByLanguage(AmericanEnglish) + VoicesByLanguage(BritishEnglish)
      + VoicesByLanguage(French) + VoicesByLanguage(German) + VoicesByLanguage(Italian)
      + VoicesByLanguage(Polish) + VoicesByLanguage(Spanish) + VoicesByLanguage(Turkish)
  }

  /** The menu lists the voices language by language, in table order. */
  lemma MenuIsTableOrder()
    ensures Ids(LanguageVoices) == TableVoices()
  {
    MenuIsBlocks();
    var a, b, f, g := MenuBlock(AmericanEnglish), MenuBlock(BritishEnglish), MenuBlock(French), MenuBlock(German);
    var i, p, e, t := MenuBlock(Italian), MenuBlock(Polish), MenuBlock(Spanish), MenuBlock(Turkish);
    IdsAppend(a, b);
    IdsAppend(a + b, f);
    IdsAppend(a + b + f, g);
    IdsAppend(a + b + f + g, i);
    IdsAppend(a + b + f + g + i, p);
    IdsAppend(a + b + f + g + i + p, e);
    IdsAppend(a + b + f + g + i + p + e, t);
    BlockIsTable(AmericanEnglish); BlockIsTable(BritishEnglish); BlockIsTable(French);
    BlockIsTable(German); BlockIsTable(Italian); BlockIsTable(Polish);
    BlockIsTable(Spanish); BlockIsTable(Turkish);
  }

  /** The menu's ids are exactly the voices of the per-language lists. */
  lemma MenuMatchesTables()
    ensures forall v :: v in Ids(LanguageVoices) <==> exists l :: v in VoicesByLanguage(l)
  {
    MenuIsTableOrder();
    forall v | exists l :: v in VoicesByLanguage(l) ensures v in TableVoices() {
      var l :| v in VoicesByLanguage(l);
      if l == Portuguese { PolishIsPortuguese(); }
    }
  }

  /** No value occurs twice in `s`. */
  ghost predicate Distinct<T>(s: seq<T>) {
    forall i, j :: 0 <= i < j < |s| ==> s[i] != s[j]
  }

  /** Every string of `s` is non-empty and starts with a letter of `cs`. */
  ghost predicate InitialsIn(s: seq<string>, cs: set<char>) {
    forall x :: x in s ==> |x| > 0 && x[0] in cs
  }

  /** Two repeat-free lists whose strings start with disjoint letters join
      into a repeat-free list. */
  lemma DistinctAppend(a: seq<string>, b: seq<string>, ca: set<char>, cb: set<char>)
    requires Distinct(a) && Distinct(b)
    requires InitialsIn(a, ca) && InitialsIn(b, cb) && ca !! cb
    ensures Distinct(a + b) && InitialsIn(a + b, ca + cb)
  {
    forall i, j | 0 <= i < j < |a + b| ensures (a + b)[i] != (a + b)[j] {
      if i < |a| && j >= |a| { assert (a + b)[i] in a && (a + b)[j] in b; }
    }
  }

  /** Each language's list is free of repeats. */
  lemma TableDistinct(l: Language)
    ensures Distinct(VoicesByLanguage(l))
  {
  }

  lemma TableInitialsIn(l: Language)
    ensures InitialsIn(VoicesByLanguage(l), {Initial(l)})
  {
    TableInitials(l);
  }

  /** Eight repeat-free lists with the initials a, b, f, g, i, p, s, t join
      into a repeat-free list. */
  lemma DistinctJoin(a: seq<string>, b: seq<string>, f: seq<string>, g: seq<string>,
                     i: seq<string>, p: seq<string>, e: seq<string>, t: seq<string>)
    requires Distinct(a) && Distinct(b) && Distinct(f) && Distinct(g)
    requires Distinct(i) && Distinct(p) && Distinct(e) && Distinct(t)
    requires InitialsIn(a, {'a'}) && InitialsIn(b, {'b'}) && InitialsIn(f, {'f'}) && InitialsIn(g, {'g'})
    requires InitialsIn(i, {'i'}) && InitialsIn(p, {'p'}) && InitialsIn(e, {'s'}) && InitialsIn(t, {'t'})
    ensures Distinct(a + b + f + g + i + p + e + t)
  {
    DistinctAppend(a, b, {'a'}, {'b'});
    DistinctAppend(a + b, f, {'a', 'b'}, {'f'});
    DistinctAppend(a + b + f, g, {'a', 'b', 'f'}, {'g'});
    DistinctAppend(a + b + f + g, i, {'a', 'b', 'f', 'g'}, {'i'});
    DistinctAppend(a + b + f + g + i, p, {'a', 'b', 'f', 'g', 'i'}, {'p'});
    DistinctAppend(a + b + f + g + i + p, e, {'a', 'b', 'f', 'g', 'i', 'p'}, {'s'});
    DistinctAppend(a + b + f + g + i + p + e, t, {'a', 'b', 'f', 'g', 'i', 'p', 's'}, {'t'});
  }

  /** No voice occurs in two lists, Polish's and Portuguese's being one. */
  lemma TableVoicesDistinct()
    ensures Distinct(TableVoices())
  {
    TableDistinct(AmericanEnglish); TableDistinct(BritishEnglish); TableDistinct(French);
    TableDistinct(German); TableDistinct(Italian); TableDistinct(Polish);
    TableDistinct(Spanish); TableDistinct(Turkish);
    TableInitialsIn(AmericanEnglish); TableInitialsIn(BritishEnglish); TableInitialsIn(French);
    TableInitialsIn(German); TableInitialsIn(Italian); TableInitialsIn(Polish);
    TableInitialsIn(Spanish); TableInitialsIn(Turkish);
    DistinctJoin(VoicesByLanguage(AmericanEnglish), VoicesByLanguage(BritishEnglish),
                 VoicesByLanguage(French), VoicesByLanguage(German), VoicesByLanguage(Italian),
                 VoicesByLanguage(Polish), VoicesByLanguage(Spanish), VoicesByLanguage(Turkish));
  }

  /** The menu's ids are pairwise distinct. */
  lemma MenuIdsDistinct()
    ensures Distinct(Ids(LanguageVoices))
  {
    MenuIsTableOrder();
    TableVoicesDistinct();
  }
}
