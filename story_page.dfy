/**
  The story page: the mocked story generator (filler paragraphs and the
  fixed-shape story built from the form's inputs) and the page's
  loading/typing flags that gate the Download button.

  Faker's random choices are explicit: a `Pick` maps paragraph `i` to the
  word strings of its sentences, so the number of sentences of paragraph
  `i` is `|pick(i)|`.
*/
module StoryPage {
  import opened Wrappers
  import opened Text
  import opened CreatorPage

  /** `'narration' | 'dialogue' | 'image_placeholder'`, plus any other tag a caller might smuggle past the type checker. */
  datatype PartType = Narration | Dialogue | ImagePlaceholder | Unrecognised(tag: string)

  /** One segment of a story; `content` and `characterId` may be absent. */
  datatype StoryPart = StoryPart(kind: PartType, content: Option<string>, characterId: Option<int>)

  /** Faker's choices: the word strings of the sentences of paragraph `i`. */
  type Pick = nat -> seq<string>

  /**
    The ranges Faker draws from: 3 to 5 sentences per paragraph, each made
    of 8 to 15 space-separated words.
  */
  ghost predicate FakerRanges(pick: Pick)
  {
    forall i: nat ::
      3 <= |pick(i)| <= 5 &&
      forall j :: 0 <= j < |pick(i)| ==> 8 <= |Split(pick(i)[j], ' ')| <= 15
  }

  /** A sentence: the words with the first character upper-cased, then a full stop. */
  function Sentence(words: string): (s: string)
    ensures |s| == |words| + 1
    ensures s[|words|] == '.'
    ensures words != "" ==> s[0] == UpperChar(words[0]) && s[1..|words|] == words[1..]
  {
    (if words == "" then "" else [UpperChar(words[0])] + words[1..]) + "."
  }

  function Sentences(draws: seq<string>): (ss: seq<string>)
    ensures |ss| == |draws|
    ensures forall j :: 0 <= j < |draws| ==> ss[j] == Sentence(draws[j])
  {
    seq(|draws|, j requires 0 <= j < |draws| => Sentence(draws[j]))
  }

  /** A paragraph: its sentences joined by single spaces. */
  function Paragraph(draws: seq<string>): string
  {
    Join(Sentences(draws), " ")
  }

  function Paragraphs(count: nat, pick: Pick): (ps: seq<string>)
    ensures |ps| == count
    ensures forall i :: 0 <= i < count ==> ps[i] == Paragraph(pick(i))
  {
    seq(count, i requires 0 <= i < count => Paragraph(pick(i)))
  }

  /** What `generateEnglishParagraphs(count)` returns: the paragraphs joined by blank lines. */
  function EnglishParagraphs(count: nat, pick: Pick): string
  {
    Join(Paragraphs(count, pick), "\n\n")
  }

  /** `generateEnglishParagraphs`: the nested loops that push sentences and paragraphs. */
  method GenerateEnglishParagraphs(paragraphCount: nat, pick: Pick) returns (text: string)
    ensures text == EnglishParagraphs(paragraphCount, pick)
  {
    var paragraphs: seq<string> := [];
    for i := 0 to paragraphCount
      invariant paragraphs == Paragraphs(i, pick)
    {
      var draws := pick(i);
      var sentenceCount := |draws|;
      var sentences: seq<string> := [];
      for j := 0 to sentenceCount
        invariant sentences == Sentences(draws[..j])
      {
        var words := draws[j];
        var first := if words == "" then "" else [UpperChar(words[0])];
        var rest := if words == "" then "" else words[1..];
        assert first + rest + "." == Sentence(words);
        assert draws[..j + 1] == draws[..j] + [words];
        sentences := sentences + [first + rest + "."];
        assert sentences == Sentences(draws[..j + 1]);
      }
      assert draws[..sentenceCount] == draws;
      paragraphs := paragraphs + [Join(sentences, " ")];
    }
    text := Join(paragraphs, "\n\n");
  }

  /** A sentence ends in the one full stop it adds. */
  lemma SentencePeriods(words: string)
    requires '.' !in words
    ensures Count(Sentence(words), '.') == 1
  {
    if words == "" {
      assert Sentence(words) == ".";
    } else {
      CountAppend([UpperChar(words[0])] + words[1..], ".", '.');
      CountAppend([UpperChar(words[0])], words[1..], '.');
      assert '.' !in words[1..];
      NoOccurrences(words[1..], '.');
    }
  }

  lemma {:induction false} NoOccurrences(s: string, c: char)
    requires c !in s
    ensures Count(s, c) == 0
  {
    if s != [] {
      assert c !in s[1..];
      NoOccurrences(s[1..], c);
    }
  }

  lemma {:induction false} SentencesPeriods(draws: seq<string>)
    requires forall j :: 0 <= j < |draws| ==> '.' !in draws[j]
    ensures CountAll(Sentences(draws), '.') == |draws|
  {
    if draws != [] {
      SentencePeriods(draws[0]);
      assert Sentences(draws)[1..] == Sentences(draws[1..]);
      SentencesPeriods(draws[1..]);
    }
  }

  /**
    When the words hold no full stop, a paragraph holds exactly one full
    stop per sentence: Faker's 3 to 5 sentences give 3 to 5 of them.
  */
  lemma ParagraphSentenceCount(draws: seq<string>)
    requires forall j :: 0 <= j < |draws| ==> '.' !in draws[j]
    ensures Count(Paragraph(draws), '.') == |draws|
  {
    if draws != [] {
      CountJoin(Sentences(draws), " ", '.');
      SentencesPeriods(draws);
    }
  }

  /**
    Within Faker's ranges, and with words that hold no full stop, every
    paragraph of the generated text holds 3 to 5 full stops.
  */
  lemma FakerParagraphStops(count: nat, pick: Pick, i: nat)
    requires FakerRanges(pick)
    requires i < count
    requires forall j :: 0 <= j < |pick(i)| ==> '.' !in pick(i)[j]
    ensures 3 <= Count(Paragraphs(count, pick)[i], '.') <= 5
  {
    assert 3 <= |pick(i)| <= 5;
    ParagraphSentenceCount(pick(i));
  }

  /** A sentence adds no line break. */
  lemma SentenceNewlines(words: string)
    requires '\n' !in words
    ensures '\n' !in Sentence(words)
  {
  }

  lemma {:induction false} SentencesNewlines(draws: seq<string>)
    requires forall j :: 0 <= j < |draws| ==> '\n' !in draws[j]
    ensures CountAll(Sentences(draws), '\n') == 0
  {
    if draws != [] {
      SentenceNewlines(draws[0]);
      NoOccurrences(Sentence(draws[0]), '\n');
      assert Sentences(draws)[1..] == Sentences(draws[1..]);
      SentencesNewlines(draws[1..]);
    }
  }

  lemma ParagraphNewlines(draws: seq<string>)
    requires forall j :: 0 <= j < |draws| ==> '\n' !in draws[j]
    ensures Count(Paragraph(draws), '\n') == 0
  {
    SentencesNewlines(draws);
    if draws != [] {
      CountJoin(Sentences(draws), " ", '\n');
    }
  }

  lemma {:induction false} ParagraphsNewlines(count: nat, pick: Pick)
    requires forall i: nat, j :: i < count && 0 <= j < |pick(i)| ==> '\n' !in pick(i)[j]
    ensures CountAll(Paragraphs(count, pick), '\n') == 0
  {
    if count > 0 {
      var ps := Paragraphs(count, pick);
      assert ps == Paragraphs(count - 1, pick) + [Paragraph(pick(count - 1))];
      ParagraphsNewlines(count - 1, pick);
      ParagraphNewlines(pick(count - 1));
      CountAllAppend(Paragraphs(count - 1, pick), [Paragraph(pick(count - 1))], '\n');
    }
  }

  lemma {:induction false} CountAllAppend(xs: seq<string>, ys: seq<string>, c: char)
    ensures CountAll(xs + ys, c) == CountAll(xs, c) + CountAll(ys, c)
  {
    if xs == [] {
      assert xs + ys == ys;
    } else {
      assert (xs + ys)[1..] == xs[1..] + ys;
      CountAllAppend(xs[1..], ys, c);
    }
  }

  /**
    When the words hold no line break, the text holds `count` paragraphs
    separated by `count - 1` blank lines, and is empty for no paragraphs.
  */
  lemma EnglishParagraphsLayout(count: nat, pick: Pick)
    requires forall i: nat, j :: i < count && 0 <= j < |pick(i)| ==> '\n' !in pick(i)[j]
    ensures count == 0 ==> EnglishParagraphs(count, pick) == ""
    ensures count >= 1 ==> Count(EnglishParagraphs(count, pick), '\n') == 2 * (count - 1)
  {
    if count >= 1 {
      CountJoin(Paragraphs(count, pick), "\n\n", '\n');
      ParagraphsNewlines(count, pick);
    }
  }

  /** `Math.max(1, Math.ceil(length / 400))`. */
  function ParagraphCount(length: int): (n: nat)
    ensures n >= 1
    ensures length <= 400 ==> n == 1
    ensures length > 400 ==> (n - 1) * 400 < length <= n * 400
  {
    var ceiling := if length % 400 == 0 then length / 400 else length / 400 + 1;
    if ceiling < 1 then 1 else ceiling
  }

  /** Over the slider's range the scaled narration has one to three paragraphs. */
  lemma SliderParagraphCounts(length: int)
    requires ValidLength(length)
    ensures 1 <= ParagraphCount(length) <= 3
    ensures ParagraphCount(length) == 1 <==> length <= 400
    ensures ParagraphCount(length) == 3 <==> length > 800
  {
  }

  /** `s || fallback`: the empty string is falsy. */
  function OrElse(s: string, fallback: string): (r: string)
    ensures r == (if s == "" then fallback else s)
  {
    if s == "" then fallback else s
  }

  /** `characters[0]?.name || fallback`. */
  function FirstNameOr(cs: seq<Character>, fallback: string): string
  {
    if |cs| == 0 then fallback else OrElse(cs[0].name, fallback)
  }

  /** `characters[0]?.id`. */
  function FirstId(cs: seq<Character>): Option<int>
  {
    if |cs| == 0 then None else Some(cs[0].id)
  }

  const FirstLine: string := "The city breathes secrets tonight. I can feel it in the air."
  const SecondLine: string := "Secrets are its currency. And we're here to spend."
  const ClosingLine: string := "This is just the beginning. The real story is still in the shadows."

  function Narrate(text: string): StoryPart
  {
    StoryPart(Narration, Some(text), None)
  }

  function Say(speaker: Option<int>, line: string): StoryPart
  {
    StoryPart(Dialogue, Some(line), speaker)
  }

  const OpeningLead: string := "In the heart of "
  const OpeningCity: string := ", a city woven from shadows and secrets, "
  const OpeningPurpose: string := " moved with a purpose as sharp as a shard of glass. This tale, steeped in a "
  const OpeningStreet: string := " atmosphere, begins on a rain-slicked cobblestone street."

  /** The template of the opening narration, with the tone and genre lower-cased. */
  function Opening(inputs: StoryInputs): string
  {
    OpeningLead + OrElse(inputs.setting, "Aethelgard") +
    OpeningCity + FirstNameOr(inputs.characters, "a lone figure") + OpeningAtmosphere(inputs)
  }

  function OpeningAtmosphere(inputs: StoryInputs): string
  {
    OpeningPurpose + Lower(inputs.tone) + " " + Lower(inputs.genre) + OpeningStreet
  }

  const ClosingLead: string := "As the twin moons cast their ethereal glow, "
  const ClosingPeril: string := " knew the path ahead was fraught with peril. The story was far from over."

  /** The template of the closing narration. */
  function Closing(inputs: StoryInputs): string
  {
    ClosingLead + FirstNameOr(inputs.characters, "the figure") + ClosingPeril
  }

  /**
    The story `generateStoryAPI` resolves with.  `pickFirst` and
    `pickScaled` are Faker's choices for its two calls of
    `generateEnglishParagraphs`.
  */
  function AssembleStory(inputs: StoryInputs, pickFirst: Pick, pickScaled: Pick): (story: seq<StoryPart>)
    ensures |story| == if |inputs.characters| > 1 then 8 else 7
    ensures story[0].kind == Narration && story[1].kind == ImagePlaceholder
    ensures story[2].kind == Narration && story[|story| - 1].kind == Narration
    ensures story[2].content == Some(EnglishParagraphs(1, pickFirst))
    ensures story[|story| - 3].kind == Narration
    ensures story[|story| - 3].content == Some(EnglishParagraphs(ParagraphCount(inputs.length), pickScaled))
  {
    var cs := inputs.characters;
    [ Narrate(Opening(inputs)),
      StoryPart(ImagePlaceholder, None, None),
      Narrate(EnglishParagraphs(1, pickFirst)),
      Say(FirstId(cs), FirstLine) ] +
    (if |cs| > 1 then [Say(Some(cs[1].id), SecondLine)] else []) +
    [ Narrate(EnglishParagraphs(ParagraphCount(inputs.length), pickScaled)),
      Say(FirstId(cs), ClosingLine),
      Narrate(Closing(inputs)) ]
  }

  /** The speakers of the dialogue parts, in story order. */
  function Speakers(story: seq<StoryPart>): (ids: seq<Option<int>>)
    ensures |ids| <= |story|
  {
    if story == [] then []
    else (if story[0].kind == Dialogue then [story[0].characterId] else []) + Speakers(story[1..])
  }

  lemma {:induction false} SpeakersAppend(xs: seq<StoryPart>, ys: seq<StoryPart>)
    ensures Speakers(xs + ys) == Speakers(xs) + Speakers(ys)
  {
    if xs == [] {
      assert xs + ys == ys;
    } else {
      var head := if xs[0].kind == Dialogue then [xs[0].characterId] else [];
      assert (xs + ys)[0] == xs[0];
      assert (xs + ys)[1..] == xs[1..] + ys;
      SpeakersAppend(xs[1..], ys);
      assert Speakers(xs + ys) == head + Speakers(xs[1..] + ys);
      assert Speakers(xs) == head + Speakers(xs[1..]);
    }
  }

  /**
    The dialogue lines are spoken by the first character, then the second
    one if there is one, then the first again: two lines for one character,
    three for two or more.
  */
  lemma DialogueSpeakers(inputs: StoryInputs, pickFirst: Pick, pickScaled: Pick)
    ensures var cs := inputs.characters;
            Speakers(AssembleStory(inputs, pickFirst, pickScaled)) ==
              if |cs| > 1 then [Some(cs[0].id), Some(cs[1].id), Some(cs[0].id)]
              else [FirstId(cs), FirstId(cs)]
  {
    var cs := inputs.characters;
    var head := [ Narrate(Opening(inputs)),
      StoryPart(ImagePlaceholder, None, None),
      Narrate(EnglishParagraphs(1, pickFirst)),
      Say(FirstId(cs), FirstLine) ];
    var middle := if |cs| > 1 then [Say(Some(cs[1].id), SecondLine)] else [];
    var tail := [ Narrate(EnglishParagraphs(ParagraphCount(inputs.length), pickScaled)),
      Say(FirstId(cs), ClosingLine),
      Narrate(Closing(inputs)) ];
    SpeakersAppend(head + middle, tail);
    SpeakersAppend(head, middle);
    assert Speakers(head) == [FirstId(cs)] by {
      assert head[1..][1..][1..] == [Say(FirstId(cs), FirstLine)];
      assert Speakers(head[1..][1..][1..]) == [FirstId(cs)] + Speakers([]);
      assert Speakers(head[1..][1..]) == Speakers(head[1..][1..][1..]);
      assert Speakers(head[1..]) == Speakers(head[1..][1..]);
    }
    assert Speakers(tail) == [FirstId(cs)] by {
      assert tail[1..][1..] == [Narrate(Closing(inputs))];
      assert Speakers(tail[1..][1..]) == [] + Speakers([]);
      assert Speakers(tail[1..]) == [FirstId(cs)] + Speakers(tail[1..][1..]);
    }
    if |cs| > 1 {
      assert Speakers(middle) == [Some(cs[1].id)] + Speakers([]);
    }
  }

  /**
    The opening narration names the setting (or "Aethelgard" when it is
    empty) and the first character (or "a lone figure" when there is none or
    the name is empty).
  */
  lemma OpeningMentions(inputs: StoryInputs, pickFirst: Pick, pickScaled: Pick)
    ensures var open := AssembleStory(inputs, pickFirst, pickScaled)[0].content;
            open.Some? &&
            Mentions(open.value, if inputs.setting == "" then "Aethelgard" else inputs.setting) &&
            Mentions(open.value,
              if |inputs.characters| == 0 || inputs.characters[0].name == "" then "a lone figure"
              else inputs.characters[0].name)
  {
    var text := Opening(inputs);
    assert AssembleStory(inputs, pickFirst, pickScaled)[0] == Narrate(text);
    MentionsBoth(OpeningLead, OrElse(inputs.setting, "Aethelgard"), OpeningCity,
      FirstNameOr(inputs.characters, "a lone figure"), OpeningAtmosphere(inputs));
  }

  /** The closing narration names the first character, or "the figure". */
  lemma ClosingMentions(inputs: StoryInputs, pickFirst: Pick, pickScaled: Pick)
    ensures var story := AssembleStory(inputs, pickFirst, pickScaled);
            var close := story[|story| - 1].content;
            close.Some? &&
            Mentions(close.value,
              if |inputs.characters| == 0 || inputs.characters[0].name == "" then "the figure"
              else inputs.characters[0].name)
  {
    MentionsAt(ClosingLead, FirstNameOr(inputs.characters, "the figure"), ClosingPeril);
  }

  lemma MentionsBoth(a: string, w1: string, b: string, w2: string, c: string)
    ensures Mentions(a + w1 + b + w2 + c, w1)
    ensures Mentions(a + w1 + b + w2 + c, w2)
  {
    var s := a + w1 + b + w2 + c;
    assert s == a + w1 + (b + w2 + c);
    MentionsAt(a, w1, b + w2 + c);
    assert s == (a + w1 + b) + w2 + c;
    MentionsAt(a + w1 + b, w2, c);
  }

  lemma MentionsAt(a: string, w: string, b: string)
    ensures IsAt(a + w + b, w, |a|)
    ensures Mentions(a + w + b, w)
  {
    assert (a + w + b)[|a|..|a| + |w|] == w;
    assert IsAt(a + w + b, w, |a|);
  }

  /**
    One character "Ava" (id 1) in "Neo Kyoto" at length 300: seven parts,
    an opening that names both, the scene placeholder second, both dialogue
    lines spoken by id 1, and a single paragraph of scaled narration.
  */
  lemma SingleCharacterExample(genre: string, tone: string, pickFirst: Pick, pickScaled: Pick)
    ensures var inputs := StoryInputs(genre, tone, "Neo Kyoto", [Character(1, "Ava", "")], 300);
            var story := AssembleStory(inputs, pickFirst, pickScaled);
            && |story| == 7
            && story[0].kind == Narration && story[0].content.Some?
            && Mentions(story[0].content.value, "Neo Kyoto") && Mentions(story[0].content.value, "Ava")
            && story[1].kind == ImagePlaceholder
            && Speakers(story) == [Some(1), Some(1)]
            && story[4].content == Some(EnglishParagraphs(1, pickScaled))
  {
    var inputs := StoryInputs(genre, tone, "Neo Kyoto", [Character(1, "Ava", "")], 300);
    OpeningMentions(inputs, pickFirst, pickScaled);
    DialogueSpeakers(inputs, pickFirst, pickScaled);
  }

  /** The page component's state. */
  class StoryView {
    /** `location.state?.storyInputs`: absent when the page is opened directly. */
    const storyInputs: Option<StoryInputs>
    var isLoading: bool
    var isTyping: bool
    var story: Option<seq<StoryPart>>
    /** `navigate('/create')` was called. */
    var redirected: bool
    /** The mock call is awaited and has not resolved yet. */
    var fetchPending: bool

    ghost predicate Valid()
      reads this
    {
      && (redirected <==> storyInputs.None?)
      && (fetchPending ==> storyInputs.Some? && isLoading && isTyping && story.None?)
      && (storyInputs.Some? && isLoading ==> fetchPending)
      && (!isLoading ==> storyInputs.Some? && story.Some?)
      && (!isTyping ==> !isLoading)
    }

    /**
      Mounting: the initial state, then the effect.  Without inputs it
      redirects to the creator and fetches nothing; otherwise `fetchStory`
      sets both flags, clears the story and awaits the mock call.
    */
    constructor (inputs: Option<StoryInputs>)
      ensures Valid()
      ensures storyInputs == inputs
      ensures isLoading && isTyping && story == None
      ensures redirected <==> inputs.None?
      ensures fetchPending <==> inputs.Some?
    {
      storyInputs := inputs;
      isLoading := true;
      story := None;
      isTyping := true;
      redirected := false;
      fetchPending := false;
      new;
      if inputs.None? {
        redirected := true;
        return;
      }
      isLoading := true;
      isTyping := true;
      story := None;
      fetchPending := true;
    }

    /** The mock call resolves: the story is stored, then loading ends. */
    method ResolveFetch(pickFirst: Pick, pickScaled: Pick) returns (resolved: bool)
      requires Valid()
      modifies this
      ensures Valid()
      ensures resolved <==> old(fetchPending)
      ensures resolved ==> story == Some(AssembleStory(storyInputs.value, pickFirst, pickScaled))
      ensures resolved ==> !isLoading && isTyping && !fetchPending
      ensures !resolved ==> story == old(story) && isLoading == old(isLoading) && fetchPending == old(fetchPending)
      ensures isTyping == old(isTyping) && redirected == old(redirected)
    {
      resolved := fetchPending;
      if !resolved {
        return;
      }
      story := Some(AssembleStory(storyInputs.value, pickFirst, pickScaled));
      isLoading := false;
      fetchPending := false;
    }

    /** The renderer is on screen: loading is over and a story is present. */
    predicate RendererMounted()
      reads this
    {
      !isLoading && story.Some?
    }

    /**
      The renderer's `onComplete`, the only place where `isTyping` becomes
      false; it can only arrive while the renderer is mounted.
    */
    method RendererCompleted() returns (handled: bool)
      requires Valid()
      modifies this
      ensures Valid()
      ensures handled <==> old(RendererMounted())
      ensures isTyping == (old(isTyping) && !handled)
      ensures isLoading == old(isLoading) && story == old(story) && fetchPending == old(fetchPending)
      ensures redirected == old(redirected)
    {
      handled := !isLoading && story.Some?;
      if handled {
        isTyping := false;
      }
    }

    /** The Download button is enabled (`disabled={isTyping || isLoading}`). */
    function DownloadEnabled(): (enabled: bool)
      reads this
      requires Valid()
      ensures enabled ==> story.Some? && storyInputs.Some? && !fetchPending
      ensures enabled ==> RendererMounted()
    {
      !isTyping && !isLoading
    }
  }
}
