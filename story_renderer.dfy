/**
  The story renderer: one child per story part, in order.  What each child
  shows is decided from the part and from two lookup tables built from the
  character list (character by id, avatar colour by id).  The framer-motion
  container that staggers the children and raises `onComplete` is not part
  of this model.
*/
module StoryRenderer {
  import opened Wrappers
  import opened Text
  import opened CreatorPage
  import opened StoryPage
  import opened CharacterAvatar

  const AvatarColors: seq<string> := ["#FF00E5", "#00F5FF", "#F7FF00", "#FF5733", "#33FF57"]
  const UnknownColor: string := "#888"
  const NarrationSpeed: nat := 20
  const DialogueSpeed: nat := 35

  /** The props given to an inner `Typewriter`. */
  datatype TypewriterProps = TypewriterProps(text: string, speed: nat, hasOnComplete: bool)

  /** What `renderStoryPart` returns for one part. */
  datatype View =
    | NarrationView(typewriter: TypewriterProps)
    | DialogueView(rightAligned: bool, avatar: AvatarProps, speakerName: string, typewriter: TypewriterProps)
    | SceneView
    | NoView

  /** `new Map(characters.map(c => [c.id, c]))`: a later entry with the same id overwrites an earlier one. */
  function CharacterMap(cs: seq<Character>): (m: map<int, Character>)
    ensures forall id | id in m :: m[id].id == id && m[id] in cs
    decreases |cs|
  {
    if cs == [] then map[]
    else CharacterMap(cs[..|cs| - 1])[cs[|cs| - 1].id := cs[|cs| - 1]]
  }

  /** `new Map(characters.map((c, i) => [c.id, avatarColors[i % avatarColors.length]]))`. */
  function ColorMap(cs: seq<Character>): (m: map<int, string>)
    ensures forall id | id in m :: m[id] in AvatarColors
    decreases |cs|
  {
    if cs == [] then map[]
    else ColorMap(cs[..|cs| - 1])[cs[|cs| - 1].id := AvatarColors[(|cs| - 1) % |AvatarColors|]]
  }

  /** No entry after position `i` has the id of entry `i`. */
  predicate LastWithId(cs: seq<Character>, i: int)
    requires 0 <= i < |cs|
  {
    forall j :: i < j < |cs| ==> cs[j].id != cs[i].id
  }

  /** Both tables have exactly the ids of the list as keys. */
  lemma {:induction false} MapKeys(cs: seq<Character>)
    ensures forall id :: id in CharacterMap(cs) <==> id in Ids(cs)
    ensures forall id :: id in ColorMap(cs) <==> id in Ids(cs)
    decreases |cs|
  {
    if cs != [] {
      var init := cs[..|cs| - 1];
      MapKeys(init);
      assert Ids(cs) == Ids(init) + [cs[|cs| - 1].id];
    }
  }

  /**
    The entry at position `i`, if no later entry shares its id, is what both
    tables give for that id: the character itself, and the colour of its
    POSITION, `avatarColors[i mod 5]`.
  */
  lemma {:induction false} MapLookup(cs: seq<Character>, i: int)
    requires 0 <= i < |cs|
    requires LastWithId(cs, i)
    ensures cs[i].id in CharacterMap(cs) && CharacterMap(cs)[cs[i].id] == cs[i]
    ensures cs[i].id in ColorMap(cs) && ColorMap(cs)[cs[i].id] == AvatarColors[i % 5]
    decreases |cs|
  {
    if i < |cs| - 1 {
      var init := cs[..|cs| - 1];
      assert LastWithId(init, i) by {
        forall j | i < j < |init| ensures init[j].id != init[i].id {
          assert init[j] == cs[j];
        }
      }
      MapLookup(init, i);
      assert cs[|cs| - 1].id != cs[i].id;
    }
  }

  /** `characterMap.get(part.characterId!)`: an absent id finds nothing. */
  function FindCharacter(characters: map<int, Character>, id: Option<int>): (found: Option<Character>)
    ensures found.Some? <==> id.Some? && id.value in characters
    ensures found.Some? ==> found.value == characters[id.value]
  {
    if id.Some? && id.value in characters then Some(characters[id.value]) else None
  }

  /** `c?.name || fallback`. */
  function NameOr(c: Option<Character>, fallback: string): string
  {
    if c.Some? then OrElse(c.value.name, fallback) else fallback
  }

  /** `colorMap.get(part.characterId!) || '#888'`. */
  function ColorFor(colors: map<int, string>, id: Option<int>): string
  {
    if id.Some? && id.value in colors then OrElse(colors[id.value], UnknownColor) else UnknownColor
  }

  /** `character?.id || 0`: an unknown speaker counts as id 0. */
  function ResolvedId(c: Option<Character>): int
  {
    if c.Some? then c.value.id else 0
  }

  /** `part.content || ''`. */
  function TextOf(part: StoryPart): string
  {
    if part.content.Some? then part.content.value else ""
  }

  /** `renderStoryPart`. */
  function RenderPart(part: StoryPart, characters: map<int, Character>, colors: map<int, string>): (v: View)
    ensures v.NarrationView? <==> part.kind == Narration
    ensures v.DialogueView? <==> part.kind == Dialogue
    ensures v.SceneView? <==> part.kind == ImagePlaceholder
    ensures v.NoView? <==> part.kind.Unrecognised?
    ensures (v.NarrationView? || v.DialogueView?) ==>
              v.typewriter.text == TextOf(part) &&
              v.typewriter.speed == (if v.NarrationView? then NarrationSpeed else DialogueSpeed) &&
              !v.typewriter.hasOnComplete
  {
    match part.kind
    case Narration => NarrationView(TypewriterProps(TextOf(part), NarrationSpeed, false))
    case Dialogue =>
      var character := FindCharacter(characters, part.characterId);
      var isEven := ResolvedId(character) % 2 == 0;
      DialogueView(
        isEven,
        AvatarProps(NameOr(character, "?"), ColorFor(colors, part.characterId)),
        NameOr(character, "Unknown"),
        TypewriterProps(TextOf(part), DialogueSpeed, false))
    case ImagePlaceholder => SceneView
    case Unrecognised(_) => NoView
  }

  /** `story.map(...)`: one view per part, in story order. */
  function RenderStory(story: seq<StoryPart>, cs: seq<Character>): (views: seq<View>)
    ensures |views| == |story|
    ensures forall i :: 0 <= i < |story| ==> views[i] == RenderPart(story[i], CharacterMap(cs), ColorMap(cs))
  {
    var characters := CharacterMap(cs);
    var colors := ColorMap(cs);
    seq(|story|, i requires 0 <= i < |story| => RenderPart(story[i], characters, colors))
  }

  /**
    A dialogue by a listed character (the last entry with its id) is
    right-aligned exactly when the id is even; it shows the character's name
    (or "Unknown" / "?" when the name is empty) and its position's colour.
  */
  lemma KnownSpeaker(part: StoryPart, cs: seq<Character>, i: int)
    requires part.kind == Dialogue
    requires 0 <= i < |cs| && LastWithId(cs, i)
    requires part.characterId == Some(cs[i].id)
    ensures var v := RenderPart(part, CharacterMap(cs), ColorMap(cs));
            && (v.rightAligned <==> cs[i].id % 2 == 0)
            && v.speakerName == OrElse(cs[i].name, "Unknown")
            && v.avatar == AvatarProps(OrElse(cs[i].name, "?"), AvatarColors[i % 5])
  {
    MapLookup(cs, i);
  }

  /**
    A dialogue with no speaker, or one not in the list, is treated as id 0:
    right-aligned, named "Unknown", with a `'?'` avatar in grey.
  */
  lemma UnknownSpeaker(part: StoryPart, cs: seq<Character>)
    requires part.kind == Dialogue
    requires part.characterId.None? || part.characterId.value !in Ids(cs)
    ensures var v := RenderPart(part, CharacterMap(cs), ColorMap(cs));
            && v.rightAligned
            && v.speakerName == "Unknown"
            && v.avatar == AvatarProps("?", UnknownColor)
            && AvatarText(v.avatar) == Some("?")
  {
    MapKeys(cs);
    var characters := CharacterMap(cs);
    if part.characterId.Some? {
      var id := part.characterId.value;
      assert id !in Ids(cs);
      assert id in CharacterMap(cs) <==> id in Ids(cs);
      assert id !in characters;
    }
    assert FindCharacter(characters, part.characterId) == None;
    assert ColorFor(ColorMap(cs), part.characterId) == UnknownColor;
    FallbackInitials();
  }

  /** Two parity cases: id 2 is right-aligned, id 3 left-aligned. */
  lemma ParityExamples(line: string)
    ensures RenderPart(StoryPart(Dialogue, Some(line), Some(2)),
              CharacterMap([Character(2, "Ava", "")]), ColorMap([Character(2, "Ava", "")])).rightAligned
    ensures !RenderPart(StoryPart(Dialogue, Some(line), Some(3)),
              CharacterMap([Character(3, "Ava", "")]), ColorMap([Character(3, "Ava", "")])).rightAligned
  {
    KnownSpeaker(StoryPart(Dialogue, Some(line), Some(2)), [Character(2, "Ava", "")], 0);
    KnownSpeaker(StoryPart(Dialogue, Some(line), Some(3)), [Character(3, "Ava", "")], 0);
  }

  /**
    A generated story renders as a narration, the scene placeholder, and
    then only narrations and dialogues; nothing renders empty and no inner
    Typewriter is given `onComplete`.
  */
  lemma GeneratedStoryViews(inputs: StoryInputs, pickFirst: Pick, pickScaled: Pick)
    ensures var views := RenderStory(AssembleStory(inputs, pickFirst, pickScaled), inputs.characters);
            && views[0].NarrationView? && views[1].SceneView?
            && (forall i :: 2 <= i < |views| ==> views[i].NarrationView? || views[i].DialogueView?)
            && (forall i :: 0 <= i < |views| && !views[i].SceneView? ==> !views[i].typewriter.hasOnComplete)
  {
    var story := AssembleStory(inputs, pickFirst, pickScaled);
    forall i | 2 <= i < |story| ensures story[i].kind == Narration || story[i].kind == Dialogue {
    }
  }
}
