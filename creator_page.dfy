/**
  The story creator form: the `Character` and `StoryInputs` records, the
  character-list editing operations and the form state they update.
*/
module CreatorPage {
  import opened Constants

  datatype Character = Character(id: int, name: string, traits: string)

  datatype StoryInputs = StoryInputs(
    genre: string,
    tone: string,
    setting: string,
    characters: seq<Character>,
    length: int)

  /** The two editable text fields of a character row. */
  datatype Field = Name | Traits

  function Ids(cs: seq<Character>): seq<int>
  {
    seq(|cs|, i requires 0 <= i < |cs| => cs[i].id)
  }

  /** No two entries share an id. */
  predicate DistinctIds(cs: seq<Character>)
  {
    forall i, j :: 0 <= i < j < |cs| ==> cs[i].id != cs[j].id
  }

  /**
    The values the length slider can produce: from the short to the long
    preset, in steps of `LengthStep` counted from the minimum.
  */
  predicate ValidLength(n: int)
  {
    ShortLength <= n <= LongLength && (n - ShortLength) % LengthStep == 0
  }

  /** `addCharacter`: a new blank row with the given fresh id at the end. */
  function WithAddedCharacter(cs: seq<Character>, freshId: int): (r: seq<Character>)
    ensures |r| == |cs| + 1
    ensures r[..|cs|] == cs
    ensures r[|cs|] == Character(freshId, "", "")
  {
    cs + [Character(freshId, "", "")]
  }

  /** `removeCharacter`: `characters.filter(c => c.id !== id)`. */
  function WithoutCharacter(cs: seq<Character>, id: int): (r: seq<Character>)
    ensures |r| <= |cs|
    ensures forall c :: c in r <==> c in cs && c.id != id
  {
    if cs == [] then []
    else if cs[0].id == id then WithoutCharacter(cs[1..], id)
    else [cs[0]] + WithoutCharacter(cs[1..], id)
  }

  /** The character with `field` set to `value`, everything else as it was. */
  function WithField(c: Character, field: Field, value: string): Character
  {
    match field
    case Name => c.(name := value)
    case Traits => c.(traits := value)
  }

  /** `updateCharacter`: `characters.map(c => c.id === id ? { ...c, [field]: value } : c)`. */
  function WithUpdatedCharacter(cs: seq<Character>, id: int, field: Field, value: string): (r: seq<Character>)
    ensures |r| == |cs|
    ensures forall i :: 0 <= i < |cs| && cs[i].id != id ==> r[i] == cs[i]
    ensures forall i :: 0 <= i < |cs| && cs[i].id == id ==>
              r[i].id == id &&
              (field == Name ==> r[i].name == value && r[i].traits == cs[i].traits) &&
              (field == Traits ==> r[i].traits == value && r[i].name == cs[i].name)
  {
    seq(|cs|, i requires 0 <= i < |cs| => if cs[i].id == id then WithField(cs[i], field, value) else cs[i])
  }

  /** Removal distributes over concatenation: it keeps the survivors in their original order. */
  lemma {:induction false} WithoutCharacterKeepsOrder(xs: seq<Character>, ys: seq<Character>, id: int)
    ensures WithoutCharacter(xs + ys, id) == WithoutCharacter(xs, id) + WithoutCharacter(ys, id)
  {
    if xs == [] {
      assert xs + ys == ys;
    } else {
      assert (xs + ys)[1..] == xs[1..] + ys;
      WithoutCharacterKeepsOrder(xs[1..], ys, id);
    }
  }

  /** Removing an id that is not in the list changes nothing. */
  lemma {:induction false} WithoutAbsentCharacter(cs: seq<Character>, id: int)
    requires id !in Ids(cs)
    ensures WithoutCharacter(cs, id) == cs
  {
    if cs != [] {
      assert cs[0].id == Ids(cs)[0];
      assert Ids(cs[1..]) == Ids(cs)[1..];
      WithoutAbsentCharacter(cs[1..], id);
      assert [cs[0]] + cs[1..] == cs;
    }
  }

  /** With distinct ids, removing a present id removes exactly one entry. */
  lemma {:induction false} WithoutPresentCharacter(cs: seq<Character>, id: int)
    requires DistinctIds(cs)
    requires id in Ids(cs)
    ensures |WithoutCharacter(cs, id)| == |cs| - 1
  {
    assert Ids(cs[1..]) == Ids(cs)[1..];
    if cs[0].id == id {
      assert id !in Ids(cs[1..]);
      WithoutAbsentCharacter(cs[1..], id);
    } else {
      WithoutPresentCharacter(cs[1..], id);
    }
  }

  /**
    The form disables Remove while only one row is left; so, with distinct
    ids, every removal the form permits leaves at least one character.
  */
  lemma PermittedRemovalLeavesCharacter(cs: seq<Character>, id: int)
    requires DistinctIds(cs)
    requires id in Ids(cs)
    requires !RemoveDisabled(cs)
    ensures |WithoutCharacter(cs, id)| >= 1
  {
    WithoutPresentCharacter(cs, id);
  }

  /** The Remove button's `disabled` flag. */
  predicate RemoveDisabled(cs: seq<Character>)
  {
    |cs| <= 1
  }

  /** A fresh id keeps the ids distinct. */
  lemma AddKeepsIdsDistinct(cs: seq<Character>, freshId: int)
    requires DistinctIds(cs)
    requires freshId !in Ids(cs)
    ensures DistinctIds(WithAddedCharacter(cs, freshId))
  {
    var r := WithAddedCharacter(cs, freshId);
    forall i, j | 0 <= i < j < |r| ensures r[i].id != r[j].id {
      if j == |cs| {
        assert cs[i].id == Ids(cs)[i];
      }
    }
  }

  /** Editing a field never changes an id, so distinct ids stay distinct. */
  lemma UpdateKeepsIds(cs: seq<Character>, id: int, field: Field, value: string)
    ensures Ids(WithUpdatedCharacter(cs, id, field, value)) == Ids(cs)
  {
  }

  /**
    The creator form's state.  Each `set*` call of the source replaces one
    field wholesale; the character-list handlers replace the list with the
    value of the corresponding function above.
  */
  class CreatorForm {
    var genre: string
    var tone: string
    var setting: string
    var characters: seq<Character>
    var length: int

    /** The select boxes offer only the listed options; the slider only valid lengths. */
    ghost predicate Valid()
      reads this
    {
      genre in Genres && tone in Tones && ValidLength(length)
    }

    /** The initial state of the form. */
    constructor ()
      ensures Valid()
      ensures genre == Genres[0] && tone == Tones[0] && setting == ""
      ensures characters == [Character(1, "", "")]
      ensures length == MediumLength
    {
      genre := Genres[0];
      tone := Tones[0];
      setting := "";
      characters := [Character(1, "", "")];
      length := MediumLength;
    }

    method SetGenre(g: string)
      requires Valid() && g in Genres
      modifies this
      ensures Valid() && genre == g
      ensures tone == old(tone) && setting == old(setting) && characters == old(characters) && length == old(length)
    {
      genre := g;
    }

    method SetTone(t: string)
      requires Valid() && t in Tones
      modifies this
      ensures Valid() && tone == t
      ensures genre == old(genre) && setting == old(setting) && characters == old(characters) && length == old(length)
    {
      tone := t;
    }

    method SetSetting(s: string)
      requires Valid()
      modifies this
      ensures Valid() && setting == s
      ensures genre == old(genre) && tone == old(tone) && characters == old(characters) && length == old(length)
    {
      setting := s;
    }

    method SetLength(n: int)
      requires Valid() && ValidLength(n)
      modifies this
      ensures Valid() && length == n
      ensures genre == old(genre) && tone == old(tone) && setting == old(setting) && characters == old(characters)
    {
      length := n;
    }

    /** `addCharacter`, with the value of `Date.now()` passed in as `freshId`. */
    method AddCharacter(freshId: int)
      requires Valid()
      modifies this
      ensures Valid() && characters == WithAddedCharacter(old(characters), freshId)
      ensures genre == old(genre) && tone == old(tone) && setting == old(setting) && length == old(length)
    {
      characters := characters + [Character(freshId, "", "")];
    }

    method RemoveCharacter(id: int)
      requires Valid()
      modifies this
      ensures Valid() && characters == WithoutCharacter(old(characters), id)
      ensures genre == old(genre) && tone == old(tone) && setting == old(setting) && length == old(length)
    {
      characters := WithoutCharacter(characters, id);
    }

    method UpdateCharacter(id: int, field: Field, value: string)
      requires Valid()
      modifies this
      ensures Valid() && characters == WithUpdatedCharacter(old(characters), id, field, value)
      ensures genre == old(genre) && tone == old(tone) && setting == old(setting) && length == old(length)
    {
      characters := WithUpdatedCharacter(characters, id, field, value);
    }

    /** `handleGenerate`: the form's current values, unchanged, as the inputs handed to the story page. */
    method HandleGenerate() returns (inputs: StoryInputs)
      requires Valid()
      ensures inputs.genre == genre && inputs.tone == tone && inputs.setting == setting
      ensures inputs.characters == characters && inputs.length == length
      ensures inputs.genre in Genres && inputs.tone in Tones && ValidLength(inputs.length)
    {
      inputs := StoryInputs(genre, tone, setting, characters, length);
    }
  }
}
