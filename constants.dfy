/** The option lists and story-length presets offered by the creator form. */
module Constants {

  const Genres: seq<string> :=
    ["Fantasy", "Science Fiction", "Mystery", "Romance", "Adventure", "Horror", "Thriller", "Historical"]

  const Tones: seq<string> :=
    ["Humorous", "Serious", "Dark", "Inspiring", "Dramatic", "Whimsical", "Formal"]

  const ShortLength: int := 300
  const MediumLength: int := 600
  const LongLength: int := 1000

  /** The length slider's `step`. */
  const LengthStep: int := 10
}
