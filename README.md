# StoryWeave front end: a verified model of its logic

StoryWeave is a single-page React application. The user fills in a creator
form (genre, tone, setting, a list of characters, a target length). A mocked
generator turns these inputs into a fixed-shape story of narration, dialogue
and an image placeholder. The story page shows a loader, then renders the
story with a per-character typewriter reveal, and enables a PDF download
once the renderer's entrance animation reports completion.

This project models the logic of that front end in Dafny and proves its
properties:

- `typewriter.dfy`: the `Typewriter` reveal state machine. `RevealState` holds
  `displayedText`, `currentIndex`, the pending timer (the text and index its
  closure captured) and a count of `onComplete` calls. The pure step
  functions `Mounted`, `AfterTextChange`, `AfterEffect` and `AfterTick`
  specify the class `Typewriter`, whose methods update the fields step by
  step. A timer tick is one discrete event.
- `story_page.dfy`: `generateEnglishParagraphs` as a method with the source's
  nested loops, specified by `EnglishParagraphs`; the story built by
  `generateStoryAPI` (`AssembleStory`); and the page's
  `isLoading`/`isTyping`/`story` flags (class `StoryView`). Faker's choices
  are a parameter: `pick(i)` gives the word strings of paragraph `i`'s
  sentences.
- `creator_page.dfy`: `Character`, `StoryInputs`, the character-list
  operations (add, remove by id, update a field by id) and the form state
  (class `CreatorForm`). `Date.now()` is a parameter.
- `story_renderer.dfy`: the id-to-character and id-to-colour tables and
  `renderStoryPart`'s choices: alignment, fallbacks, Typewriter speeds.
- `character_avatar.dfy`: `getInitials`, both as written and as intended
  (see Findings).
- `text.dfy`: the JavaScript string built-ins the code uses: `split` on one
  character, `join`, and ASCII `toUpperCase`/`toLowerCase`. It proves that
  split and join are inverse.
- `constants.dfy`, `wrappers.dfy`: the option lists and length presets of
  `src/lib/constants.ts`, and `Option` for values that may be `undefined`.

Behaviour of the code worth knowing before reading the contracts:

- An empty text schedules no tick and never calls `onComplete`: the tick
  effect returns early (`src/components/Typewriter.tsx:20`;
  `Typewriter.FullReveal`, `Typewriter.Mounted`).
- The story has 7 parts, or 8 when there are at least two characters
  (`StoryPage.AssembleStory`).
- Giving the same text again does not restart the reveal. React compares
  effect dependencies by value (`Typewriter.AfterTextChange`).

## Model

| member | source | states |
|---|---|---|
| `Typewriter.AfterEffect` | src/components/Typewriter.tsx:19-30 | the tick effect leaves the text and the shown prefix alone; afterwards a tick is pending exactly while characters remain, and its closure holds the current text and index; `onComplete` is called (count +1) iff a callback was given, the text is non-empty and `currentIndex >= |text|`; otherwise nothing is scheduled or called |
| `Typewriter.Mounted` | src/components/Typewriter.tsx:10-30 | a fresh Typewriter shows nothing at index 0, has made no completion call, and has a tick pending iff the text is non-empty |
| `Typewriter.AfterTextChange` | src/components/Typewriter.tsx:14-17 | a different text resets `displayedText` to `''` and `currentIndex` to 0 and keeps the invariant; the same text changes nothing; text changes never call `onComplete` |
| `Typewriter.AfterTick` | src/components/Typewriter.tsx:22-25 | the pending tick appends exactly `text[currentIndex]` and increments the index; with no pending tick nothing changes; `onComplete` is called iff that tick reveals the last character; the prefix invariant is preserved |
| `Typewriter.CursorWhilePending` | src/components/Typewriter.tsx:32 | the cursor is shown iff a tick is pending iff the reveal is not complete |
| `Typewriter.TicksReveal` | src/components/Typewriter.tsx:21-24 | from any consistent state, k ticks (within the remaining characters) show `text[..currentIndex + k]`, and `onComplete` is called once iff they reach the end |
| `Typewriter.TicksAfterCompletion` | src/components/Typewriter.tsx:21-29 | once complete, no tick is pending and any number of further ticks changes nothing, so `onComplete` is not called again |
| `Typewriter.FullReveal` | src/components/Typewriter.tsx:20-29 | at least `|text|` ticks after mounting show exactly `text`, leave nothing pending and call `onComplete` exactly once, or never for empty text |
| `Typewriter.NoStaleTickAfterTextChange` | src/components/Typewriter.tsx:22-26 | after a text change the next tick appends the new text's first character: the old text's pending tick was cancelled |
| `Typewriter.Typewriter.constructor` | src/components/Typewriter.tsx:10-12 | the mounted instance's state is `Mounted(text)` |
| `Typewriter.Typewriter.RunTickEffect` | src/components/Typewriter.tsx:19-30 | the field updates equal `AfterEffect` of the old state |
| `Typewriter.Typewriter.SetText` | src/components/Typewriter.tsx:14-17 | the new state is `AfterTextChange` of the old one, and the invariant is kept |
| `Typewriter.Typewriter.Tick` | src/components/Typewriter.tsx:22-25 | reports whether a tick was pending; the new state is `AfterTick` of the old one, and the invariant is kept |
| `Typewriter.Typewriter.IsComplete` | src/components/Typewriter.tsx:21-27 | complete iff the whole text is shown iff no tick is pending |
| `Typewriter.Typewriter.ShowsCursor` | src/components/Typewriter.tsx:32 | the cursor is shown iff a tick is pending iff fewer characters are shown than the text has |
| `StoryPage.Sentence` | src/pages/StoryPage.tsx:31 | a sentence is its words with the first character upper-cased, the rest unchanged, then one `'.'` |
| `StoryPage.GenerateEnglishParagraphs` | src/pages/StoryPage.tsx:24-37 | the nested loops return the paragraphs' sentences joined by `' '`, and the paragraphs joined by `"\n\n"` |
| `StoryPage.ParagraphSentenceCount` | src/pages/StoryPage.tsx:27-34 | when the words hold no full stop, a paragraph of k sentences holds exactly k full stops |
| `StoryPage.FakerParagraphStops` | src/pages/StoryPage.tsx:27-34 | with Faker's 3 to 5 sentences and words without a full stop, every generated paragraph holds 3 to 5 full stops |
| `StoryPage.EnglishParagraphsLayout` | src/pages/StoryPage.tsx:26-36 | when the words hold no line break, n paragraphs are separated by exactly `n - 1` blank lines (`2(n - 1)` line breaks), and 0 paragraphs give `''` |
| `StoryPage.ParagraphCount` | src/pages/StoryPage.tsx:50 | `max(1, ceil(length/400))`: at least 1, equal to 1 up to 400, otherwise the n with `400(n-1) < length <= 400n` |
| `StoryPage.SliderParagraphCounts` | src/pages/StoryPage.tsx:50 | on the slider's lengths (300 to 1000, step 10) the count is 1 to 3: 1 iff length <= 400, 3 iff length > 800 |
| `StoryPage.AssembleStory` | src/pages/StoryPage.tsx:44-53 | 8 parts with more than one character, else 7; part 0 is narration, part 1 the image placeholder, part 2 one filler paragraph, the third-from-last the length-scaled filler, and the last part narration |
| `StoryPage.DialogueSpeakers` | src/pages/StoryPage.tsx:48-51 | the dialogue speakers in order are `characters[0].id`, then `characters[1].id` only if present, then `characters[0].id` again (absent for an empty list) |
| `StoryPage.OpeningMentions` | src/pages/StoryPage.tsx:45 | the opening names the setting, or `'Aethelgard'` when it is empty, and the first character's name, or `'a lone figure'` when it is empty or missing |
| `StoryPage.ClosingMentions` | src/pages/StoryPage.tsx:52 | the closing names the first character, or `'the figure'` |
| `StoryPage.SingleCharacterExample` | src/pages/StoryPage.tsx:44-53 | Ava in Neo Kyoto at length 300: 7 parts, an opening naming both, the placeholder second, both dialogues by id 1, one scaled paragraph |
| `StoryPage.StoryView.constructor` | src/pages/StoryPage.tsx:65-86 | without inputs the page redirects and fetches nothing; with inputs it starts the fetch with `isLoading`, `isTyping` set and no story |
| `StoryPage.StoryView.ResolveFetch` | src/pages/StoryPage.tsx:81-83 | when the awaited call resolves, `story` becomes the assembled story and `isLoading` false, `isTyping` untouched; with no fetch pending nothing changes |
| `StoryPage.StoryView.RendererCompleted` | src/pages/StoryPage.tsx:157 | the renderer's `onComplete` clears `isTyping`, and only while the renderer is mounted (loaded, story present) |
| `StoryPage.StoryView.DownloadEnabled` | src/pages/StoryPage.tsx:142 | Download is enabled only when the story is present, the fetch is over and the renderer is mounted |
| `CreatorPage.WithAddedCharacter` | src/pages/CreatorPage.tsx:33-35 | one entry with the fresh id and empty name and traits is appended; all earlier entries are unchanged and in order |
| `CreatorPage.AddKeepsIdsDistinct` | src/pages/CreatorPage.tsx:33-35 | a fresh id keeps the ids distinct |
| `CreatorPage.WithoutCharacter` | src/pages/CreatorPage.tsx:37-39 | an entry survives iff it was in the list and its id differs from the removed one |
| `CreatorPage.WithoutCharacterKeepsOrder` | src/pages/CreatorPage.tsx:37-39 | removal distributes over concatenation, so the survivors keep their original order |
| `CreatorPage.WithoutAbsentCharacter` | src/pages/CreatorPage.tsx:37-39 | removing an id that is not present changes nothing |
| `CreatorPage.WithoutPresentCharacter` | src/pages/CreatorPage.tsx:37-39 | with distinct ids, removing a present id removes exactly one entry |
| `CreatorPage.PermittedRemovalLeavesCharacter` | src/pages/CreatorPage.tsx:104 | with distinct ids, a removal while Remove is enabled (more than one row) leaves a non-empty list |
| `CreatorPage.WithUpdatedCharacter` | src/pages/CreatorPage.tsx:41-43 | length and order preserved; entries with other ids unchanged; entries with the id get the new value in the named field only |
| `CreatorPage.UpdateKeepsIds` | src/pages/CreatorPage.tsx:41-43 | updating a field never changes the list of ids |
| `CreatorPage.CreatorForm.constructor` | src/pages/CreatorPage.tsx:27-31 | the initial form: `genres[0]`, `tones[0]`, empty setting, `[{id: 1, name: '', traits: ''}]`, length 600 |
| `CreatorPage.CreatorForm.SetGenre` | src/pages/CreatorPage.tsx:69 | replaces the genre only |
| `CreatorPage.CreatorForm.SetTone` | src/pages/CreatorPage.tsx:75 | replaces the tone only |
| `CreatorPage.CreatorForm.SetSetting` | src/pages/CreatorPage.tsx:85 | replaces the setting only |
| `CreatorPage.CreatorForm.SetLength` | src/pages/CreatorPage.tsx:119-125 | replaces the length only, with a slider value: 300 to 1000 in steps of 10 |
| `CreatorPage.CreatorForm.AddCharacter` | src/pages/CreatorPage.tsx:33-35 | the list becomes `WithAddedCharacter` of the old list; nothing else changes |
| `CreatorPage.CreatorForm.RemoveCharacter` | src/pages/CreatorPage.tsx:37-39 | the list becomes `WithoutCharacter` of the old list; nothing else changes |
| `CreatorPage.CreatorForm.UpdateCharacter` | src/pages/CreatorPage.tsx:41-43 | the list becomes `WithUpdatedCharacter` of the old list; nothing else changes |
| `CreatorPage.CreatorForm.HandleGenerate` | src/pages/CreatorPage.tsx:45-48 | the inputs handed on are the current genre, tone, setting, characters and length, unchanged |
| `StoryRenderer.CharacterMap` | src/components/StoryRenderer.tsx:18 | every entry of the id table maps an id to a character of the list that has that id |
| `StoryRenderer.ColorMap` | src/components/StoryRenderer.tsx:15-19 | every colour in the colour table is one of the five avatar colours |
| `StoryRenderer.MapKeys` | src/components/StoryRenderer.tsx:18-19 | both tables have exactly the list's ids as keys |
| `StoryRenderer.MapLookup` | src/components/StoryRenderer.tsx:18-19 | for the last entry with a given id, the tables give that character and `avatarColors[i mod 5]` for its position i, not for its id |
| `StoryRenderer.FindCharacter` | src/components/StoryRenderer.tsx:62 | a lookup finds a character iff the part has an id that is a key |
| `StoryRenderer.RenderPart` | src/components/StoryRenderer.tsx:53-82 | narration, dialogue and image parts get their own view and unknown types get none; narration's Typewriter runs at speed 20 and dialogue's at 35, both on `content \|\| ''` and neither with `onComplete` |
| `StoryRenderer.RenderStory` | src/components/StoryRenderer.tsx:44-48 | exactly one view per story part, in story order |
| `StoryRenderer.KnownSpeaker` | src/components/StoryRenderer.tsx:62-68 | a listed speaker's dialogue is right-aligned iff its id is even, with the character's name (or `'Unknown'`/`'?'` if empty) and its position's colour |
| `StoryRenderer.UnknownSpeaker` | src/components/StoryRenderer.tsx:62-68 | a missing or unlisted speaker counts as id 0: right-aligned, named `'Unknown'`, avatar `'?'` in `'#888'`, showing the initials `'?'` |
| `StoryRenderer.ParityExamples` | src/components/StoryRenderer.tsx:63-65 | speaker id 2 is right-aligned, id 3 left-aligned |
| `StoryRenderer.GeneratedStoryViews` | src/components/StoryRenderer.tsx:44-80 | a generated story renders as narration, then the scene, then only narrations and dialogues, and no inner Typewriter gets `onComplete` |
| `CharacterAvatar.InitialsAsWritten` | src/components/CharacterAvatar.tsx:9-15 | `getInitials` as written, with JavaScript's `undefined` concatenation: a result has at most ten characters, and `None` is the TypeError when both leading pieces are empty (see Findings) |
| `CharacterAvatar.Initials` | src/components/CharacterAvatar.tsx:9-15 | the corrected `getInitials` of the Findings table: at most two characters, none of them a lower-case ASCII letter |
| `CharacterAvatar.AsWrittenAgreement` | src/components/CharacterAvatar.tsx:10-14 | the code as written returns the intended initials iff the name has no space or its first two space-separated pieces are non-empty |
| `CharacterAvatar.TwoWordInitials` | src/components/CharacterAvatar.tsx:11-12 | for "first second ...", the result is the upper-cased first characters of the two words, in the code as written too |
| `CharacterAvatar.OneWordInitials` | src/components/CharacterAvatar.tsx:14 | a name without a space gives its first `min(2, \|name\|)` characters, upper-cased |
| `CharacterAvatar.FallbackInitials` | src/components/CharacterAvatar.tsx:14 | `''` gives `''`, and the renderer's fallback `'?'` gives `'?'` |
| `CharacterAvatar.AsWrittenCounterexamples` | src/components/CharacterAvatar.tsx:11-12 | as written, `" Ava"` gives `"UNDEFINEDA"`, `"Ava "` gives `"AUNDEFINED"` and `" "` throws; intended: `"A"`, `"A"`, `""` |
| `CharacterAvatar.AvatarText` | src/components/CharacterAvatar.tsx:22 | the avatar circle shows `getInitials` as written: at most ten characters, or the render throws; when the name has no space or its first two pieces are non-empty, it shows the intended initials, at most two characters |
| `Text.Split` | src/components/CharacterAvatar.tsx:10 | `split(' ')` gives one more piece than there are separators, and no piece contains the separator |
| `Text.JoinOfSplit` | src/components/CharacterAvatar.tsx:10 | joining the pieces with the separator gives the name back |
| `Text.SplitOfJoin` | src/components/CharacterAvatar.tsx:10 | splitting a join of separator-free pieces gives the pieces back |
| `Text.CountJoin` | src/pages/StoryPage.tsx:34-36 | joining n pieces adds the separator's characters n - 1 times |

## Left out

- Timers: the `setTimeout` delays of the Typewriter (`speed`, default 30 ms) and the mock call's 2500 ms delay. A tick and the arrival of the mock result are each one discrete event.
- Typewriter.AfterTextChange: the change is one atomic step. In React, the commit that changes `text` first runs the tick effect once more with the old `currentIndex`, and only then the reset re-render runs it again. That intermediate run schedules a tick that the reset cancels, and if the old index is at least the new length (and the new text is non-empty) it calls `onComplete` an extra time. No caller in the application passes `onComplete`, so nothing visible depends on this.
- Typewriter.FullReveal: re-running the tick effect when only `speed` or the identity of `onComplete` changes is not modelled. Before completion such a re-run cancels and reschedules the same tick. After completion it calls `onComplete` again (`src/components/Typewriter.tsx:27-28`), so the "exactly once" of `Typewriter.FullReveal` holds only while the callback's identity stays the same.
- Faker: `faker.number.int` and `faker.word.words` become the `pick` parameter. `StoryPage.FakerRanges` records Faker's ranges (3 to 5 sentences, 8 to 15 words); `StoryPage.FakerParagraphStops` uses the sentence range, and no contract depends on the word range.
- framer-motion: the container's stagger (`staggerChildren` 0.8 s), the entrance animations, and when `onAnimationComplete` fires. `StoryPage.StoryView.RendererCompleted` is that event.
- PDF export (`html2canvas`, `jsPDF`, the page/canvas ratio, `Date.now()` in the file name): I/O with floating-point arithmetic.
- `ScenePlaceholder`: a random image URL, a network image and its load flag. This is I/O; the model says only that the placeholder is rendered (`SceneView`).
- Routing: `navigate('/create')` is the `redirected` flag, and `navigate('/story', …)` is the return value of `HandleGenerate`. A result that arrives after leaving the page is not modelled, and neither is a re-fetch when the inputs' identity changes.
- `console.log` of the inputs, the loader markup, and all styling, except the alignment and colour decisions.
- Strings: JavaScript indexes UTF-16 code units, and the model indexes Dafny characters. `toUpperCase`/`toLowerCase` are ASCII only.
- Numbers: ids and lengths are integers; NaN and fractional values are not modelled. JavaScript's `%` truncates and Dafny's is Euclidean, but both give remainder 0 for an even id, so parity agrees.
- The `PartType.Unrecognised` case stands for a value outside the TypeScript union. The type checker rules it out, but `renderStoryPart` still handles it by rendering nothing.
- HomePage, Header, Footer, App routing and the Tailwind configuration are display and configuration only. `src/lib/constants.ts` is copied into `constants.dfy`.

## Findings

| source | as written | input that shows it | evidently intended | confidence | as-written member | corrected member |
|---|---|---|---|---|---|---|
| src/components/CharacterAvatar.tsx:11-12 | `words[0][0] + words[1][0]` on an empty piece concatenates `undefined`, and with two empty pieces yields NaN, whose `toUpperCase` throws | name `" Ava"` shows `UNDEFINEDA`; `"Ava "` shows `AUNDEFINED`; `" "` throws a TypeError | an empty piece contributes no initial: `"A"`, `"A"` and `""` | high (not executed) | `CharacterAvatar.InitialsAsWritten` (shown by `CharacterAvatar.AsWrittenCounterexamples`) | `CharacterAvatar.Initials` (`CharacterAvatar.AsWrittenAgreement`; `CharacterAvatar.AvatarText` shows it whenever the two agree) |
