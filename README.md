# tonalogy-interface: a verified model of the front end's core

This project models the client-side logic of the tonalogy-interface web app. The app is the front end of a harmonic-analysis service. The user types or builds a chord progression. The app validates every chord symbol before anything is sent, and a progression with an invalid chord is never sent to the analysis API. Tonality names are coloured from a light and a dark palette. Analysis results are kept in a small store, and tonal progressions go into a capped, favourite-aware history.

The modules follow the source's structure:

- `Wrappers`: `Option` and `Result`.
- `SeqUtil`: the list idioms the source uses, which are filtering out a value and toggling membership in a list.
- `ChordGrammar` (`lib/utils.ts`):
  - JavaScript's `trim` and `toUpperCase`, as far as chord symbols need them;
  - the thirteen chord regular expressions;
  - `validateChord`, `generateChordSuggestions`, `validateChords`;
  - the common tonality list.
- `Triad` (the `buildChordSymbol` and `parseChordSymbol` pair shared by the visual input and the mobile keyboard): a triad builder, its chord symbol and the parser back.
- `ChordList`:
  - the bounded list editing of the text input and the visual input (replace, add, remove);
  - the error display of a text slot;
  - the visual input's per-slot chord selector, as a class.
- `MobileKeyboard`: the mobile chord keyboard, as a class holding its list, open flag, edited index and builder.
- `TonalityColors` (`lib/tonality-colors.ts`):
  - the two palettes with their exact colours;
  - colour lookup with its fallback;
  - minor detection;
  - style objects and CSS variables.
- `TonalitySelector`: the tonality multi-select.
- `Stores` (`stores/index.ts`): the analysis store and the history store, as classes with their setters.
- `Analyzer` (`components/harmonic-analyzer.tsx`): the analyzer's request guards and its mutation callbacks, which update the two stores.

The model follows the code:

- `generateChordSuggestions` offers five suggestions, or seven note letters, not at most three.
- There is no transport normalisation. Chords are sent exactly as typed once every one of them validates.
- A visualization error goes through `setError`, which also clears the analysis result.

## Model

| member | source | states |
|---|---|---|
| SeqUtil.RemoveAll | stores/index.ts:107 | `filter(f => f !== id)`: the value is gone, every other value keeps its membership and its count, and a list without the value is unchanged |
| SeqUtil.Toggle | components/tonality-selector.tsx:14-20 | Flips the value's membership. Removing it leaves an order-preserving subsequence with exactly that value's occurrences dropped. Adding appends it at the end. Nothing else changes membership |
| SeqUtil.RemoveAllIsSubsequence | stores/index.ts:107 | Filtering keeps the remaining elements in their order |
| SeqUtil.RemoveAllKeepsDistinct | stores/index.ts:104-109 | Filtering a duplicate-free favourites list leaves it duplicate-free |
| SeqUtil.ToggleTwiceRestores | components/tonality-selector.tsx:14-20 | Selecting and then deselecting a tonality restores the selection |
| SeqUtil.ToggleKeepsDistinct | stores/index.ts:111-127 | Toggling keeps a list free of duplicates |
| ChordGrammar.ToUpper | lib/utils.ts:75 | `toUpperCase` of one character. It maps a–z to A–Z and can expand, e.g. ligatures to several letters. The result is the single letter A–G exactly when the input is A–G or a–g |
| ChordGrammar.Trim | lib/utils.ts:49 | JavaScript `trim`: never longer, empty exactly for all-whitespace text, and otherwise starts and ends with non-whitespace |
| ChordGrammar.TrimIgnoresLeadingPadding | lib/utils.ts:49 | Whitespace put in front of text never changes the trimmed text |
| ChordGrammar.TrimIgnoresTrailingPadding | lib/utils.ts:49 | Whitespace put after text never changes the trimmed text |
| ChordGrammar.TrimIgnoresPadding | lib/utils.ts:49 | Whitespace added on either side never changes the trimmed text |
| ChordGrammar.TrimOfNonBlank | lib/utils.ts:49 | Text that starts and ends with non-whitespace is its own trim |
| ChordGrammar.IsQualityIsMembership | lib/utils.ts:12-36 | The character-level quality test accepts exactly the quality suffixes of the pattern list |
| ChordGrammar.QualitiesArePatternSuffixes | lib/utils.ts:12-36 | Every chord quality is a suffix alternative of some pattern |
| ChordGrammar.PatternsAcceptChordSymbols | lib/utils.ts:12-36 | Some anchored pattern matches exactly the root letter, optional accidental and quality strings |
| ChordGrammar.MatchesChordPatterns | lib/utils.ts:51-53 | `CHORD_PATTERNS.some(p => p.test(s))` holds exactly for chord symbols |
| ChordGrammar.SuggestionsFrom | lib/utils.ts:85-93 | Five suggestions: the base followed by each of the suffixes "", "m", "7", "M7", "m7" in that order |
| ChordGrammar.SecondCharAccidental | lib/utils.ts:82-83 | The second character is kept exactly when it is an accidental |
| ChordGrammar.GenerateChordSuggestionsAsWritten | lib/utils.ts:73-94 | As written: five suggestions, or the seven note letters. It equals the corrected `GenerateChordSuggestions` exactly when the input is empty or does not begin with U+1E9A or one of U+FB00–U+FB04 |
| ChordGrammar.GenerateChordSuggestions | lib/utils.ts:73-94 | Five suggestions from the upper-cased note and the accidental when the text starts with a note letter, else the seven note letters (corrected test, see Findings) |
| ChordGrammar.SuggestionsAreChordSymbols | lib/utils.ts:73-94 | Every suggestion is a chord symbol (corrected generator, see Findings) |
| ChordGrammar.ValidateChord | lib/utils.ts:41-68 | `validateChord`: valid exactly when no message is set, and a valid chord has no suggestions. Its full contract is the lemma `ValidateChordOutcomes` |
| ChordGrammar.ValidateChordOutcomes | lib/utils.ts:41-68 | Blank text gets 'Chord cannot be empty' and no suggestions. Trimmed text that matches a pattern is valid with nothing else. Any other text gets 'Invalid chord format' and the suggestions for its trimmed text |
| ChordGrammar.ValidationIgnoresPadding | lib/utils.ts:49-54 | Surrounding whitespace never changes the validation |
| ChordGrammar.ChordSymbolIsTrimmed | lib/utils.ts:49-58 | A chord symbol is its own trim |
| ChordGrammar.QualitiesEndInNonWhitespace | lib/utils.ts:12-36 | No non-empty quality ends in whitespace |
| ChordGrammar.SuggestionsAreValid | lib/utils.ts:60-67 | Every suggestion offered for an invalid chord validates |
| ChordGrammar.LigatureSuggestionIsInvalid | lib/utils.ts:75-79 | The ligature "ﬀ" is invalid, yet the suggestion test as written lets it through and offers "FF", which does not validate |
| ChordGrammar.KeepValid | lib/utils.ts:106 | Never longer, and the whole list when every chord is valid |
| ChordGrammar.ValidateChords | lib/utils.ts:99-113 | One validation per chord, equal to `validateChord` of it. `allValid` holds exactly when every chord validates, and then the valid chords are the input |
| ChordGrammar.ValidChordsAreTheValidInputs | lib/utils.ts:99-113 | `validChords` is a subsequence of the input, holds only valid chords, holds every valid input, and is as long as the number of valid positions, so repeated valid chords are all kept |
| ChordGrammar.KeepValidFacts | lib/utils.ts:104-106 | The kept chords are an order-preserving subsequence, each one valid, no valid chord is dropped, and there is one kept chord per passed validation |
| ChordGrammar.KeepValidCount | lib/utils.ts:104-106 | From any position on, the filter keeps exactly one chord per passed validation |
| Triad.NoteNamed | components/mobile-chord-keyboard.tsx:105-106 | A character names a note exactly when it is A–G, and then the note's letter is that character |
| Triad.ParseBuild | components/mobile-chord-keyboard.tsx:102-123 | Parsing the symbol built from any builder gives that builder back |
| Triad.ParseIsSpelling | components/mobile-chord-keyboard.tsx:102-123 | The parser accepts exactly the spellings of a triad: an upper-case-able note, an optional ♯/#/♭/b, and "", "m" or "dim" |
| Triad.BuildParseCanonicalises | components/mobile-chord-keyboard.tsx:102-123 | Rebuilding a parsed chord gives its canonical spelling (upper-case note, ♯ and ♭ signs) |
| Triad.ParseBuildParse | components/mobile-chord-keyboard.tsx:102-123 | Parse, build and parse again yields the same builder |
| Triad.BuildIsValidChord | components/mobile-chord-keyboard.tsx:33-36 | Every chord a builder produces passes `validateChord` |
| Triad.ParsedChordValidIffUpperRoot | components/visual-chord-input.tsx:39-60 | A chord the parser accepts validates exactly when its note is already upper case |
| Triad.ValidChordParserRefuses | components/visual-chord-input.tsx:39-60 | "CM" validates but the parser refuses it, so a valid slot can show the default builder |
| ChordList.ReplaceAt | components/chord-input.tsx:17-21 | Exactly the slot at the index takes the new value |
| ChordList.RemoveAt | components/chord-input.tsx:29-34 | The slot at the index, if there is one, is dropped, earlier slots stay and later ones move down by one |
| ChordList.AppendIfRoom | components/chord-input.tsx:23-27 | Appends the value at the end when below `maxChords`, else changes nothing |
| ChordList.StepKeepsBounds | components/chord-input.tsx:17-34 | One change, add or remove keeps between one and `maxChords` slots |
| ChordList.EditsKeepBounds | components/visual-chord-input.tsx:213-230 | Any run of edits keeps the slot count between one and `maxChords` |
| ChordList.ShowsErrorIffInvalidText | components/chord-input.tsx:53-87 | The error border, message and suggestions appear exactly for non-blank text that is not a chord symbol |
| ChordList.ChordListEditor.constructor | components/chord-input.tsx:16 | Holds the given progression and limit, with between one and `maxChords` slots |
| ChordList.ChordListEditor.HandleChordChange | components/chord-input.tsx:17-21 | The slot is replaced and the slot bounds are kept |
| ChordList.ChordListEditor.AddChord | components/chord-input.tsx:23-27 | An empty slot is appended while there is room, and the bounds are kept |
| ChordList.ChordListEditor.RemoveChord | components/chord-input.tsx:29-34 | A slot is removed only while more than one is left, and the bounds are kept |
| ChordList.ChordListEditor.ApplySuggestion | components/chord-input.tsx:80-87 | A clicked suggestion replaces the slot, and the slot then validates (with the corrected suggestion list, see Findings) |
| ChordList.SelectorShowsBuiltChord | components/visual-chord-input.tsx:73-77 | A built chord shows its own builder, and unparsable text shows C ♮ major |
| ChordList.ChordSelector.ToggleOpen | components/visual-chord-input.tsx:94 | The chord button flips the panel unless disabled |
| ChordList.ChordSelector.CloseFromBackdrop | components/visual-chord-input.tsx:202-206 | The backdrop closes the panel |
| ChordList.ChordSelector.HandleBuilderChange | components/visual-chord-input.tsx:79-88 | Emits the merged builder's chord, which parses back to that builder and validates. Choosing a type closes the panel |
| MobileKeyboard.Keyboard.OpenKeyboard | components/mobile-chord-keyboard.tsx:47-68 | Does nothing when disabled. Otherwise it opens, records the index, and loads the chord's builder if it parses, keeps the old builder if it does not, or starts from C ♮ major for a new chord |
| MobileKeyboard.Keyboard.CloseKeyboard | components/mobile-chord-keyboard.tsx:70-73 | Closes and forgets the edited index |
| MobileKeyboard.Keyboard.ConfirmChord | components/mobile-chord-keyboard.tsx:75-91 | The built chord replaces the edited slot, or is appended when there is room. The keyboard closes, and an all-valid list stays all valid |
| MobileKeyboard.Keyboard.RemoveChord | components/mobile-chord-keyboard.tsx:93-96 | The slot is removed, at least one remains, and validity is kept |
| MobileKeyboard.Keyboard.BuilderChange | components/mobile-chord-keyboard.tsx:98-100 | The update is merged into the builder |
| TonalityColors.GetTonalityColor | lib/tonality-colors.ts:61-77 | The theme's fallback for an absent or unknown tonality, and otherwise the entry's colour for the variant |
| TonalityColors.GetTonalityColorAsWritten | lib/tonality-colors.ts:61-77 | As written, it agrees with the corrected lookup on every name that is not an `Object.prototype` member |
| TonalityColors.PrototypeNameYieldsUndefined | lib/tonality-colors.ts:68-76 | "constructor" makes the code as written return `undefined` where the fallback was meant |
| TonalityColors.PalettesShareKeys | lib/tonality-colors.ts:17-56 | Both palettes have the same seventeen distinct keys |
| TonalityColors.EnharmonicsShareColors | lib/tonality-colors.ts:17-56 | Enharmonic major keys share their colours in both themes |
| TonalityColors.GetAllTonalities | lib/tonality-colors.ts:90-93 | Lists exactly the palette's keys, each once |
| TonalityColors.ResolvedColorsAreHex | lib/tonality-colors.ts:17-77 | Every colour the lookup resolves to, the fallback included, is `#` followed by six hexadecimal digits |
| TonalityColors.MajorNameIsNotMinor | lib/tonality-colors.ts:82-85 | No "… Major" name is detected as minor |
| TonalityColors.MinorNameIsMinor | lib/tonality-colors.ts:82-85 | Every "… Minor" name is detected as minor |
| TonalityColors.PaletteKeysAreMajorNames | lib/tonality-colors.ts:17-56 | Every palette key is a major-key name |
| TonalityColors.MinorTonalitiesFallBack | lib/tonality-colors.ts:61-85 | A minor tonality has no entry and always gets the fallback |
| TonalityColors.CommonTonalitiesResolve | lib/utils.ts:118-123 | Each common tonality is a palette key exactly when it is not minor |
| TonalityColors.GetTonalityStyles | lib/tonality-colors.ts:98-137 | Nothing for an absent tonality. Otherwise fill sets the background and label sets the text colour. With a border, the stroke colour, 2px, the caller's line style when one is given, and by default a dashed line exactly for minor tonalities |
| TonalityColors.PaletteTonalityBorderIsSolid | lib/tonality-colors.ts:109-136 | A palette tonality's default border is solid, in its stroke colour |
| TonalityColors.GetTonalityTailwindVars | lib/tonality-colors.ts:142-156 | Empty for an absent or unknown tonality, otherwise exactly the three variables with the entry's colours |
| TonalityColors.TailwindVarsEmptyIffFallback | lib/tonality-colors.ts:142-156 | The variables are empty exactly when the stroke colour is the fallback |
| TonalitySelector.ToggleKeepsSelection | components/tonality-selector.tsx:14-32 | Toggling an offered tonality keeps the selection duplicate-free and within the offered names |
| Stores.AnalysisStore.constructor | stores/index.ts:64-68 | Starts idle with no result, error or visualization |
| Stores.AnalysisStore.SetLoading | stores/index.ts:70 | Sets only the loading flag |
| Stores.AnalysisStore.SetResult | stores/index.ts:71 | Sets the result and clears the error, so a result and an error never coexist |
| Stores.AnalysisStore.SetError | stores/index.ts:72 | Sets the error and clears the result |
| Stores.AnalysisStore.SetVisualization | stores/index.ts:73 | Sets only the visualization |
| Stores.AnalysisStore.ClearAnalysis | stores/index.ts:74-79 | Back to the initial state |
| Stores.WithoutId | stores/index.ts:104-109 | No entry with the id remains, every other entry stays as often as it occurred, and the order is kept |
| Stores.MarkFavorite | stores/index.ts:111-127 | Entries with the id take the flag, and the others are unchanged |
| Stores.InsertByTimestamp | stores/index.ts:131-139 | Insertion adds exactly the one entry |
| Stores.InsertKeepsNewestFirst | stores/index.ts:131-139 | Insertion keeps the list newest first |
| Stores.SortByTimestamp | stores/index.ts:131-139 | The sort is a permutation, newest first |
| Stores.SortIsStable | stores/index.ts:131-139 | Entries with equal timestamps keep their relative order, as JavaScript's stable sort does |
| Stores.SliceTo | stores/index.ts:138 | `slice(0, end)`, including a negative end counted from the back |
| Stores.HistoryStore.AddToHistory | stores/index.ts:89-102 | The new entry, not a favourite, goes first, and the history is capped at 100. Flags stay consistent with the favourites |
| Stores.HistoryStore.RemoveFromHistory | stores/index.ts:104-109 | Removes the id from the history and the favourites, keeping the store consistent |
| Stores.HistoryStore.ToggleFavorite | stores/index.ts:111-127 | Flips the id's favourite status and marks its entries to match |
| Stores.HistoryStore.ClearHistory | stores/index.ts:129 | Empties both lists |
| Stores.HistoryStore.GetRecentAnalyses | stores/index.ts:131-139 | Sorts the stored history newest first, in place and as a permutation, and returns at most `limit` entries, 10 by default |
| Stores.SubsequenceMembers | stores/index.ts:104-109 | Every entry a filter keeps was in the history |
| Analyzer.AnalyzeRequestFor | components/harmonic-analyzer.tsx:69-84 | A request exactly when every chord validates, and it carries the chords, tonalities and theme. Otherwise 'Please fix invalid chords before analyzing' |
| Analyzer.VisualizeRequestFor | components/harmonic-analyzer.tsx:86-106 | Refused unless the result is tonal, then refused on an invalid chord, otherwise the same request |
| Analyzer.RequestsCarryValidChords | components/harmonic-analyzer.tsx:69-106 | Every chord sent validates, and the chords go out exactly as typed |
| Analyzer.ErrorText | components/harmonic-analyzer.tsx:49-52 | `message \|\| default`: an absent or empty message is replaced by the default |
| Analyzer.HarmonicAnalyzer.constructor | components/harmonic-analyzer.tsx:19-21 | C, Am, F, G, no tonalities, light theme |
| Analyzer.HarmonicAnalyzer.OnAnalysisStart | components/harmonic-analyzer.tsx:32-35 | Loading, with no error and no result |
| Analyzer.HarmonicAnalyzer.HandleAnalyze | components/harmonic-analyzer.tsx:69-84 | Sends the request and starts loading, or sets the refusal error |
| Analyzer.HarmonicAnalyzer.OnAnalysisSuccess | components/harmonic-analyzer.tsx:36-48 | Stores the result and stops loading. The chords are added to the history only for a tonal progression |
| Analyzer.HarmonicAnalyzer.OnAnalysisError | components/harmonic-analyzer.tsx:49-52 | Sets the error, or 'Analysis failed', clears the result and stops loading |
| Analyzer.HarmonicAnalyzer.HandleVisualize | components/harmonic-analyzer.tsx:86-106 | Sends the request, or sets the refusal error, which clears the result |
| Analyzer.HarmonicAnalyzer.OnVisualizationSuccess | components/harmonic-analyzer.tsx:61-63 | Stores the image and nothing else |
| Analyzer.HarmonicAnalyzer.OnVisualizationError | components/harmonic-analyzer.tsx:64-66 | Sets the error, or 'Visualization failed', and loses the result |
| Analyzer.HarmonicAnalyzer.HandleReset | components/harmonic-analyzer.tsx:121-127 | Back to the initial chords, with no tonalities and no result, error or visualization |
| Analyzer.InitialChordsAreValid | components/harmonic-analyzer.tsx:19 | The initial progression validates |

## Left out

- Network calls, the API client and its routes are not modelled. The requests are produced as values, and the responses arrive as parameters of the callbacks.
- Persistence to `localStorage` is not modelled. This includes the conversion of the stored timestamp between a `Date` and a string; timestamps are integers (milliseconds).
- The entry id (`uuid`) and the clock (`new Date()`) are parameters of `AddToHistory`.
- JavaScript numbers are modelled as unbounded integers.
- `formatTimestamp`, `downloadBlob`, `blobToBase64` and the analyzer's download handler are not modelled. They are formatting and browser I/O.
- The `alpha` option of `getTonalityStyles` is not modelled. It only changes the colour string for values below 1, which is floating-point output. `includeHover` is not modelled either; it has no effect in the source.
- Case mapping beyond the characters chord symbols need is not modelled. `ToUpper` maps a–z, and the six characters whose upper case is several characters beginning with A–G (U+1E9A and the ligatures U+FB00–U+FB04). It keeps every other character, including ones JavaScript does change or expand, such as ß, ŉ, ǰ, ﬅ and ﬆ. That is exact for the only question asked of it: is the result a single letter A–G? Minor detection lowers ASCII only, which is exact for finding "minor".
- The settings store (language, theme, API URL, auto-save) is not modelled. It holds preferences without logic.
- Rendering-only components are not modelled: layout, icons, the visualization view and the history list.
- Asynchronous ordering is not modelled, e.g. two analyses in flight and stale closures. Each callback is a separate atomic step.
- The 200 ms delay before the chord selector closes is not modelled; the selector closes at once.
- TypeScript's assignment to an index past the end of an array is not modelled. `HandleChordChange` and `ReplaceAt` require an index in range, because the components only pass rendered slot indices.
- MobileKeyboard.Keyboard.RemoveChord: requires the keyboard closed, enabled and more than one chord, because the remove button is rendered only then and the open overlay covers it. The handler itself does not check.
- ChordList.ChordSelector.HandleBuilderChange: requires the panel open and enabled, because the builder buttons exist only then.
- ChordGrammar.ValidateChord: uses the corrected `GenerateChordSuggestions`, not the code as written. So `ValidateChordOutcomes`, `SuggestionsAreValid` and `ChordList.ChordListEditor.ApplySuggestion` describe the corrected program. In the program as written, the text "ﬀ" is offered "FF", and applying it leaves an invalid slot (see Findings).
- ChordList.ChordListEditor.constructor: requires between one and `maxChords` chords, the bound every edit keeps. The components take their list from the parent without checking it; the analyzer starts with four chords.
- ChordGrammar.SuggestionsAreChordSymbols: is about the corrected `GenerateChordSuggestions`. As written, "ﬀ" is offered "FF", "FFm", "FF7", "FFM7" and "FFm7", and none of them is a chord symbol (see Findings).
- TonalityColors.GetTonalityStyles: uses the corrected own-key lookup `GetTonalityColor`. As written, for an `Object.prototype` name such as "constructor", the fill and label variants set `backgroundColor` or `color` to `undefined`, and with a border `borderColor` is `undefined` too. The model gives the theme's fallback colour there instead.
- TonalityColors.ResolvedColorsAreHex: is about the corrected lookup. As written, "constructor" resolves to `undefined`, which is not a colour at all (see Findings).
- TonalityColors.GetTonalityTailwindVars: models an own-key palette lookup. As written, an `Object.prototype` name such as "constructor" passes its `!colors` test too and yields three `undefined` variables. That is the same defect as in `getTonalityColor`, recorded once under Findings.

## Findings

| source | as written | input that shows it | evidently intended | confidence | as-written member | corrected member |
|---|---|---|---|---|---|---|
| lib/utils.ts:75-79 | The suggestion guard upper-cases the first character and only checks that the result starts with A–G | "ﬀ" (U+FB00) upper-cases to "FF", so the suggestions "FF", "FFm", … are offered, and none of them validates | Suggest from a note only when the upper-cased first character is exactly one letter A–G, so every suggestion is a valid chord | medium, not executed | ChordGrammar.GenerateChordSuggestionsAsWritten (shown by ChordGrammar.LigatureSuggestionIsInvalid) | ChordGrammar.GenerateChordSuggestions (ChordGrammar.SuggestionsAreValid) |
| lib/tonality-colors.ts:68-76 | `palette[tonality]` also finds members inherited from `Object.prototype` | "constructor" finds a function, passes `!colors`, and the lookup returns `undefined` instead of the fallback colour | Unknown names, including prototype member names, get the theme's fallback colour | medium, not executed | TonalityColors.GetTonalityColorAsWritten (shown by TonalityColors.PrototypeNameYieldsUndefined) | TonalityColors.GetTonalityColor (TonalityColors.MinorTonalitiesFallBack) |
