/** Chord-symbol validation of lib/utils.ts: trimming, the thirteen anchored
    chord patterns written out as sequence predicates, the suggestions offered
    for an invalid chord, validation of a whole progression and the list of
    common tonalities. */
module ChordGrammar {
  import opened Wrappers
  import SeqUtil

  // ---------------------------------------------------------------------------
  // Characters

  /** The code points `String.prototype.trim` removes: the ECMAScript
      WhiteSpace and LineTerminator characters. */
  predicate IsJsWhitespace(c: char) {
    || c == '\t' || c == '\n' || c == '\U{000B}' || c == '\U{000C}' || c == '\r'
    || c == ' ' || c == '\U{00A0}' || c == '\U{1680}'
    || ('\U{2000}' <= c <= '\U{200A}')
    || c == '\U{2028}' || c == '\U{2029}' || c == '\U{202F}' || c == '\U{205F}'
    || c == '\U{3000}' || c == '\U{FEFF}'
  }

  predicate AllWhitespace(s: string) {
    forall i :: 0 <= i < |s| ==> IsJsWhitespace(s[i])
  }

  /** `[A-G]` */
  predicate IsRootLetter(c: char) {
    'A' <= c <= 'G'
  }

  /** `[#♯b♭]` */
  predicate IsAccidentalChar(c: char) {
    c == '#' || c == '♯' || c == 'b' || c == '♭'
  }

  /** `toUpperCase()` applied to a string of one character. ASCII letters map
      to their capitals; the characters whose full upper-case form is several
      characters beginning with one of A-G expand as Unicode's special casing
      says (the ligatures ff, fi, fl, ffi, ffl and the a with right half ring);
      every other character is kept. */
  function ToUpper(c: char): (u: string)
    ensures |u| >= 1
    ensures 'a' <= c <= 'z' ==> u == [(c as int - 32) as char]
    ensures |u| == 1 && IsRootLetter(u[0]) <==> IsRootLetter(c) || 'a' <= c <= 'g'
  {
    if 'a' <= c <= 'z' then [(c as int - 32) as char]
    else if c == '\U{1E9A}' then "A\U{02BE}"
    else if c == '\U{FB00}' then "FF"
    else if c == '\U{FB01}' then "FI"
    else if c == '\U{FB02}' then "FL"
    else if c == '\U{FB03}' then "FFI"
    else if c == '\U{FB04}' then "FFL"
    else [c]
  }

  // ---------------------------------------------------------------------------
  // Trimming

  /** The index of the first character at or after `i` that is not
      whitespace, or `|s|` if there is none. */
  function SkipLeading(s: string, i: nat): (k: nat)
    requires i <= |s|
    ensures i <= k <= |s|
    ensures forall j :: i <= j < k ==> IsJsWhitespace(s[j])
    ensures k < |s| ==> !IsJsWhitespace(s[k])
    decreases |s| - i
  {
    if i < |s| && IsJsWhitespace(s[i]) then SkipLeading(s, i + 1) else i
  }

  /** The index just past the last character before `k` that is not
      whitespace, or 0 if there is none. */
  function SkipTrailing(s: string, k: nat): (e: nat)
    requires k <= |s|
    ensures e <= k
    ensures forall j :: e <= j < k ==> IsJsWhitespace(s[j])
    ensures e > 0 ==> !IsJsWhitespace(s[e - 1])
  {
    if k > 0 && IsJsWhitespace(s[k - 1]) then SkipTrailing(s, k - 1) else k
  }

  /** `String.prototype.trim`: what lies between the leading and the
      trailing whitespace. It is empty exactly when the input is all
      whitespace, and otherwise neither begins nor ends with whitespace. */
  function Trim(s: string): (r: string)
    ensures |r| <= |s|
    ensures r == [] <==> AllWhitespace(s)
    ensures r != [] ==> !IsJsWhitespace(r[0]) && !IsJsWhitespace(r[|r| - 1])
  {
    var start := SkipLeading(s, 0);
    var end := SkipTrailing(s, |s|);
    if end <= start then [] else s[start..end]
  }

  /** The leading scan stops at the first non-whitespace character, and only
      there. */
  lemma SkipLeadingStopsAt(s: string, i: nat, k: nat)
    requires i <= k <= |s|
    requires forall j :: i <= j < k ==> IsJsWhitespace(s[j])
    requires k < |s| ==> !IsJsWhitespace(s[k])
    ensures SkipLeading(s, i) == k
  {
  }

  /** The trailing scan stops just past the last non-whitespace character,
      and only there. */
  lemma SkipTrailingStopsAt(s: string, k: nat, e: nat)
    requires e <= k <= |s|
    requires forall j :: e <= j < k ==> IsJsWhitespace(s[j])
    requires e > 0 ==> !IsJsWhitespace(s[e - 1])
    ensures SkipTrailing(s, k) == e
  {
  }

  /** Behind leading whitespace, the leading scan of a non-blank string
      stops where it would without it. */
  lemma SkipLeadingPastPadding(w: string, s: string)
    requires AllWhitespace(w) && !AllWhitespace(s)
    ensures SkipLeading(w + s, 0) == |w| + SkipLeading(s, 0)
  {
    var x := w + s;
    var n := |w|;
    var a := SkipLeading(s, 0);
    forall j | 0 <= j < n + a ensures IsJsWhitespace(x[j]) {
      if n <= j {
        assert x[j] == s[j - n];
      } else {
        assert x[j] == w[j];
      }
    }
    assert x[n + a] == s[a];
    SkipLeadingStopsAt(x, 0, n + a);
  }

  /** Behind leading whitespace, the trailing scan stops at the same
      character as without it. */
  lemma SkipTrailingPastPadding(w: string, s: string)
    requires !AllWhitespace(s)
    ensures SkipTrailing(w + s, |w + s|) == |w| + SkipTrailing(s, |s|)
  {
    var x := w + s;
    var n := |w|;
    var b := SkipTrailing(s, |s|);
    forall j | n + b <= j < |x| ensures IsJsWhitespace(x[j]) {
      assert x[j] == s[j - n];
    }
    assert x[n + b - 1] == s[b - 1];
    SkipTrailingStopsAt(x, |x|, n + b);
  }

  /** Whitespace followed by whitespace is whitespace. */
  lemma AllWhitespaceConcat(w: string, s: string)
    requires AllWhitespace(w) && AllWhitespace(s)
    ensures AllWhitespace(w + s)
  {
    var x := w + s;
    forall j | 0 <= j < |x| ensures IsJsWhitespace(x[j]) {
      if |w| <= j {
        assert x[j] == s[j - |w|];
      } else {
        assert x[j] == w[j];
      }
    }
  }

  /** A non-blank string trims to the text between its scans, which is not
      empty. */
  lemma TrimBetweenScans(s: string, a: nat, b: nat)
    requires !AllWhitespace(s)
    requires a == SkipLeading(s, 0) && b == SkipTrailing(s, |s|)
    ensures a < b <= |s| && Trim(s) == s[a..b]
  {
    assert a < |s|;
  }

  lemma SliceBehindPrefix(w: string, s: string, a: nat, b: nat)
    requires a <= b <= |s|
    ensures (w + s)[|w| + a..|w| + b] == s[a..b]
  {
    var x := w + s;
    forall j | 0 <= j < b - a ensures x[|w| + a..|w| + b][j] == s[a..b][j] {
      assert x[|w| + a + j] == s[a + j];
    }
  }

  lemma SliceBeforeSuffix(s: string, w: string, a: nat, b: nat)
    requires a <= b <= |s|
    ensures (s + w)[a..b] == s[a..b]
  {
  }

  /** Text around a non-blank string leaves it non-blank. */
  lemma NotBlankWhenExtended(w: string, s: string)
    ensures !AllWhitespace(s) ==> !AllWhitespace(w + s) && !AllWhitespace(s + w)
  {
    if !AllWhitespace(s) {
      var i :| 0 <= i < |s| && !IsJsWhitespace(s[i]);
      assert (w + s)[|w| + i] == s[i];
      assert (s + w)[i] == s[i];
    }
  }

  /** Whitespace in front never changes what `trim` leaves. */
  lemma TrimIgnoresLeadingPadding(w: string, s: string)
    requires AllWhitespace(w)
    ensures Trim(w + s) == Trim(s)
  {
    if AllWhitespace(s) {
      AllWhitespaceConcat(w, s);
    } else {
      var a := SkipLeading(s, 0);
      var b := SkipTrailing(s, |s|);
      TrimBetweenScans(s, a, b);
      SkipLeadingPastPadding(w, s);
      SkipTrailingPastPadding(w, s);
      NotBlankWhenExtended(w, s);
      TrimBetweenScans(w + s, |w| + a, |w| + b);
      SliceBehindPrefix(w, s, a, b);
    }
  }

  /** Before trailing whitespace, both scans of a non-blank string stop
      where they would without it. */
  lemma ScansBeforePadding(s: string, w: string)
    requires AllWhitespace(w) && !AllWhitespace(s)
    ensures SkipLeading(s + w, 0) == SkipLeading(s, 0)
    ensures SkipTrailing(s + w, |s + w|) == SkipTrailing(s, |s|)
  {
    var x := s + w;
    var n := |s|;
    var a := SkipLeading(s, 0);
    var b := SkipTrailing(s, |s|);
    TrimBetweenScans(s, a, b);
    forall j | 0 <= j < a ensures IsJsWhitespace(x[j]) {
      assert x[j] == s[j];
    }
    assert x[a] == s[a];
    SkipLeadingStopsAt(x, 0, a);
    forall j | b <= j < |x| ensures IsJsWhitespace(x[j]) {
      if n <= j {
        assert x[j] == w[j - n];
      } else {
        assert x[j] == s[j];
      }
    }
    assert x[b - 1] == s[b - 1];
    SkipTrailingStopsAt(x, |x|, b);
  }

  /** Whitespace behind never changes what `trim` leaves. */
  lemma TrimIgnoresTrailingPadding(s: string, w: string)
    requires AllWhitespace(w)
    ensures Trim(s + w) == Trim(s)
  {
    if AllWhitespace(s) {
      AllWhitespaceConcat(s, w);
    } else {
      var a := SkipLeading(s, 0);
      var b := SkipTrailing(s, |s|);
      TrimBetweenScans(s, a, b);
      ScansBeforePadding(s, w);
      NotBlankWhenExtended(s, w);
      TrimBetweenScans(s + w, a, b);
      SliceBeforeSuffix(s, w, a, b);
    }
  }

  /** Whitespace around a chord never changes what `trim` leaves. */
  lemma TrimIgnoresPadding(w1: string, s: string, w2: string)
    requires AllWhitespace(w1) && AllWhitespace(w2)
    ensures Trim(w1 + s + w2) == Trim(s)
  {
    SeqUtil.AppendAssociates(w1, s, w2);
    TrimIgnoresLeadingPadding(w1, s + w2);
    TrimIgnoresTrailingPadding(s, w2);
  }

  /** Text that begins and ends with non-whitespace is left as it is. */
  lemma TrimOfNonBlank(s: string)
    requires s != [] && !IsJsWhitespace(s[0]) && !IsJsWhitespace(s[|s| - 1])
    ensures Trim(s) == s
  {
    assert s[0..|s|] == s;
  }


  // ---------------------------------------------------------------------------
  // The thirteen chord patterns

  /** One of the anchored regular expressions `^[A-G][#♯b♭]?(q1|q2|...)$`,
      given by the alternatives it allows after the root and accidental. */
  datatype ChordPattern = ChordPattern(name: string, suffixes: seq<string>)

  /** The `CHORD_PATTERNS` table, in declaration order. */
  const CHORD_PATTERNS: seq<ChordPattern> := [
    ChordPattern("major", ["", "M"]),
    ChordPattern("minor", ["m"]),
    ChordPattern("dominant7", ["7"]),
    ChordPattern("major7", ["M7"]),
    ChordPattern("minor7", ["m7"]),
    ChordPattern("diminished", ["dim", "°"]),
    ChordPattern("halfDiminished", ["m7♭5", "ø"]),
    ChordPattern("augmented", ["aug", "+"]),
    ChordPattern("sus2", ["sus2"]),
    ChordPattern("sus4", ["sus4"]),
    ChordPattern("ninth", ["9"]),
    ChordPattern("eleventh", ["11"]),
    ChordPattern("thirteenth", ["13"])
  ]

  /** `pattern.test(s)`: a root letter, optionally one accidental, then
      exactly one of the pattern's suffixes and nothing else. */
  predicate PatternTest(p: ChordPattern, s: string) {
    && |s| >= 1
    && IsRootLetter(s[0])
    && (s[1..] in p.suffixes || (|s| >= 2 && IsAccidentalChar(s[1]) && s[2..] in p.suffixes))
  }

  /** `patterns.some(pattern => pattern.test(s))` */
  predicate SomePatternTests(patterns: seq<ChordPattern>, s: string)
  {
    if patterns == [] then false
    else PatternTest(patterns[0], s) || SomePatternTests(patterns[1..], s)
  }

  /** Every quality suffix some pattern accepts. */
  const CHORD_QUALITIES: set<string> :=
    {"", "M", "m", "7", "M7", "m7", "dim", "°", "m7♭5", "ø", "aug", "+", "sus2", "sus4", "9", "11", "13"}

  /** Membership in `CHORD_QUALITIES`, decided by length and character. */
  predicate IsQuality(q: string) {
    match |q|
    case 0 => true
    case 1 => q[0] in "Mm7°ø+9"
    case 2 => (q[0] == 'M' && q[1] == '7') || (q[0] == 'm' && q[1] == '7') || (q[0] == '1' && q[1] in "13")
    case 3 => (q[0] == 'd' && q[1] == 'i' && q[2] == 'm') || (q[0] == 'a' && q[1] == 'u' && q[2] == 'g')
    case 4 => (q[0] == 'm' && q[1] == '7' && q[2] == '♭' && q[3] == '5')
              || (q[0] == 's' && q[1] == 'u' && q[2] == 's' && q[3] in "24")
    case _ => false
  }

  lemma IsQualityIsMembership(q: string)
    ensures IsQuality(q) <==> q in CHORD_QUALITIES
  {
    if |q| == 1 {
      assert q == [q[0]];
    } else if |q| == 2 {
      assert q == [q[0], q[1]];
    } else if |q| == 3 {
      assert q == [q[0], q[1], q[2]];
    } else if |q| == 4 {
      assert q == [q[0], q[1], q[2], q[3]];
    }
  }

  /** The chord grammar stated directly: `[A-G]`, at most one of `# ♯ b ♭`,
      then exactly one quality suffix. */
  predicate IsChordSymbol(s: string) {
    && |s| >= 1
    && IsRootLetter(s[0])
    && (IsQuality(s[1..]) || (|s| >= 2 && IsAccidentalChar(s[1]) && IsQuality(s[2..])))
  }

  lemma {:induction false} SomePatternTestsAt(patterns: seq<ChordPattern>, s: string)
    ensures SomePatternTests(patterns, s) <==> exists i :: 0 <= i < |patterns| && PatternTest(patterns[i], s)
  {
    if patterns != [] {
      SomePatternTestsAt(patterns[1..], s);
      if SomePatternTests(patterns[1..], s) {
        var i :| 0 <= i < |patterns[1..]| && PatternTest(patterns[1..][i], s);
        assert PatternTest(patterns[i + 1], s);
      }
      if exists i :: 0 <= i < |patterns| && PatternTest(patterns[i], s) {
        var i :| 0 <= i < |patterns| && PatternTest(patterns[i], s);
        if i > 0 {
          assert PatternTest(patterns[1..][i - 1], s);
        }
      }
    }
  }

  lemma QualitiesArePatternSuffixes(q: string)
    ensures q in CHORD_QUALITIES <==> exists i :: 0 <= i < |CHORD_PATTERNS| && q in CHORD_PATTERNS[i].suffixes
  {
    if q in CHORD_QUALITIES {
      var i :=
        if q in {"", "M"} then 0 else if q == "m" then 1 else if q == "7" then 2
        else if q == "M7" then 3 else if q == "m7" then 4 else if q in {"dim", "°"} then 5
        else if q in {"m7♭5", "ø"} then 6 else if q in {"aug", "+"} then 7
        else if q == "sus2" then 8 else if q == "sus4" then 9 else if q == "9" then 10
        else if q == "11" then 11 else 12;
      assert q in CHORD_PATTERNS[i].suffixes;
    }
  }

  /** The thirteen patterns together accept exactly the chord grammar. */
  lemma PatternsAcceptChordSymbols(s: string)
    ensures SomePatternTests(CHORD_PATTERNS, s) <==> IsChordSymbol(s)
  {
    SomePatternTestsAt(CHORD_PATTERNS, s);
    if |s| >= 1 {
      QualitiesArePatternSuffixes(s[1..]);
      IsQualityIsMembership(s[1..]);
      if |s| >= 2 {
        QualitiesArePatternSuffixes(s[2..]);
        IsQualityIsMembership(s[2..]);
      }
    }
  }

  /** `Object.values(CHORD_PATTERNS).some(pattern => pattern.test(s))` */
  predicate MatchesChordPatterns(s: string)
    ensures MatchesChordPatterns(s) <==> IsChordSymbol(s)
  {
    PatternsAcceptChordSymbols(s);
    SomePatternTests(CHORD_PATTERNS, s)
  }

  // ---------------------------------------------------------------------------
  // Validation

  /** The `ChordValidation` record: `message` and `suggestions` are absent
      (`undefined`) unless set. */
  datatype ChordValidation = ChordValidation(isValid: bool, message: Option<string>, suggestions: Option<seq<string>>)

  const EMPTY_MESSAGE: string := "Chord cannot be empty"
  const INVALID_MESSAGE: string := "Invalid chord format"

  /** `['C', 'D', 'E', 'F', 'G', 'A', 'B']`, offered when the input does not
      begin with a note letter. */
  const NOTE_SUGGESTIONS: seq<string> := ["C", "D", "E", "F", "G", "A", "B"]

  /** The suffixes of the five suggestions: major, minor, dominant 7th, major
      7th, minor 7th. */
  const SUGGESTION_SUFFIXES: seq<string> := ["", "m", "7", "M7", "m7"]

  function SuggestionsFrom(base: string): (r: seq<string>)
    ensures |r| == 5 && forall k :: 0 <= k < 5 ==> r[k] == base + SUGGESTION_SUFFIXES[k]
  {
    [base, base + "m", base + "7", base + "M7", base + "m7"]
  }

  /** `input.length > 1 && /[#♯b♭]/.test(input.charAt(1)) ? input.charAt(1) : ''` */
  function SecondCharAccidental(input: string): (a: string)
    ensures a == [] || (|input| > 1 && a == [input[1]] && IsAccidentalChar(input[1]))
    ensures |input| > 1 && IsAccidentalChar(input[1]) ==> a == [input[1]]
  {
    if |input| > 1 && IsAccidentalChar(input[1]) then [input[1]] else []
  }

  /** The characters whose upper case is several characters beginning with
      a letter A-G: U+1E9A and the ligatures U+FB00 to U+FB04. */
  predicate ExpandsToNoteAndMore(c: char) {
    c == '\U{1E9A}' || ('\U{FB00}' <= c <= '\U{FB04}')
  }

  /** `generateChordSuggestions` as written: the base note is
      `input.charAt(0).toUpperCase()`, tested only for beginning with A-G.
      It differs from the corrected `GenerateChordSuggestions` exactly on
      the inputs that begin with one of the six expanding characters. */
  function GenerateChordSuggestionsAsWritten(input: string): (r: seq<string>)
    ensures |r| == 5 || r == NOTE_SUGGESTIONS
    ensures r == GenerateChordSuggestions(input) <==> input == [] || !ExpandsToNoteAndMore(input[0])
  {
    var baseNote := if input == [] then [] else ToUpper(input[0]);
    if !(|baseNote| > 0 && IsRootLetter(baseNote[0])) then NOTE_SUGGESTIONS
    else SuggestionsFrom(baseNote + SecondCharAccidental(input))
  }

  /** The input begins with a note letter, in either case. */
  predicate StartsWithNoteLetter(input: string) {
    input != [] && (IsRootLetter(input[0]) || 'a' <= input[0] <= 'g')
  }

  /** The suggestion list with its base note restricted to one letter A-G:
      an input starting with a note letter in either case gets the five
      chords built on that letter in upper case (followed by the input's
      accidental, if one follows), and any other input gets the seven natural
      notes. */
  function GenerateChordSuggestions(input: string): (r: seq<string>)
    ensures StartsWithNoteLetter(input) ==>
              |ToUpper(input[0])| == 1 && r == SuggestionsFrom(ToUpper(input[0]) + SecondCharAccidental(input))
    ensures !StartsWithNoteLetter(input) ==> r == NOTE_SUGGESTIONS
  {
    var baseNote := if input == [] then [] else ToUpper(input[0]);
    if !(|baseNote| == 1 && IsRootLetter(baseNote[0])) then NOTE_SUGGESTIONS
    else SuggestionsFrom(baseNote + SecondCharAccidental(input))
  }

  /** Every suggestion is a well-formed chord symbol. */
  lemma SuggestionsAreChordSymbols(input: string)
    ensures forall k :: 0 <= k < |GenerateChordSuggestions(input)| ==> IsChordSymbol(GenerateChordSuggestions(input)[k])
  {
    var r := GenerateChordSuggestions(input);
    if !StartsWithNoteLetter(input) {
      assert forall k :: 0 <= k < 7 ==> NOTE_SUGGESTIONS[k][1..] == "";
    } else {
      var base := ToUpper(input[0]) + SecondCharAccidental(input);
      forall k | 0 <= k < 5 ensures IsChordSymbol(r[k]) {
        assert r[k] == base + SUGGESTION_SUFFIXES[k];
        if |base| == 1 {
          assert r[k][1..] == SUGGESTION_SUFFIXES[k];
        } else {
          assert r[k][2..] == SUGGESTION_SUFFIXES[k];
        }
      }
    }
  }

  /** `validateChord`. The pattern test is decided by `IsChordSymbol`,
      which `MatchesChordPatterns` shows accepts exactly what some pattern
      matches. */
  function ValidateChord(chord: string): (v: ChordValidation)
    ensures v.isValid <==> v.message.None?
    ensures v.isValid ==> v.suggestions.None?
  {
    if chord == [] || Trim(chord) == [] then
      ChordValidation(false, Some(EMPTY_MESSAGE), None)
    else
      var normalizedChord := Trim(chord);
      if IsChordSymbol(normalizedChord) then
        ChordValidation(true, None, None)
      else
        ChordValidation(false, Some(INVALID_MESSAGE), Some(GenerateChordSuggestions(normalizedChord)))
  }

  /** The three outcomes of `validateChord`: valid exactly when the trimmed
      text is not empty and some chord pattern matches it, and then with no
      message and no suggestions; blank text is refused as empty; any other
      text is refused as malformed, with suggestions for the trimmed text. */
  lemma ValidateChordOutcomes(chord: string)
    ensures var v := ValidateChord(chord);
            var t := Trim(chord);
            && (v.isValid <==> t != [] && MatchesChordPatterns(t))
            && (v.isValid ==> v.message.None? && v.suggestions.None?)
            && (t == [] ==> v == ChordValidation(false, Some(EMPTY_MESSAGE), None))
            && (t != [] && !v.isValid ==>
                  v.message == Some(INVALID_MESSAGE) && v.suggestions == Some(GenerateChordSuggestions(t)))
  {
  }

  /** Leading and trailing whitespace never changes the verdict, the message
      or the suggestions. */
  lemma ValidationIgnoresPadding(w1: string, chord: string, w2: string)
    requires AllWhitespace(w1) && AllWhitespace(w2)
    ensures ValidateChord(w1 + chord + w2) == ValidateChord(chord)
  {
    TrimIgnoresPadding(w1, chord, w2);
  }

  /** A string that is a chord symbol is its own trimmed form. */
  lemma ChordSymbolIsTrimmed(s: string)
    requires IsChordSymbol(s)
    ensures Trim(s) == s
  {
    var last := s[|s| - 1];
    assert !IsJsWhitespace(last) by {
      var q := if |s| >= 2 && IsAccidentalChar(s[1]) && IsQuality(s[2..]) then s[2..] else s[1..];
      assert IsQuality(q);
      QualitiesEndInNonWhitespace(q);
      if q != [] {
        assert last == q[|q| - 1];
      }
    }
    TrimOfNonBlank(s);
  }

  lemma QualitiesEndInNonWhitespace(q: string)
    requires IsQuality(q)
    ensures q != [] ==> !IsJsWhitespace(q[|q| - 1])
  {
  }

  /** Every suggestion offered for an invalid chord is itself accepted by
      `validateChord`. */
  lemma SuggestionsAreValid(chord: string)
    ensures var v := ValidateChord(chord);
            v.suggestions.Some? ==>
              forall k :: 0 <= k < |v.suggestions.value| ==> ValidateChord(v.suggestions.value[k]).isValid
  {
    var v := ValidateChord(chord);
    if v.suggestions.Some? {
      SuggestionsAreChordSymbols(Trim(chord));
      forall k | 0 <= k < |v.suggestions.value| ensures ValidateChord(v.suggestions.value[k]).isValid {
        ChordSymbolIsTrimmed(v.suggestions.value[k]);
      }
    }
  }

  /** `generateChordSuggestions` as written offers "FF", which is not a chord,
      for the one-character input "ﬀ" (U+FB00, whose upper case is "FF"). */
  lemma LigatureSuggestionIsInvalid(ligature: char)
    requires ligature == '\U{FB00}'
    ensures !ValidateChord([ligature]).isValid
    ensures var r := GenerateChordSuggestionsAsWritten([ligature]);
            r[0] == "FF" && !ValidateChord(r[0]).isValid
  {
    TrimOfNonBlank([ligature]);
    var ff := GenerateChordSuggestionsAsWritten([ligature])[0];
    assert ff == "FF";
    TrimOfNonBlank(ff);
    assert ff[1..] == "F";
  }



  // ---------------------------------------------------------------------------
  // Validating a progression

  datatype ChordsValidation = ChordsValidation(allValid: bool, validations: seq<ChordValidation>, validChords: seq<string>)

  /** `chords.filter((_, index) => validations[index].isValid)` */
  function KeepValid(chords: seq<string>, validations: seq<ChordValidation>): (r: seq<string>)
    requires |validations| == |chords|
    ensures |r| <= |chords|
    ensures (forall i :: 0 <= i < |chords| ==> validations[i].isValid) ==> r == chords
  {
    if chords == [] then []
    else if validations[0].isValid then [chords[0]] + KeepValid(chords[1..], validations[1..])
    else KeepValid(chords[1..], validations[1..])
  }

  /** `validateChords` */
  function ValidateChords(chords: seq<string>): (r: ChordsValidation)
    ensures |r.validations| == |chords|
    ensures forall i :: 0 <= i < |chords| ==> r.validations[i] == ValidateChord(chords[i])
    ensures r.allValid <==> forall i :: 0 <= i < |chords| ==> ValidateChord(chords[i]).isValid
    ensures r.allValid ==> r.validChords == chords
  {
    var validations := seq(|chords|, i requires 0 <= i < |chords| => ValidateChord(chords[i]));
    var allValid := forall i :: 0 <= i < |validations| ==> validations[i].isValid;
    ChordsValidation(allValid, validations, KeepValid(chords, validations))
  }

  /** The valid chords are exactly the inputs whose validation passed, in
      their original order and untrimmed. */
  lemma ValidChordsAreTheValidInputs(chords: seq<string>)
    ensures var r := ValidateChords(chords);
            && SeqUtil.IsSubsequence(r.validChords, chords)
            && (forall k :: 0 <= k < |r.validChords| ==> ValidateChord(r.validChords[k]).isValid)
            && (forall i :: 0 <= i < |chords| && ValidateChord(chords[i]).isValid ==> chords[i] in r.validChords)
            && |r.validChords| == |set i | 0 <= i < |chords| && ValidateChord(chords[i]).isValid|
  {
    var r := ValidateChords(chords);
    KeepValidFacts(chords, r.validations);
    assert (set i | 0 <= i < |chords| && r.validations[i].isValid)
        == (set i | 0 <= i < |chords| && ValidateChord(chords[i]).isValid);
    forall k | 0 <= k < |r.validChords| ensures ValidateChord(r.validChords[k]).isValid {
      var i :| 0 <= i < |chords| && r.validChords[k] == chords[i] && r.validations[i].isValid;
      assert r.validations[i] == ValidateChord(chords[i]);
    }
    forall i | 0 <= i < |chords| && ValidateChord(chords[i]).isValid ensures chords[i] in r.validChords {
      assert r.validations[i].isValid;
    }
  }

  lemma {:induction false} KeepValidFacts(chords: seq<string>, validations: seq<ChordValidation>)
    requires |validations| == |chords|
    ensures var r := KeepValid(chords, validations);
            && SeqUtil.IsSubsequence(r, chords)
            && (forall k :: 0 <= k < |r| ==> exists i :: 0 <= i < |chords| && r[k] == chords[i] && validations[i].isValid)
            && (forall i :: 0 <= i < |chords| && validations[i].isValid ==> chords[i] in r)
            && |r| == |set i | 0 <= i < |chords| && validations[i].isValid|
  {
    KeepValidCount(chords, validations, 0);
    assert chords[0..] == chords && validations[0..] == validations;
    if chords != [] {
      var t := KeepValid(chords[1..], validations[1..]);
      KeepValidFacts(chords[1..], validations[1..]);
      var r := KeepValid(chords, validations);
      if validations[0].isValid {
        assert r[1..] == t;
      } else {
        SeqUtil.SubsequenceOfTail(t, chords);
      }
      forall k | 0 <= k < |r| ensures exists i :: 0 <= i < |chords| && r[k] == chords[i] && validations[i].isValid {
        if validations[0].isValid && k == 0 {
          assert r[0] == chords[0];
        } else {
          var k' := if validations[0].isValid then k - 1 else k;
          assert r[k] == t[k'];
          var i :| 0 <= i < |chords[1..]| && t[k'] == chords[1..][i] && validations[1..][i].isValid;
          assert r[k] == chords[i + 1] && validations[i + 1].isValid;
        }
      }
      forall i | 0 <= i < |chords| && validations[i].isValid ensures chords[i] in r {
        if i > 0 {
          assert chords[1..][i - 1] == chords[i];
          assert validations[1..][i - 1] == validations[i];
        }
      }
    }
  }

  /** The chords kept from index `lo` on are as many as the passed
      validations from `lo` on: no repeated chord is merged. */
  lemma {:induction false} KeepValidCount(chords: seq<string>, validations: seq<ChordValidation>, lo: nat)
    requires |validations| == |chords| && lo <= |chords|
    ensures |KeepValid(chords[lo..], validations[lo..])| == |set i | lo <= i < |chords| && validations[i].isValid|
    decreases |chords| - lo
  {
    var later := set i | lo + 1 <= i < |chords| && validations[i].isValid;
    var here := set i | lo <= i < |chords| && validations[i].isValid;
    if lo == |chords| {
      assert here == {};
    } else {
      KeepValidCount(chords, validations, lo + 1);
      assert chords[lo..][1..] == chords[lo + 1..];
      assert validations[lo..][1..] == validations[lo + 1..];
      if validations[lo].isValid {
        assert here == later + {lo};
        assert lo !in later;
      } else {
        assert here == later;
      }
    }
  }

  // ---------------------------------------------------------------------------

  /** `COMMON_TONALITIES`: the names offered by the tonality selector. */
  const COMMON_TONALITIES: seq<string> := [
    "C Major", "G Major", "D Major", "A Major", "E Major", "B Major", "F# Major",
    "Db Major", "Ab Major", "Eb Major", "Bb Major", "F Major",
    "A Minor", "E Minor", "B Minor", "F# Minor", "C# Minor", "G# Minor", "D# Minor",
    "Bb Minor", "F Minor", "C Minor", "G Minor", "D Minor"
  ]
}
