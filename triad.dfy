/** The triad builder shared by the mobile chord keyboard and the visual
    chord input: a chord is a note, an accidental and one of three triad
    types, printed by `buildChordSymbol` and read back by `parseChordSymbol`.
    Both components carry identical copies of the two functions; they are
    defined once here. */
module Triad {
  import opened Wrappers
  import opened ChordGrammar

  /** `NOTES`: the seven natural note names. */
  datatype Note = C | D | E | F | G | A | B

  /** `ACCIDENTALS`: '♮', '♯', '♭'. */
  datatype Accidental = Natural | Sharp | Flat

  /** `CHORD_TYPES`, by their symbols '', 'm' and 'dim'. */
  datatype ChordType = Major | Minor | Diminished

  /** The `ChordBuilder` record. */
  datatype Builder = Builder(note: Note, accidental: Accidental, chordType: ChordType)

  /** The builder both components start from: C, natural, major. */
  const DEFAULT_BUILDER: Builder := Builder(C, Natural, Major)

  function Letter(n: Note): char {
    match n
    case C => 'C' case D => 'D' case E => 'E' case F => 'F'
    case G => 'G' case A => 'A' case B => 'B'
  }

  /** The note a one-character string names, if it is one of `NOTES`. */
  function NoteNamed(c: char): (n: Option<Note>)
    ensures n.Some? <==> IsRootLetter(c)
    ensures n.Some? ==> Letter(n.value) == c
  {
    match c
    case 'C' => Some(C) case 'D' => Some(D) case 'E' => Some(E) case 'F' => Some(F)
    case 'G' => Some(G) case 'A' => Some(A) case 'B' => Some(B)
    case _ => None
  }

  /** The accidental's text in a chord symbol: nothing for '♮'. */
  function AccidentalSymbol(a: Accidental): string {
    match a
    case Natural => ""
    case Sharp => "♯"
    case Flat => "♭"
  }

  function TypeSymbol(t: ChordType): string {
    match t
    case Major => ""
    case Minor => "m"
    case Diminished => "dim"
  }

  /** `CHORD_TYPES.find(t => t.symbol === typeStr)` */
  function TypeNamed(typeStr: string): (t: Option<ChordType>)
    ensures t.Some? ==> TypeSymbol(t.value) == typeStr
    ensures t.None? ==> typeStr != "" && typeStr != "m" && typeStr != "dim"
  {
    if typeStr == "" then Some(Major)
    else if typeStr == "m" then Some(Minor)
    else if typeStr == "dim" then Some(Diminished)
    else None
  }

  /** `buildChordSymbol` */
  function Build(b: Builder): string {
    [Letter(b.note)] + AccidentalSymbol(b.accidental) + TypeSymbol(b.chordType)
  }

  /** The accidental at the head of what follows the root, and what is left
      after it: '♯' or '#' is sharp, '♭' or 'b' is flat, anything else is
      natural and consumes nothing. */
  function SplitAccidental(rest: string): (r: (Accidental, string))
    ensures r.0 == Natural ==> r.1 == rest
    ensures r.0 != Natural ==> rest != [] && r.1 == rest[1..]
  {
    if rest != [] && (rest[0] == '♯' || rest[0] == '#') then (Sharp, rest[1..])
    else if rest != [] && (rest[0] == '♭' || rest[0] == 'b') then (Flat, rest[1..])
    else (Natural, rest)
  }

  /** `parseChordSymbol`: `None` stands for `null`. */
  function Parse(chord: string): (r: Option<Builder>)
    ensures chord == [] ==> r == None
    ensures r.Some? ==> chord != [] && ToUpper(chord[0]) == [Letter(r.value.note)]
  {
    if chord == [] then None
    else
      var note := ToUpper(chord[0]);
      if |note| != 1 || NoteNamed(note[0]).None? then None
      else
        var (accidental, typeStr) := SplitAccidental(chord[1..]);
        match TypeNamed(typeStr)
        case None => None
        case Some(t) => Some(Builder(NoteNamed(note[0]).value, accidental, t))
  }

  /** `{ ...prev, ...updates }` for a `Partial<ChordBuilder>`: each field the
      update carries replaces the builder's. */
  datatype BuilderUpdate = BuilderUpdate(note: Option<Note>, accidental: Option<Accidental>, chordType: Option<ChordType>)

  function Merge(b: Builder, u: BuilderUpdate): Builder {
    Builder(u.note.GetOr(b.note), u.accidental.GetOr(b.accidental), u.chordType.GetOr(b.chordType))
  }

  // ---------------------------------------------------------------------------
  // Properties

  /** Parsing what was built gives back the builder. */
  lemma ParseBuild(b: Builder)
    ensures Parse(Build(b)) == Some(b)
  {
    var s := Build(b);
    assert s[0] == Letter(b.note);
    assert s[1..] == AccidentalSymbol(b.accidental) + TypeSymbol(b.chordType);
    if b.accidental != Natural {
      assert s[1..][1..] == TypeSymbol(b.chordType);
    }
  }

  /** The strings that spell a builder: its note letter in either case, then
      for a sharp one of '♯' '#', for a flat one of '♭' 'b', for a natural
      nothing, then exactly the type's symbol. */
  predicate IsSpelling(s: string, b: Builder) {
    && |s| >= 1
    && (s[0] == Letter(b.note) || s[0] == (Letter(b.note) as int + 32) as char)
    && match b.accidental
       case Natural => s[1..] == TypeSymbol(b.chordType)
       case Sharp => |s| >= 2 && (s[1] == '♯' || s[1] == '#') && s[2..] == TypeSymbol(b.chordType)
       case Flat => |s| >= 2 && (s[1] == '♭' || s[1] == 'b') && s[2..] == TypeSymbol(b.chordType)
  }

  /** `parseChordSymbol` accepts exactly the spellings, and reads each one as
      the builder it spells. */
  lemma ParseIsSpelling(s: string, b: Builder)
    ensures Parse(s) == Some(b) <==> IsSpelling(s, b)
  {
    if s != [] {
      var rest := s[1..];
      if IsSpelling(s, b) {
        assert ToUpper(s[0]) == [Letter(b.note)];
        if b.accidental == Natural {
          assert rest == TypeSymbol(b.chordType);
          assert rest == [] || (rest[0] != '♯' && rest[0] != '#' && rest[0] != '♭' && rest[0] != 'b');
        } else {
          assert rest[1..] == TypeSymbol(b.chordType);
        }
      }
      if Parse(s) == Some(b) {
        var u := ToUpper(s[0]);
        assert u == [Letter(b.note)];
        assert s[0] == Letter(b.note) || 'a' <= s[0] <= 'g';
      }
    }
  }

  /** The canonical form of a chord's spelling: the root letter upper-cased,
      '#' directly after it written '♯' and 'b' written '♭', everything else
      kept. */
  function Canonical(s: string): (r: string)
    requires s != []
  {
    var head := ToUpper(s[0]);
    if |s| >= 2 && s[1] == '#' then head + "♯" + s[2..]
    else if |s| >= 2 && s[1] == 'b' then head + "♭" + s[2..]
    else head + s[1..]
  }

  /** Building what was parsed canonicalises the input. */
  lemma BuildParseCanonicalises(s: string)
    ensures Parse(s).Some? ==> Build(Parse(s).value) == Canonical(s)
  {
    if Parse(s).Some? {
      var b := Parse(s).value;
      ParseIsSpelling(s, b);
      assert ToUpper(s[0]) == [Letter(b.note)];
      if b.accidental != Natural {
        assert s[2..] == TypeSymbol(b.chordType);
      }
    }
  }

  /** Parsing, building and parsing again reads the same builder. */
  lemma ParseBuildParse(s: string)
    ensures Parse(s).Some? ==> Parse(Build(Parse(s).value)) == Parse(s)
  {
    if Parse(s).Some? {
      ParseBuild(Parse(s).value);
    }
  }

  /** Every symbol `buildChordSymbol` produces matches the major, minor or
      diminished pattern, so `validateChord` accepts it. */
  lemma BuildIsValidChord(b: Builder)
    ensures IsChordSymbol(Build(b))
    ensures ValidateChord(Build(b)) == ChordValidation(true, None, None)
  {
    var s := Build(b);
    assert s[0] == Letter(b.note);
    if b.accidental == Natural {
      assert s[1..] == TypeSymbol(b.chordType);
    } else {
      assert s[2..] == TypeSymbol(b.chordType);
    }
    ChordSymbolIsTrimmed(s);
  }

  /** Among the strings the triad parser reads, `validateChord` accepts
      exactly those whose root is written in upper case: the parser also
      reads a lower-case root, the validator does not. */
  lemma ParsedChordValidIffUpperRoot(s: string)
    requires Parse(s).Some?
    ensures ValidateChord(s).isValid <==> IsRootLetter(s[0])
  {
    var b := Parse(s).value;
    ParseIsSpelling(s, b);
    assert !IsJsWhitespace(s[0]);
    assert !IsJsWhitespace(s[|s| - 1]);
    TrimOfNonBlank(s);
    if IsRootLetter(s[0]) {
      if b.accidental == Natural {
        assert s[1..] == TypeSymbol(b.chordType);
      } else {
        assert s[2..] == TypeSymbol(b.chordType);
      }
    }
  }

  /** The two grammars differ in the other direction too: "CM" (C major
      written with the `M` suffix) is a valid chord that the triad parser
      refuses, since 'M' is none of '', 'm', 'dim'. */
  lemma ValidChordParserRefuses(s: string)
    requires s == "CM"
    ensures ValidateChord(s).isValid && Parse(s) == None
  {
    assert s[1..] == "M";
    ChordSymbolIsTrimmed(s);
  }
}
