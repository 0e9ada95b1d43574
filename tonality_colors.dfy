/** The tonality colour system of lib/tonality-colors.ts: two fixed palettes
    keyed by major-key names, colour lookup with a neutral fallback, the
    minor-key heuristic that picks dashed borders, and the style records
    built from them. */
module TonalityColors {
  import opened Wrappers
  import SeqUtil
  import ChordGrammar

  datatype Theme = Light | Dark

  /** Which of a scheme's three colours is wanted. */
  datatype Variant = Stroke | Fill | Label

  /** `TonalityColorScheme`; `label` is a reserved word here, hence `labelColor`. */
  datatype ColorScheme = ColorScheme(stroke: string, fill: string, labelColor: string)

  function Pick(c: ColorScheme, v: Variant): string {
    match v
    case Stroke => c.stroke
    case Fill => c.fill
    case Label => c.labelColor
  }

  /** The palettes' keys, in the order the object literals declare them
      (which is the order `Object.keys` reports). */
  const TONALITY_KEYS: seq<string> := [
    "C Major", "C# Major", "Db Major", "D Major", "D# Major", "Eb Major", "E Major",
    "F Major", "F# Major", "Gb Major", "G Major", "G# Major", "Ab Major", "A Major",
    "A# Major", "Bb Major", "B Major"
  ]

  /** `LIGHT_TONALITY_COLORS` */
  const LIGHT_TONALITY_COLORS: map<string, ColorScheme> := map[
    "C Major" := ColorScheme("#4dabf7", "#a5d8ff", "#1971c2"),
    "C# Major" := ColorScheme("#5BC3BA", "#ACE5DD", "#248883"),
    "Db Major" := ColorScheme("#5BC3BA", "#ACE5DD", "#248883"),
    "D Major" := ColorScheme("#69db7c", "#b2f2bb", "#2f9e44"),
    "D# Major" := ColorScheme("#B4D85C", "#D9EFAA", "#909522"),
    "Eb Major" := ColorScheme("#B4D85C", "#D9EFAA", "#909522"),
    "E Major" := ColorScheme("#ffd43b", "#ffec99", "#f08c00"),
    "F Major" := ColorScheme("#ffa94d", "#ffd8a8", "#e8590c"),
    "F# Major" := ColorScheme("#FF986A", "#FFD1B9", "#E4451F"),
    "Gb Major" := ColorScheme("#FF986A", "#FFD1B9", "#E4451F"),
    "G Major" := ColorScheme("#ff8787", "#ffc9c9", "#e03131"),
    "G# Major" := ColorScheme("#FB859A", "#FEC6D0", "#D12B47"),
    "Ab Major" := ColorScheme("#FB859A", "#FEC6D0", "#D12B47"),
    "A Major" := ColorScheme("#f783ac", "#fcc2d7", "#c2255c"),
    "A# Major" := ColorScheme("#E97DCF", "#F5C0E9", "#AF2E89"),
    "Bb Major" := ColorScheme("#E97DCF", "#F5C0E9", "#AF2E89"),
    "B Major" := ColorScheme("#da77f2", "#eebefa", "#9c36b5")
  ]

  /** `DARK_TONALITY_COLORS` */
  const DARK_TONALITY_COLORS: map<string, ColorScheme> := map[
    "C Major" := ColorScheme("#56a2e8", "#154163", "#74b9ff"),
    "C# Major" := ColorScheme("#479d99", "#0d3e37", "#6bccc7"),
    "Db Major" := ColorScheme("#479d99", "#0d3e37", "#6bccc7"),
    "D Major" := ColorScheme("#3a994c", "#0d3712", "#51cf66"),
    "D# Major" := ColorScheme("#797d1a", "#2b2f00", "#a3a821"),
    "Eb Major" := ColorScheme("#797d1a", "#2b2f00", "#a3a821"),
    "E Major" := ColorScheme("#d69e2e", "#5f3a00", "#fcc419"),
    "F Major" := ColorScheme("#f17634", "#4d2b02", "#ff8c42"),
    "F# Major" := ColorScheme("#ff7c5c", "#a14922", "#ff9472"),
    "Gb Major" := ColorScheme("#ff7c5c", "#a14922", "#ff9472"),
    "G Major" := ColorScheme("#ff8383", "#5b2c2c", "#ff9999"),
    "G# Major" := ColorScheme("#ff8ac9", "#cc59a2", "#ffa8d4"),
    "Ab Major" := ColorScheme("#ff8ac9", "#cc59a2", "#ffa8d4"),
    "A Major" := ColorScheme("#ff92ff", "#e466f7", "#ffb3ff"),
    "A# Major" := ColorScheme("#db9cff", "#3a2f56", "#e5b3ff"),
    "Bb Major" := ColorScheme("#db9cff", "#3a2f56", "#e5b3ff"),
    "B Major" := ColorScheme("#b0a7ff", "#8385fd", "#c7c2ff")
  ]

  function Palette(theme: Theme): map<string, ColorScheme> {
    if theme == Dark then DARK_TONALITY_COLORS else LIGHT_TONALITY_COLORS
  }

  /** The neutral colour for a missing or unknown tonality. */
  function Fallback(theme: Theme): string {
    if theme == Dark then "#666666" else "#999999"
  }

  /** `!tonality`: `null`, `undefined` (both `None`) and the empty string. */
  predicate IsAbsent(tonality: Option<string>) {
    tonality.None? || tonality.value == ""
  }

  // ---------------------------------------------------------------------------
  // Lookup

  /** `getTonalityColor`, with the palette read as an own-property table:
      an absent or unknown tonality gets the theme's fallback, a palette key
      gets its entry's colour. */
  function GetTonalityColor(tonality: Option<string>, variant: Variant, theme: Theme): (color: string)
    ensures IsAbsent(tonality) ==> color == Fallback(theme)
    ensures !IsAbsent(tonality) && tonality.value !in Palette(theme) ==> color == Fallback(theme)
    ensures !IsAbsent(tonality) && tonality.value in Palette(theme) ==>
              color == Pick(Palette(theme)[tonality.value], variant)
  {
    if IsAbsent(tonality) then Fallback(theme)
    else
      var palette := Palette(theme);
      if tonality.value !in palette then Fallback(theme)
      else Pick(palette[tonality.value], variant)
  }

  /** The names every plain object literal inherits from `Object.prototype`;
      indexing a palette with one of them finds a truthy value. */
  const OBJECT_PROTOTYPE_MEMBERS: set<string> := {
    "constructor", "hasOwnProperty", "isPrototypeOf", "propertyIsEnumerable",
    "toLocaleString", "toString", "valueOf", "__proto__",
    "__defineGetter__", "__defineSetter__", "__lookupGetter__", "__lookupSetter__"
  }

  /** What `palette[name]` finds in JavaScript: the palette's own entry, a
      member inherited from `Object.prototype`, or nothing. */
  datatype PaletteEntry = Own(scheme: ColorScheme) | Inherited | Missing

  function PaletteIndexAsWritten(palette: map<string, ColorScheme>, name: string): PaletteEntry {
    if name in palette then Own(palette[name])
    else if name in OBJECT_PROTOTYPE_MEMBERS then Inherited
    else Missing
  }

  /** `getTonalityColor` as written: an inherited member passes the
      `!colors` test, and `colors[variant]` is then `undefined` (`None`). */
  function GetTonalityColorAsWritten(tonality: Option<string>, variant: Variant, theme: Theme): (color: Option<string>)
    ensures IsAbsent(tonality) || tonality.value !in OBJECT_PROTOTYPE_MEMBERS ==>
              color == Some(GetTonalityColor(tonality, variant, theme))
  {
    if IsAbsent(tonality) then Some(Fallback(theme))
    else
      match PaletteIndexAsWritten(Palette(theme), tonality.value)
      case Missing => Some(Fallback(theme))
      case Inherited => None
      case Own(colors) => Some(Pick(colors, variant))
  }

  /** The tonality "constructor" makes the code as written return
      `undefined` where the fallback colour was meant. */
  lemma PrototypeNameYieldsUndefined(tonality: string, variant: Variant, theme: Theme)
    requires tonality == "constructor"
    ensures GetTonalityColorAsWritten(Some(tonality), variant, theme) == None
    ensures GetTonalityColor(Some(tonality), variant, theme) == Fallback(theme)
  {
    assert tonality in OBJECT_PROTOTYPE_MEMBERS;
    PalettesShareKeys();
    assert forall i :: 0 <= i < |TONALITY_KEYS| ==> |TONALITY_KEYS[i]| <= 8;
  }

  // ---------------------------------------------------------------------------
  // The palettes

  predicate IsHexDigit(c: char) {
    ('0' <= c <= '9') || ('a' <= c <= 'f') || ('A' <= c <= 'F')
  }

  /** A CSS colour `#rrggbb`: '#' followed by six hexadecimal digits. */
  predicate IsHexColor(s: string) {
    && |s| == 7 && s[0] == '#'
    && IsHexDigit(s[1]) && IsHexDigit(s[2]) && IsHexDigit(s[3])
    && IsHexDigit(s[4]) && IsHexDigit(s[5]) && IsHexDigit(s[6])
  }

  predicate IsHexScheme(c: ColorScheme) {
    IsHexColor(c.stroke) && IsHexColor(c.fill) && IsHexColor(c.labelColor)
  }

  /** The palette entries are well-formed, checked two keys at a time so
      that each proof stays small. */
  lemma LightColorsAreHex1()
    ensures IsHexScheme(LIGHT_TONALITY_COLORS["C Major"])
    ensures IsHexScheme(LIGHT_TONALITY_COLORS["C# Major"])
  {
  }

  lemma LightColorsAreHex2()
    ensures IsHexScheme(LIGHT_TONALITY_COLORS["Db Major"])
    ensures IsHexScheme(LIGHT_TONALITY_COLORS["D Major"])
  {
  }

  lemma LightColorsAreHex3()
    ensures IsHexScheme(LIGHT_TONALITY_COLORS["D# Major"])
    ensures IsHexScheme(LIGHT_TONALITY_COLORS["Eb Major"])
  {
  }

  lemma LightColorsAreHex4()
    ensures IsHexScheme(LIGHT_TONALITY_COLORS["E Major"])
    ensures IsHexScheme(LIGHT_TONALITY_COLORS["F Major"])
  {
  }

  lemma LightColorsAreHex5()
    ensures IsHexScheme(LIGHT_TONALITY_COLORS["F# Major"])
    ensures IsHexScheme(LIGHT_TONALITY_COLORS["Gb Major"])
  {
  }

  lemma LightColorsAreHex6()
    ensures IsHexScheme(LIGHT_TONALITY_COLORS["G Major"])
    ensures IsHexScheme(LIGHT_TONALITY_COLORS["G# Major"])
  {
  }

  lemma LightColorsAreHex7()
    ensures IsHexScheme(LIGHT_TONALITY_COLORS["Ab Major"])
    ensures IsHexScheme(LIGHT_TONALITY_COLORS["A Major"])
  {
  }

  lemma LightColorsAreHex8()
    ensures IsHexScheme(LIGHT_TONALITY_COLORS["A# Major"])
    ensures IsHexScheme(LIGHT_TONALITY_COLORS["Bb Major"])
  {
  }

  lemma LightColorsAreHex9()
    ensures IsHexScheme(LIGHT_TONALITY_COLORS["B Major"])
  {
  }

  /** Every light palette entry is well-formed. */
  lemma LightSchemeIsHex(t: string)
    requires t in LIGHT_TONALITY_COLORS
    ensures IsHexScheme(LIGHT_TONALITY_COLORS[t])
  {
    if t == "C Major" || t == "C# Major" {
      LightColorsAreHex1();
    } else if t == "Db Major" || t == "D Major" {
      LightColorsAreHex2();
    } else if t == "D# Major" || t == "Eb Major" {
      LightColorsAreHex3();
    } else if t == "E Major" || t == "F Major" {
      LightColorsAreHex4();
    } else if t == "F# Major" || t == "Gb Major" {
      LightColorsAreHex5();
    } else if t == "G Major" || t == "G# Major" {
      LightColorsAreHex6();
    } else if t == "Ab Major" || t == "A Major" {
      LightColorsAreHex7();
    } else if t == "A# Major" || t == "Bb Major" {
      LightColorsAreHex8();
    } else {
      LightColorsAreHex9();
    }
  }

  lemma DarkColorsAreHex1()
    ensures IsHexScheme(DARK_TONALITY_COLORS["C Major"])
    ensures IsHexScheme(DARK_TONALITY_COLORS["C# Major"])
  {
  }

  lemma DarkColorsAreHex2()
    ensures IsHexScheme(DARK_TONALITY_COLORS["Db Major"])
    ensures IsHexScheme(DARK_TONALITY_COLORS["D Major"])
  {
  }

  lemma DarkColorsAreHex3()
    ensures IsHexScheme(DARK_TONALITY_COLORS["D# Major"])
    ensures IsHexScheme(DARK_TONALITY_COLORS["Eb Major"])
  {
  }

  lemma DarkColorsAreHex4()
    ensures IsHexScheme(DARK_TONALITY_COLORS["E Major"])
    ensures IsHexScheme(DARK_TONALITY_COLORS["F Major"])
  {
  }

  lemma DarkColorsAreHex5()
    ensures IsHexScheme(DARK_TONALITY_COLORS["F# Major"])
    ensures IsHexScheme(DARK_TONALITY_COLORS["Gb Major"])
  {
  }

  lemma DarkColorsAreHex6()
    ensures IsHexScheme(DARK_TONALITY_COLORS["G Major"])
    ensures IsHexScheme(DARK_TONALITY_COLORS["G# Major"])
  {
  }

  lemma DarkColorsAreHex7()
    ensures IsHexScheme(DARK_TONALITY_COLORS["Ab Major"])
    ensures IsHexScheme(DARK_TONALITY_COLORS["A Major"])
  {
  }

  lemma DarkColorsAreHex8()
    ensures IsHexScheme(DARK_TONALITY_COLORS["A# Major"])
    ensures IsHexScheme(DARK_TONALITY_COLORS["Bb Major"])
  {
  }

  lemma DarkColorsAreHex9()
    ensures IsHexScheme(DARK_TONALITY_COLORS["B Major"])
  {
  }

  /** Every dark palette entry is well-formed. */
  lemma DarkSchemeIsHex(t: string)
    requires t in DARK_TONALITY_COLORS
    ensures IsHexScheme(DARK_TONALITY_COLORS[t])
  {
    if t == "C Major" || t == "C# Major" {
      DarkColorsAreHex1();
    } else if t == "Db Major" || t == "D Major" {
      DarkColorsAreHex2();
    } else if t == "D# Major" || t == "Eb Major" {
      DarkColorsAreHex3();
    } else if t == "E Major" || t == "F Major" {
      DarkColorsAreHex4();
    } else if t == "F# Major" || t == "Gb Major" {
      DarkColorsAreHex5();
    } else if t == "G Major" || t == "G# Major" {
      DarkColorsAreHex6();
    } else if t == "Ab Major" || t == "A Major" {
      DarkColorsAreHex7();
    } else if t == "A# Major" || t == "Bb Major" {
      DarkColorsAreHex8();
    } else {
      DarkColorsAreHex9();
    }
  }

  /** Every colour the lookup resolves to, the fallback included, is a
      well-formed `#rrggbb` colour. */
  lemma ResolvedColorsAreHex(tonality: Option<string>, variant: Variant, theme: Theme)
    ensures IsHexColor(GetTonalityColor(tonality, variant, theme))
  {
    if !IsAbsent(tonality) && tonality.value in Palette(theme) {
      if theme == Dark {
        DarkSchemeIsHex(tonality.value);
      } else {
        LightSchemeIsHex(tonality.value);
      }
    }
  }

  /** Both palettes have the same seventeen keys, listed once each by
      `TONALITY_KEYS`. */
  lemma PalettesShareKeys()
    ensures |TONALITY_KEYS| == 17 && SeqUtil.Distinct(TONALITY_KEYS)
    ensures LIGHT_TONALITY_COLORS.Keys == DARK_TONALITY_COLORS.Keys == set k | k in TONALITY_KEYS
  {
  }

  /** Enharmonic spellings share one colour scheme in each palette. */
  lemma EnharmonicsShareColors(theme: Theme)
    ensures Palette(theme)["C# Major"] == Palette(theme)["Db Major"]
    ensures Palette(theme)["D# Major"] == Palette(theme)["Eb Major"]
    ensures Palette(theme)["F# Major"] == Palette(theme)["Gb Major"]
    ensures Palette(theme)["G# Major"] == Palette(theme)["Ab Major"]
    ensures Palette(theme)["A# Major"] == Palette(theme)["Bb Major"]
  {
    if theme == Dark {
      DarkEnharmonics();
    } else {
      LightEnharmonics();
    }
  }

  lemma LightEnharmonics()
    ensures var p := LIGHT_TONALITY_COLORS;
            && p["C# Major"] == p["Db Major"] && p["D# Major"] == p["Eb Major"]
            && p["F# Major"] == p["Gb Major"] && p["G# Major"] == p["Ab Major"]
            && p["A# Major"] == p["Bb Major"]
  {
  }

  lemma DarkEnharmonics()
    ensures var p := DARK_TONALITY_COLORS;
            && p["C# Major"] == p["Db Major"] && p["D# Major"] == p["Eb Major"]
            && p["F# Major"] == p["Gb Major"] && p["G# Major"] == p["Ab Major"]
            && p["A# Major"] == p["Bb Major"]
  {
  }

  /** `getAllTonalities`: `Object.keys` of the theme's palette, which lists
      each key once. */
  function GetAllTonalities(theme: Theme): (keys: seq<string>)
    ensures forall k :: k in keys <==> k in Palette(theme)
    ensures SeqUtil.Distinct(keys)
  {
    PalettesShareKeys();
    TONALITY_KEYS
  }

  // ---------------------------------------------------------------------------
  // Minor keys

  /** `toLowerCase` on the characters that matter here: the ASCII capitals
      become small letters, every other character is kept. */
  function LowerChar(c: char): char {
    if 'A' <= c <= 'Z' then (c as int + 32) as char else c
  }

  function ToLower(s: string): (r: string)
    ensures |r| == |s| && forall i :: 0 <= i < |s| ==> r[i] == LowerChar(s[i])
  {
    seq(|s|, i requires 0 <= i < |s| => LowerChar(s[i]))
  }

  /** `part` occurs in `s` starting at index `i`. */
  predicate OccursAt(s: string, part: string, i: int) {
    0 <= i <= |s| - |part| && s[i..i + |part|] == part
  }

  /** `s.includes(part)` */
  predicate Contains(s: string, part: string) {
    exists i :: 0 <= i <= |s| - |part| && OccursAt(s, part, i)
  }

  /** `isMinorTonality`: a present name whose lower-case form contains
      "minor" or "m ". */
  predicate IsMinorTonality(tonality: Option<string>) {
    && !IsAbsent(tonality)
    && (Contains(ToLower(tonality.value), "minor") || Contains(ToLower(tonality.value), "m "))
  }

  /** A letter A-G, optionally '#' or 'b', then a space and `word`. */
  predicate IsKeyName(s: string, word: string) {
    && |word| == 5
    && (|s| == 7 || (|s| == 8 && (s[1] == '#' || s[1] == 'b')))
    && ChordGrammar.IsRootLetter(s[0])
    && s[|s| - 6] == ' '
    && s[|s| - 5] == word[0] && s[|s| - 4] == word[1] && s[|s| - 3] == word[2]
    && s[|s| - 2] == word[3] && s[|s| - 1] == word[4]
  }

  /** `"<note> Major"`, the form of every palette key. */
  predicate IsMajorName(s: string) {
    IsKeyName(s, "Major")
  }

  /** `"<note> Minor"`, as the minor names of `COMMON_TONALITIES` are spelled. */
  predicate IsMinorName(s: string) {
    IsKeyName(s, "Minor")
  }

  lemma MajorNameIsNotMinor(s: string)
    requires IsMajorName(s)
    ensures !IsMinorTonality(Some(s))
  {
    var l := ToLower(s);
    var n := |s|;
    // The only 'm' of the lower-case name is the one of "major", and an 'a'
    // follows it.
    forall i | 0 <= i < n - 1 && l[i] == 'm' ensures l[i + 1] == 'a' {
      assert i == n - 5;
    }
    forall i ensures !OccursAt(l, "minor", i) {
      if 0 <= i <= n - 5 {
        assert l[i..i + 5][0] == l[i] && l[i..i + 5][1] == l[i + 1];
      }
    }
    forall i ensures !OccursAt(l, "m ", i) {
      if 0 <= i <= n - 2 {
        assert l[i..i + 2][0] == l[i] && l[i..i + 2][1] == l[i + 1];
      }
    }
  }

  lemma MinorNameIsMinor(s: string)
    requires IsMinorName(s)
    ensures IsMinorTonality(Some(s))
  {
    var l := ToLower(s);
    var n := |s|;
    assert l[n - 5..n] == "minor" by {
      forall k | 0 <= k < 5 ensures l[n - 5..n][k] == "minor"[k] {
        assert l[n - 5 + k] == LowerChar(s[n - 5 + k]);
      }
    }
    assert OccursAt(l, "minor", n - 5);
  }

  /** Every palette key is a major-key name. */
  lemma PaletteKeysAreMajorNames(theme: Theme)
    ensures forall k :: k in Palette(theme) ==> IsMajorName(k)
  {
    assert forall i :: 0 <= i < |TONALITY_KEYS| ==> IsMajorName(TONALITY_KEYS[i]);
    PalettesShareKeys();
  }

  /** No minor tonality has a colour of its own: each resolves to the
      fallback. */
  lemma MinorTonalitiesFallBack(tonality: string, variant: Variant, theme: Theme)
    requires IsMinorTonality(Some(tonality))
    ensures tonality !in Palette(theme)
    ensures GetTonalityColor(Some(tonality), variant, theme) == Fallback(theme)
  {
    PaletteKeysAreMajorNames(theme);
    if tonality in Palette(theme) {
      MajorNameIsNotMinor(tonality);
    }
  }

  /** Each of the selector's common tonalities is either a palette key
      (the majors) or a minor name, never both. */
  lemma CommonTonalitiesResolve(theme: Theme, i: nat)
    requires i < |ChordGrammar.COMMON_TONALITIES|
    ensures var t := ChordGrammar.COMMON_TONALITIES[i];
            t in GetAllTonalities(theme) <==> !IsMinorTonality(Some(t))
  {
    var t := ChordGrammar.COMMON_TONALITIES[i];
    CommonTonalitiesSpelling();
    if i < 12 {
      PaletteKeysAreMajorNames(theme);
      MajorNameIsNotMinor(t);
    } else {
      MinorNameIsMinor(t);
      MinorTonalitiesFallBack(t, Stroke, theme);
    }
  }

  /** The first twelve common tonalities are palette keys, the other twelve
      minor names. */
  lemma CommonTonalitiesSpelling()
    ensures |ChordGrammar.COMMON_TONALITIES| == 24
    ensures forall i :: 0 <= i < 12 ==> ChordGrammar.COMMON_TONALITIES[i] in TONALITY_KEYS
    ensures forall i :: 12 <= i < 24 ==> IsMinorName(ChordGrammar.COMMON_TONALITIES[i])
  {
  }

  // ---------------------------------------------------------------------------
  // Style records

  datatype BorderStyle = Solid | Dashed

  /** The options of `getTonalityStyles` that change its result when
      `alpha` is 1; an absent option takes its default. */
  datatype StyleOptions = StyleOptions(variant: Option<Variant>, includeBorder: Option<bool>, borderStyle: Option<BorderStyle>)

  /** The CSS properties `getTonalityStyles` may set; `None` is a property
      left unset. */
  datatype Styles = Styles(
    backgroundColor: Option<string>,
    color: Option<string>,
    borderColor: Option<string>,
    borderStyle: Option<BorderStyle>,
    borderWidth: Option<string>)

  const NO_STYLES: Styles := Styles(None, None, None, None, None)

  /** `getTonalityStyles` with `alpha` at its default 1. An absent tonality
      gets no styles. Otherwise the fill variant sets the background and the
      label variant the text colour to that variant's colour (the stroke
      variant sets neither), and with `includeBorder` the border takes the
      stroke colour, a width of 2px and, unless a style is given, a dashed
      line exactly for minor tonalities. */
  function GetTonalityStyles(tonality: Option<string>, theme: Theme, options: StyleOptions): (styles: Styles)
    ensures IsAbsent(tonality) ==> styles == NO_STYLES
    ensures !IsAbsent(tonality) ==>
              && styles.backgroundColor == (if options.variant == Some(Fill) then Some(GetTonalityColor(tonality, Fill, theme)) else None)
              && styles.color == (if options.variant == Some(Label) then Some(GetTonalityColor(tonality, Label, theme)) else None)
    ensures !IsAbsent(tonality) && options.includeBorder == Some(true) ==>
              && styles.borderColor == Some(GetTonalityColor(tonality, Stroke, theme))
              && styles.borderWidth == Some("2px")
              && styles.borderStyle.Some?
              && (options.borderStyle.Some? ==> styles.borderStyle == options.borderStyle)
              && (options.borderStyle.None? ==> (styles.borderStyle == Some(Dashed) <==> IsMinorTonality(tonality)))
    ensures options.includeBorder != Some(true) ==>
              styles.borderColor == None && styles.borderStyle == None && styles.borderWidth == None
  {
    var variant := options.variant.GetOr(Stroke);
    var includeBorder := options.includeBorder.GetOr(false);
    var borderStyle := options.borderStyle.GetOr(if IsMinorTonality(tonality) then Dashed else Solid);
    if IsAbsent(tonality) then NO_STYLES
    else
      var color := GetTonalityColor(tonality, variant, theme);
      var strokeColor := GetTonalityColor(tonality, Stroke, theme);
      var styles := NO_STYLES;
      var styles :=
        if variant == Fill then styles.(backgroundColor := Some(color))
        else if variant == Label then styles.(color := Some(color))
        else styles;
      if includeBorder then
        styles.(borderColor := Some(strokeColor), borderStyle := Some(borderStyle), borderWidth := Some("2px"))
      else styles
  }

  /** A tonality with a colour of its own gets a solid border by default,
      drawn in its palette entry's stroke colour. */
  lemma PaletteTonalityBorderIsSolid(tonality: string, theme: Theme, variant: Option<Variant>)
    requires tonality in Palette(theme)
    ensures var styles := GetTonalityStyles(Some(tonality), theme, StyleOptions(variant, Some(true), None));
            styles.borderStyle == Some(Solid) && styles.borderColor == Some(Palette(theme)[tonality].stroke)
  {
    PaletteKeysAreMajorNames(theme);
    MajorNameIsNotMinor(tonality);
  }

  const STROKE_VAR: string := "--tonality-stroke"
  const FILL_VAR: string := "--tonality-fill"
  const LABEL_VAR: string := "--tonality-label"

  /** `getTonalityTailwindVars`: nothing for an absent or unknown tonality,
      otherwise exactly the three custom properties holding the entry's
      stroke, fill and label colours. */
  function GetTonalityTailwindVars(tonality: Option<string>, theme: Theme): (vars: map<string, string>)
    ensures IsAbsent(tonality) || tonality.value !in Palette(theme) ==> vars == map[]
    ensures !IsAbsent(tonality) && tonality.value in Palette(theme) ==>
              && vars.Keys == {STROKE_VAR, FILL_VAR, LABEL_VAR}
              && vars[STROKE_VAR] == GetTonalityColor(tonality, Stroke, theme)
              && vars[FILL_VAR] == GetTonalityColor(tonality, Fill, theme)
              && vars[LABEL_VAR] == GetTonalityColor(tonality, Label, theme)
  {
    if IsAbsent(tonality) then map[]
    else
      var palette := Palette(theme);
      if tonality.value !in palette then map[]
      else
        var colors := palette[tonality.value];
        map[STROKE_VAR := colors.stroke, FILL_VAR := colors.fill, LABEL_VAR := colors.labelColor]
  }

  /** No palette entry uses the fallback colour, so the variables are empty
      exactly when the stroke colour is the fallback. */
  lemma TailwindVarsEmptyIffFallback(tonality: Option<string>, theme: Theme)
    ensures GetTonalityTailwindVars(tonality, theme) == map[] <==>
            GetTonalityColor(tonality, Stroke, theme) == Fallback(theme)
  {
    assert forall k :: k in Palette(theme) ==> Palette(theme)[k].stroke != Fallback(theme);
    if !IsAbsent(tonality) && tonality.value in Palette(theme) {
      assert STROKE_VAR in GetTonalityTailwindVars(tonality, theme);
    }
  }
}
