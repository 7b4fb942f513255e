// Per-image extraction: the orchestration in extraction/__init__.py that runs
// the colour, layout and text extractors on one decoded asset and records
// review notes about what they did not find.

module Extraction {
  import opened Collections
  import opened AsciiStrings
  import opened Pipeline
  import opened Text
  import opened Colors
  import opened Layout

  const NoColorsNote := "No dominant colors detected; image may be transparent or monochrome."
  const NoSamplesNote := "OCR text present but typography heuristics produced no samples."
  const NoCopyNote := "No copy detected automatically; review manually for critical messaging."

  /** The three notes in the order `extract_from_path` may append them. */
  const NoteOrder: seq<string> := [NoColorsNote, NoSamplesNote, NoCopyNote]

  /** `extract_colors(img)` uses its default `max_colors`. */
  const DefaultMaxColors: nat := 5

  /** What the extractors see of one opened image: the adaptive quantiser's
      flat palette and the palette index of every pixel (colours), the blurred
      grayscale rows scaled to [0, 1] (layout), and the OCR engine's text, or
      `None` when no OCR engine is installed (text). */
  datatype Decoded = Decoded(
    palette: seq<byte>,
    pixels: seq<nat>,
    gray: seq<seq<real>>,
    width: nat,
    ocr: Option<string>)

  /** A decoded image has at least one pixel and rectangular rows. */
  predicate Decodable(img: Decoded) {
    Rectangular(img.gray, img.width) && |img.gray| > 0 && img.width > 0
  }

  /** The notes list, one conditional append after another. */
  function NotesSpec(colors: seq<ColorSwatch>, typography: seq<TypographySample>, textLines: seq<string>): seq<string> {
    (if colors == [] then [NoColorsNote] else [])
    + (if typography == [] && textLines != [] then [NoSamplesNote] else [])
    + (if textLines == [] then [NoCopyNote] else [])
  }

  /** The record `extract_from_path` returns for the asset at `source`. */
  function ExtractionSpec(source: string, img: Decoded): ImageExtraction
    requires Decodable(img)
  {
    var colors := SwatchesSpec(img.palette, img.pixels, DefaultMaxColors);
    var textLines := ExtractTextLines(img.ocr, DefaultMinLength);
    var typography := SamplesSpec(textLines);
    ImageExtraction(source, colors, typography, Some(SummarySpec(img.gray, img.width)),
                    textLines, NotesSpec(colors, typography, textLines))
  }

  /** `extract_from_path`. */
  method ExtractFromPath(source: string, img: Decoded) returns (e: ImageExtraction)
    requires Decodable(img)
    ensures e == ExtractionSpec(source, img)
  {
    var colors := ExtractColors(img.palette, img.pixels, DefaultMaxColors);
    var layout := SummarizeLayout(img.gray, img.width);
    var textLines := ExtractTextLines(img.ocr, DefaultMinLength);
    var typography := BuildTypographySamples(textLines);

    var notes: seq<string> := [];
    if colors == [] {
      notes := notes + [NoColorsNote];
    }
    ghost var afterColors := notes;
    assert afterColors == if colors == [] then [NoColorsNote] else [];
    if typography == [] && textLines != [] {
      notes := notes + [NoSamplesNote];
    }
    ghost var afterSamples := notes;
    assert afterSamples == afterColors + if typography == [] && textLines != [] then [NoSamplesNote] else [];
    if textLines == [] {
      notes := notes + [NoCopyNote];
    }
    assert notes == afterSamples + if textLines == [] then [NoCopyNote] else [];
    e := ImageExtraction(source, colors, typography, Some(layout), textLines, notes);
  }

  lemma NoteOrderDistinct()
    ensures NoDup(NoteOrder)
  {
    assert |NoColorsNote| == 68 && |NoSamplesNote| == 63 && |NoCopyNote| == 71;
  }

  /** The notes are exactly the entries of `NoteOrder` whose condition holds,
      kept in that order. */
  lemma NotesAreSelected(colors: seq<ColorSwatch>, typography: seq<TypographySample>, textLines: seq<string>)
    ensures NotesSpec(colors, typography, textLines) ==
            Selected([colors == [], typography == [] && textLines != [], textLines == []], NoteOrder, 3)
  {
    var flags := [colors == [], typography == [] && textLines != [], textLines == []];
    assert Selected(flags, NoteOrder, 1) == if colors == [] then [NoColorsNote] else [];
    assert Selected(flags, NoteOrder, 2) == Selected(flags, NoteOrder, 1) + if flags[1] then [NoSamplesNote] else [];
  }

  /** Each note is present exactly when its condition holds; no note repeats,
      and they keep the fixed order. */
  lemma NotesShape(colors: seq<ColorSwatch>, typography: seq<TypographySample>, textLines: seq<string>)
    ensures var notes := NotesSpec(colors, typography, textLines);
      && |notes| <= 3
      && NoDup(notes)
      && (NoColorsNote in notes <==> colors == [])
      && (NoSamplesNote in notes <==> typography == [] && textLines != [])
      && (NoCopyNote in notes <==> textLines == [])
      && (forall i, j :: 0 <= i < j < |notes| ==> FirstIndex(NoteOrder, notes[i]) < FirstIndex(NoteOrder, notes[j]))
  {
    var flags := [colors == [], typography == [] && textLines != [], textLines == []];
    var notes := NotesSpec(colors, typography, textLines);
    NotesAreSelected(colors, typography, textLines);
    NoteOrderDistinct();
    SelectedNames(flags, NoteOrder);
    SelectedProps(flags, NoteOrder, 3);
    var ix := SelectedIndices(flags, 3);
    forall i, j | 0 <= i < j < |notes|
      ensures FirstIndex(NoteOrder, notes[i]) < FirstIndex(NoteOrder, notes[j])
    {
      IndexOfDistinct(NoteOrder, ix[i]);
      IndexOfDistinct(NoteOrder, ix[j]);
    }
    assert NoColorsNote == NoteOrder[0] && NoSamplesNote == NoteOrder[1] && NoCopyNote == NoteOrder[2];
  }

  /** In a duplicate-free list, an entry is first found at its own index. */
  lemma IndexOfDistinct<T>(s: seq<T>, i: nat)
    requires NoDup(s) && i < |s|
    ensures FirstIndex(s, s[i]) == i
  {
  }

  /** A stripped line of three or more characters is not blank. */
  lemma KeptLineNotBlank(line: string)
    requires IsStripped(line) && |line| >= DefaultMinLength
    ensures !AllSpace(line)
  {
    assert !IsSpace(line[0]);
  }

  /** Every line OCR keeps yields a typography sample, so the note about OCR
      text without samples never appears. */
  lemma SamplesNoteNeverFires(source: string, img: Decoded)
    requires Decodable(img)
    ensures var e := ExtractionSpec(source, img);
      && (e.typography == [] <==> e.detectedCopy == [])
      && NoSamplesNote !in e.notes
  {
    var lines := ExtractTextLines(img.ocr, DefaultMinLength);
    SamplesDistinct(lines);
    if lines != [] {
      KeptLineNotBlank(lines[0]);
    }
    var e := ExtractionSpec(source, img);
    NotesShape(e.colors, e.typography, e.detectedCopy);
  }

  /** What every extraction record carries: its source, a layout summary, the
      kept OCR lines as detected copy, one sample per distinct line, and at
      least one colour for an image with pixels whose palette indices have a
      colour in the palette list. */
  lemma ExtractionShape(source: string, img: Decoded)
    requires Decodable(img)
    ensures var e := ExtractionSpec(source, img);
      && e.source == source
      && e.layout.Some?
      && 0.0 <= e.layout.value.whitespaceRatio <= 1.0
      && (forall k :: 0 <= k < |e.detectedCopy| ==> IsStripped(e.detectedCopy[k]) && |e.detectedCopy[k]| >= DefaultMinLength)
      && DistinctUnder(e.typography, (s: TypographySample) => Lower(s.text))
      && |e.typography| <= |e.detectedCopy|
      && (img.pixels != [] &&
          (forall i :: 0 <= i < |img.pixels| ==> img.pixels[i] * 3 + 2 < Min(DefaultMaxColors * 3, |img.palette|))
          ==> e.colors != [])
  {
    var e := ExtractionSpec(source, img);
    SummaryShape(img.gray, img.width);
    SamplesDistinct(e.detectedCopy);
    if img.pixels != [] && forall i :: 0 <= i < |img.pixels| ==> img.pixels[i] * 3 + 2 < Min(DefaultMaxColors * 3, |img.palette|) {
      SwatchesNonEmpty(img.palette, img.pixels, DefaultMaxColors);
    }
  }

  /** At most two notes on an extraction record: the colour note exactly when
      no colour was found, the copy note exactly when no line was kept, which
      is always the case without OCR. */
  lemma ExtractionNotes(source: string, img: Decoded)
    requires Decodable(img)
    ensures var e := ExtractionSpec(source, img);
      && |e.notes| <= 2
      && (NoColorsNote in e.notes <==> e.colors == [])
      && (NoCopyNote in e.notes <==> e.detectedCopy == [])
      && (img.ocr.None? ==> NoCopyNote in e.notes)
  {
    var e := ExtractionSpec(source, img);
    SamplesNoteNeverFires(source, img);
    NotesShape(e.colors, e.typography, e.detectedCopy);
  }
}
