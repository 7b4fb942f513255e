# Brand guideline extraction — a verified model of the evidence and synthesis core

This project models, in Dafny, the deterministic part of the brand-guidelines
extractor: the logic between decoding an image and writing a document.

- **Per-image extraction** (`design_data_analyzer/extraction/`): the colour
  extractor turns the quantiser's palette and per-pixel indices into swatches
  ranked by pixel count, labelled with the nearest of 17 named anchors and a
  four-tier usage hint. The layout analyser computes the aspect ratio,
  orientation, whitespace share and the focal cells of a 3 × 3 grid. The text
  heuristic cleans OCR lines and classifies them into casing, weight and
  classification samples. The orchestration adds up to three review notes.
- **Evidence aggregation** (`consolidate`, `design_data_analyzer/pipeline.py`):
  palette merged by upper-cased hex (highest prominence wins, ties keep the
  first), stably sorted by prominence; typography merged by
  `classification:weight:casing` (first wins); orientations, copy and notes
  concatenated in image order, with a dense-composition note for every image
  whose whitespace ratio is below 0.25. The `*_to_dict` copies are JSON
  encoders with proved decoders.
- **Guideline synthesis** (`design_data_analyzer/guidelines.py`): the two
  document builders with their fixed section order, every section's rule
  table (brightness tone buckets, uppercase ratio, most common orientation,
  focal hotspots, whitespace radius tiers), the synthetic swatches of a
  palette specification, and `render_markdown`.
- **Vision-result aggregation** (`aggregate_guidelines` and
  `_finalize_compiled` in `design_data_analyzer/analyzer.py` and
  `design_data_analyzer/openai_integration.py`): per-image records folded into
  sets and keyed tables, then sorted. The shared fold is generic in the
  typography key. analyzer.py supplies a pair key. openai_integration.py
  supplies the string `family::style`, and the model proves that this string
  key merges typefaces that the pair key keeps apart.
- **I/O helpers** (`brand_guidelines_extractor/io_utils.py`): the dotenv line
  parser and loader, the ordered de-duplicated image path collection, and the
  data-URL prefix.

Modules follow the source files: `Pipeline`, `PipelineJson`, `Text`, `Colors`,
`Layout`, `Extraction`, `GuidelineRules`, `Guidelines`, `DesignSpec`,
`Compilation`, `CompiledProps`, `Analyzer`, `OpenAiIntegration`, `IoUtils`.
Shared helpers live in `Collections` (options, ordered maps, `Dedup`,
`FlatMap`), `AsciiStrings` (ASCII `strip`, `split`, `upper`, `lower`),
`Sorting` (the stable sorts Python's `sorted` performs) and `Paths`
(`Path.name`, `Path.suffix`).

Where the source loops and mutates (`consolidate`, `build_typography_samples`,
the swatch loop, `_resolve_focal_regions`, `_uppercase_ratio`,
`_swatches_from_palette_spec`, `_production_notes_section`, `render_markdown`,
the set merges and table updates of `aggregate_guidelines`, `add_path`,
`load_env_file`), the model is a method with a loop whose `ensures` equates
its result with a specification function. The properties are proved as
lemmas about that function. `os.environ` is the class `IoUtils.Environ`,
updated in place by `setdefault`.

Modelling decisions that follow the code:

- `design_data_analyzer/extraction/layout.py:1` opens with a stray `d"""`, so
  that module does not import as written. The model follows the evident intent
  of the rest of the file.
- `tests/test_pipeline.py:10` imports `aggregate`, which `analyzer.py` does
  not define. The test feeds `ImageExtraction` records, so it means
  `consolidate`. Its assertion at line 31, that the extracted image has
  colours, is `Extraction.ExtractionShape` (through
  `Colors.SwatchesNonEmpty`) for an image with pixels whose palette indices
  have a colour in the palette list, as the adaptive quantiser's are. Its
  assertions at lines 37-39 are stated about `consolidate`,
  `build_document` and `render_markdown` (`Guidelines.MarkdownMentionsCore`).
- `extract_text_lines` filters lines by length but does not remove duplicate
  lines. Only the typography samples are de-duplicated, case-insensitively.
- `build_document` adds no Production References section when there are no
  production notes. The "- No outstanding notes." placeholder only appears
  when `_production_notes_section` itself is called with nothing to report.
- `_relative_brightness` calls `int(x, 16)` on two-character slices of the
  dominant hex, which raises `ValueError` on a malformed hex. Both builders
  therefore return an `Option`: `None` exactly when that parse fails
  (`Guidelines.BuildDocumentFails`).
- The swatch list is ranked by pixel count (`most_common`), and prominence is
  count divided by total. Prominence order follows from that.
- The markdown wording is a `Wording` record: `Guidelines.SourceWording` holds
  the text of `guidelines.py`, and every lemma holds for any wording. The
  lemmas state which lines appear and in what order, not the prose.

## Model

| member | source | states |
|---|---|---|
| `Pipeline.Consolidate` | design_data_analyzer/pipeline.py:65-106 | The loop over the images computes `ConsolidateSpec`: the hex table folded over all swatches, stably sorted by prominence; the typography table folded over all samples; orientations, copy and production notes concatenated per image. |
| `Pipeline.MergeColors` | design_data_analyzer/pipeline.py:77-82 | One image's swatches: a swatch replaces the stored one only when the key is new or the stored prominence is strictly lower. |
| `Pipeline.MergeSamples` | design_data_analyzer/pipeline.py:83-86 | One image's samples: a sample is stored only under a key not yet present. |
| `Pipeline.KeepColor` | design_data_analyzer/pipeline.py:77-82 | One colour of the loop: the table is the one `OfferColor` gives, the swatch stored unless the stored one for its upper-cased hex has at least its prominence. |
| `Pipeline.OfferColorInv` | design_data_analyzer/pipeline.py:77-82 | Offering one swatch keeps the keys as the deduplicated hexes in first-appearance order and every stored swatch the kept one for its hex. |
| `Pipeline.OfferSampleInv` | design_data_analyzer/pipeline.py:83-86 | Offering one sample keeps the keys as the deduplicated sample keys and every stored sample the first with its key. |
| `Pipeline.ConsolidateTwice` | design_data_analyzer/pipeline.py:65-106 | Running `consolidate` twice on the same input gives equal evidence, whose `images` is the input. |
| `Pipeline.PaletteEntries` | design_data_analyzer/pipeline.py:77-82 | Palette entries are unique by upper-cased hex; every hex seen has an entry; each entry has the maximum prominence for its hex and is the earliest swatch reaching it. |
| `Pipeline.PaletteOrder` | design_data_analyzer/pipeline.py:82-97 | The palette is sorted by prominence, descending, and is a permutation of the table values; equal prominences keep table order; the table's keys are the hexes in order of first appearance, so a later replacement does not move its key. |
| `Pipeline.TableValuesProps` | design_data_analyzer/pipeline.py:77-82 | The hex table's values have distinct hexes, listed in first-appearance order, each the swatch kept for its hex. |
| `Pipeline.TypographyEntries` | design_data_analyzer/pipeline.py:83-86 | Typography entries have distinct keys in first-appearance order, and each is the first sample in image order with its key. |
| `Pipeline.SampleValuesProps` | design_data_analyzer/pipeline.py:83-86 | For any sample list, the table's values have distinct keys in first-appearance order, each the first sample with its key. |
| `Pipeline.TypographyUniqueByTriple` | design_data_analyzer/pipeline.py:83-86 | Typography entries are unique by (classification, weight, casing). |
| `Pipeline.TypoKeyInjective` | design_data_analyzer/pipeline.py:84 | When classification and weight hold no colon, equal string keys mean equal triples. |
| `Pipeline.TypoKeyCollision` | design_data_analyzer/pipeline.py:84-86 | With a colon inside a field, two different triples share a key and only the first sample is kept. |
| `Pipeline.ConsolidateAppend` | design_data_analyzer/pipeline.py:87-95 | For concatenated inputs, layout patterns, copy and production notes are the concatenations. |
| `Pipeline.ConsolidateSingle` | design_data_analyzer/pipeline.py:87-95 | One image contributes its orientation iff it has a layout, its copy, and the dense note naming its file iff its whitespace ratio is below 0.25, placed before its own notes. |
| `Pipeline.DenseThreshold` | design_data_analyzer/pipeline.py:89-93 | Whitespace 0.24 adds the dense note; 0.25 does not. |
| `Pipeline.DenseNoteFor` | design_data_analyzer/pipeline.py:87-93 | A single note-free image gets the dense note exactly when its whitespace ratio is below 0.25. |
| `Pipeline.ConsolidateShape` | design_data_analyzer/pipeline.py:65-106 | `images` is the input and `tone_descriptors` is empty; an empty input gives empty lists; palette and typography are no longer than their inputs. |
| `Pipeline.PaletteOfPair` | design_data_analyzer/pipeline.py:79-82 | Of two swatches with one hex, the second replaces the first only when strictly more prominent. |
| `Pipeline.PaletteOrderIndependent` | design_data_analyzer/pipeline.py:79-82 | Of two swatches with one hex and different prominence, the more prominent is kept in either order. |
| `PipelineJson.ColorRoundTrip` | design_data_analyzer/pipeline.py:111-117 | `color_to_dict` lists hex, name, prominence, usage_hint, and decoding it gives the swatch back. |
| `PipelineJson.TypographyRoundTrip` | design_data_analyzer/pipeline.py:120-126 | `typography_to_dict` lists text, casing, weight, classification, and decoding it gives the sample back. |
| `PipelineJson.LayoutRoundTrip` | design_data_analyzer/pipeline.py:129-137 | `layout_to_dict` is null exactly for no layout, and decoding gives the layout back. |
| `PipelineJson.ImageRoundTrip` | design_data_analyzer/pipeline.py:140-148 | Decoding `image_to_dict` gives the extraction back. |
| `PipelineJson.AggregatedRecordFields` | design_data_analyzer/pipeline.py:151-155 | The images, palette and typography arrays of `aggregated_to_dict` decode to the record's lists. |
| `PipelineJson.AggregatedStringFields` | design_data_analyzer/pipeline.py:156-159 | The four string-list fields of `aggregated_to_dict` are copied unchanged. |
| `PipelineJson.AggregatedRoundTrip` | design_data_analyzer/pipeline.py:151-160 | Decoding `aggregated_to_dict` gives the evidence back. |
| `PipelineJson.ArrayRoundTrip` | design_data_analyzer/pipeline.py:143-144 | A list comprehension of an encoder with a decoder decodes back to the list. |
| `Text.ExtractTextLines` | design_data_analyzer/extraction/text.py:17-27 | Without OCR the result is empty; every returned line is stripped and at least `min_length` long. |
| `Text.ExtractTextLinesMembers` | design_data_analyzer/extraction/text.py:26-27 | A line is returned iff it is the strip of some recognised line and long enough; no returned line holds a line break. |
| `Text.KeepLines` | design_data_analyzer/extraction/text.py:26-27 | The filtered lines are stripped, at least `min_length` long, and no more than the input lines. |
| `Text.SplitJoinLines` | design_data_analyzer/extraction/text.py:26 | `splitlines` undoes joining lines that hold no line break. |
| `Text.BuildTypographySamples` | design_data_analyzer/extraction/text.py:30-48 | The loop with its `seen` set computes `SamplesSpec`: one sample per new lower-cased normalised line. |
| `Text.AddSampleLine` | design_data_analyzer/extraction/text.py:36-47 | One line of the loop: a line whose lower-cased normalised form is new adds its sample and its key to `seen`; any other line changes neither. |
| `Text.SamplesKeys` | design_data_analyzer/extraction/text.py:36-39 | The lower-cased sample texts are the distinct lower-cased normalised lines in first-seen order. |
| `Text.SamplesForm` | design_data_analyzer/extraction/text.py:36-46 | Every sample text is whitespace-normalised and non-empty, and its casing, weight and classification are the rules applied to it. |
| `Text.SamplesFirstSpelling` | design_data_analyzer/extraction/text.py:37-39 | Each sample keeps the spelling of the first line with that lower-cased text. |
| `Text.SamplesDistinct` | design_data_analyzer/extraction/text.py:33-47 | Sample texts are distinct case-insensitively; there are at most as many samples as lines; there are none iff every line is blank. |
| `Text.LineKeysEmpty` | design_data_analyzer/extraction/text.py:36-39 | The seen set stays empty iff every line is blank. |
| `Text.InferCasing` | design_data_analyzer/extraction/text.py:51-61 | No letters gives mixed; all letters upper gives uppercase; all lower gives lowercase; otherwise title iff the first letter is upper, else mixed. |
| `Text.InferWeight` | design_data_analyzer/extraction/text.py:64-69 | Bold iff length ≤ 12 and `isupper`; otherwise regular iff at least 8 words, else medium. |
| `Text.InferClassification` | design_data_analyzer/extraction/text.py:72-78 | Display iff at most 4 words and `isupper`; otherwise headline iff at most 8 words; body iff more than 8 words. |
| `Text.BoldOrDisplayIsUppercase` | design_data_analyzer/extraction/text.py:55-56 | Weight bold or classification display implies casing uppercase. |
| `Text.BodyIsRegular` | design_data_analyzer/extraction/text.py:64-78 | Classification body implies weight regular. |
| `Text.LettersAll` | design_data_analyzer/extraction/text.py:52-57 | The letters list is empty iff the text has no letter, and it is all upper (all lower) iff every letter of the text is. |
| `Text.LettersMembers` | design_data_analyzer/extraction/text.py:52 | The letters list holds alphabetic characters of the text only, and every alphabetic character of the text. |
| `Text.LettersFirst` | design_data_analyzer/extraction/text.py:52 | The first of the letters is the text's first alphabetic character, with no letter before its position. |
| `Colors.ClosestIndexIsFirstMinimum` | design_data_analyzer/extraction/colors.py:72-79 | The chosen table index minimises the squared distance, and every earlier index is strictly farther. |
| `Colors.ClosestNamedColorIsNearest` | design_data_analyzer/extraction/colors.py:72-79 | The label is the name of a `NAMED_COLORS` entry at minimal distance, the first such entry. |
| `Colors.SqDist` | design_data_analyzer/extraction/colors.py:75-76 | The squared distance is zero iff the colours are equal. |
| `Colors.AnchorsDistinct` | design_data_analyzer/extraction/colors.py:14-32 | The 17 anchor colours are pairwise distinct. |
| `Colors.AnchorOwnName` | design_data_analyzer/extraction/colors.py:14-32 | Each anchor's own RGB is labelled with its own name, e.g. (0,161,222) is "Bynder Blue". |
| `Colors.UsageHint` | design_data_analyzer/extraction/colors.py:82-89 | Dominant iff ≥ 0.45, primary supporting iff in [0.25, 0.45), accent iff in [0.10, 0.25), detail accent iff < 0.10. |
| `Colors.UsageHintMonotone` | design_data_analyzer/extraction/colors.py:82-89 | A higher prominence never gets a lower tier. |
| `Colors.HexCodeShape` | design_data_analyzer/extraction/colors.py:59 | The hex code is `#` followed by six upper-case hex digits, two per channel. |
| `Colors.HexByteRoundTrip` | design_data_analyzer/extraction/colors.py:59 | The two digits of a channel read back as the channel value. |
| `Colors.HexCodeInjective` | design_data_analyzer/extraction/colors.py:59 | Different colours get different hex codes. |
| `Colors.Counts` | design_data_analyzer/extraction/colors.py:48 | The counter holds exactly the palette indices that occur, each with a positive count. |
| `Colors.MostCommon` | design_data_analyzer/extraction/colors.py:53 | `most_common(n)` has min(n, number of indices) items. |
| `Colors.MostCommonProps` | design_data_analyzer/extraction/colors.py:53 | `most_common(n)` is sorted by count, descending, takes its items from the counter (no item more often than it occurs), and no item left out counts more than any item taken. |
| `Colors.MostCommonOutranks` | design_data_analyzer/extraction/colors.py:53 | A pair left out of `most_common(n)` counts no more than any pair it picks. |
| `Colors.MostCommonSum` | design_data_analyzer/extraction/colors.py:51-53 | The counts taken sum to at most the total. |
| `Colors.Total` | design_data_analyzer/extraction/colors.py:51 | The total is positive (`or 1`). |
| `Colors.ShareIsRatio` | design_data_analyzer/extraction/colors.py:58 | The prominence is count divided by total. |
| `Colors.ShareBounds` | design_data_analyzer/extraction/colors.py:58 | A prominence is non-negative, positive for a positive count and at most 1 for a count within the total. |
| `Colors.ExtractColors` | design_data_analyzer/extraction/colors.py:47-69 | The swatch loop computes `SwatchesSpec` from the palette list and the per-pixel indices. |
| `Colors.BuildSwatches` | design_data_analyzer/extraction/colors.py:53-67 | The loop appends one swatch per counted index whose RGB lies inside the palette list, in order. |
| `Colors.AppendSwatch` | design_data_analyzer/extraction/colors.py:54-67 | One counted index: a swatch for it is appended when its RGB triple lies inside the palette list, nothing otherwise. |
| `Colors.SwatchFor` | design_data_analyzer/extraction/colors.py:54-66 | An index whose triple lies beyond the palette list gives no swatch and no error; otherwise one swatch with prominence count/total and the matching usage hint. |
| `Colors.SwatchesSorted` | design_data_analyzer/extraction/colors.py:53-67 | Counts in descending order give swatches in descending prominence. |
| `Colors.SwatchesSum` | design_data_analyzer/extraction/colors.py:53-67 | The swatches' prominences sum to at most the share of the counts taken. |
| `Colors.SwatchesInRange` | design_data_analyzer/extraction/colors.py:58-65 | Every prominence lies in (0, 1] and every usage hint is the hint of its prominence. |
| `Colors.SwatchesBounds` | design_data_analyzer/extraction/colors.py:50-69 | At most `max_colors` swatches, sorted by prominence descending, each in (0, 1] with its own hint, summing to at most 1; no pixels give no swatches; and no palette index left out of the ranking has a larger pixel share than any returned swatch's prominence. |
| `Colors.SwatchesNonEmpty` | design_data_analyzer/extraction/colors.py:47-69 | Pixels whose palette indices all have a full triple in the truncated palette list give at least one swatch. |
| `Colors.SwatchesAllFit` | design_data_analyzer/extraction/colors.py:57-69 | When every ranked index has a full triple in the palette list, none is skipped: one swatch per ranked pair. |
| `Colors.SwatchesRanked` | design_data_analyzer/extraction/colors.py:53-67 | The swatches are the most prominent: an index `most_common` leaves out would have a share no larger than any returned swatch's prominence. |
| `Colors.SwatchRanked` | design_data_analyzer/extraction/colors.py:61-67 | A swatch's prominence is at least the share of any count not above its own. |
| `Layout.Orientation` | design_data_analyzer/extraction/layout.py:48-53 | Landscape iff ratio > 1.15, portrait iff ratio < 0.85, square iff in [0.85, 1.15]. |
| `Layout.AspectRatio` | design_data_analyzer/extraction/layout.py:33 | width/height, or 1.0 when the height is 0. |
| `Layout.OrientationOfShape` | design_data_analyzer/extraction/layout.py:33-34 | The orientation of a width × height image in integers: landscape iff 20·w > 23·h, portrait iff 20·w < 17·h. |
| `Layout.SquareShapes` | design_data_analyzer/extraction/layout.py:33-34 | A square image, or one of height 0, is square. |
| `Layout.AspectRatioMonotone` | design_data_analyzer/extraction/layout.py:33 | A wider image of the same height has a larger ratio. |
| `Layout.WhitespaceRatioBounds` | design_data_analyzer/extraction/layout.py:36 | The share of entries ≥ 0.9 lies in [0, 1]; it is 0 iff none and 1 iff all are near-white. |
| `Layout.WhiteCountBound` | design_data_analyzer/extraction/layout.py:36 | The near-white count is at most the number of entries. |
| `Layout.SizeOfRectangle` | design_data_analyzer/extraction/layout.py:32 | A rectangular array holds height × width entries. |
| `Layout.GridRegionsDistinct` | design_data_analyzer/extraction/layout.py:12-22 | `GRID_REGIONS` holds nine distinct labels. |
| `Layout.BandSizes` | design_data_analyzer/extraction/layout.py:58-67 | Bands 0 and 1 have size ⌊n/3⌋ and the last takes the remainder. |
| `Layout.BandsAdjacent` | design_data_analyzer/extraction/layout.py:64-67 | The three bands start at 0, meet end to start and end at n. |
| `Layout.BandsPartition` | design_data_analyzer/extraction/layout.py:58-67 | Every row (column) index lies in exactly one band. |
| `Layout.CellsPartition` | design_data_analyzer/extraction/layout.py:58-68 | Every pixel lies in exactly one of the nine cells. |
| `Layout.CellEmptyIff` | design_data_analyzer/extraction/layout.py:68-70 | A cell is empty iff its row band or its column band is empty. |
| `Layout.DarkIffMeanBelow` | design_data_analyzer/extraction/layout.py:71-72 | darkness > 0.35 iff the cell's sum is below 0.65 × its size. |
| `Layout.FocalIffMean` | design_data_analyzer/extraction/layout.py:69-73 | A cell is focal iff it is non-empty and its sum is below 0.65 × its size. |
| `Layout.FocalFlags` | design_data_analyzer/extraction/layout.py:61-73 | One focal flag per grid label; which cells are focal is stated by `Layout.FocalIffMean`. |
| `Layout.ResolveFocalRegions` | design_data_analyzer/extraction/layout.py:56-74 | The loop returns the labels of the focal cells, in grid order. |
| `Layout.CellIsFocal` | design_data_analyzer/extraction/layout.py:62-74 | One grid cell: the result says the cell is non-empty and darker than 0.35. |
| `Layout.SelectedProps` | design_data_analyzer/extraction/layout.py:61-73 | The appended labels are the flagged ones, at strictly increasing grid positions. |
| `Layout.SelectedNames` | design_data_analyzer/extraction/layout.py:61-73 | Selecting from distinct labels gives distinct labels, each present iff flagged. |
| `Layout.SelectedDistinct` | design_data_analyzer/extraction/layout.py:61-73 | Selecting from distinct labels gives distinct labels. |
| `Layout.SelectedIff` | design_data_analyzer/extraction/layout.py:61-73 | A label is selected iff its flag is set, and only labels of the grid are selected. |
| `Layout.FocalRegionsIff` | design_data_analyzer/extraction/layout.py:61-73 | Focal regions are duplicate-free, and a label is included iff its cell is focal. |
| `Layout.ShortImageUpperCells` | design_data_analyzer/extraction/layout.py:58-70 | With fewer than 3 rows the top and middle cells are empty and never focal. |
| `Layout.ShortImageBottomOnly` | design_data_analyzer/extraction/layout.py:58-73 | With fewer than 3 rows only bottom-row labels can appear. |
| `Layout.SummarizeLayout` | design_data_analyzer/extraction/layout.py:32-45 | The summary holds the aspect ratio, its orientation, the whitespace ratio and the focal regions of the array. |
| `Layout.SummaryShape` | design_data_analyzer/extraction/layout.py:32-45 | The whitespace ratio lies in [0, 1] and the focal regions are distinct grid labels. |
| `Extraction.ExtractFromPath` | design_data_analyzer/extraction/__init__.py:16-41 | The record computed from the decoded image: colours, layout, text lines, samples of those lines, and the notes. |
| `Extraction.NotesAreSelected` | design_data_analyzer/extraction/__init__.py:26-32 | The notes are the triggered ones among colours, samples, copy, in that order. |
| `Extraction.NotesShape` | design_data_analyzer/extraction/__init__.py:26-32 | At most 3 distinct notes, in fixed order; "No dominant colors" iff no colours; "OCR text present" iff no samples but some lines; "No copy" iff no lines. |
| `Extraction.NoteOrderDistinct` | design_data_analyzer/extraction/__init__.py:28-32 | The three note texts differ. |
| `Extraction.KeptLineNotBlank` | design_data_analyzer/extraction/text.py:26-27 | A stripped line of length ≥ 3 is not blank. |
| `Extraction.SamplesNoteNeverFires` | design_data_analyzer/extraction/__init__.py:29-30 | Lines from `extract_text_lines` give samples iff there are lines, so the "OCR text present" note never appears. |
| `Extraction.ExtractionShape` | design_data_analyzer/extraction/__init__.py:21-41 | The layout is present, `detected_copy` is the stripped filtered lines, the samples are case-distinct and no more than the lines, and an image with pixels whose palette indices have a colour in the palette list gets at least one colour (the assertion at `tests/test_pipeline.py:31`). |
| `Extraction.ExtractionNotes` | design_data_analyzer/extraction/__init__.py:21-41 | At most 2 notes, each note present iff its trigger holds, and no OCR gives the copy note. |
| `GuidelineRules.HexCodeChannels` | design_data_analyzer/guidelines.py:483-487 | Parsing a `#RRGGBB` code from the colour extractor gives back its (r, g, b). |
| `GuidelineRules.ParseHexByte` | design_data_analyzer/guidelines.py:485-487 | `int(x, 16)` on two upper-case hex digits gives the byte. |
| `GuidelineRules.Brightness` | design_data_analyzer/guidelines.py:488 | The brightness is (0.2126R + 0.7152G + 0.0722B)/255. |
| `GuidelineRules.ToneBuckets` | design_data_analyzer/guidelines.py:172-178 | The tone is decided exactly in integers: confident iff 2126R+7152G+722B < 892500, assured iff below 1530000, else open. |
| `GuidelineRules.ToneMonotone` | design_data_analyzer/guidelines.py:173-178 | A brighter dominant colour never gets a darker tone. |
| `GuidelineRules.FallbackChannels` | design_data_analyzer/guidelines.py:465 | The fallback hex `#00A1DE` parses to (0, 161, 222). |
| `GuidelineRules.UppercaseRatio` | design_data_analyzer/guidelines.py:469-480 | The counting loop returns upper-case letters over letters, or 0 without letters. |
| `GuidelineRules.UppercaseRatioBounds` | design_data_analyzer/guidelines.py:469-480 | The ratio lies in [0, 1]; it is 0 without letters; 0 iff no upper-case letter; 1 iff all letters are upper case. |
| `GuidelineRules.UppersBound` | design_data_analyzer/guidelines.py:472-477 | Upper-case letters never outnumber letters. |
| `GuidelineRules.CasingRules` | design_data_analyzer/guidelines.py:190-195 | The casing line is bold iff ratio > 0.55, sentence case iff ratio < 0.25 with copy, else mixed; empty copy gives mixed. |
| `GuidelineRules.PunchyIff` | design_data_analyzer/guidelines.py:208-211 | The punchy principle is chosen iff the copy averages at most 4 words a line. |
| `GuidelineRules.FirstMaxProps` | design_data_analyzer/guidelines.py:232-234 | The first key of maximal count is a key, no key counts more, and every earlier key counts strictly less. |
| `GuidelineRules.MostCommonOrientationProps` | design_data_analyzer/guidelines.py:232-236 | No labels give landscape; otherwise the most frequent label, ties going to the first inserted. |
| `GuidelineRules.TopLabelsProps` | design_data_analyzer/guidelines.py:275-285 | `most_common(3)` of the focal labels: at most 3 distinct labels, sorted by count, none outranked by a label left out, non-empty when labels exist. |
| `GuidelineRules.RankedLabels` | design_data_analyzer/guidelines.py:284 | The counter's labels sorted by count are distinct, sorted and exactly the labels seen. |
| `GuidelineRules.RadiusTiers` | design_data_analyzer/guidelines.py:325-337 | No layout data gives the standard tier (default 0.35); all levels ≥ 0.5 give soft; all below 0.3 give tight. |
| `GuidelineRules.MeanBetween` | design_data_analyzer/guidelines.py:328 | The mean of values in [lo, hi] lies in [lo, hi]. |
| `GuidelineRules.MeanBelow` | design_data_analyzer/guidelines.py:328 | The mean of values below hi is below hi. |
| `GuidelineRules.SwatchesFromPaletteSpec` | design_data_analyzer/guidelines.py:449-466 | The loop builds one swatch per spec entry, or the fallback swatch. |
| `GuidelineRules.PaletteSwatchesProps` | design_data_analyzer/guidelines.py:449-466 | Length max(1, n); an empty spec gives the single `#00A1DE` swatch; prominence max(0.5 − 0.1·i, 0.1), non-increasing, in [0.1, 0.5]; the name falls back to the hex. |
| `Guidelines.BuildDocumentShape` | design_data_analyzer/guidelines.py:33-63 | Title "{brand} Brand Guidelines (Auto-generated)"; section titles Tone of Voice … Color, then Production References iff there are production notes. |
| `Guidelines.BuildDocumentFails` | design_data_analyzer/guidelines.py:483-487 | `build_document` fails iff the dominant swatch's hex does not parse. |
| `Guidelines.ToneFromPalette` | design_data_analyzer/guidelines.py:165-183 | A palette whose dominant hex came from the colour extractor gives a document whose tone line is that colour's brightness bucket; no palette gives the neutral line. |
| `Guidelines.BuildDocumentFromSpecFails` | design_data_analyzer/guidelines.py:79-127 | `build_document_from_spec` fails iff the spec lists colours and the first one's hex does not parse. |
| `Guidelines.BuildDocumentFromSpecShape` | design_data_analyzer/guidelines.py:79-127 | A built document has the brand's title; Production References iff notes exist; the colour table is the spec's, or the fallback swatch. |
| `Guidelines.CoreSectionsInOrder` | design_data_analyzer/guidelines.py:33-58 | Seven sections with the core titles, plus at most Production References, give the fixed title order. |
| `Guidelines.ToneOfVoiceSection` | design_data_analyzer/guidelines.py:157-222 | The section exists iff the dominant hex parses (or there is none), titled Tone of Voice. |
| `Guidelines.ToneSectionShape` | design_data_analyzer/guidelines.py:169-213 | Heading, palette tone line, the casing line of the uppercase ratio (mixed for no copy), then the principles heading and principles. |
| `Guidelines.PrincipleLinesShape` | design_data_analyzer/guidelines.py:203-213 | Without pillars: punchy or clarity, then evidence and partner; with pillars: one numbered line each. |
| `Guidelines.SocialChannels` | design_data_analyzer/guidelines.py:232-248 | The channel lines follow the most common orientation; no labels give the landscape lines. |
| `Guidelines.HotspotsChoice` | design_data_analyzer/guidelines.py:274-287 | The hotspot line names the top three focal labels when any image has focal regions, else the even-layout line. |
| `Guidelines.FocalLabelsFound` | design_data_analyzer/guidelines.py:276-283 | Some focal label is collected iff there is evidence and some image in it has a focal region. |
| `Guidelines.CornerTier` | design_data_analyzer/guidelines.py:325-337 | The radius line is the tier of the mean whitespace; standard without layout data. |
| `Guidelines.PrimaryTints` | design_data_analyzer/guidelines.py:353-361 | Icon and logo lines use the first hex or `#00A1DE`; the secondary tint appears iff there are two or more colours. |
| `Guidelines.ColorSectionShape` | design_data_analyzer/guidelines.py:395-426 | A spec table, else a swatch table row per swatch, else the single no-colours line. |
| `Guidelines.OrDashNonEmpty` | design_data_analyzer/guidelines.py:408-411 | The `or "—"` cell is never empty. |
| `Guidelines.ProductionNotesSection` | design_data_analyzer/guidelines.py:429-446 | The method builds the Production References section from the production and confidence notes. |
| `Guidelines.ProductionBodyShape` | design_data_analyzer/guidelines.py:429-446 | The body is never empty: "- No outstanding notes." alone iff nothing to report; else the notes block, a blank line between, and the confidence block. |
| `Guidelines.RenderMarkdown` | design_data_analyzer/guidelines.py:130-154 | The loop builds the lines of `RenderLines` and joins them with line breaks. |
| `Guidelines.AppendBlock` | design_data_analyzer/guidelines.py:144-150 | One section of the loop: the heading, a blank, the body, a blank only when the body does not end with one, the rule and a blank are appended. |
| `Guidelines.RenderShape` | design_data_analyzer/guidelines.py:133-153 | Title line, table of contents with one entry per section, a block per section headed by its title, then the footer. |
| `Guidelines.BlockShape` | design_data_analyzer/guidelines.py:145-151 | A section block is its heading, a blank line, the body, at most one padding line, the rule and a blank line. |
| `Guidelines.AnchorShape` | design_data_analyzer/guidelines.py:138 | The anchor is the title lower-cased with spaces replaced by dashes. |
| `Guidelines.RenderMentions` | design_data_analyzer/guidelines.py:130-154 | The markdown contains the document title and every section title. |
| `Guidelines.MarkdownMentionsCore` | tests/test_pipeline.py:33-39 | The markdown of a built document contains "{brand} Brand Guidelines", "Tone of Voice" and "Color". |
| `Compilation.MaybeAdd` | design_data_analyzer/openai_integration.py:232-235 | Only the stripped, non-empty value is added; the set stays duplicate-free and clean. |
| `Compilation.MaybeAddIsMerge` | design_data_analyzer/openai_integration.py:238-240 | `_merge_sets` of one value is `_maybe_add`. |
| `Compilation.MergeSets` | design_data_analyzer/analyzer.py:272-276 | The loop adds each stripped non-empty item. |
| `Compilation.MergeAllMembers` | design_data_analyzer/analyzer.py:272-276 | After the merge a value is present iff it was, or it is the non-empty strip of a source item. |
| `Compilation.MergeAllAppend` | design_data_analyzer/openai_integration.py:238-240 | Merging a concatenation is merging one part after the other. |
| `Compilation.MergeAllIdempotent` | design_data_analyzer/openai_integration.py:238-240 | Merging the same source twice changes nothing more. |
| `Compilation.MergeAllFromEmpty` | design_data_analyzer/analyzer.py:272-276 | A set merged from nothing is duplicate-free, clean, and holds exactly the non-empty stripped items. |
| `Compilation.AddImage` | design_data_analyzer/analyzer.py:178-179 | The image is added only when truthy. |
| `Compilation.StyleOf` | design_data_analyzer/openai_integration.py:181 | The style is stripped and non-empty ("unspecified" by default). |
| `Compilation.UpdateColorEntry` | design_data_analyzer/analyzer.py:178-188 | Merges one colour's image and fields into its entry. |
| `Compilation.MergePalette` | design_data_analyzer/analyzer.py:163-188 | The palette loop: blank hexes are skipped, a new upper-cased hex gets an entry, the colour is merged into it. |
| `Compilation.MergePaletteColor` | design_data_analyzer/analyzer.py:163-188 | One colour of the palette loop: the palette is the one `AddColor` gives, unchanged for a blank hex. |
| `Compilation.UpdateTypeEntry` | design_data_analyzer/analyzer.py:209-220 | Merges one typography item's style, fields and image into its entry. |
| `Compilation.MergeTypography` | design_data_analyzer/analyzer.py:190-220 | The typography loop: blank families are skipped, a new key gets an entry holding the first family spelling. |
| `Compilation.MergeTypographyItem` | design_data_analyzer/analyzer.py:190-220 | One item of the typography loop: the table is the one `AddType` gives, unchanged for a blank family. |
| `Compilation.UpdateIdentity` | design_data_analyzer/analyzer.py:145-159 | Brand name and tagline added when non-empty after stripping; context and attributes merged. |
| `Compilation.UpdateImagery` | design_data_analyzer/analyzer.py:227-237 | The four imagery sets are merged. |
| `Compilation.UpdateLayout` | design_data_analyzer/analyzer.py:239-249 | The four layout sets are merged. |
| `Compilation.UpdateVoice` | design_data_analyzer/analyzer.py:251-253 | The four voice sets are merged. |
| `Compilation.UpdateConfidence` | design_data_analyzer/analyzer.py:257-259 | A confidence note is appended when the stripped confidence and the image are present. |
| `Compilation.AddRecordStep` | design_data_analyzer/analyzer.py:141-259 | One record folded into the accumulator. |
| `Compilation.AccumulateRecords` | design_data_analyzer/analyzer.py:141-259 | The record loop computes the fold of all records. |
| `Compilation.AccumulateValid` | design_data_analyzer/analyzer.py:141-259 | Every accumulated set is duplicate-free and clean, and every table entry is well-formed. |
| `Compilation.AccumulatePaletteKeys` | design_data_analyzer/analyzer.py:163-177 | The palette keys are the distinct non-blank upper-cased hexes, in first-appearance order. |
| `Compilation.AccumulateTypeTable` | design_data_analyzer/analyzer.py:190-208 | The typography table has one entry per distinct key of the named items, each holding the first spelling of its family. |
| `Compilation.FinalStyles` | design_data_analyzer/analyzer.py:301-303 | Styles are sorted, duplicate-free, drop "unspecified" unless it is the only style, and are empty iff none were collected. |
| `Compilation.FinalizePalette` | design_data_analyzer/analyzer.py:285-297 | The finalised palette entries sorted by hex. |
| `Compilation.FinalizeTypography` | design_data_analyzer/analyzer.py:299-315 | The finalised typography entries sorted by lower-cased family. |
| `Compilation.FinalizeCompiled` | design_data_analyzer/analyzer.py:279-339 | `_finalize_compiled` of the accumulator. |
| `CompiledProps.CompileBrand` | design_data_analyzer/analyzer.py:145-159 | Each brand list is strictly ascending and holds exactly the stripped, non-empty values the records offered. |
| `CompiledProps.CompileLogoAndProduction` | design_data_analyzer/analyzer.py:222-225 | Logo usage and production notes are strictly ascending, holding exactly the offered cleaned values. |
| `CompiledProps.CompileImagery` | design_data_analyzer/analyzer.py:227-237 | The four imagery lists likewise. |
| `CompiledProps.CompileLayout` | design_data_analyzer/analyzer.py:239-249 | The four layout lists likewise. |
| `CompiledProps.CompileVoice` | design_data_analyzer/analyzer.py:251-253 | The four voice lists likewise. |
| `CompiledProps.SortedMerge` | design_data_analyzer/analyzer.py:272-276 | `sorted` of a merged set is strictly ascending and holds exactly the offered cleaned values. |
| `CompiledProps.CompilePalette` | design_data_analyzer/analyzer.py:163-167 | One palette entry per distinct stripped, upper-cased, non-empty hex, strictly ascending by hex. |
| `CompiledProps.CompileTypography` | design_data_analyzer/analyzer.py:191-209 | One entry per distinct key, sorted by lower-cased family, holding the first family spelling and non-empty sorted styles. |
| `CompiledProps.CompileNotes` | design_data_analyzer/analyzer.py:257-259 | Confidence notes are one per qualifying record, in order, each naming a truthy image and a cleaned note. |
| `CompiledEntries.Tagged` | design_data_analyzer/analyzer.py:140-141 | Each item of a record paired with that record's `image`, in order. |
| `CompiledEntries.OfferedSnoc` | design_data_analyzer/analyzer.py:163-188 | One more item adds exactly its own value under its own key to what has been offered. |
| `CompiledEntries.ColumnSnoc` | design_data_analyzer/analyzer.py:163-220 | A keyed set that gains exactly one filed item's non-empty value keeps holding exactly the offered values. |
| `CompiledEntries.AddColorColumn` | design_data_analyzer/analyzer.py:163-188 | One colour of the palette loop: each entry's set still holds exactly the non-empty values of the colours filed under its hex. |
| `CompiledEntries.AddColorsColumn` | design_data_analyzer/analyzer.py:163-188 | The same over all colours of one record. |
| `CompiledEntries.PaletteColumn` | design_data_analyzer/analyzer.py:143-188 | After the record loop, every palette set (names, usages, finishes, notes, source images) under every hex holds exactly the non-empty values of the colours filed under it. |
| `CompiledEntries.SortedColumn` | design_data_analyzer/analyzer.py:286-296 | `sorted` of such a set is strictly ascending with the same members. |
| `CompiledEntries.PaletteEntryContents` | design_data_analyzer/analyzer.py:286-296 | The finalized entry of each hex carries that hex and, strictly ascending, exactly the stripped non-empty names, usages, finishes and notes of the colours filed under it, and the non-empty image paths of their records. |
| `CompiledEntries.PaletteEntryIn` | design_data_analyzer/analyzer.py:286-296 | Any entry the finalize loop produces has those contents for its own hex. |
| `CompiledEntries.CompilePaletteContents` | design_data_analyzer/analyzer.py:163-188 | Every entry of the compiled palette holds, for its hex, exactly those sorted names, usage notes, finishes, additional notes and source images. |
| `CompiledEntries.AddTypeColumn` | design_data_analyzer/analyzer.py:191-220 | One typography item: each entry's set still holds exactly the non-empty values of the items filed under its key. |
| `CompiledEntries.AddTypesColumn` | design_data_analyzer/analyzer.py:191-220 | The same over all typography items of one record. |
| `CompiledEntries.TypographyColumn` | design_data_analyzer/analyzer.py:143-220 | After the record loop, every typography set (styles, usages, size ranges, tracking, notes, source images) under every key holds exactly the non-empty values of the items filed under it. |
| `CompiledEntries.StyleOfferedClean` | design_data_analyzer/analyzer.py:196 | A style is never offered blank: a blank one becomes `"unspecified"`. |
| `CompiledEntries.FinalStylesColumn` | design_data_analyzer/analyzer.py:301-303 | The finalized styles of a key are its items' named styles, sorted, or `["unspecified"]` exactly when every item's style was `"unspecified"` or blank. |
| `CompiledEntries.TypeEntryContents` | design_data_analyzer/analyzer.py:300-314 | The finalized entry of each key holds those styles and, strictly ascending, exactly the stripped usages, size ranges, tracking and notes of its items and their records' image paths. |
| `CompiledEntries.CompileTypographyContents` | design_data_analyzer/analyzer.py:191-220 | The compiled typography list is a reordering of one finalized entry per distinct key, in first-seen key order, each holding exactly those contents. |
| `CompiledProps.PaletteEntriesHexes` | design_data_analyzer/analyzer.py:285-296 | The finalised entries carry the table's hexes, distinct. |
| `Analyzer.AggregateGuidelines` | design_data_analyzer/analyzer.py:104-265 | `images_analyzed` is the record count, `per_image` is the input, and `compiled` is the fold with the pair key, finalised. |
| `Analyzer.AnalyzerStyleIsStyleOf` | design_data_analyzer/analyzer.py:195 | The "unspecified" default before `strip()` gives the same style as the shared rule. |
| `Analyzer.TupleKeySeparates` | design_data_analyzer/analyzer.py:196 | Two items share an entry iff their lower-cased families and lower-cased styles agree. |
| `OpenAiIntegration.AggregateGuidelines` | design_data_analyzer/openai_integration.py:98-229 | `images_analyzed` is the record count, `per_image` is one `{image, guidelines}` per record with `{}` as default, and `compiled` is the fold with the `::` key, finalised. |
| `OpenAiIntegration.AccumulateAndFormat` | design_data_analyzer/openai_integration.py:138-223 | The record loop computes the fold and the formatted per-image list. |
| `OpenAiIntegration.FormattedKeeps` | design_data_analyzer/openai_integration.py:223 | A formatted record keeps its image and guidelines. |
| `OpenAiIntegration.ReaggregateIsStable` | design_data_analyzer/openai_integration.py:223-228 | Aggregating the returned `per_image` again gives the same compiled result. |
| `OpenAiIntegration.ColonKeyMerges` | design_data_analyzer/openai_integration.py:182 | Family "a::b" with style "c" and family "a" with style "b::c" get the same key. |
| `OpenAiIntegration.ColonKeyMergesEntries` | design_data_analyzer/openai_integration.py:176-195 | Those two typefaces compile to one typography entry with the `::` key. |
| `OpenAiIntegration.TupleKeyKeepsEntries` | design_data_analyzer/analyzer.py:190-208 | With the pair key the same two typefaces keep two entries. |
| `OpenAiIntegration.ColonKeyInjectiveWithoutColons` | design_data_analyzer/openai_integration.py:182 | Without `:` in the families, the `::` key determines family and style. |
| `IoUtils.ParseEnvLineIff` | brand_guidelines_extractor/io_utils.py:91-100 | A line assigns iff, stripped, it is non-empty, not a comment, holds `=` and has a non-blank key; the key is the stripped text before the first `=`, the value the rest stripped of whitespace, `"` and `'`. |
| `IoUtils.ParseEnvLine` | brand_guidelines_extractor/io_utils.py:96-99 | A parsed key is non-empty, stripped and holds no `=`. |
| `IoUtils.ParseEnvLineRoundTrip` | brand_guidelines_extractor/io_utils.py:91-100 | A plain `KEY=VALUE` line parses to that key and value. |
| `IoUtils.AppliedFirstWins` | brand_guidelines_extractor/io_utils.py:101 | Existing variables are never overwritten, and a new key takes the value of its first assignment. |
| `IoUtils.Environ.SetDefaultVar` | brand_guidelines_extractor/io_utils.py:101 | `os.environ.setdefault`: the variable is set only when absent. |
| `IoUtils.LoadLine` | brand_guidelines_extractor/io_utils.py:91-101 | One line applies its assignment, if any, with `setdefault`. |
| `IoUtils.LoadEnvFile` | brand_guidelines_extractor/io_utils.py:83-103 | The environment after the loop is the file's assignments applied with `setdefault`; no file leaves it unchanged. |
| `IoUtils.LoadedEnvFacts` | brand_guidelines_extractor/io_utils.py:86-101 | A missing file changes nothing; existing variables keep their values; a new variable is set iff assigned, to its first value. |
| `IoUtils.Supported` | brand_guidelines_extractor/io_utils.py:32 | A string is in the supported set iff it is the lower-cased form of some configured extension. |
| `IoUtils.LoweredMembers` | brand_guidelines_extractor/io_utils.py:32 | Lower-casing a list element by element yields exactly the lower-cased members, as a set comprehension does. |
| `IoUtils.AcceptorIff` | brand_guidelines_extractor/io_utils.py:40-43 | A resolved path is kept iff it is a file whose lower-cased suffix is supported. |
| `IoUtils.AcceptsConfigured` | brand_guidelines_extractor/io_utils.py:32-43 | With the set built from the configured extensions, a path is accepted iff it is a file whose lower-cased suffix equals some extension lower-cased. |
| `IoUtils.AddPath` | brand_guidelines_extractor/io_utils.py:36-45 | `add_path` appends the resolved path once, only if unseen and accepted, keeping `seen` equal to the list's members. |
| `IoUtils.WalkDirectory` | brand_guidelines_extractor/io_utils.py:47-54 | A directory walk adds its accepted candidates in glob order. |
| `IoUtils.WalkCandidate` | brand_guidelines_extractor/io_utils.py:53-54 | One glob result: a file with a supported suffix goes through `add_path`, anything else changes nothing. |
| `IoUtils.WalkStep` | brand_guidelines_extractor/io_utils.py:52-54 | The walk's list after one more glob result is `add_path` of it when accepted, and unchanged otherwise. |
| `IoUtils.AddInput` | brand_guidelines_extractor/io_utils.py:56-61 | A directory input is walked; any other input goes to `add_path`. |
| `IoUtils.CollectInputs` | brand_guidelines_extractor/io_utils.py:56-61 | The inputs loop adds every input's candidates in order. |
| `IoUtils.CollectImagePaths` | brand_guidelines_extractor/io_utils.py:24-66 | The result is the inputs' and then the directory's candidates, resolved, filtered and de-duplicated. |
| `IoUtils.AddAllIsDedup` | brand_guidelines_extractor/io_utils.py:36-45 | Adding candidates one by one equals de-duplicating their accepted resolved paths. |
| `IoUtils.CollectedFacts` | brand_guidelines_extractor/io_utils.py:36-45 | Collected paths hold no duplicate, are all accepted, are exactly the accepted resolved candidates, and keep first-encounter order. |
| `IoUtils.GuessMimeType` | brand_guidelines_extractor/io_utils.py:69-73 | The guessed type, or "image/png" when there is none. |
| `IoUtils.DataUrlRoundTrip` | brand_guidelines_extractor/io_utils.py:79-80 | "data:" + mime + ";base64," + payload splits back into the mime type and the payload (RFC 2397, section 3). |
| `Paths.PathName` | design_data_analyzer/pipeline.py:92 | `Path.name`: the part after the last `/`, holding no `/`. |
| `Paths.SuffixIff` | brand_guidelines_extractor/io_utils.py:42 | `Path.suffix` is non-empty iff the name has a dot after its first character and before its last, and it is the text from the last dot. |
| `AsciiStrings.Strip` | design_data_analyzer/extraction/text.py:26 | `str.strip()`: the text between leading and trailing whitespace, starting and ending with a non-space. |
| `AsciiStrings.NormalizeShape` | design_data_analyzer/extraction/text.py:36 | `" ".join(line.split())` has no surrounding whitespace and single spaces between words; it is empty iff the line is blank. |
| `AsciiStrings.SplitEmptyIffAllSpace` | design_data_analyzer/extraction/text.py:36-37 | `split()` gives no words iff the text is blank. |
| `AsciiStrings.Upper` | design_data_analyzer/pipeline.py:78 | `str.upper()` on ASCII: same length, each lower-case letter raised. |
| `AsciiStrings.Lower` | design_data_analyzer/extraction/text.py:37 | `str.lower()` on ASCII: same length, each upper-case letter lowered. |
| `Sorting.SortDescProps` | design_data_analyzer/pipeline.py:97 | The stable reverse sort is sorted descending, a permutation, and keeps the order of equal keys. |
| `Sorting.SortAscProps` | design_data_analyzer/analyzer.py:297 | The stable ascending sort is sorted, a permutation, and keeps the order of equal keys. |
| `Sorting.SortAscSorted` | design_data_analyzer/analyzer.py:297 | The ascending sort is sorted. |
| `Sorting.SortAscPerm` | design_data_analyzer/analyzer.py:297 | The ascending sort is a permutation of its input. |
| `Sorting.SortAscStable` | design_data_analyzer/analyzer.py:297 | For every key, the ascending sort keeps the elements with that key in input order. |
| `Sorting.SortAscStrict` | design_data_analyzer/analyzer.py:297 | Sorting items with distinct keys gives strictly ascending keys. |
| `Sorting.SortStrings` | design_data_analyzer/analyzer.py:319-337 | `sorted` of a set is strictly ascending and holds the same strings. |
| `Sorting.StrLtTotal` | design_data_analyzer/analyzer.py:319 | Python's string order is total on distinct strings. |
| `Collections.DedupProps` | design_data_analyzer/pipeline.py:69-86 | De-duplication keeps each value once, in first-appearance order. |

## Left out

- Image decoding and the PIL and numpy work are not modelled: `Image.open`, RGBA conversion, thumbnailing, alpha compositing and adaptive quantisation (colors.py:38-48), grayscale conversion, the Gaussian blur and array conversion (layout.py:28-31). Their outputs are inputs: a flat palette list, per-pixel palette indices and a rectangular array of brightness values.
- A decode failure is not modelled as an error: `Extraction.ExtractFromPath` requires a decodable image (at least one row and column), because `Image.open` raising is outside the model.
- The OCR engine (text.py:9-12, 25) is an input: its text, or nothing when it is not installed.
- The OpenAI client and the vision calls (`build_client`, `analyze_image` in analyzer.py and openai_integration.py) are network I/O and JSON parsing of a remote response. Their results are the `VisionRecord` inputs, with absent fields read as empty.
- `design_data_analyzer/cli.py` (argument parsing, printing, file writes), `brand_guidelines_extractor/schema.py`, both `prompts.py` files and the re-export wrappers hold no logic of the core and are not part of this model.
- Filesystem calls (`expanduser`, `resolve`, `is_file`, `is_dir`, `exists`, `glob`), `mimetypes.guess_type` and base64 encoding are opaque functions given as inputs. The "Skipping missing directory" message on stderr is not modelled.
- `IoUtils.LoadEnvFile`: an `OSError` while reading is modelled like a missing file. `read_text` reads the whole file before any variable is set, so both leave the environment unchanged.
- Floating point is `real`: float32 rounding of `/ 255` in layout.py and the rounding of `statistics.mean` are not modelled. Brightness buckets are also decided exactly in integers (`GuidelineRules.ToneBuckets`).
- String handling is ASCII only: `isalpha`, `isupper`, `islower`, `upper`, `lower`, `strip` and `split` follow the ASCII rules, and `splitlines` breaks only at `\n`.
- The markdown wording is a parameter. Lemmas state which lines appear and in what order, not the prose of each line.
- `GuidelineRules.RadiusTiers`: states the default tier, and the soft and tight tiers when every level lies in the tier's range, rather than the tier of an arbitrary mean. `RadiusOf` applies the thresholds to the mean directly.
- `Colors.MostCommon`: the ties among equal counts follow a stable sort of the counter's insertion order. CPython's `most_common` gives the same order, but the counter's insertion order (first pixel of each index) is only as good as the pixel order supplied.
- `Paths.PathName`: models `Path.name` for a path that does not end in `/`. `pathlib` drops a trailing separator before taking the name, whereas the model gives an empty name. It is applied to resolved paths and glob results (io_utils.py:42, 53) and to the source path of an analysed image (pipeline.py:92), none of which ends in `/`.
