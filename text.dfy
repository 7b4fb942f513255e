/** Post-OCR text handling: splitting the recognised text into cleaned lines,
    turning lines into deduplicated typography samples, and the casing,
    weight and classification rules applied to each sample. The OCR engine
    itself is an input: its text, or nothing when it is not installed. */
module Text {
  import opened Collections
  import opened AsciiStrings
  import opened Pipeline

  // ---------------------------------------------------------------------
  // extract_text_lines
  // ---------------------------------------------------------------------

  /** `s.splitlines()` with `\n` as the only line break: no trailing empty
      line, and no line at all for the empty text. */
  function SplitLines(s: string): (ls: seq<string>)
    ensures forall k :: 0 <= k < |ls| ==> '\n' !in ls[k]
    decreases |s|
  {
    if s == [] then []
    else if '\n' !in s then [s]
    else
      var k := FirstIndex(s, '\n');
      assert '\n' !in s[..k] by {
        assert forall j :: 0 <= j < k ==> s[..k][j] == s[j];
      }
      [s[..k]] + SplitLines(s[k + 1..])
  }

  /** Each line followed by a line break; what `SplitLines` undoes. */
  function JoinLines(ls: seq<string>): string {
    if ls == [] then [] else ls[0] + "\n" + JoinLines(ls[1..])
  }

  /** A line without breaks, a break, then the rest: the line comes first. */
  lemma SplitLinesCons(l: string, rest: string)
    requires '\n' !in l
    ensures SplitLines(l + "\n" + rest) == [l] + SplitLines(rest)
  {
    var s := l + "\n" + rest;
    assert s[|l|] == '\n';
    assert forall j :: 0 <= j < |l| ==> s[j] == l[j];
    FirstIndexAt(s, '\n', |l|);
    assert s[..|l|] == l;
    assert s[|l| + 1..] == rest;
  }

  /** Lines without breaks survive a join and a split unchanged. */
  lemma {:induction false} SplitJoinLines(ls: seq<string>)
    requires forall k :: 0 <= k < |ls| ==> '\n' !in ls[k]
    ensures SplitLines(JoinLines(ls)) == ls
  {
    if ls != [] {
      SplitLinesCons(ls[0], JoinLines(ls[1..]));
      SplitJoinLines(ls[1..]);
      assert [ls[0]] + ls[1..] == ls;
    }
  }

  /** No whitespace at either end. */
  predicate IsStripped(s: string) {
    s != [] ==> !IsSpace(s[0]) && !IsSpace(s[|s| - 1])
  }

  /** `strip()` leaves a stripped string as it is. */
  lemma StrippedIsFixed(s: string)
    requires IsStripped(s)
    ensures Strip(s) == s
  {
    TrimFixed(s, Whitespace);
  }

  /** The stripped lines of length at least `minLength`, in order. */
  function KeepLines(lines: seq<string>, minLength: int): (r: seq<string>)
    ensures |r| <= |lines|
    ensures forall k :: 0 <= k < |r| ==> IsStripped(r[k]) && |r[k]| >= minLength
  {
    if lines == [] then []
    else
      var rest := KeepLines(lines[..|lines| - 1], minLength);
      var c := Strip(lines[|lines| - 1]);
      if |c| >= minLength then rest + [c] else rest
  }

  /** A line is kept exactly when it is the stripped form of some input line
      and long enough. */
  lemma {:induction false} KeepLinesMembers(lines: seq<string>, minLength: int, x: string)
    ensures x in KeepLines(lines, minLength) <==> Kept(lines, minLength, x)
  {
    if lines != [] {
      var front := lines[..|lines| - 1];
      var c := Strip(lines[|lines| - 1]);
      var rest := KeepLines(front, minLength);
      assert KeepLines(lines, minLength) == if |c| >= minLength then rest + [c] else rest;
      KeepLinesMembers(front, minLength, x);
      KeptSnoc(lines, minLength, x);
    }
  }

  /** `x` is the stripped form of a line of `lines` and at least `minLength` long. */
  predicate Kept(lines: seq<string>, minLength: int, x: string) {
    exists i :: 0 <= i < |lines| && KeptLine(lines[i], minLength, x)
  }

  /** `x` is the stripped form of `line` and at least `minLength` long. */
  predicate KeptLine(line: string, minLength: int, x: string) {
    x == Strip(line) && |x| >= minLength
  }

  lemma KeptSnoc(lines: seq<string>, minLength: int, x: string)
    requires lines != []
    ensures Kept(lines, minLength, x) <==>
            Kept(lines[..|lines| - 1], minLength, x) || KeptLine(lines[|lines| - 1], minLength, x)
  {
    ExistsSnoc(lines, lines[..|lines| - 1], line => KeptLine(line, minLength, x));
  }

  /** `extract_text_lines(image, min_length=minLength)`, where `ocr` is the
      text the OCR engine recognised, or `None` when no engine is available. */
  function ExtractTextLines(ocr: Option<string>, minLength: int): (r: seq<string>)
    ensures ocr.None? ==> r == []
    ensures forall k :: 0 <= k < |r| ==> IsStripped(r[k]) && |r[k]| >= minLength
  {
    match ocr
    case None => []
    case Some(text) => KeepLines(SplitLines(text), minLength)
  }

  /** Every returned line is the stripped form of a line of the recognised
      text, long enough and without a line break, and every such line is
      returned. */
  lemma ExtractTextLinesMembers(text: string, minLength: int)
    ensures forall x :: x in ExtractTextLines(Some(text), minLength) <==> Kept(SplitLines(text), minLength, x)
    ensures forall x :: x in ExtractTextLines(Some(text), minLength) ==> '\n' !in x
  {
    var ls := SplitLines(text);
    forall x ensures x in ExtractTextLines(Some(text), minLength) <==> Kept(ls, minLength, x) {
      KeepLinesMembers(ls, minLength, x);
    }
    forall x | x in ExtractTextLines(Some(text), minLength) ensures '\n' !in x {
      KeepLinesMembers(ls, minLength, x);
      var i :| 0 <= i < |ls| && KeptLine(ls[i], minLength, x);
      StripKeepsOut(ls[i], '\n');
    }
  }

  /** The default `min_length` of `extract_text_lines`. */
  const DefaultMinLength: int := 3

  lemma StripKeepsOut(s: string, c: char)
    requires c !in s
    ensures c !in Strip(s)
  {
    var t := Strip(s);
    var k := TrimOffset(s, Whitespace);
    StripSlice(s);
    assert forall j :: 0 <= j < |t| ==> t[j] == s[k + j];
  }

  // ---------------------------------------------------------------------
  // _infer_casing, _infer_weight, _infer_classification
  // ---------------------------------------------------------------------

  /** `[c for c in text if c.isalpha()]` */
  function Letters(s: string): string {
    if s == [] then [] else (if IsAlpha(s[0]) then [s[0]] else []) + Letters(s[1..])
  }

  /** The letters are exactly the alphabetic characters of `s`. */
  lemma {:induction false} LettersMembers(s: string)
    ensures forall k :: 0 <= k < |Letters(s)| ==> IsAlpha(Letters(s)[k]) && Letters(s)[k] in s
    ensures forall i :: 0 <= i < |s| && IsAlpha(s[i]) ==> s[i] in Letters(s)
  {
    if s != [] {
      LettersMembers(s[1..]);
      var rest := Letters(s[1..]);
      assert forall i :: 0 < i < |s| ==> s[i] == s[1..][i - 1];
      assert forall x :: x in s[1..] ==> x in s;
      if IsAlpha(s[0]) {
        assert Letters(s) == [s[0]] + rest;
      } else {
        assert Letters(s) == rest;
      }
    }
  }

  /** The first letter is the first alphabetic character of `s`, found at `i`. */
  lemma {:induction false} LettersFirst(s: string) returns (i: nat)
    requires Letters(s) != []
    ensures i < |s| && s[i] == Letters(s)[0]
    ensures forall j :: 0 <= j < i ==> !IsAlpha(s[j])
  {
    if IsAlpha(s[0]) {
      i := 0;
    } else {
      assert Letters(s) == Letters(s[1..]);
      var k := LettersFirst(s[1..]);
      i := k + 1;
      forall j | 0 <= j < i ensures !IsAlpha(s[j]) {
        if j > 0 {
          assert s[j] == s[1..][j - 1];
        }
      }
    }
  }

  lemma LettersAll(s: string)
    ensures Letters(s) == [] <==> !HasLetter(s)
    ensures (forall k :: 0 <= k < |Letters(s)| ==> IsUpperChar(Letters(s)[k])) <==>
            (forall i :: 0 <= i < |s| && IsAlpha(s[i]) ==> IsUpperChar(s[i]))
    ensures (forall k :: 0 <= k < |Letters(s)| ==> IsLowerChar(Letters(s)[k])) <==>
            (forall i :: 0 <= i < |s| && IsAlpha(s[i]) ==> IsLowerChar(s[i]))
  {
    var r := Letters(s);
    LettersMembers(s);
    if HasLetter(s) {
      var i :| 0 <= i < |s| && IsAlpha(s[i]);
      assert s[i] in r;
    }
    if r != [] {
      assert r[0] in s;
    }
  }

  predicate HasLetter(s: string) { exists i :: 0 <= i < |s| && IsAlpha(s[i]) }

  predicate AllLettersLower(s: string) { forall i :: 0 <= i < |s| && IsAlpha(s[i]) ==> IsLowerChar(s[i]) }

  /** The first letter of `s` is an upper-case one. */
  predicate FirstLetterUpper(s: string) {
    exists i :: 0 <= i < |s| && IsUpperChar(s[i]) && forall j :: 0 <= j < i ==> !IsAlpha(s[j])
  }

  /** `_infer_casing(text)` */
  function InferCasing(text: string): (r: string)
    ensures r == "uppercase" <==> StrIsUpper(text)
    ensures r == "lowercase" <==> HasLetter(text) && AllLettersLower(text)
    ensures r == "title" <==> FirstLetterUpper(text) && !StrIsUpper(text) && !AllLettersLower(text)
    ensures r == "mixed" <==> !HasLetter(text) || (!StrIsUpper(text) && !AllLettersLower(text) && !FirstLetterUpper(text))
  {
    var letters := Letters(text);
    LettersAll(text);
    if letters == [] then "mixed"
    else if forall k :: 0 <= k < |letters| ==> IsUpperChar(letters[k]) then "uppercase"
    else if forall k :: 0 <= k < |letters| ==> IsLowerChar(letters[k]) then "lowercase"
    else
      FirstLetterOf(text);
      if IsUpperChar(letters[0]) then "title" else "mixed"
  }

  /** The first letter of `s` is upper-case exactly when the first of its
      letters is. */
  lemma FirstLetterOf(s: string)
    requires Letters(s) != []
    ensures FirstLetterUpper(s) <==> IsUpperChar(Letters(s)[0])
  {
    var letters := Letters(s);
    LettersMembers(s);
    var i := LettersFirst(s);
    assert IsAlpha(s[i]);
    if FirstLetterUpper(s) {
      var i' :| 0 <= i' < |s| && IsUpperChar(s[i']) && forall j :: 0 <= j < i' ==> !IsAlpha(s[j]);
      assert IsAlpha(s[i']);
      assert i == i';
    }
  }

  /** `_infer_weight(text)` */
  function InferWeight(text: string): (r: string)
    ensures r == "bold" <==> |text| <= 12 && StrIsUpper(text)
    ensures r == "regular" <==> !(|text| <= 12 && StrIsUpper(text)) && |Split(text)| >= 8
    ensures r == "medium" <==> !(|text| <= 12 && StrIsUpper(text)) && |Split(text)| < 8
  {
    if |text| <= 12 && StrIsUpper(text) then "bold"
    else if |Split(text)| >= 8 then "regular"
    else "medium"
  }

  /** `_infer_classification(text)` */
  function InferClassification(text: string): (r: string)
    ensures r == "display" <==> |Split(text)| <= 4 && StrIsUpper(text)
    ensures r == "headline" <==> !(|Split(text)| <= 4 && StrIsUpper(text)) && |Split(text)| <= 8
    ensures r == "body" <==> |Split(text)| > 8
  {
    if |Split(text)| <= 4 && StrIsUpper(text) then "display"
    else if |Split(text)| <= 8 then "headline"
    else "body"
  }

  /** A bold weight or a display classification needs `isupper`, so the
      casing of such a text is "uppercase". */
  lemma BoldOrDisplayIsUppercase(text: string)
    requires InferWeight(text) == "bold" || InferClassification(text) == "display"
    ensures InferCasing(text) == "uppercase"
  {
  }

  /** More than eight words take at least seventeen characters, too many for
      bold, so body text always has the regular weight. */
  lemma BodyIsRegular(text: string)
    requires InferClassification(text) == "body"
    ensures InferWeight(text) == "regular"
  {
    ManyWordsAreLong(text);
  }

  /** Nine or more words do not fit in twelve characters. */
  lemma ManyWordsAreLong(text: string)
    requires |Split(text)| > 8
    ensures |text| > 12
  {
    SplitLength(text);
  }

  // ---------------------------------------------------------------------
  // build_typography_samples
  // ---------------------------------------------------------------------

  function Sample(normalized: string): TypographySample {
    TypographySample(normalized, InferCasing(normalized), InferWeight(normalized), InferClassification(normalized))
  }

  /** The case-insensitive key of a line, none for a blank line. */
  function LineKey(line: string): seq<string> {
    var n := Normalize(line);
    if n == [] then [] else [Lower(n)]
  }

  function LineKeys(lines: seq<string>): seq<string> { FlatMap(lines, LineKey) }

  /** What `build_typography_samples(lines)` returns. */
  function SamplesSpec(lines: seq<string>): seq<TypographySample> {
    if lines == [] then []
    else
      var front := lines[..|lines| - 1];
      var n := Normalize(lines[|lines| - 1]);
      if n == [] || Lower(n) in LineKeys(front) then SamplesSpec(front)
      else SamplesSpec(front) + [Sample(n)]
  }

  method BuildTypographySamples(lines: seq<string>) returns (samples: seq<TypographySample>)
    ensures samples == SamplesSpec(lines)
  {
    samples := [];
    var seen: set<string> := {};
    var i := 0;
    while i < |lines|
      invariant 0 <= i <= |lines|
      invariant samples == SamplesSpec(lines[..i])
      invariant forall x :: x in seen <==> x in LineKeys(lines[..i])
    {
      assert lines[..i + 1] == lines[..i] + [lines[i]];
      samples, seen := AddSampleLine(lines[..i], lines[i], samples, seen);
      i := i + 1;
    }
    assert lines[..i] == lines;
  }

  /** One pass of the loop of `build_typography_samples`: a line whose
      lower-cased normalised form is new adds its sample and its key. */
  method AddSampleLine(done: seq<string>, line: string, samples: seq<TypographySample>, seen: set<string>)
    returns (samples': seq<TypographySample>, seen': set<string>)
    requires samples == SamplesSpec(done)
    requires forall x :: x in seen <==> x in LineKeys(done)
    ensures samples' == SamplesSpec(done + [line])
    ensures forall x :: x in seen' <==> x in LineKeys(done + [line])
  {
    var normalized := Join(" ", Split(line));
    SamplesSnoc(done, line);
    samples', seen' := samples, seen;
    if !(normalized == [] || Lower(normalized) in seen) {
      seen' := seen + {Lower(normalized)};
      samples' := samples + [TypographySample(normalized, InferCasing(normalized),
                                             InferWeight(normalized), InferClassification(normalized))];
    }
  }

  function LowerTexts(ss: seq<TypographySample>): (r: seq<string>)
    ensures |r| == |ss| && forall k :: 0 <= k < |ss| ==> r[k] == Lower(ss[k].text)
  {
    seq(|ss|, k requires 0 <= k < |ss| => Lower(ss[k].text))
  }

  /** The first line of `lines` whose normalised form is `n` regardless of case. */
  predicate FirstSpelling(lines: seq<string>, n: string) {
    exists i :: 0 <= i < |lines| && Normalize(lines[i]) == n &&
      forall j :: 0 <= j < i ==> Lower(Normalize(lines[j])) != Lower(n)
  }

  lemma LowerTextsSnoc(ss: seq<TypographySample>, t: TypographySample)
    ensures LowerTexts(ss + [t]) == LowerTexts(ss) + [Lower(t.text)]
  {
    var l, r := LowerTexts(ss + [t]), LowerTexts(ss) + [Lower(t.text)];
    forall k | 0 <= k < |l| ensures l[k] == r[k] {
      if k < |ss| { assert (ss + [t])[k] == ss[k]; }
    }
  }

  lemma SamplesSnoc(front: seq<string>, line: string)
    ensures var n := Normalize(line);
            SamplesSpec(front + [line]) ==
              if n == [] || Lower(n) in LineKeys(front) then SamplesSpec(front)
              else SamplesSpec(front) + [Sample(n)]
    ensures LineKeys(front + [line]) == LineKeys(front) + LineKey(line)
  {
    assert (front + [line])[..|front|] == front;
    FlatMapSnoc(front, line, LineKey);
  }

  /** The lower-cased sample texts are the keys of the non-blank lines, each
      once, in order of first appearance. */
  lemma {:induction false} SamplesKeys(lines: seq<string>)
    ensures LowerTexts(SamplesSpec(lines)) == Dedup(LineKeys(lines))
  {
    if lines != [] {
      var front := lines[..|lines| - 1];
      var line := lines[|lines| - 1];
      var n := Normalize(line);
      SamplesKeys(front);
      SnocFront(lines);
      SamplesSnoc(front, line);
      DedupSnoc(LineKeys(front), Lower(n));
      DedupProps(LineKeys(front));
      if n == [] {
        assert LineKeys(lines) == LineKeys(front);
      } else {
        assert LineKeys(lines) == LineKeys(front) + [Lower(n)];
        if Lower(n) !in LineKeys(front) {
          LowerTextsSnoc(SamplesSpec(front), Sample(n));
        }
      }
    }
  }

  /** A sample built from a non-empty normalised text by the three
      inference rules. */
  predicate WellFormed(t: TypographySample) {
    t.text != [] && IsNormalized(t.text) && t == Sample(t.text)
  }

  lemma {:induction false} SamplesForm(lines: seq<string>)
    ensures forall k :: 0 <= k < |SamplesSpec(lines)| ==> WellFormed(SamplesSpec(lines)[k])
  {
    if lines != [] {
      var front := lines[..|lines| - 1];
      var line := lines[|lines| - 1];
      var n := Normalize(line);
      SamplesForm(front);
      SnocFront(lines);
      SamplesSnoc(front, line);
      var prev := SamplesSpec(front);
      if !(n == [] || Lower(n) in LineKeys(front)) {
        NormalizeShape(line);
        assert WellFormed(Sample(n));
        AllSnoc(prev, Sample(n), WellFormed);
      }
    }
  }

  lemma FirstSpellingExtend(front: seq<string>, line: string, n: string)
    requires FirstSpelling(front, n)
    ensures FirstSpelling(front + [line], n)
  {
    var lines := front + [line];
    var i :| 0 <= i < |front| && Normalize(front[i]) == n &&
             forall j :: 0 <= j < i ==> Lower(Normalize(front[j])) != Lower(n);
    assert lines[i] == front[i];
    assert forall j :: 0 <= j < i ==> lines[j] == front[j];
  }

  lemma FirstSpellingNew(front: seq<string>, line: string)
    requires Normalize(line) != [] && Lower(Normalize(line)) !in LineKeys(front)
    ensures FirstSpelling(front + [line], Normalize(line))
  {
    var lines := front + [line];
    var n := Normalize(line);
    forall j | 0 <= j < |front|
      ensures Lower(Normalize(lines[j])) != Lower(n)
    {
      assert lines[j] == front[j];
      if Normalize(front[j]) != [] {
        LineKeyIn(front, j);
      }
    }
    assert Normalize(lines[|front|]) == n;
  }

  predicate AllFirstSpelling(lines: seq<string>, ss: seq<TypographySample>) {
    forall k :: 0 <= k < |ss| ==> FirstSpelling(lines, ss[k].text)
  }

  lemma AllFirstSpellingExtend(front: seq<string>, line: string, ss: seq<TypographySample>)
    requires AllFirstSpelling(front, ss)
    ensures AllFirstSpelling(front + [line], ss)
  {
    forall k | 0 <= k < |ss| ensures FirstSpelling(front + [line], ss[k].text) {
      FirstSpellingExtend(front, line, ss[k].text);
    }
  }

  lemma AllFirstSpellingSnoc(lines: seq<string>, ss: seq<TypographySample>, t: TypographySample)
    requires AllFirstSpelling(lines, ss) && FirstSpelling(lines, t.text)
    ensures AllFirstSpelling(lines, ss + [t])
  {
    var cur := ss + [t];
    forall k | 0 <= k < |cur| ensures FirstSpelling(lines, cur[k].text) {
      if k < |ss| { assert cur[k] == ss[k]; }
    }
  }

  /** Each sample keeps the spelling of the first line with its key. */
  lemma {:induction false} SamplesFirstSpelling(lines: seq<string>)
    ensures AllFirstSpelling(lines, SamplesSpec(lines))
  {
    if lines != [] {
      var front := lines[..|lines| - 1];
      var line := lines[|lines| - 1];
      var n := Normalize(line);
      SnocFront(lines);
      var prev := SamplesSpec(front);
      SamplesFirstSpelling(front);
      AllFirstSpellingExtend(front, line, prev);
      if n == [] || Lower(n) in LineKeys(front) {
        assert SamplesSpec(lines) == prev;
      } else {
        var t := Sample(n);
        assert SamplesSpec(lines) == prev + [t];
        FirstSpellingNew(front, line);
        AllFirstSpellingSnoc(lines, prev, t);
      }
    }
  }

  lemma LineKeyIn(lines: seq<string>, j: nat)
    requires j < |lines| && Normalize(lines[j]) != []
    ensures Lower(Normalize(lines[j])) in LineKeys(lines)
  {
    assert lines == lines[..j] + [lines[j]] + lines[j + 1..];
    FlatMapAppend(lines[..j] + [lines[j]], lines[j + 1..], LineKey);
    FlatMapSnoc(lines[..j], lines[j], LineKey);
  }

  /** The lines that are blank after normalisation contribute nothing. */
  lemma {:induction false} LineKeysEmpty(lines: seq<string>)
    ensures LineKeys(lines) == [] <==> forall i :: 0 <= i < |lines| ==> AllSpace(lines[i])
  {
    if lines != [] {
      var front := lines[..|lines| - 1];
      var line := lines[|lines| - 1];
      LineKeysEmpty(front);
      SnocFront(lines);
      FlatMapSnoc(front, line, LineKey);
      NormalizeShape(line);
      assert forall i :: 0 <= i < |front| ==> lines[i] == front[i];
    }
  }

  /** The samples are distinct case-insensitively, at most one per line, and
      there are none exactly when every line is blank. */
  lemma SamplesDistinct(lines: seq<string>)
    ensures DistinctUnder(SamplesSpec(lines), (s: TypographySample) => Lower(s.text))
    ensures |SamplesSpec(lines)| <= |lines|
    ensures SamplesSpec(lines) == [] <==> forall i :: 0 <= i < |lines| ==> AllSpace(lines[i])
  {
    SamplesKeys(lines);
    DedupProps(LineKeys(lines));
    LineKeysEmpty(lines);
    LineKeysLength(lines);
    var s := SamplesSpec(lines);
    forall i, j | 0 <= i < j < |s| ensures Lower(s[i].text) != Lower(s[j].text) {
      assert LowerTexts(s)[i] == Dedup(LineKeys(lines))[i];
      assert LowerTexts(s)[j] == Dedup(LineKeys(lines))[j];
    }
    if s == [] {
      assert LowerTexts(s) == [];
    } else {
      assert LowerTexts(s) != [];
    }
  }

  lemma {:induction false} LineKeysLength(lines: seq<string>)
    ensures |LineKeys(lines)| <= |lines|
  {
    if lines != [] {
      var front := lines[..|lines| - 1];
      LineKeysLength(front);
      assert lines == front + [lines[|lines| - 1]];
      FlatMapSnoc(front, lines[|lines| - 1], LineKey);
    }
  }
}
