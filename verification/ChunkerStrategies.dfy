/** The five chunking strategies and the loop over a document's segments. */
module ChunkerStrategies {
  import opened Wrappers
  import opened ChunkerText
  import opened Chunker
  import opened ChunkerMerge
  import opened ChunkerLaws

  // ---------- what every strategy promises ----------

  /** Bad parameters are refused; otherwise no chunk is too long and nothing but the repeated prefixes
      is added to the ink of the text. The only other failure needs a positive overlap. */
  ghost predicate SplitOk(r: Result<seq<string>, ChunkError>, text: string, size: int, overlap: int) {
    && (!ValidParameters(size, overlap) ==> r == Failure(BadParameters))
    && (ValidParameters(size, overlap) && r.Failure? ==> r.error == BlankUnit && overlap > 0)
    && (r.Success? ==> Fits(r.value, size) && Covers(r.value, overlap, Ink(text)))
  }

  /** With overlap 0 no strategy fails, loses or repeats a character that is not whitespace. */
  lemma NothingLost(r: Result<seq<string>, ChunkError>, text: string, size: int)
    requires size > 0 && SplitOk(r, text, size, 0)
    ensures r.Success? && Fits(r.value, size) && Ink(Concat(r.value)) == Ink(text)
  {
    ZeroOverlapKeepsInk(r.value, Ink(text));
  }

  lemma NothingCovers(overlap: int)
    ensures Covers([], overlap, "")
  {
    assert DropsOk([], [], overlap) && Ink(Rest([], [])) == "";
  }

  lemma OneCovers(text: string, overlap: int)
    requires overlap >= 0
    ensures Covers([text], overlap, Ink(text))
  {
    assert DropOk([text], [0], overlap, 0);
    assert DropsOk([text], [0], overlap);
    assert Rest([text], [0]) == text[0..] + Rest([], []) == text;
  }

  /** Windows without overlap are the text itself. */
  lemma SlicesWhole(text: string, size: int)
    requires size > 0
    ensures Concat(Slices(text, 0, size, size)) == text
  {
    var slices := Slices(text, 0, size, size);
    var drops := SlicesCover(text, 0, size, 0);
    forall i | 0 <= i < |drops| ensures drops[i] == 0 {
      assert DropOk(slices, drops, 0, i);
    }
    RestOfZero(slices, drops);
    assert text[0..] == text;
  }

  /** Units that fit, and so can only jam the merge when there is an overlap. */
  predicate UnitsFit(units: seq<string>, size: int) {
    forall i :: 0 <= i < |units| ==> 0 < |units[i]| <= size
  }

  lemma InkOfMore(units: seq<string>, more: seq<string>)
    ensures Ink(Concat(units + more)) == Ink(Concat(units)) + Ink(Concat(more))
  {
    ConcatAppend(units, more);
    InkConcat(Concat(units), Concat(more));
  }

  /** `units` are the pieces of the texts `done`. */
  ghost predicate Collected(units: seq<string>, done: seq<string>, size: int) {
    UnitsFit(units, size) && Ink(Concat(units)) == Ink(Concat(done))
  }

  lemma CollectMore(units: seq<string>, texts: seq<string>, i: nat, more: seq<string>, size: int)
    requires i < |texts| && Collected(units, texts[..i], size)
    requires UnitsFit(more, size) && Ink(Concat(more)) == Ink(texts[i])
    ensures Collected(units + more, texts[..i + 1], size)
  {
    TakeNext(texts, i);
    InkOfOneMore(texts[..i], texts[i]);
    InkOfMore(units, more);
    AllFit(units, more, size);
  }

  lemma TakeNext(texts: seq<string>, i: nat)
    requires i < |texts|
    ensures texts[..i + 1] == texts[..i] + [texts[i]]
  {
  }

  lemma AllFit(units: seq<string>, more: seq<string>, size: int)
    requires UnitsFit(units, size) && UnitsFit(more, size)
    ensures UnitsFit(units + more, size)
  {
  }

  lemma CollectOne(unit: string, size: int)
    requires 0 < |unit| <= size
    ensures UnitsFit([unit], size) && Ink(Concat([unit])) == Ink(unit)
  {
    ConcatOne(unit);
  }

  lemma InkOfOneMore(units: seq<string>, unit: string)
    ensures Ink(Concat(units + [unit])) == Ink(Concat(units)) + Ink(unit)
  {
    InkOfMore(units, [unit]);
    ConcatOne(unit);
  }

  // ---------- the strategies ----------

  /** What the fixed strategy returns: windows of the normalised text. */
  function FixedResult(text: string, size: int, overlap: int): Result<seq<string>, ChunkError> {
    if ValidParameters(size, overlap) then Success(FixedSplit(text, size, overlap)) else Failure(BadParameters)
  }

  method Fixed(text: string, size: int, overlap: int) returns (r: Result<seq<string>, ChunkError>)
    ensures r == FixedResult(text, size, overlap) && SplitOk(r, text, size, overlap)
    ensures r.Success? ==> Windowed(Normalize(text), 0, size, size - overlap, r.value)
  {
    if !ValidParameters(size, overlap) {
      return Failure(BadParameters);
    }
    FixedSplitCovers(text, size, overlap);
    HardSplitIsWindowed(text, size, overlap);
    r := Success(FixedSplit(text, size, overlap));
  }

  /** The units of the sentences, in order. */
  function Windows(sentences: seq<string>, size: int): seq<string>
    requires size > 0 && forall i :: 0 <= i < |sentences| ==> sentences[i] != ""
  {
    if sentences == [] then []
    else Windows(sentences[..|sentences| - 1], size) + WindowsOf(sentences[|sentences| - 1], size)
  }

  lemma WindowsNext(sentences: seq<string>, i: nat, size: int)
    requires size > 0 && i < |sentences| && forall j :: 0 <= j < |sentences| ==> sentences[j] != ""
    ensures Windows(sentences[..i + 1], size) == Windows(sentences[..i], size) + WindowsOf(sentences[i], size)
  {
    assert sentences[..i + 1][..i] == sentences[..i];
  }

  method SplitLongParagraph(paragraph: string, size: int) returns (units: seq<string>)
    requires size > 0
    ensures units == Windows(Sentences(paragraph), size)
    ensures UnitsFit(units, size) && Ink(Concat(units)) == Ink(paragraph)
    ensures |paragraph| > size ==> UnitsOfOne(paragraph, units, size)
  {
    var sentences := Sentences(paragraph);
    units := [];
    for i := 0 to |sentences|
      invariant Collected(units, sentences[..i], size) && units == Windows(sentences[..i], size)
    {
      WindowsNext(sentences, i, size);
      var more := WindowsOf(sentences[i], size);
      CollectMore(units, sentences, i, more, size);
      units := units + more;
    }
    assert sentences[..|sentences|] == sentences;
    if |paragraph| > size {
      LongParagraphIsExact(paragraph, size);
    }
  }

  /** The stripped sentences that are not blank. */
  function Sentences(paragraph: string): (sentences: seq<string>)
    ensures Ink(Concat(sentences)) == Ink(paragraph)
    ensures forall i :: 0 <= i < |sentences| ==> sentences[i] != ""
    ensures exists pieces :: CutAtSentences(paragraph, pieces) && sentences == Stripped(pieces)
  {
    SplitSentencesIsExact(paragraph);
    StrippedKeepsInk(SplitSentences(paragraph, 0, 1));
    SplitSentencesKeepsInk(paragraph, 0, 1);
    assert paragraph[0..] == paragraph;
    var kept := Stripped(SplitSentences(paragraph, 0, 1));
    assert forall i :: 0 <= i < |kept| ==> kept[i] in kept;
    kept
  }

  /** A sentence that is too long is cut, another one stays whole. */
  function WindowsOf(sentence: string, size: int): (units: seq<string>)
    requires size > 0 && sentence != ""
    ensures UnitsFit(units, size) && Ink(Concat(units)) == Ink(sentence)
    ensures if |sentence| > size then Windowed(sentence, 0, size, size, units) else units == [sentence]
  {
    SlicesAreWindows(sentence, 0, size, size);
    ConcatOne(sentence);
    SlicesWhole(sentence, size);
    if |sentence| > size then Slices(sentence, 0, size, size) else [sentence]
  }

  /** A paragraph that is too long is cut into normalised windows. */
  function FixedWindowsOf(paragraph: string, size: int): (units: seq<string>)
    requires size > 0 && paragraph != ""
    ensures UnitsFit(units, size) && Ink(Concat(units)) == Ink(paragraph)
  {
    ConcatOne(paragraph);
    FixedSplitCovers(paragraph, size, 0);
    ZeroOverlapKeepsInk(FixedSplit(paragraph, size, 0), Ink(paragraph));
    if |paragraph| > size then FixedSplit(paragraph, size, 0) else [paragraph]
  }

  /** The units of the paragraphs, in order. */
  function FixedUnits(paragraphs: seq<string>, size: int): seq<string>
    requires size > 0 && forall i :: 0 <= i < |paragraphs| ==> paragraphs[i] != ""
  {
    if paragraphs == [] then []
    else FixedUnits(paragraphs[..|paragraphs| - 1], size) + FixedWindowsOf(paragraphs[|paragraphs| - 1], size)
  }

  lemma FixedUnitsNext(paragraphs: seq<string>, i: nat, size: int)
    requires size > 0 && i < |paragraphs| && forall j :: 0 <= j < |paragraphs| ==> paragraphs[j] != ""
    ensures FixedUnits(paragraphs[..i + 1], size) == FixedUnits(paragraphs[..i], size) + FixedWindowsOf(paragraphs[i], size)
  {
    assert paragraphs[..i + 1][..i] == paragraphs[..i];
  }

  /** A paragraph that fits is one unit; one that does not is cut into windows of its normalised text. */
  ghost predicate FixedUnitsOfOne(paragraph: string, units: seq<string>, size: int)
    requires size > 0
  {
    if |paragraph| > size then Windowed(Normalize(paragraph), 0, size, size, units) else units == [paragraph]
  }

  ghost predicate FixedUnitsMadeOf(paragraphs: seq<string>, units: seq<string>, size: int)
    requires size > 0
    decreases |paragraphs|
  {
    if paragraphs == [] then units == []
    else
      var n := |paragraphs| - 1;
      exists k :: 0 <= k <= |units| && FixedUnitsMadeOf(paragraphs[..n], units[..k], size) && FixedUnitsOfOne(paragraphs[n], units[k..], size)
  }

  lemma FixedUnitsMore(paragraphs: seq<string>, units: seq<string>, more: seq<string>, size: int)
    requires size > 0 && paragraphs != [] && FixedUnitsMadeOf(paragraphs[..|paragraphs| - 1], units, size)
    requires FixedUnitsOfOne(paragraphs[|paragraphs| - 1], more, size)
    ensures FixedUnitsMadeOf(paragraphs, units + more, size)
  {
    assert (units + more)[..|units|] == units && (units + more)[|units|..] == more;
  }

  lemma {:induction false} FixedUnitsAreExact(paragraphs: seq<string>, size: int)
    requires size > 0 && forall i :: 0 <= i < |paragraphs| ==> paragraphs[i] != ""
    ensures FixedUnitsMadeOf(paragraphs, FixedUnits(paragraphs, size), size)
  {
    if paragraphs != [] {
      var n := |paragraphs| - 1;
      FixedUnitsAreExact(paragraphs[..n], size);
      HardSplitIsWindowed(paragraphs[n], size, 0);
      FixedUnitsMore(paragraphs, FixedUnits(paragraphs[..n], size), FixedWindowsOf(paragraphs[n], size), size);
    }
  }

  /** What the paragraph strategy returns. */
  function ParagraphResult(text: string, size: int, overlap: int): Result<seq<string>, ChunkError> {
    if !ValidParameters(size, overlap) then Failure(BadParameters)
    else Finished(Merged(FixedUnits(Paragraphs(text), size), size, overlap))
  }

  method Paragraph(text: string, size: int, overlap: int) returns (r: Result<seq<string>, ChunkError>)
    ensures r == ParagraphResult(text, size, overlap) && SplitOk(r, text, size, overlap)
  {
    if !ValidParameters(size, overlap) {
      return Failure(BadParameters);
    }
    var paragraphs := Paragraphs(text);
    var units: seq<string> := [];
    for i := 0 to |paragraphs|
      invariant Collected(units, paragraphs[..i], size) && units == FixedUnits(paragraphs[..i], size)
    {
      FixedUnitsNext(paragraphs, i, size);
      var more := FixedWindowsOf(paragraphs[i], size);
      CollectMore(units, paragraphs, i, more, size);
      units := units + more;
    }
    assert paragraphs[..|paragraphs|] == paragraphs;
    r := MergeUnits(units, size, overlap);
    if overlap == 0 {
      FittingUnitsAreHarmless(units, size);
      MergeSucceeds(units, size, overlap, r);
    }
  }

  /** The stripped paragraphs of the normalised text that are not blank. */
  function Paragraphs(text: string): (paragraphs: seq<string>)
    ensures Ink(Concat(paragraphs)) == Ink(text)
    ensures forall i :: 0 <= i < |paragraphs| ==> !AllSpace(paragraphs[i]) && paragraphs[i] != ""
    ensures exists pieces :: CutAtBlankLines(Normalize(text), pieces) && paragraphs == Stripped(pieces)
  {
    SplitBlankLinesIsExact(Normalize(text));
    NormalizeKeepsInk(text);
    StrippedKeepsInk(SplitBlankLines(Normalize(text), 0));
    SplitBlankLinesKeepsInk(Normalize(text), 0);
    var kept := Stripped(SplitBlankLines(Normalize(text), 0));
    assert forall i :: 0 <= i < |kept| ==> kept[i] in kept;
    kept
  }

  lemma FittingUnitsAreHarmless(units: seq<string>, size: int)
    requires UnitsFit(units, size)
    ensures forall u :: u in units ==> Harmless(u, size, 0)
  {
  }

  /** A paragraph that is too long is cut at its sentences. */
  function UnitsOf(paragraph: string, size: int): seq<string>
    requires size > 0
  {
    if |paragraph| <= size then [paragraph] else Windows(Sentences(paragraph), size)
  }

  function UnitsOfAll(paragraphs: seq<string>, size: int): seq<string>
    requires size > 0
  {
    if paragraphs == [] then []
    else UnitsOfAll(paragraphs[..|paragraphs| - 1], size) + UnitsOf(paragraphs[|paragraphs| - 1], size)
  }

  lemma UnitsNext(paragraphs: seq<string>, i: nat, size: int)
    requires size > 0 && i < |paragraphs|
    ensures UnitsOfAll(paragraphs[..i + 1], size) == UnitsOfAll(paragraphs[..i], size) + UnitsOf(paragraphs[i], size)
  {
    assert paragraphs[..i + 1][..i] == paragraphs[..i];
  }

  /** What the recursive strategy returns. */
  function RecursiveResult(text: string, size: int, overlap: int): Result<seq<string>, ChunkError> {
    var normal := Normalize(text);
    if !ValidParameters(size, overlap) then Failure(BadParameters)
    else if normal == "" then Success([])
    else if |normal| <= size then Success([normal])
    else Finished(Merged(UnitsOfAll(Stripped(SplitDoubleNewlines(normal, 0)), size), size, overlap))
  }

  method Recursive(text: string, size: int, overlap: int) returns (r: Result<seq<string>, ChunkError>)
    ensures r == RecursiveResult(text, size, overlap)
    ensures SplitOk(r, text, size, overlap)
    ensures ValidParameters(size, overlap) && 0 < |Normalize(text)| <= size ==> r == Success([Normalize(text)])
    ensures ValidParameters(size, overlap) && |Normalize(text)| > size ==>
              exists pieces, units ::
                && CutAtDoubles(Normalize(text), pieces) && UnitsMadeOf(Stripped(pieces), units, size)
                && r == Finished(Merged(units, size, overlap))
  {
    if !ValidParameters(size, overlap) {
      return Failure(BadParameters);
    }
    var normal := Normalize(text);
    NormalizeKeepsInk(text);
    if normal == "" {
      NothingCovers(overlap);
      return Success([]);
    }
    if |normal| <= size {
      OneCovers(normal, overlap);
      return Success([normal]);
    }
    var units := RecursiveUnits(normal, size);
    r := MergeUnits(units, size, overlap);
    if overlap == 0 {
      FittingUnitsAreHarmless(units, size);
      MergeSucceeds(units, size, overlap, r);
    }
  }

  /** A paragraph that fits is one unit; one that does not is its sentences, of which each that fits is one
      unit and each other is cut into windows. */
  ghost predicate UnitsOfOne(paragraph: string, units: seq<string>, size: int)
    requires size > 0
  {
    if |paragraph| <= size then units == [paragraph]
    else
      exists pieces :: CutAtSentences(paragraph, pieces) && WindowsOfAll(Stripped(pieces), units, size)
  }

  ghost predicate WindowsOfAll(sentences: seq<string>, units: seq<string>, size: int)
    requires size > 0
    decreases |sentences|
  {
    if sentences == [] then units == []
    else
      var n := |sentences| - 1;
      exists k :: 0 <= k <= |units| && WindowsOfAll(sentences[..n], units[..k], size)
               && if |sentences[n]| > size then Windowed(sentences[n], 0, size, size, units[k..]) else units[k..] == [sentences[n]]
  }

  ghost predicate UnitsMadeOf(paragraphs: seq<string>, units: seq<string>, size: int)
    requires size > 0
    decreases |paragraphs|
  {
    if paragraphs == [] then units == []
    else
      var n := |paragraphs| - 1;
      exists k :: 0 <= k <= |units| && UnitsMadeOf(paragraphs[..n], units[..k], size) && UnitsOfOne(paragraphs[n], units[k..], size)
  }

  lemma {:induction false} WindowsAreExact(sentences: seq<string>, size: int)
    requires size > 0 && forall i :: 0 <= i < |sentences| ==> sentences[i] != ""
    ensures WindowsOfAll(sentences, Windows(sentences, size), size)
  {
    if sentences != [] {
      var n := |sentences| - 1;
      WindowsAreExact(sentences[..n], size);
      var before, more := Windows(sentences[..n], size), WindowsOf(sentences[n], size);
      assert (before + more)[..|before|] == before && (before + more)[|before|..] == more;
    }
  }

  lemma LongParagraphIsExact(paragraph: string, size: int)
    requires size > 0 && |paragraph| > size
    ensures UnitsOfOne(paragraph, Windows(Sentences(paragraph), size), size)
  {
    var sentences := Sentences(paragraph);
    WindowsAreExact(sentences, size);
    var pieces :| CutAtSentences(paragraph, pieces) && sentences == Stripped(pieces);
  }

  lemma MadeOfMore(paragraphs: seq<string>, i: nat, units: seq<string>, more: seq<string>, size: int)
    requires size > 0 && i < |paragraphs| && UnitsMadeOf(paragraphs[..i], units, size) && UnitsOfOne(paragraphs[i], more, size)
    ensures UnitsMadeOf(paragraphs[..i + 1], units + more, size)
  {
    assert paragraphs[..i + 1][..i] == paragraphs[..i];
    assert (units + more)[..|units|] == units && (units + more)[|units|..] == more;
  }

  method RecursiveUnits(normal: string, size: int) returns (units: seq<string>)
    requires size > 0
    ensures units == UnitsOfAll(Stripped(SplitDoubleNewlines(normal, 0)), size)
    ensures UnitsFit(units, size) && Ink(Concat(units)) == Ink(normal)
    ensures exists pieces :: CutAtDoubles(normal, pieces) && UnitsMadeOf(Stripped(pieces), units, size)
  {
    SplitDoubleNewlinesIsExact(normal);
    var paragraphs := Stripped(SplitDoubleNewlines(normal, 0));
    StrippedKeepsInk(SplitDoubleNewlines(normal, 0));
    SplitDoubleNewlinesKeepsInk(normal, 0);
    units := [];
    for i := 0 to |paragraphs|
      invariant Collected(units, paragraphs[..i], size) && units == UnitsOfAll(paragraphs[..i], size)
      invariant UnitsMadeOf(paragraphs[..i], units, size)
    {
      var paragraph := paragraphs[i];
      assert paragraph in paragraphs;
      UnitsNext(paragraphs, i, size);
      var more := [paragraph];
      if |paragraph| <= size {
        CollectOne(paragraph, size);
      } else {
        more := SplitLongParagraph(paragraph, size);
      }
      CollectMore(units, paragraphs, i, more, size);
      MadeOfMore(paragraphs, i, units, more, size);
      units := units + more;
    }
    assert paragraphs[..|paragraphs|] == paragraphs;
  }

  /** What the semantic strategy returns. */
  ghost predicate SemanticallySplit(r: Result<seq<string>, ChunkError>, text: string, size: int, overlap: int,
                                    far: Option<(string, string) -> bool>) {
    if !ValidParameters(size, overlap) || |Paragraphs(text)| < 2 || far.None? then r == RecursiveResult(text, size, overlap)
    else
      exists groups ::
        && GroupedAs(Paragraphs(text), GroupTexts(groups), groups, size, far.value)
        && r == Finished(Merged(GroupTexts(groups), size, overlap))
  }

  /** `far` says whether the embeddings of two neighbouring paragraphs fall below the threshold;
      without it the embedder has failed, and the recursive strategy splits, as it does a single
      paragraph. Grouped paragraphs never jam the merge, whatever the overlap is. */
  method Semantic(text: string, size: int, overlap: int, far: Option<(string, string) -> bool>)
    returns (r: Result<seq<string>, ChunkError>)
    ensures SplitOk(r, text, size, overlap) && SemanticallySplit(r, text, size, overlap, far)
    ensures ValidParameters(size, overlap) && |Paragraphs(text)| >= 2 && far.Some? ==> r.Success?
  {
    if !ValidParameters(size, overlap) {
      return Failure(BadParameters);
    }
    var units := Paragraphs(text);
    if |units| < 2 || far.None? {
      r := Recursive(text, size, overlap);
      return;
    }
    var grouped, groups := GroupParagraphs(units, size, far.value);
    r := MergeUnits(grouped, size, overlap);
    assert forall g :: g in grouped ==> Harmless(g, size, overlap);
    MergeSucceeds(grouped, size, overlap, r);
    assert grouped == GroupTexts(groups);
  }

  // ---------- groups of paragraphs ----------

  /** Paragraphs `from` to `to`, one below the other. */
  datatype Group = Group(text: string, from: nat, to: nat)

  function GroupTexts(groups: seq<Group>): (texts: seq<string>)
    ensures |texts| == |groups| && forall i :: 0 <= i < |groups| ==> texts[i] == groups[i].text
  {
    seq(|groups|, i requires 0 <= i < |groups| => groups[i].text)
  }

  function LastGroup(groups: seq<Group>): Option<Group> {
    if groups == [] then None else Some(groups[|groups| - 1])
  }

  /** Paragraph `j` starts a group of its own behind the text that is grouped so far. */
  predicate Breaks(text: string, units: seq<string>, j: nat, size: int, far: (string, string) -> bool)
    requires 0 < j < |units|
  {
    far(units[j - 1], units[j]) || |text| + |units[j]| + 1 > size
  }

  predicate GroupOk(before: Option<Group>, g: Group, units: seq<string>, size: int, far: (string, string) -> bool) {
    && g.from == (if before.Some? then before.value.to else 0) < g.to <= |units| && g.text == Lines(units[g.from..g.to])
    && (before.Some? && 0 < g.from ==> Breaks(before.value.text, units, g.from, size, far))
    && forall j :: g.from < j < g.to ==> !Breaks(Lines(units[g.from..j]), units, j, size, far)
  }

  /** Groups follow one another, and break exactly where neighbours are far apart or too long together. */
  predicate AllGrouped(groups: seq<Group>, units: seq<string>, size: int, far: (string, string) -> bool) {
    groups != [] ==>
      && AllGrouped(groups[..|groups| - 1], units, size, far)
      && GroupOk(LastGroup(groups[..|groups| - 1]), groups[|groups| - 1], units, size, far)
  }

  lemma AddGroup(groups: seq<Group>, g: Group, units: seq<string>, size: int, far: (string, string) -> bool)
    requires AllGrouped(groups, units, size, far) && GroupOk(LastGroup(groups), g, units, size, far)
    ensures AllGrouped(groups + [g], units, size, far) && GroupTexts(groups + [g]) == GroupTexts(groups) + [g.text]
    ensures LastGroup(groups + [g]) == Some(g)
  {
    assert (groups + [g])[..|groups|] == groups;
  }

  lemma LongerGroup(before: Option<Group>, g: Group, units: seq<string>, size: int, far: (string, string) -> bool)
    requires GroupOk(before, g, units, size, far) && 0 < g.to < |units| && !Breaks(g.text, units, g.to, size, far)
    ensures GroupOk(before, Group(g.text + "\n" + units[g.to], g.from, g.to + 1), units, size, far)
  {
    assert units[g.from..g.to + 1] == units[g.from..g.to] + [units[g.to]];
    LinesMore(units[g.from..g.to], units[g.to]);
  }

  lemma NewGroup(g: Group, units: seq<string>, size: int, far: (string, string) -> bool)
    requires 0 < g.to < |units| && Breaks(g.text, units, g.to, size, far)
    ensures GroupOk(Some(g), Group(units[g.to], g.to, g.to + 1), units, size, far)
  {
    assert units[g.to..g.to + 1] == [units[g.to]];
  }

  /** The first `i` paragraphs are in finished groups and in the current one. */
  ghost predicate GroupedSoFar(units: seq<string>, i: nat, grouped: seq<string>, groups: seq<Group>, g: Group, size: int,
                               far: (string, string) -> bool) {
    && i <= |units| && InkGrouped(units, i, grouped, g.text) && grouped == GroupTexts(groups) && g.to == i
    && AllGrouped(groups, units, size, far) && GroupOk(LastGroup(groups), g, units, size, far)
  }

  ghost predicate InkGrouped(units: seq<string>, i: nat, grouped: seq<string>, current: string)
    requires i <= |units|
  {
    && Ink(Concat(grouped)) + Ink(current) == Ink(Concat(units[..i]))
    && !AllSpace(current) && forall g :: g in grouped ==> !AllSpace(g)
  }

  lemma InkBreaks(units: seq<string>, i: nat, grouped: seq<string>, current: string)
    requires i < |units| && InkGrouped(units, i, grouped, current) && !AllSpace(units[i])
    ensures InkGrouped(units, i + 1, grouped + [current], units[i])
  {
    TakeNext(units, i);
    InkOfOneMore(units[..i], units[i]);
    InkOfOneMore(grouped, current);
  }

  lemma InkJoins(units: seq<string>, i: nat, grouped: seq<string>, current: string)
    requires i < |units| && InkGrouped(units, i, grouped, current) && !AllSpace(units[i])
    ensures InkGrouped(units, i + 1, grouped, current + "\n" + units[i])
  {
    TakeNext(units, i);
    InkOfOneMore(units[..i], units[i]);
    JoinInk(Ink(Concat(grouped)), current, units[i]);
  }

  lemma FirstGroup(units: seq<string>, size: int, far: (string, string) -> bool)
    requires units != [] && !AllSpace(units[0])
    ensures GroupedSoFar(units, 1, [], [], Group(units[0], 0, 1), size, far)
  {
    ConcatOne(units[0]);
    assert units[..1] == [units[0]] == units[0..1];
  }

  /** The last group is finished. */
  lemma InkGroupedAll(units: seq<string>, grouped: seq<string>, current: string)
    requires InkGrouped(units, |units|, grouped, current)
    ensures Ink(Concat(grouped + [current])) == Ink(Concat(units)) && forall g :: g in grouped + [current] ==> !AllSpace(g)
  {
    assert units[..|units|] == units;
    InkOfOneMore(grouped, current);
  }

  lemma GroupBreaks(units: seq<string>, i: nat, grouped: seq<string>, groups: seq<Group>, g: Group, size: int,
                    far: (string, string) -> bool)
    requires 0 < i < |units| && !AllSpace(units[i]) && Breaks(g.text, units, i, size, far)
    requires GroupedSoFar(units, i, grouped, groups, g, size, far)
    ensures GroupedSoFar(units, i + 1, grouped + [g.text], groups + [g], Group(units[i], i, i + 1), size, far)
  {
    InkBreaks(units, i, grouped, g.text);
    AddGroup(groups, g, units, size, far);
    NewGroup(g, units, size, far);
  }

  lemma GroupJoins(units: seq<string>, i: nat, grouped: seq<string>, groups: seq<Group>, g: Group, size: int,
                   far: (string, string) -> bool)
    requires 0 < i < |units| && !AllSpace(units[i]) && !Breaks(g.text, units, i, size, far)
    requires GroupedSoFar(units, i, grouped, groups, g, size, far)
    ensures GroupedSoFar(units, i + 1, grouped, groups, Group(g.text + "\n" + units[i], g.from, i + 1), size, far)
  {
    InkJoins(units, i, grouped, g.text);
    LongerGroup(LastGroup(groups), g, units, size, far);
  }

  /** The finished groups and the last one are all the paragraphs. */
  ghost predicate GroupedAs(units: seq<string>, grouped: seq<string>, groups: seq<Group>, size: int,
                            far: (string, string) -> bool) {
    && grouped == GroupTexts(groups) && AllGrouped(groups, units, size, far)
    && LastGroup(groups).Some? && LastGroup(groups).value.to == |units|
  }

  lemma GroupsEnd(units: seq<string>, grouped: seq<string>, groups: seq<Group>, g: Group, size: int,
                  far: (string, string) -> bool)
    requires GroupedSoFar(units, |units|, grouped, groups, g, size, far)
    ensures GroupedAs(units, grouped + [g.text], groups + [g], size, far)
    ensures Ink(Concat(grouped + [g.text])) == Ink(Concat(units)) && forall t :: t in grouped + [g.text] ==> !AllSpace(t)
  {
    InkGroupedAll(units, grouped, g.text);
    AddGroup(groups, g, units, size, far);
  }

  method GroupParagraphs(units: seq<string>, size: int, far: (string, string) -> bool)
    returns (grouped: seq<string>, ghost groups: seq<Group>)
    requires units != [] && forall i :: 0 <= i < |units| ==> !AllSpace(units[i])
    ensures Ink(Concat(grouped)) == Ink(Concat(units)) && forall g :: g in grouped ==> !AllSpace(g)
    ensures GroupedAs(units, grouped, groups, size, far)
  {
    grouped, groups := [], [];
    var current := units[0];
    ghost var g := Group(current, 0, 1);
    FirstGroup(units, size, far);
    for i := 1 to |units|
      invariant GroupedSoFar(units, i, grouped, groups, g, size, far) && g.text == current
    {
      var unit := units[i];
      if far(units[i - 1], unit) || |current| + |unit| + 1 > size {
        GroupBreaks(units, i, grouped, groups, g, size, far);
        grouped, groups := grouped + [current], groups + [g];
        current, g := unit, Group(unit, i, i + 1);
      } else {
        GroupJoins(units, i, grouped, groups, g, size, far);
        current := current + "\n" + unit;
        g := Group(current, g.from, i + 1);
      }
    }
    GroupsEnd(units, grouped, groups, g, size, far);
    grouped, groups := grouped + [current], groups + [g];
  }

  lemma JoinInk(before: string, current: string, unit: string)
    requires !AllSpace(current)
    ensures before + Ink(current + "\n" + unit) == before + Ink(current) + Ink(unit)
    ensures !AllSpace(current + "\n" + unit)
  {
    assert current + "\n" + unit == current + ("\n" + unit);
    BetweenHasNoInk(current, "\n", unit);
    BlankHasNoInk(current);
    BlankHasNoInk(current + "\n" + unit);
  }

  // ---------- segments ----------

  /** `source` stands for page, section, content type and URL, which are copied. */
  datatype Segment = Segment(text: string, source: nat)
  datatype StructuredChunk = StructuredChunk(content: string, parentContent: string, parentSeq: nat, source: nat)

  datatype Strategy = FixedStrategy | ParagraphStrategy | RecursiveStrategy | SectionStrategy
                    | SemanticStrategy(far: Option<(string, string) -> bool>) | OtherStrategy

  function OwnContent(chunk: StructuredChunk, k: nat): seq<string> {
    if chunk.parentSeq == k then [chunk.content] else []
  }

  /** The contents of the chunks that segment `k` is the parent of. */
  function ContentsOf(chunks: seq<StructuredChunk>, k: nat): seq<string> {
    if chunks == [] then []
    else ContentsOf(chunks[..|chunks| - 1], k) + OwnContent(chunks[|chunks| - 1], k)
  }

  predicate ChunkOk(chunk: StructuredChunk, segments: seq<Segment>, size: int) {
    && chunk.parentSeq < |segments|
    && chunk.parentContent == Normalize(segments[chunk.parentSeq].text)
    && chunk.source == segments[chunk.parentSeq].source
    && 0 < |chunk.content| <= size
  }

  /** What each strategy returns; the sections are those of the segments, so that one splits as the
      recursive strategy does. */
  ghost predicate DoneBy(strategy: Strategy, text: string, size: int, overlap: int, r: Result<seq<string>, ChunkError>) {
    match strategy
    case FixedStrategy => r == FixedResult(text, size, overlap)
    case ParagraphStrategy => r == ParagraphResult(text, size, overlap)
    case RecursiveStrategy => r == RecursiveResult(text, size, overlap)
    case SectionStrategy => r == RecursiveResult(text, size, overlap)
    case SemanticStrategy(far) => SemanticallySplit(r, text, size, overlap, far)
    case OtherStrategy => false
  }

  /** A blank segment is skipped, any other one is normalised first. */
  ghost predicate SplitAs(strategy: Strategy, segment: Segment, size: int, overlap: int, r: Result<seq<string>, ChunkError>) {
    if Normalize(segment.text) == "" then r == Success([]) else DoneBy(strategy, Normalize(segment.text), size, overlap, r)
  }

  /** Each split is what the strategy makes of its segment. */
  ghost predicate AllSplitAs(strategy: Strategy, splits: seq<seq<string>>, segments: seq<Segment>, size: int, overlap: int)
    decreases |segments|
  {
    && |splits| == |segments|
    && (segments != [] ==>
          var n := |segments| - 1;
          && AllSplitAs(strategy, splits[..n], segments[..n], size, overlap)
          && SplitAs(strategy, segments[n], size, overlap, Success(splits[n])))
  }

  method SplitBy(strategy: Strategy, text: string, size: int, overlap: int) returns (r: Result<seq<string>, ChunkError>)
    requires !strategy.OtherStrategy?
    ensures SplitOk(r, text, size, overlap) && DoneBy(strategy, text, size, overlap, r)
  {
    match strategy
    case FixedStrategy => r := Fixed(text, size, overlap);
    case ParagraphStrategy => r := Paragraph(text, size, overlap);
    case SemanticStrategy(far) => r := Semantic(text, size, overlap, far);
    case RecursiveStrategy => r := Recursive(text, size, overlap);
    case SectionStrategy => r := Recursive(text, size, overlap);
  }

  /** One segment: blank ones are skipped. */
  method SplitSegment(strategy: Strategy, segment: Segment, size: int, overlap: int)
    returns (text: string, r: Result<seq<string>, ChunkError>)
    requires !strategy.OtherStrategy?
    ensures text == Normalize(segment.text) && SplitAs(strategy, segment, size, overlap, r)
    ensures r.Success? ==> Fits(r.value, size) && Covers(r.value, overlap, Ink(segment.text))
    ensures ValidParameters(size, overlap) && r.Failure? ==> r.error == BlankUnit && overlap > 0
  {
    text := Normalize(segment.text);
    NormalizeKeepsInk(segment.text);
    r := Success([]);
    NothingCovers(overlap);
    if text != "" {
      r := SplitBy(strategy, text, size, overlap);
    }
  }

  /** The chunks of the first `k` segments. */
  ghost predicate Segmented(strategy: Strategy, chunks: seq<StructuredChunk>, splits: seq<seq<string>>, segments: seq<Segment>,
                            k: nat, size: int, overlap: int)
    requires k <= |segments|
  {
    && Placed(chunks, segments, k, size) && InOrder(chunks) && Covered(chunks, segments, k, overlap)
    && |splits| == k && AllSplitAs(strategy, splits, segments[..k], size, overlap) && Contains(chunks, splits)
  }

  lemma NextSegment(strategy: Strategy, chunks: seq<StructuredChunk>, splits: seq<seq<string>>, segments: seq<Segment>, k: nat,
                    size: int, overlap: int, pieces: seq<string>, more: seq<StructuredChunk>)
    requires k < |segments| && Segmented(strategy, chunks, splits, segments, k, size, overlap)
    requires SplitAs(strategy, segments[k], size, overlap, Success(pieces)) && ContentsOf(more, k) == pieces
    requires Covers(pieces, overlap, Ink(segments[k].text))
    requires forall i :: 0 <= i < |more| ==> ChunkOk(more[i], segments, size) && more[i].parentSeq == k
    ensures Segmented(strategy, chunks + more, splits + [pieces], segments, k + 1, size, overlap)
  {
    NextPlaced(chunks, more, segments, k, size);
    NextCovered(chunks, more, segments, k, size, overlap);
    NextSplitAs(strategy, splits, segments, k, size, overlap, pieces);
    NextContains(chunks, more, splits, segments, k, size);
  }

  /** Every segment's chunks carry its text and position, in order, are what the strategy makes of it, and
      have its ink together; with overlap 0 and valid parameters no strategy fails. */
  method SplitSegments(segments: seq<Segment>, strategy: Strategy, size: int, overlap: int)
    returns (r: Result<seq<StructuredChunk>, ChunkError>, ghost splits: seq<seq<string>>)
    ensures strategy.OtherStrategy? ==> r == Failure(UnknownStrategy)
    ensures !strategy.OtherStrategy? && ValidParameters(size, overlap) && r.Failure? ==> r.error == BlankUnit && overlap > 0
    ensures !strategy.OtherStrategy? && r.Failure? ==>
              exists k :: 0 <= k < |segments| && SplitAs(strategy, segments[k], size, overlap, Failure(r.error))
    ensures r.Success? ==> Segmented(strategy, r.value, splits, segments, |segments|, size, overlap)
  {
    splits := [];
    if strategy.OtherStrategy? {
      return Failure(UnknownStrategy), [];
    }
    var chunks: seq<StructuredChunk> := [];
    for k := 0 to |segments|
      invariant Segmented(strategy, chunks, splits, segments, k, size, overlap)
    {
      var text, pieces := SplitSegment(strategy, segments[k], size, overlap);
      if pieces.Failure? {
        return Failure(pieces.error), [];
      }
      var more := ChunksOf(pieces.value, text, k, segments[k].source);
      NextSegment(strategy, chunks, splits, segments, k, size, overlap, pieces.value, more);
      chunks, splits := chunks + more, splits + [pieces.value];
    }
    r := Success(chunks);
  }

  method ChunksOf(pieces: seq<string>, text: string, k: nat, source: nat) returns (chunks: seq<StructuredChunk>)
    ensures |chunks| == |pieces| && ContentsOf(chunks, k) == pieces
    ensures forall i :: 0 <= i < |chunks| ==> chunks[i] == StructuredChunk(pieces[i], text, k, source)
  {
    chunks := [];
    for i := 0 to |pieces|
      invariant |chunks| == i && ContentsOf(chunks, k) == pieces[..i]
      invariant forall j :: 0 <= j < i ==> chunks[j] == StructuredChunk(pieces[j], text, k, source)
    {
      assert (chunks + [StructuredChunk(pieces[i], text, k, source)])[..i] == chunks;
      assert pieces[..i + 1] == pieces[..i] + [pieces[i]];
      chunks := chunks + [StructuredChunk(pieces[i], text, k, source)];
    }
    assert pieces[..|pieces|] == pieces;
  }

  predicate Placed(chunks: seq<StructuredChunk>, segments: seq<Segment>, k: nat, size: int) {
    forall i :: 0 <= i < |chunks| ==> ChunkOk(chunks[i], segments, size) && chunks[i].parentSeq < k
  }

  predicate InOrder(chunks: seq<StructuredChunk>) {
    forall i, j :: 0 <= i < j < |chunks| ==> chunks[i].parentSeq <= chunks[j].parentSeq
  }

  ghost predicate Covered(chunks: seq<StructuredChunk>, segments: seq<Segment>, k: nat, overlap: int)
    requires k <= |segments|
  {
    forall h :: 0 <= h < k ==> Covers(ContentsOf(chunks, h), overlap, Ink(segments[h].text))
  }

  lemma {:induction false} ContentsAppend(a: seq<StructuredChunk>, b: seq<StructuredChunk>, k: nat)
    ensures ContentsOf(a + b, k) == ContentsOf(a, k) + ContentsOf(b, k)
    decreases |b|
  {
    if b == [] {
      assert a + b == a;
    } else {
      assert (a + b)[..|a + b| - 1] == a + b[..|b| - 1];
      ContentsAppend(a, b[..|b| - 1], k);
    }
  }

  lemma {:induction false} NotTheirs(chunks: seq<StructuredChunk>, k: nat)
    requires forall i :: 0 <= i < |chunks| ==> chunks[i].parentSeq != k
    ensures ContentsOf(chunks, k) == []
  {
    if chunks != [] {
      NotTheirs(chunks[..|chunks| - 1], k);
    }
  }

  lemma ContentsDone(chunks: seq<StructuredChunk>, more: seq<StructuredChunk>, k: nat, h: nat)
    requires forall i :: 0 <= i < |chunks| ==> chunks[i].parentSeq < k
    requires forall i :: 0 <= i < |more| ==> more[i].parentSeq == k
    requires h <= k
    ensures ContentsOf(chunks + more, h) == ContentsOf(if h < k then chunks else more, h)
  {
    ContentsAppend(chunks, more, h);
    if h < k {
      NotTheirs(more, h);
    } else {
      NotTheirs(chunks, k);
    }
  }

  lemma BeforeNext(chunks: seq<StructuredChunk>, segments: seq<Segment>, k: nat, size: int)
    requires Placed(chunks, segments, k, size)
    ensures forall i :: 0 <= i < |chunks| ==> chunks[i].parentSeq < k
  {
  }

  lemma CoveredAt(chunks: seq<StructuredChunk>, more: seq<StructuredChunk>, segments: seq<Segment>, k: nat, overlap: int,
                  h: nat)
    requires h <= k < |segments| && Covered(chunks, segments, k, overlap)
    requires Covers(ContentsOf(more, k), overlap, Ink(segments[k].text))
    requires ContentsOf(chunks + more, h) == ContentsOf(if h < k then chunks else more, h)
    ensures Covers(ContentsOf(chunks + more, h), overlap, Ink(segments[h].text))
  {
  }

  lemma NextCovered(chunks: seq<StructuredChunk>, more: seq<StructuredChunk>, segments: seq<Segment>, k: nat, size: int,
                    overlap: int)
    requires k < |segments| && Placed(chunks, segments, k, size) && Covered(chunks, segments, k, overlap)
    requires Covers(ContentsOf(more, k), overlap, Ink(segments[k].text))
    requires forall i :: 0 <= i < |more| ==> more[i].parentSeq == k
    ensures Covered(chunks + more, segments, k + 1, overlap)
  {
    BeforeNext(chunks, segments, k, size);
    forall h | 0 <= h < k + 1 ensures Covers(ContentsOf(chunks + more, h), overlap, Ink(segments[h].text)) {
      ContentsDone(chunks, more, k, h);
      CoveredAt(chunks, more, segments, k, overlap, h);
    }
  }

  lemma NextSplitAs(strategy: Strategy, splits: seq<seq<string>>, segments: seq<Segment>, k: nat, size: int, overlap: int,
                    pieces: seq<string>)
    requires k < |segments| && AllSplitAs(strategy, splits, segments[..k], size, overlap)
    requires SplitAs(strategy, segments[k], size, overlap, Success(pieces))
    ensures AllSplitAs(strategy, splits + [pieces], segments[..k + 1], size, overlap)
  {
    assert segments[..k + 1][..k] == segments[..k] && (splits + [pieces])[..k] == splits;
  }

  /** The chunks of segment `h` are its split. */
  predicate Contains(chunks: seq<StructuredChunk>, splits: seq<seq<string>>) {
    forall h :: 0 <= h < |splits| ==> ContentsOf(chunks, h) == splits[h]
  }

  lemma NextContains(chunks: seq<StructuredChunk>, more: seq<StructuredChunk>, splits: seq<seq<string>>,
                     segments: seq<Segment>, k: nat, size: int)
    requires Contains(chunks, splits) && |splits| == k && Placed(chunks, segments, k, size)
    requires forall i :: 0 <= i < |more| ==> more[i].parentSeq == k
    ensures Contains(chunks + more, splits + [ContentsOf(more, k)])
  {
    BeforeNext(chunks, segments, k, size);
    forall h | 0 <= h < k + 1 ensures ContentsOf(chunks + more, h) == (splits + [ContentsOf(more, k)])[h] {
      ContentsDone(chunks, more, k, h);
    }
  }

  lemma NextPlaced(chunks: seq<StructuredChunk>, more: seq<StructuredChunk>, segments: seq<Segment>, k: nat, size: int)
    requires Placed(chunks, segments, k, size) && InOrder(chunks)
    requires forall i :: 0 <= i < |more| ==> ChunkOk(more[i], segments, size) && more[i].parentSeq == k
    ensures Placed(chunks + more, segments, k + 1, size) && InOrder(chunks + more)
  {
  }

  // ---------- where the merge jams ----------

  const TEXT := "ab \ncd"

  lemma TextRests()
    ensures TEXT[1..] == "b \ncd" && "b \ncd"[1..] == " \ncd" && " \ncd"[1..] == "\ncd"
    ensures "\ncd"[1..] == "cd" && "cd"[1..] == "d" && "d"[1..] == ""
  {
  }

  lemma TextIsUnified()
    ensures UnifyNewlines(TEXT) == TEXT
  {
    TextRests();
    assert UnifyNewlines("cd") == "cd" && UnifyNewlines("\ncd") == "\ncd" && UnifyNewlines(" \ncd") == " \ncd";
  }

  lemma TextHasSingleBlanks()
    ensures CollapseBlanks(TEXT) == TEXT
  {
    TextRests();
    assert RunEnd(" \ncd", 1, IsBlank) == 1;
    assert CollapseBlanks("cd") == "cd" && CollapseBlanks("\ncd") == "\ncd" && CollapseBlanks(" \ncd") == " \ncd";
  }

  lemma TextHasSingleNewlines()
    ensures CollapseNewlines(TEXT) == TEXT
  {
    TextRests();
    assert RunEnd("\ncd", 1, IsNewline) == 1 && "\ncd"[..1] == "\n";
    assert CollapseNewlines("cd") == "cd" && CollapseNewlines("\ncd") == "\ncd" && CollapseNewlines(" \ncd") == " \ncd";
  }

  /** Nothing to normalise: one space, one newline, ink at both ends. */
  lemma TextIsNormal()
    ensures Normalize(TEXT) == TEXT
  {
    TextIsUnified();
    TextHasSingleBlanks();
    TextHasSingleNewlines();
    TextIsStripped();
  }

  lemma TextIsStripped()
    ensures Strip(TEXT) == TEXT && !AllSpace(TEXT)
  {
    assert !IsSpace(TEXT[0]) && !IsSpace(TEXT[5]);
    assert RunEnd(TEXT, 0, IsSpace) == 0 && TEXT[0..] == TEXT;
  }

  /** It is one paragraph of one sentence. */
  lemma TextIsOneSentence()
    ensures Stripped(SplitDoubleNewlines(TEXT, 0)) == [TEXT] && Sentences(TEXT) == [TEXT]
  {
    assert SplitDoubleNewlines(TEXT, 4) == [TEXT] && SplitDoubleNewlines(TEXT, 2) == [TEXT];
    assert SplitDoubleNewlines(TEXT, 0) == [TEXT];
    assert TEXT[0..] == TEXT;
    assert SplitSentences(TEXT, 0, 5) == [TEXT] && SplitSentences(TEXT, 0, 3) == [TEXT];
    assert SplitSentences(TEXT, 0, 1) == [TEXT];
    TextIsStripped();
    assert [TEXT][1..] == [] && Stripped([TEXT]) == [TEXT] + Stripped([]);
  }

  lemma TextWindows()
    ensures UnitsOfAll([TEXT], 2) == ["ab", " \n", "cd"]
  {
    TextIsOneSentence();
    assert [TEXT][..0] == [] && [TEXT][0] == TEXT;
    assert TEXT[0..2] == "ab" && TEXT[2..4] == " \n" && TEXT[4..6] == "cd";
    assert Slices(TEXT, 6, 2, 2) == [] && Slices(TEXT, 4, 2, 2) == ["cd"] && Slices(TEXT, 2, 2, 2) == [" \n", "cd"];
    assert WindowsOf(TEXT, 2) == ["ab", " \n", "cd"];
    assert Windows([TEXT], 2) == Windows([], 2) + WindowsOf(TEXT, 2);
    assert UnitsOfAll([TEXT], 2) == UnitsOfAll([], 2) + UnitsOf(TEXT, 2);
  }

  lemma WindowsJam()
    ensures Merged(["ab", " \n", "cd"], 2, 1).Jammed?
  {
    var units := ["ab", " \n", "cd"];
    assert units[..2][..1][..0] == [] && units[..2][..1] == ["ab"] && units[..2] == ["ab", " \n"];
    assert Merged([], 2, 1) == Merging([], "");
    assert Merged(["ab"], 2, 1) == Merging([], "ab");
    assert AllSpace(" \n");
    JamsExactly(Merging([], "ab"), " \n", 2, 1);
    assert Merged(["ab", " \n"], 2, 1) == Jammed;
  }

  /** The recursive strategy fails on a text whose one long sentence has a blank window. */
  lemma BlankWindowJams()
    ensures RecursiveResult(TEXT, 2, 1) == Failure(BlankUnit)
  {
    TextIsNormal();
    TextIsOneSentence();
    TextWindows();
    WindowsJam();
  }
}
