/** What normalisation and the splits do to a text, to the character. */
module ChunkerLaws {
  import opened ChunkerText

  // ---------- the outline of a text ----------

  function Capped(newlines: nat): nat {
    if newlines < 2 then newlines else 2
  }

  /** How a gap between two words is written in the outline. */
  function Gap(newlines: nat): string {
    if newlines >= 2 then "\n\n" else if newlines == 1 then "\n" else " "
  }

  /** The words with each gap written as two newlines, one newline or a space, by the newlines in it.
      `gap` counts those since the last word, if there was whitespace; `started` says that there was a
      word. */
  function OutlineFrom(s: string, gap: int, started: bool): string {
    if s == "" then ""
    else if s[0] == '\n' then OutlineFrom(s[1..], Capped(if gap < 0 then 1 else gap + 1), started)
    else if IsSpace(s[0]) then OutlineFrom(s[1..], if gap < 0 then 0 else gap, started)
    else (if gap >= 0 && started then Gap(gap) else "") + [s[0]] + OutlineFrom(s[1..], -1, true)
  }

  function Outline(s: string): string {
    OutlineFrom(s, -1, false)
  }

  /** Spaces and tabs behind each other are one gap. */
  lemma {:induction false} BlanksAreOneGap(s: string, end: nat, gap: int, started: bool)
    requires end <= |s| && forall i :: 0 <= i < end ==> IsBlank(s[i])
    ensures OutlineFrom(s, gap, started) == OutlineFrom(s[end..], if end > 0 && gap < 0 then 0 else gap, started)
    decreases end
  {
    if end > 0 {
      BlanksAreOneGap(s[1..], end - 1, if gap < 0 then 0 else gap, started);
      assert s[1..][end - 1..] == s[end..];
    } else {
      assert s[0..] == s;
    }
  }

  lemma {:induction false} NewlinesAddUp(s: string, end: nat, gap: int, started: bool)
    requires 0 < end <= |s| && -1 <= gap <= 2 && forall i :: 0 <= i < end ==> s[i] == '\n'
    ensures OutlineFrom(s, gap, started) == OutlineFrom(s[end..], Capped((if gap < 0 then 0 else gap) + end), started)
    decreases end
  {
    if end == 1 {
    } else {
      NewlinesAddUp(s[1..], end - 1, Capped(if gap < 0 then 1 else gap + 1), started);
      assert s[1..][end - 1..] == s[end..];
    }
  }

  lemma {:induction false} CollapseBlanksKeepsOutline(s: string, gap: int, started: bool)
    ensures OutlineFrom(CollapseBlanks(s), gap, started) == OutlineFrom(s, gap, started)
    decreases |s|
  {
    if s != "" {
      if IsBlank(s[0]) {
        var end := RunEnd(s, 1, IsBlank);
        var g := if gap < 0 then 0 else gap;
        BlanksAreOneGap(s, end, gap, started);
        CollapseBlanksKeepsOutline(s[end..], g, started);
        OutlineHead(" ", CollapseBlanks(s[end..]), gap, started);
      } else {
        var g, st := GapBehind(s[0], gap), started || !IsSpace(s[0]);
        CollapseBlanksKeepsOutline(s[1..], g, st);
        OutlineHead([s[0]], CollapseBlanks(s[1..]), gap, started);
        OutlineHead([s[0]], s[1..], gap, started);
        assert s == [s[0]] + s[1..];
      }
    }
  }

  function GapBehind(c: char, gap: int): int {
    if c == '\n' then Capped(if gap < 0 then 1 else gap + 1)
    else if IsSpace(c) then (if gap < 0 then 0 else gap)
    else -1
  }

  function Written(c: char, gap: int, started: bool): string {
    if IsSpace(c) then "" else (if gap >= 0 && started then Gap(gap) else "") + [c]
  }

  lemma OutlineHead(head: string, s: string, gap: int, started: bool)
    requires |head| == 1
    ensures OutlineFrom(head + s, gap, started)
         == Written(head[0], gap, started) + OutlineFrom(s, GapBehind(head[0], gap), started || !IsSpace(head[0]))
  {
    assert (head + s)[1..] == s;
  }

  lemma {:induction false} CollapseNewlinesKeepsOutline(s: string, gap: int, started: bool)
    requires -1 <= gap <= 2
    ensures OutlineFrom(CollapseNewlines(s), gap, started) == OutlineFrom(s, gap, started)
    decreases |s|
  {
    if s != "" {
      if s[0] == '\n' {
        var end := RunEnd(s, 1, IsNewline);
        var head, rest := if end >= 3 then "\n\n" else s[..end], CollapseNewlines(s[end..]);
        var g := Capped((if gap < 0 then 0 else gap) + end);
        NewlinesAddUp(s, end, gap, started);
        NewlinesAddUp(head + rest, |head|, gap, started);
        assert (head + rest)[|head|..] == rest;
        CollapseNewlinesKeepsOutline(s[end..], g, started);
      } else {
        CollapseNewlinesKeepsOutline(s[1..], GapBehind(s[0], gap), started || !IsSpace(s[0]));
        OutlineHead([s[0]], CollapseNewlines(s[1..]), gap, started);
        OutlineHead([s[0]], s[1..], gap, started);
        assert s == [s[0]] + s[1..];
      }
    }
  }

  /** Before the first word gaps do not count. */
  lemma {:induction false} LeadingGap(s: string, gap: int, gap': int)
    ensures OutlineFrom(s, gap, false) == OutlineFrom(s, gap', false)
  {
    if s != "" && IsSpace(s[0]) {
      LeadingGap(s[1..], GapBehind(s[0], gap), GapBehind(s[0], gap'));
    }
  }

  lemma {:induction false} LeadingSpace(s: string, end: nat, gap: int)
    requires end <= |s| && forall i :: 0 <= i < end ==> IsSpace(s[i])
    ensures OutlineFrom(s, gap, false) == OutlineFrom(s[end..], gap, false)
    decreases end
  {
    if end > 0 {
      LeadingSpace(s[1..], end - 1, GapBehind(s[0], gap));
      LeadingGap(s[end..], GapBehind(s[0], gap), gap);
      assert s[1..][end - 1..] == s[end..];
    } else {
      assert s[0..] == s;
    }
  }

  lemma {:induction false} TrailingSpace(s: string, c: char, gap: int, started: bool)
    requires IsSpace(c)
    ensures OutlineFrom(s + [c], gap, started) == OutlineFrom(s, gap, started)
  {
    if s == "" {
      assert s + [c] == [c] && [c][1..] == "";
    } else {
      assert (s + [c])[1..] == s[1..] + [c];
      TrailingSpace(s[1..], c, GapBehind(s[0], gap), started || !IsSpace(s[0]));
    }
  }

  lemma {:induction false} TrimRightKeepsOutline(s: string)
    ensures Outline(TrimRight(s)) == Outline(s)
  {
    if s != "" && IsSpace(s[|s| - 1]) {
      TrimRightKeepsOutline(s[..|s| - 1]);
      TrailingSpace(s[..|s| - 1], s[|s| - 1], -1, false);
      assert s[..|s| - 1] + [s[|s| - 1]] == s;
    }
  }

  /** Normalisation keeps every word, and between two words it keeps whether they are on one line, on
      neighbouring lines or in different paragraphs. */
  lemma NormalizeKeepsOutline(s: string)
    ensures Outline(Normalize(s)) == Outline(UnifyNewlines(s))
  {
    var a := UnifyNewlines(s);
    var b := CollapseNewlines(CollapseBlanks(a));
    CollapseBlanksKeepsOutline(a, -1, false);
    CollapseNewlinesKeepsOutline(CollapseBlanks(a), -1, false);
    LeadingSpace(b, RunEnd(b, 0, IsSpace), -1);
    TrimRightKeepsOutline(TrimLeft(b));
  }

  // ---------- line ends ----------

  predicate NoReturns(s: string) {
    forall i :: 0 <= i < |s| ==> s[i] != '\r'
  }

  /** Carriage returns are the only thing that is changed; a text without any stays as it is. */
  lemma {:induction false} UnifyIsExact(s: string)
    ensures NoReturns(UnifyNewlines(s))
    ensures NoReturns(s) ==> UnifyNewlines(s) == s
  {
    if s != "" {
      if s[0] == '\r' {
        UnifyIsExact(if |s| > 1 && s[1] == '\n' then s[2..] else s[1..]);
      } else {
        UnifyIsExact(s[1..]);
        assert s == [s[0]] + s[1..];
        assert NoReturns(s) ==> NoReturns(s[1..]);
      }
    }
  }

  /** What the first character, or the first two, turn into. */
  lemma UnifyStart(c: char, b: string)
    ensures UnifyNewlines("\r\n" + b) == "\n" + UnifyNewlines(b)
    ensures c != '\r' || b == "" || b[0] != '\n' ==>
              UnifyNewlines([c] + b) == [if c == '\r' then '\n' else c] + UnifyNewlines(b)
  {
    assert ("\r\n" + b)[2..] == b && ([c] + b)[1..] == b;
  }

  lemma Assoc(a: string, b: string, c: string)
    ensures (a + b) + c == a + (b + c)
  {
  }

  /** Texts may be taken apart anywhere but inside a line end. */
  lemma {:induction false} UnifyAppend(a: string, b: string)
    requires a == "" || b == "" || a[|a| - 1] != '\r' || b[0] != '\n'
    ensures UnifyNewlines(a + b) == UnifyNewlines(a) + UnifyNewlines(b)
  {
    if a == "" {
      assert a + b == b;
    } else if |a| > 1 && a[0] == '\r' && a[1] == '\n' {
      UnifyAppend(a[2..], b);
      UnifyBehind("\r\n", "\n", a[2..], b);
      assert a == "\r\n" + a[2..];
    } else {
      UnifyAppend(a[1..], b);
      UnifyBehind([a[0]], [if a[0] == '\r' then '\n' else a[0]], a[1..], b);
      assert a == [a[0]] + a[1..];
    }
  }

  /** A head that turns into `unified` whatever is behind it. */
  lemma UnifyBehind(head: string, unified: string, a: string, b: string)
    requires UnifyNewlines(a + b) == UnifyNewlines(a) + UnifyNewlines(b)
    requires (head == "\r\n" && unified == "\n")
             || (|head| == 1 && unified == [if head[0] == '\r' then '\n' else head[0]]
                 && (head[0] == '\r' ==> (a == "" || a[0] != '\n') && (a + b == "" || (a + b)[0] != '\n')))
    ensures UnifyNewlines((head + a) + b) == UnifyNewlines(head + a) + UnifyNewlines(b)
  {
    UnifyStart(head[0], a);
    UnifyStart(head[0], a + b);
    Assoc(head, a, b);
    Assoc(unified, UnifyNewlines(a), UnifyNewlines(b));
    assert |head| == 1 ==> head == [head[0]];
  }

  /** A carriage return is a line end, and one together with a newline behind it. */
  lemma EachReturnIsALineEnd(a: string, b: string)
    ensures UnifyNewlines(a + ("\r\n" + b)) == UnifyNewlines(a) + ("\n" + UnifyNewlines(b))
    ensures b == "" || b[0] != '\n' ==> UnifyNewlines(a + ("\r" + b)) == UnifyNewlines(a) + ("\n" + UnifyNewlines(b))
  {
    UnifyStart('\r', b);
    assert ['\r'] + b == "\r" + b;
    UnifyAppend(a, "\r\n" + b);
    UnifyAppend(a, "\r" + b);
  }

  // ---------- normal texts ----------

  /** The character at `i` starts a run that normalisation would shorten or replace. */
  predicate Untidy(s: string, i: nat)
    requires i < |s|
  {
    || s[i] == '\r' || s[i] == '\t'
    || (i + 1 < |s| && s[i] == ' ' && s[i + 1] == ' ')
    || (i + 2 < |s| && s[i] == '\n' && s[i + 1] == '\n' && s[i + 2] == '\n')
  }

  predicate Tidy(s: string) {
    forall i :: 0 <= i < |s| ==> !Untidy(s, i)
  }

  predicate Trimmed(s: string) {
    s != "" ==> !IsSpace(s[0]) && !IsSpace(s[|s| - 1])
  }

  /** No two blanks behind each other, and no tab. */
  predicate SingleBlanks(s: string) {
    forall i :: 0 <= i < |s| ==> s[i] != '\t' && (s[i] == ' ' && i + 1 < |s| ==> s[i + 1] != ' ')
  }

  lemma {:induction false} CollapsedHasSingleBlanks(s: string)
    ensures SingleBlanks(CollapseBlanks(s))
    ensures CollapseBlanks(s) != "" ==> s != "" && (CollapseBlanks(s)[0] == ' ' <==> IsBlank(s[0]))
    decreases |s|
  {
    if s != "" {
      if IsBlank(s[0]) {
        CollapsedHasSingleBlanks(s[RunEnd(s, 1, IsBlank)..]);
      } else {
        CollapsedHasSingleBlanks(s[1..]);
      }
    }
  }

  lemma {:induction false} CollapseKeepsNoReturns(s: string)
    requires NoReturns(s)
    ensures NoReturns(CollapseBlanks(s)) && NoReturns(CollapseNewlines(s))
    decreases |s|
  {
    if s != "" {
      assert s[0] != '\r';
      CollapseKeepsNoReturns(s[1..]);
      if IsBlank(s[0]) {
        CollapseKeepsNoReturns(s[RunEnd(s, 1, IsBlank)..]);
      }
      if s[0] == '\n' {
        CollapseKeepsNoReturns(s[RunEnd(s, 1, IsNewline)..]);
      }
    }
  }

  /** At most two newlines behind each other. */
  predicate DoubleNewlines(s: string) {
    forall i :: 0 <= i && i + 2 < |s| ==> !(s[i] == '\n' && s[i + 1] == '\n' && s[i + 2] == '\n')
  }

  lemma {:induction false} CollapsedHasDoubleNewlines(s: string)
    requires SingleBlanks(s)
    ensures SingleBlanks(CollapseNewlines(s)) && DoubleNewlines(CollapseNewlines(s))
    ensures CollapseNewlines(s) != "" ==> s != "" && CollapseNewlines(s)[0] == s[0]
    decreases |s|
  {
    if s != "" {
      if s[0] == '\n' {
        var end := RunEnd(s, 1, IsNewline);
        var head, rest := if end >= 3 then "\n\n" else s[..end], CollapseNewlines(s[end..]);
        assert SingleBlanks(s[end..]);
        CollapsedHasDoubleNewlines(s[end..]);
        NewlinesThen(head, rest);
      } else {
        assert SingleBlanks(s[1..]);
        CollapsedHasDoubleNewlines(s[1..]);
        var rest := CollapseNewlines(s[1..]);
        assert rest != "" ==> rest[0] == s[1];
      }
    }
  }

  lemma NewlinesThen(head: string, rest: string)
    requires 0 < |head| <= 2 && (forall i :: 0 <= i < |head| ==> head[i] == '\n') && (rest != "" ==> rest[0] != '\n')
    requires SingleBlanks(rest) && DoubleNewlines(rest)
    ensures SingleBlanks(head + rest) && DoubleNewlines(head + rest)
  {
    var s := head + rest;
    forall i | 0 <= i < |s| ensures s[i] != '\t' && (s[i] == ' ' && i + 1 < |s| ==> s[i + 1] != ' ') {
      if i >= |head| {
        assert s[i] == rest[i - |head|];
      }
    }
    forall i | 0 <= i && i + 2 < |s| ensures !(s[i] == '\n' && s[i + 1] == '\n' && s[i + 2] == '\n') {
      if i >= |head| {
        assert s[i] == rest[i - |head|] && s[i + 1] == rest[i - |head| + 1] && s[i + 2] == rest[i - |head| + 2];
      } else {
        assert s[|head|] == rest[0];
      }
    }
  }

  /** A part of a tidy text is tidy. */
  lemma PartIsTidy(s: string, from: nat, to: nat)
    requires from <= to <= |s| && Tidy(s)
    ensures Tidy(s[from..to])
  {
    forall i | 0 <= i < to - from ensures !Untidy(s[from..to], i) {
      assert !Untidy(s, from + i);
    }
  }

  lemma {:induction false} TrimRightIsPart(s: string) returns (to: nat)
    ensures to <= |s| && TrimRight(s) == s[..to] && (to > 0 ==> !IsSpace(s[to - 1]))
  {
    if s != "" && IsSpace(s[|s| - 1]) {
      to := TrimRightIsPart(s[..|s| - 1]);
      assert s[..|s| - 1][..to] == s[..to];
    } else {
      to := |s|;
      assert s[..to] == s;
    }
  }

  lemma StripIsPart(s: string) returns (from: nat, to: nat)
    ensures from <= to <= |s| && Strip(s) == s[from..to] && Trimmed(Strip(s))
    ensures Trimmed(s) ==> Strip(s) == s
  {
    from := RunEnd(s, 0, IsSpace);
    var n := TrimRightIsPart(s[from..]);
    to := from + n;
    assert s[from..][..n] == s[from..to];
    if Trimmed(s) && s != "" {
      assert from == 0 && s[0..] == s;
    }
  }

  lemma {:induction false} SingleBlanksStay(s: string)
    requires SingleBlanks(s)
    ensures CollapseBlanks(s) == s
    decreases |s|
  {
    if s != "" {
      assert SingleBlanks(s[1..]);
      SingleBlanksStay(s[1..]);
      assert s == [s[0]] + s[1..];
      if IsBlank(s[0]) {
        assert RunEnd(s, 1, IsBlank) == 1;
      }
    }
  }

  lemma {:induction false} DoubleNewlinesStay(s: string)
    requires DoubleNewlines(s)
    ensures CollapseNewlines(s) == s
    decreases |s|
  {
    if s != "" {
      if s[0] == '\n' {
        var end := RunEnd(s, 1, IsNewline);
        assert !(|s| > 2 && s[0] == '\n' && s[1] == '\n' && s[2] == '\n');
        assert DoubleNewlines(s[end..]);
        DoubleNewlinesStay(s[end..]);
        assert s == s[..end] + s[end..];
      } else {
        assert DoubleNewlines(s[1..]);
        DoubleNewlinesStay(s[1..]);
        assert s == [s[0]] + s[1..];
      }
    }
  }

  lemma TidyParts(s: string)
    ensures Tidy(s) <==> NoReturns(s) && SingleBlanks(s) && DoubleNewlines(s)
  {
    if Tidy(s) {
      forall i | 0 <= i < |s| ensures s[i] != '\r' && s[i] != '\t' && (s[i] == ' ' && i + 1 < |s| ==> s[i + 1] != ' ') {
        assert !Untidy(s, i);
      }
      forall i | 0 <= i && i + 2 < |s| ensures !(s[i] == '\n' && s[i + 1] == '\n' && s[i + 2] == '\n') {
        assert !Untidy(s, i);
      }
    }
  }

  lemma NormalizedIsTidy(s: string)
    ensures Tidy(Normalize(s)) && Trimmed(Normalize(s))
  {
    var a := UnifyNewlines(s);
    var b := CollapseBlanks(a);
    var c := CollapseNewlines(b);
    UnifyIsExact(s);
    CollapseKeepsNoReturns(a);
    CollapseKeepsNoReturns(b);
    CollapsedHasSingleBlanks(a);
    CollapsedHasDoubleNewlines(b);
    TidyParts(c);
    var from, to := StripIsPart(c);
    PartIsTidy(c, from, to);
  }

  /** Normalisation leaves exactly the texts alone that have no carriage return, no tab, no two spaces and
      no three newlines behind each other and no whitespace at either end, and makes one of every text. */
  lemma NormalIffTidy(s: string)
    ensures Normalize(s) == s <==> Tidy(s) && Trimmed(s)
    ensures Normalize(Normalize(s)) == Normalize(s)
  {
    NormalizedIsTidy(s);
    TidyIsNormal(Normalize(s));
    if Tidy(s) && Trimmed(s) {
      TidyIsNormal(s);
    }
  }

  lemma TidyIsNormal(s: string)
    requires Tidy(s) && Trimmed(s)
    ensures Normalize(s) == s
  {
    TidyParts(s);
    UnifyIsExact(s);
    SingleBlanksStay(s);
    DoubleNewlinesStay(s);
    var from, to := StripIsPart(s);
  }

  // ---------- the split at double newlines ----------

  predicate DoubleAt(s: string, i: nat) {
    i + 1 < |s| && s[i] == '\n' && s[i + 1] == '\n'
  }

  /** The pieces of a text that is cut at its first double newline, and behind it again. */
  predicate CutAtDoubles(s: string, pieces: seq<string>)
    decreases |pieces|
  {
    if |pieces| <= 1 then pieces == [s] && forall i :: 0 <= i < |s| ==> !DoubleAt(s, i)
    else
      var n := |pieces[0]|;
      && DoubleAt(s, n) && s[..n] == pieces[0] && (forall i :: 0 <= i < n ==> !DoubleAt(s, i))
      && CutAtDoubles(s[n + 2..], pieces[1..])
  }

  lemma {:induction false} DoublesAreCut(s: string, from: nat)
    requires from <= |s| && forall i :: 0 <= i < from ==> !DoubleAt(s, i)
    ensures CutAtDoubles(s, SplitDoubleNewlines(s, from)) && SplitDoubleNewlines(s, from) != []
    decreases |s|, |s| - from
  {
    if from + 1 < |s| {
      if DoubleAt(s, from) {
        DoublesAreCut(s[from + 2..], 0);
        var rest := SplitDoubleNewlines(s[from + 2..], 0);
        assert ([s[..from]] + rest)[1..] == rest && |[s[..from]] + rest| > 1;
      } else {
        DoublesAreCut(s, from + 1);
      }
    }
  }

  /** `text.split("\n\n")`, to the character. */
  lemma SplitDoubleNewlinesIsExact(s: string)
    ensures CutAtDoubles(s, SplitDoubleNewlines(s, 0))
  {
    DoublesAreCut(s, 0);
  }

  // ---------- the split at blank lines ----------

  /** Newlines at `i` and `j` with nothing but whitespace between them. */
  predicate BlankLine(s: string, i: nat, j: nat) {
    i < j < |s| && s[i] == '\n' && s[j] == '\n' && forall k :: i <= k <= j ==> IsSpace(s[k])
  }

  predicate NoBlankLineAt(s: string, i: nat) {
    forall j :: i < j < |s| ==> !BlankLine(s, i, j)
  }

  /** The first blank line begins at `i`, and the longest one there ends at `j`. */
  predicate FirstBlankLine(s: string, i: nat, j: nat) {
    && BlankLine(s, i, j) && (forall h :: 0 <= h < i ==> NoBlankLineAt(s, h))
    && forall k :: j < k < |s| ==> !BlankLine(s, i, k)
  }

  ghost predicate CutAtBlankLines(s: string, pieces: seq<string>)
    decreases |pieces|
  {
    if |pieces| <= 1 then pieces == [s] && forall i :: 0 <= i < |s| ==> NoBlankLineAt(s, i)
    else
      var n := |pieces[0]|;
      exists j :: n < j < |s| && FirstBlankLine(s, n, j) && s[..n] == pieces[0] && CutAtBlankLines(s[j + 1..], pieces[1..])
  }

  lemma {:induction false} LastNewlineIsLast(s: string, i: nat, end: nat)
    requires i < end <= |s|
    ensures forall k :: LastNewline(s, i, end) < k < end ==> s[k] != '\n'
    decreases end
  {
    if end - 1 != i && s[end - 1] != '\n' {
      LastNewlineIsLast(s, i, end - 1);
    }
  }

  /** Where the split looks for the end of a blank line. */
  function BlankLineEnd(s: string, i: nat): (j: nat)
    requires i < |s|
    ensures i <= j < |s|
  {
    if s[i] == '\n' then LastNewline(s, i, RunEnd(s, i, IsSpace)) else i
  }

  /** The longest blank line at a newline ends at the last newline of its run of whitespace. */
  lemma BlankLineFrom(s: string, i: nat)
    requires i < |s|
    ensures BlankLineEnd(s, i) == i ==> NoBlankLineAt(s, i)
    ensures BlankLineEnd(s, i) > i ==>
              BlankLine(s, i, BlankLineEnd(s, i)) && forall k :: BlankLineEnd(s, i) < k < |s| ==> !BlankLine(s, i, k)
  {
    if s[i] == '\n' {
      var end := RunEnd(s, i, IsSpace);
      LastNewlineIsLast(s, i, end);
      forall k | LastNewline(s, i, end) < k < |s| ensures !BlankLine(s, i, k) {
        if end <= k {
          assert !IsSpace(s[end]);
        }
      }
    }
  }

  lemma BlankLineIsCut(s: string, from: nat, j: nat, rest: seq<string>)
    requires j < |s| && FirstBlankLine(s, from, j) && rest != [] && CutAtBlankLines(s[j + 1..], rest)
    ensures CutAtBlankLines(s, [s[..from]] + rest)
  {
    assert ([s[..from]] + rest)[1..] == rest && ([s[..from]] + rest)[0] == s[..from];
  }

  lemma {:induction false} BlankLinesAreCut(s: string, from: nat)
    requires from <= |s| && forall i :: 0 <= i < from ==> NoBlankLineAt(s, i)
    ensures CutAtBlankLines(s, SplitBlankLines(s, from)) && SplitBlankLines(s, from) != []
    decreases |s|, |s| - from
  {
    if from < |s| {
      BlankLineFrom(s, from);
      var j := BlankLineEnd(s, from);
      if j == from {
        BlankLinesAreCut(s, from + 1);
      } else {
        assert FirstBlankLine(s, from, j);
        BlankLinesAreCut(s[j + 1..], 0);
        BlankLineIsCut(s, from, j, SplitBlankLines(s[j + 1..], 0));
      }
    }
  }

  /** The split by the pattern `\n\s*\n`, to the character. */
  lemma SplitBlankLinesIsExact(s: string)
    ensures CutAtBlankLines(s, SplitBlankLines(s, 0))
  {
    BlankLinesAreCut(s, 0);
  }

  // ---------- the split at sentence ends ----------

  /** The ideographic full stop, the full-width exclamation mark, question mark and semicolon, and theirs. */
  const TERMINATORS := "\U{3002}\U{FF01}\U{FF1F}!?\U{FF1B};"

  /** A sentence may end before position `i`. */
  predicate SentenceEnd(s: string, i: nat) {
    0 < i < |s| && (s[i - 1] in TERMINATORS || (s[i - 1] == '.' && IsSpace(s[i])))
  }

  /** The whitespace from `i` on ends at `j`. */
  predicate GapTo(s: string, i: nat, j: nat) {
    i <= j <= |s| && (forall k :: i <= k < j ==> IsSpace(s[k])) && (j < |s| ==> !IsSpace(s[j]))
  }

  ghost predicate CutAtSentences(s: string, pieces: seq<string>)
    decreases |pieces|
  {
    if |pieces| <= 1 then pieces == [s] && forall i :: 0 <= i < |s| ==> !SentenceEnd(s, i)
    else
      var n := |pieces[0]|;
      && SentenceEnd(s, n) && s[..n] == pieces[0] && (forall i :: 0 <= i < n ==> !SentenceEnd(s, i))
      && exists j :: n <= j <= |s| && GapTo(s, n, j) && CutAtSentences(s[j..], pieces[1..])
  }

  lemma BoundaryIsEnd(s: string, start: nat, i: nat)
    requires start < i < |s|
    ensures Boundary(s, i) <==> SentenceEnd(s[start..], i - start)
  {
    assert s[start..][i - start] == s[i] && s[start..][i - start - 1] == s[i - 1];
  }

  lemma {:induction false} SentencesAreCut(s: string, start: nat, i: nat)
    requires start < i && start <= |s| && forall k :: 0 <= k < i - start ==> !SentenceEnd(s[start..], k)
    ensures CutAtSentences(s[start..], SplitSentences(s, start, i)) && SplitSentences(s, start, i) != []
    decreases |s| - start, |s| + 1 - i
  {
    if i < |s| {
      BoundaryIsEnd(s, start, i);
      if Boundary(s, i) {
        var end := RunEnd(s, i, IsSpace);
        SentencesAreCut(s, end, end + 1);
        SentenceIsCut(s, start, i, end, SplitSentences(s, end, end + 1));
      } else {
        SentencesAreCut(s, start, i + 1);
      }
    }
  }

  lemma SentenceIsCut(s: string, start: nat, i: nat, end: nat, rest: seq<string>)
    requires start < i <= end <= |s| && i < |s| && SentenceEnd(s[start..], i - start)
    requires forall k :: 0 <= k < i - start ==> !SentenceEnd(s[start..], k)
    requires GapTo(s, i, end) && rest != [] && CutAtSentences(s[end..], rest)
    ensures CutAtSentences(s[start..], [s[start..i]] + rest)
  {
    var t, j := s[start..], end - start;
    assert GapTo(t, i - start, j) by {
      assert forall k :: 0 <= k < |t| ==> t[k] == s[start + k];
    }
    assert t[j..] == s[end..] && t[..i - start] == s[start..i] && ([s[start..i]] + rest)[1..] == rest;
  }

  /** The sentence split, to the character, up to an empty piece at the very end. */
  lemma SplitSentencesIsExact(s: string)
    ensures CutAtSentences(s, SplitSentences(s, 0, 1))
  {
    assert s[0..] == s;
    SentencesAreCut(s, 0, 1);
  }
}
