/** Text as the chunker sees it: ink, whitespace, normalisation and the regular-expression splits. */
module ChunkerText {

  /** `str.isspace`, which is also what `str.strip` removes and the pattern `\s` matches. */
  predicate IsSpace(c: char) {
    var n := c as int;
    9 <= n <= 13 || 28 <= n <= 32 || n == 0x85 || n == 0xA0 || n == 0x1680 || 0x2000 <= n <= 0x200A
    || n == 0x2028 || n == 0x2029 || n == 0x202F || n == 0x205F || n == 0x3000
  }

  predicate AllSpace(s: string) {
    forall i :: 0 <= i < |s| ==> IsSpace(s[i])
  }

  /** The characters that are not whitespace, in order. */
  function Ink(s: string): string {
    if s == "" then "" else (if IsSpace(s[0]) then "" else [s[0]]) + Ink(s[1..])
  }

  function Concat(pieces: seq<string>): string {
    if pieces == [] then "" else pieces[0] + Concat(pieces[1..])
  }

  lemma {:induction false} InkConcat(a: string, b: string)
    ensures Ink(a + b) == Ink(a) + Ink(b)
  {
    if a == "" {
      assert a + b == b;
    } else {
      assert (a + b)[1..] == a[1..] + b;
      InkConcat(a[1..], b);
    }
  }

  lemma {:induction false} BlankHasNoInk(s: string)
    ensures AllSpace(s) <==> Ink(s) == ""
  {
    if s != "" {
      BlankHasNoInk(s[1..]);
      if AllSpace(s[1..]) && IsSpace(s[0]) {
        assert forall i :: 0 <= i < |s| ==> s[i] == if i == 0 then s[0] else s[1..][i - 1];
      }
      if AllSpace(s) {
        assert forall i :: 0 <= i < |s[1..]| ==> s[1..][i] == s[i + 1];
      }
    }
  }

  /** Cutting whitespace out of a text does not change its ink. */
  lemma CutHasSameInk(s: string, i: nat, j: nat)
    requires i <= j <= |s| && AllSpace(s[i..j])
    ensures Ink(s[..i]) + Ink(s[j..]) == Ink(s)
  {
    assert s == s[..i] + s[i..];
    assert s[i..] == s[i..j] + s[j..];
    BetweenHasNoInk(s[..i], s[i..j], s[j..]);
  }

  lemma BetweenHasNoInk(a: string, b: string, c: string)
    requires AllSpace(b)
    ensures Ink(a + (b + c)) == Ink(a) + Ink(c)
  {
    InkConcat(a, b + c);
    InkConcat(b, c);
    BlankHasNoInk(b);
  }

  lemma {:induction false} ConcatAppend(a: seq<string>, b: seq<string>)
    ensures Concat(a + b) == Concat(a) + Concat(b)
  {
    if a == [] {
      assert a + b == b;
    } else {
      assert (a + b)[1..] == a[1..] + b;
      ConcatAppend(a[1..], b);
    }
  }

  lemma CutFrom(s: string, start: nat, i: nat, end: nat)
    requires start <= i <= end <= |s| && forall j :: i <= j < end ==> IsSpace(s[j])
    ensures Ink(s[start..i]) + Ink(s[end..]) == Ink(s[start..])
  {
    var a, b, c := s[start..i], s[i..end], s[end..];
    assert s[start..] == a + (b + c);
    BetweenHasNoInk(a, b, c);
  }

  // ---------- normalisation ----------

  /** The end of the run of characters from `i` on that satisfy the predicate. */
  function RunEnd(s: string, i: nat, p: char -> bool): (end: nat)
    requires i <= |s|
    ensures i <= end <= |s| && (forall j :: i <= j < end ==> p(s[j])) && (end < |s| ==> !p(s[end]))
    decreases |s| - i
  {
    if i < |s| && p(s[i]) then RunEnd(s, i + 1, p) else i
  }

  function UnifyNewlines(s: string): string {
    if s == "" then ""
    else if s[0] == '\r' then "\n" + UnifyNewlines(if |s| > 1 && s[1] == '\n' then s[2..] else s[1..])
    else [s[0]] + UnifyNewlines(s[1..])
  }

  predicate IsBlank(c: char) {
    c == ' ' || c == '\t'
  }

  predicate IsNewline(c: char) {
    c == '\n'
  }

  function CollapseBlanks(s: string): string
    decreases |s|
  {
    if s == "" then ""
    else if IsBlank(s[0]) then " " + CollapseBlanks(s[RunEnd(s, 1, IsBlank)..])
    else [s[0]] + CollapseBlanks(s[1..])
  }

  function CollapseNewlines(s: string): string
    decreases |s|
  {
    if s == "" then ""
    else if s[0] == '\n' then
      var end := RunEnd(s, 1, IsNewline);
      (if end >= 3 then "\n\n" else s[..end]) + CollapseNewlines(s[end..])
    else [s[0]] + CollapseNewlines(s[1..])
  }

  function TrimLeft(s: string): string {
    s[RunEnd(s, 0, IsSpace)..]
  }

  function TrimRight(s: string): string {
    if s != "" && IsSpace(s[|s| - 1]) then TrimRight(s[..|s| - 1]) else s
  }

  function Strip(s: string): string {
    TrimRight(TrimLeft(s))
  }

  function Normalize(s: string): string {
    Strip(CollapseNewlines(CollapseBlanks(UnifyNewlines(s))))
  }

  lemma {:induction false} UnifyKeepsInk(s: string)
    ensures Ink(UnifyNewlines(s)) == Ink(s) && |UnifyNewlines(s)| <= |s|
  {
    if s != "" {
      if s[0] == '\r' {
        var rest := if |s| > 1 && s[1] == '\n' then s[2..] else s[1..];
        UnifyKeepsInk(rest);
        CutHasSameInk(s, 0, |s| - |rest|);
        InkConcat("\n", UnifyNewlines(rest));
      } else {
        UnifyKeepsInk(s[1..]);
        InkConcat([s[0]], UnifyNewlines(s[1..]));
        InkConcat([s[0]], s[1..]);
        assert s == [s[0]] + s[1..];
      }
    }
  }

  lemma {:induction false} CollapseBlanksKeepsInk(s: string)
    ensures Ink(CollapseBlanks(s)) == Ink(s) && |CollapseBlanks(s)| <= |s|
    decreases |s|
  {
    if s != "" {
      if IsBlank(s[0]) {
        var end := RunEnd(s, 1, IsBlank);
        CollapseBlanksKeepsInk(s[end..]);
        CutHasSameInk(s, 0, end);
        InkConcat(" ", CollapseBlanks(s[end..]));
      } else {
        CollapseBlanksKeepsInk(s[1..]);
        InkConcat([s[0]], CollapseBlanks(s[1..]));
        InkConcat([s[0]], s[1..]);
        assert s == [s[0]] + s[1..];
      }
    }
  }

  lemma {:induction false} CollapseNewlinesKeepsInk(s: string)
    ensures Ink(CollapseNewlines(s)) == Ink(s) && |CollapseNewlines(s)| <= |s|
    decreases |s|
  {
    if s != "" {
      if s[0] == '\n' {
        var end := RunEnd(s, 1, IsNewline);
        var head := if end >= 3 then "\n\n" else s[..end];
        CollapseNewlinesKeepsInk(s[end..]);
        CutHasSameInk(s, 0, end);
        InkConcat(head, CollapseNewlines(s[end..]));
        BlankHasNoInk(head);
      } else {
        CollapseNewlinesKeepsInk(s[1..]);
        InkConcat([s[0]], CollapseNewlines(s[1..]));
        InkConcat([s[0]], s[1..]);
        assert s == [s[0]] + s[1..];
      }
    }
  }

  lemma LastBlank(s: string)
    requires s != "" && IsSpace(s[|s| - 1])
    ensures Ink(s[..|s| - 1]) == Ink(s) && (AllSpace(s[..|s| - 1]) <==> AllSpace(s))
  {
    var n := |s| - 1;
    assert s[n..] == [s[n]] && s == s[..n] + s[n..];
    InkConcat(s[..n], s[n..]);
    assert Ink(s[n..]) == "";
    BlankHasNoInk(s);
    BlankHasNoInk(s[..n]);
  }

  lemma {:induction false} TrimRightKeepsInk(s: string)
    ensures Ink(TrimRight(s)) == Ink(s) && |TrimRight(s)| <= |s|
    ensures TrimRight(s) == "" <==> AllSpace(s)
  {
    if s != "" && IsSpace(s[|s| - 1]) {
      TrimRightKeepsInk(s[..|s| - 1]);
      LastBlank(s);
    }
  }

  lemma StripKeepsInk(s: string)
    ensures Ink(Strip(s)) == Ink(s) && |Strip(s)| <= |s|
    ensures Strip(s) == "" <==> AllSpace(s)
  {
    var end := RunEnd(s, 0, IsSpace);
    CutHasSameInk(s, 0, end);
    TrimRightKeepsInk(TrimLeft(s));
    BlankHasNoInk(s);
    BlankHasNoInk(TrimLeft(s));
  }

  /** Normalisation never lengthens a text and changes nothing but whitespace. */
  lemma NormalizeKeepsInk(s: string)
    ensures Ink(Normalize(s)) == Ink(s) && |Normalize(s)| <= |s|
    ensures Normalize(s) == "" <==> AllSpace(s)
  {
    UnifyKeepsInk(s);
    CollapseBlanksKeepsInk(UnifyNewlines(s));
    CollapseNewlinesKeepsInk(CollapseBlanks(UnifyNewlines(s)));
    StripKeepsInk(CollapseNewlines(CollapseBlanks(UnifyNewlines(s))));
    BlankHasNoInk(s);
    BlankHasNoInk(CollapseNewlines(CollapseBlanks(UnifyNewlines(s))));
  }

  // ---------- splits ----------

  /** The stripped pieces that are not blank. */
  function Stripped(pieces: seq<string>): (kept: seq<string>)
    ensures forall p :: p in kept ==> !AllSpace(p) && p != ""
  {
    if pieces == [] then []
    else
      StripKeepsInk(pieces[0]);
      BlankHasNoInk(pieces[0]);
      BlankHasNoInk(Strip(pieces[0]));
      (if Strip(pieces[0]) == "" then [] else [Strip(pieces[0])]) + Stripped(pieces[1..])
  }

  lemma {:induction false} StrippedKeepsInk(pieces: seq<string>)
    ensures Ink(Concat(Stripped(pieces))) == Ink(Concat(pieces))
  {
    if pieces != [] {
      var head, rest := Strip(pieces[0]), Stripped(pieces[1..]);
      StrippedKeepsInk(pieces[1..]);
      StripKeepsInk(pieces[0]);
      InkConcat(pieces[0], Concat(pieces[1..]));
      InkConcat(head, Concat(rest));
      if head != "" {
        ConcatAppend([head], rest);
        assert Concat([head]) == head;
      } else {
        assert [] + rest == rest;
      }
    }
  }

  /** The last newline of the whitespace run behind `i`, or `i` if there is none. */
  function LastNewline(s: string, i: nat, end: nat): (j: nat)
    requires i < end <= |s|
    ensures i <= j < end && (j > i ==> s[j] == '\n')
  {
    if end - 1 == i || s[end - 1] == '\n' then end - 1 else LastNewline(s, i, end - 1)
  }

  /** `re.split(r"\n\s*\n", s)`: from the first newline that whitespace joins to another one, up to
      the last such one. `from` is where the search goes on. */
  function SplitBlankLines(s: string, from: nat): seq<string>
    requires from <= |s|
    decreases |s|, |s| - from
  {
    if from == |s| then [s]
    else
      var j := if s[from] == '\n' then LastNewline(s, from, RunEnd(s, from, IsSpace)) else from;
      if j == from then SplitBlankLines(s, from + 1) else [s[..from]] + SplitBlankLines(s[j + 1..], 0)
  }

  lemma {:induction false} SplitBlankLinesKeepsInk(s: string, from: nat)
    requires from <= |s|
    ensures Ink(Concat(SplitBlankLines(s, from))) == Ink(s)
    decreases |s|, |s| - from
  {
    if from == |s| {
      assert Concat([s]) == s;
    } else {
      var j := if s[from] == '\n' then LastNewline(s, from, RunEnd(s, from, IsSpace)) else from;
      if j == from {
        SplitBlankLinesKeepsInk(s, from + 1);
      } else {
        SplitBlankLinesKeepsInk(s[j + 1..], 0);
        InkConcat(s[..from], Concat(SplitBlankLines(s[j + 1..], 0)));
        CutHasSameInk(s, from, j + 1);
      }
    }
  }

  /** `s.split("\n\n")` */
  function SplitDoubleNewlines(s: string, from: nat): seq<string>
    requires from <= |s|
    decreases |s|, |s| - from
  {
    if from + 1 >= |s| then [s]
    else if s[from] == '\n' && s[from + 1] == '\n' then [s[..from]] + SplitDoubleNewlines(s[from + 2..], 0)
    else SplitDoubleNewlines(s, from + 1)
  }

  lemma {:induction false} SplitDoubleNewlinesKeepsInk(s: string, from: nat)
    requires from <= |s|
    ensures Ink(Concat(SplitDoubleNewlines(s, from))) == Ink(s)
    decreases |s|, |s| - from
  {
    if from + 1 >= |s| {
      assert Concat([s]) == s;
    } else if s[from] == '\n' && s[from + 1] == '\n' {
      SplitDoubleNewlinesKeepsInk(s[from + 2..], 0);
      InkConcat(s[..from], Concat(SplitDoubleNewlines(s[from + 2..], 0)));
      CutHasSameInk(s, from, from + 2);
    } else {
      SplitDoubleNewlinesKeepsInk(s, from + 1);
    }
  }

  predicate EndsSentence(c: char) {
    c == '\U{3002}' || c == '\U{FF01}' || c == '\U{FF1F}' || c == '!' || c == '?' || c == '\U{FF1B}' || c == ';'
  }

  /** The sentence split: behind a terminator with any whitespace, behind a full stop with some. */
  predicate Boundary(s: string, i: nat)
    requires 0 < i < |s|
  {
    EndsSentence(s[i - 1]) || (s[i - 1] == '.' && IsSpace(s[i]))
  }

  /** The pieces from `start` on; the next position to look at is `i`. A boundary at the very end would
      only add an empty piece. */
  function SplitSentences(s: string, start: nat, i: nat): seq<string>
    requires start < i && start <= |s|
    decreases |s| - start, |s| + 1 - i
  {
    if i >= |s| then [s[start..]]
    else if Boundary(s, i) then
      var end := RunEnd(s, i, IsSpace);
      [s[start..i]] + SplitSentences(s, end, end + 1)
    else SplitSentences(s, start, i + 1)
  }

  lemma {:induction false} SplitSentencesKeepsInk(s: string, start: nat, i: nat)
    requires start < i && start <= |s|
    ensures Ink(Concat(SplitSentences(s, start, i))) == Ink(s[start..])
    decreases |s| - start, |s| + 1 - i
  {
    if i >= |s| {
      assert Concat([s[start..]]) == s[start..];
    } else if Boundary(s, i) {
      var end := RunEnd(s, i, IsSpace);
      SplitSentencesKeepsInk(s, end, end + 1);
      InkConcat(s[start..i], Concat(SplitSentences(s, end, end + 1)));
      CutFrom(s, start, i, end);
    } else {
      SplitSentencesKeepsInk(s, start, i + 1);
    }
  }
}
