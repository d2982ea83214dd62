/** Splitting text into chunks: nested splitting, greedy merging, carried overlap and hard splits. */
module Chunker {
  import opened Wrappers
  import opened ChunkerText

  datatype ChunkError = UnknownStrategy | BadParameters | BlankUnit

  predicate ValidParameters(size: int, overlap: int) {
    0 < size && 0 <= overlap < size
  }

  // ---------- what a split promises ----------

  predicate Fits(chunks: seq<string>, size: int) {
    forall i :: 0 <= i < |chunks| ==> 0 < |chunks[i]| <= size
  }

  /** The first `d` characters of `chunk` are the last `d` of `before`. */
  predicate Carries(before: string, chunk: string, d: nat) {
    d <= |before| && d <= |chunk| && chunk[..d] == before[|before| - d..]
  }

  /** What chunk `i` repeats of its predecessor. */
  predicate DropOk(chunks: seq<string>, drops: seq<nat>, overlap: int, i: nat)
    requires i < |chunks| == |drops|
  {
    drops[i] <= overlap && if i == 0 then drops[i] == 0 else Carries(chunks[i - 1], chunks[i], drops[i])
  }

  predicate DropsOk(chunks: seq<string>, drops: seq<nat>, overlap: int) {
    |drops| == |chunks| && forall i :: 0 <= i < |chunks| ==> DropOk(chunks, drops, overlap, i)
  }

  /** The chunks one after the other without what they repeat. */
  function Rest(chunks: seq<string>, drops: seq<nat>): string
    requires |drops| == |chunks|
  {
    if chunks == [] then ""
    else (if drops[0] <= |chunks[0]| then chunks[0][drops[0]..] else "") + Rest(chunks[1..], drops[1..])
  }

  /** Without at most `overlap` repeated characters in front of each chunk, exactly `ink` is left. */
  ghost predicate Covers(chunks: seq<string>, overlap: int, ink: string) {
    exists drops :: DropsOk(chunks, drops, overlap) && Ink(Rest(chunks, drops)) == ink
  }

  lemma {:induction false} RestAppend(a: seq<string>, da: seq<nat>, b: seq<string>, db: seq<nat>)
    requires |da| == |a| && |db| == |b|
    ensures Rest(a + b, da + db) == Rest(a, da) + Rest(b, db)
  {
    if a == [] {
      assert a + b == b && da + db == db;
    } else {
      assert (a + b)[1..] == a[1..] + b && (da + db)[1..] == da[1..] + db;
      RestAppend(a[1..], da[1..], b, db);
    }
  }

  lemma {:induction false} RestOfZero(chunks: seq<string>, drops: seq<nat>)
    requires |drops| == |chunks| && forall i :: 0 <= i < |drops| ==> drops[i] == 0
    ensures Rest(chunks, drops) == Concat(chunks)
  {
    if chunks != [] {
      RestOfZero(chunks[1..], drops[1..]);
    }
  }

  /** With overlap 0 every character that is not whitespace is kept exactly once, in order. */
  lemma ZeroOverlapKeepsInk(chunks: seq<string>, ink: string)
    requires Covers(chunks, 0, ink)
    ensures Ink(Concat(chunks)) == ink
  {
    var drops :| DropsOk(chunks, drops, 0) && Ink(Rest(chunks, drops)) == ink;
    forall i | 0 <= i < |drops| ensures drops[i] == 0 {
      assert DropOk(chunks, drops, 0, i);
    }
    RestOfZero(chunks, drops);
  }

  // ---------- fixed windows ----------

  function Slices(text: string, start: nat, size: nat, step: nat): (slices: seq<string>)
    requires size > 0 && step > 0
    ensures forall i :: 0 <= i < |slices| ==> 0 < |slices[i]| <= size
    ensures start < |text| ==> slices != []
    decreases |text| - start
  {
    if start >= |text| then []
    else [text[start..Min(start + size, |text|)]] + Slices(text, start + step, size, step)
  }

  function Min(a: nat, b: nat): nat {
    if a < b then a else b
  }

  function FixedSplit(text: string, size: int, overlap: int): (chunks: seq<string>)
    requires ValidParameters(size, overlap)
    ensures Fits(chunks, size) && (chunks == [] <==> AllSpace(text))
  {
    NormalizeKeepsInk(text);
    Slices(Normalize(text), 0, size, size - overlap)
  }

  /** Each window repeats the end of the one before; without that they are the text, to the character. */
  lemma {:induction false} SlicesCover(text: string, start: nat, size: int, overlap: int) returns (drops: seq<nat>)
    requires ValidParameters(size, overlap) && start <= |text|
    ensures var slices := Slices(text, start, size, size - overlap);
            DropsOk(slices, drops, overlap) && Rest(slices, drops) == text[start..]
    decreases |text| - start
  {
    var slices := Slices(text, start, size, size - overlap);
    var next := start + size - overlap;
    if start == |text| {
      drops := [];
    } else if next >= |text| {
      assert Slices(text, next, size, size - overlap) == [];
      assert text[start..Min(start + size, |text|)] == text[start..];
      assert slices == [text[start..]];
      drops := [0];
      assert Rest(slices, drops) == text[start..] + Rest([], []);
    } else {
      var inner := Slices(text, next, size, size - overlap);
      var rest := SlicesCover(text, next, size, overlap);
      var k := Min(overlap, |text| - next);
      drops := [0, k] + rest[1..];
      assert DropOk(inner, rest, overlap, 0);
      SlicesDrops(text, start, size, overlap, inner, rest, k);
      SlicesRest(text, start, size, overlap, inner, rest, k);
    }
  }

  /** `k` is what the window at `next` repeats of the one before. */
  predicate SecondWindow(text: string, start: nat, size: int, overlap: int, inner: seq<string>, rest: seq<nat>, k: nat) {
    var next := start + size - overlap;
    && ValidParameters(size, overlap) && next < |text| && k == Min(overlap, |text| - next)
    && inner == Slices(text, next, size, size - overlap) && inner != [] && |rest| == |inner|
    && inner[0] == text[next..Min(next + size, |text|)]
  }

  lemma SlicesDrops(text: string, start: nat, size: int, overlap: int, inner: seq<string>, rest: seq<nat>, k: nat)
    requires SecondWindow(text, start, size, overlap, inner, rest, k) && DropsOk(inner, rest, overlap)
    ensures DropsOk([text[start..Min(start + size, |text|)]] + inner, [0, k] + rest[1..], overlap)
  {
    var next, head := start + size - overlap, text[start..Min(start + size, |text|)];
    var slices, drops := [head] + inner, [0, k] + rest[1..];
    forall i | 0 <= i < |slices| ensures DropOk(slices, drops, overlap, i) {
      if i == 1 {
        assert inner[0][..k] == text[next..next + k];
        assert head[|head| - k..] == text[next..next + k];
      } else if i > 1 {
        assert DropOk(inner, rest, overlap, i - 1);
      }
    }
  }

  lemma SlicesRest(text: string, start: nat, size: int, overlap: int, inner: seq<string>, rest: seq<nat>, k: nat)
    requires SecondWindow(text, start, size, overlap, inner, rest, k) && rest[0] == 0
    requires Rest(inner, rest) == text[start + size - overlap..]
    ensures Rest([text[start..Min(start + size, |text|)]] + inner, [0, k] + rest[1..]) == text[start..]
  {
    var next, head := start + size - overlap, text[start..Min(start + size, |text|)];
    var tail := Rest(inner[1..], rest[1..]);
    var slices, drops := [head] + inner, [0, k] + rest[1..];
    assert slices[1..] == inner && drops[1..] == [k] + rest[1..] && drops[1..][1..] == rest[1..];
    assert Rest(slices, drops) == head + (inner[0][k..] + tail);
    assert inner[0] + tail == text[next..];
    assert inner[0][k..] + tail == (inner[0] + tail)[k..] == text[next + k..];
  }

  lemma FixedSplitCovers(text: string, size: int, overlap: int)
    requires ValidParameters(size, overlap)
    ensures Covers(FixedSplit(text, size, overlap), overlap, Ink(text))
  {
    var drops := FixedDrops(text, size, overlap);
  }

  // ---------- greedy merging ----------

  /** The loop of `_merge_units`: finished chunks and the one being filled, or the failure to index
      the last window of a unit that has none. */
  datatype Merge = Merging(chunks: seq<string>, current: string) | Jammed

  /** `current[-overlap:]`, and nothing when the overlap is 0. */
  function Tail(current: string, overlap: nat): (tail: string)
    ensures |tail| <= overlap && |tail| <= |current| && tail == current[|current| - |tail|..]
  {
    if |current| <= overlap then current else current[|current| - overlap..]
  }

  function Join(head: string, unit: string): string {
    if head == "" then unit else head + "\n" + unit
  }

  function Flushed(chunks: seq<string>, current: string): seq<string> {
    if current == "" then chunks else chunks + [current]
  }

  function MergeUnit(m: Merge, unit: string, size: int, overlap: int): Merge
    requires ValidParameters(size, overlap)
  {
    if m.Jammed? then Jammed
    else if |Join(m.current, unit)| <= size then Merging(m.chunks, Join(m.current, unit))
    else if |Join(Tail(m.current, overlap), unit)| <= size
    then Merging(Flushed(m.chunks, m.current), Join(Tail(m.current, overlap), unit))
    else
      var hard := FixedSplit(unit, size, overlap);
      if hard == [] then Jammed
      else Merging(Flushed(m.chunks, m.current) + hard[..|hard| - 1], hard[|hard| - 1])
  }

  function Merged(units: seq<string>, size: int, overlap: int): Merge
    requires ValidParameters(size, overlap)
  {
    if units == [] then Merging([], "")
    else MergeUnit(Merged(units[..|units| - 1], size, overlap), units[|units| - 1], size, overlap)
  }

  /** What is left to prove about the text while the loop runs: `drops` and `d` are the repeated
      prefixes of the finished chunks and of the current one. */
  ghost predicate MergeOk(m: Merge, drops: seq<nat>, d: nat, ink: string, size: int, overlap: int) {
    && m.Merging? && Fits(m.chunks, size) && |m.current| <= size
    && DropsOk(m.chunks, drops, overlap)
    && d <= overlap && d <= |m.current|
    && (if m.chunks == [] then d == 0 else Carries(m.chunks[|m.chunks| - 1], m.current, d))
    && Ink(Rest(m.chunks, drops)) + Ink(m.current[d..]) == ink
  }

  /** A joined unit keeps the first `d` characters, and adds its ink to the rest. */
  lemma JoinAt(head: string, unit: string, d: nat)
    requires d <= |head|
    ensures d <= |Join(head, unit)| && Join(head, unit)[..d] == head[..d]
    ensures Ink(Join(head, unit)[d..]) == Ink(head[d..]) + Ink(unit)
  {
    if head == "" {
      assert head[d..] == "" && unit[d..] == unit;
    } else {
      assert Join(head, unit)[d..] == head[d..] + ("\n" + unit);
      BlankHasNoInk("\n");
      BetweenHasNoInk(head[d..], "\n", unit);
    }
  }

  lemma Assoc(a: string, b: string, c: string)
    ensures (a + b) + c == a + (b + c)
  {
  }

  lemma ExtendOk(m: Merge, drops: seq<nat>, d: nat, ink: string, unit: string, size: int, overlap: int)
    requires MergeOk(m, drops, d, ink, size, overlap) && |Join(m.current, unit)| <= size
    ensures MergeOk(Merging(m.chunks, Join(m.current, unit)), drops, d, ink + Ink(unit), size, overlap)
  {
    JoinAt(m.current, unit, d);
    JoinedInk(Ink(Rest(m.chunks, drops)), Ink(m.current[d..]), Ink(unit), Ink(Join(m.current, unit)[d..]), ink);
  }

  lemma JoinedInk(before: string, current: string, unit: string, joined: string, ink: string)
    requires before + current == ink && joined == current + unit
    ensures before + joined == ink + unit
  {
    Assoc(before, current, unit);
  }

  lemma FlushOk(m: Merge, drops: seq<nat>, d: nat, ink: string, size: int, overlap: int) returns (more: seq<nat>)
    requires MergeOk(m, drops, d, ink, size, overlap)
    ensures Fits(Flushed(m.chunks, m.current), size) && DropsOk(Flushed(m.chunks, m.current), more, overlap)
    ensures Ink(Rest(Flushed(m.chunks, m.current), more)) == ink
  {
    if m.current == "" {
      more := drops;
      assert m.current[d..] == "";
      assert Ink(Rest(m.chunks, drops)) + "" == ink;
    } else {
      more := drops + [d];
      var chunks := m.chunks + [m.current];
      RestLast(chunks, more);
      assert chunks[..|m.chunks|] == m.chunks && more[..|m.chunks|] == drops;
      InkConcat(Rest(m.chunks, drops), m.current[d..]);
      forall i | 0 <= i < |chunks| ensures DropOk(chunks, more, overlap, i) {
        assert i < |m.chunks| ==> DropOk(m.chunks, drops, overlap, i);
      }
    }
  }

  lemma RestLast(chunks: seq<string>, drops: seq<nat>)
    requires chunks != [] && |drops| == |chunks| && drops[|chunks| - 1] <= |chunks[|chunks| - 1]|
    ensures var n := |chunks| - 1;
            Rest(chunks, drops) == Rest(chunks[..n], drops[..n]) + chunks[n][drops[n]..]
  {
    var n := |chunks| - 1;
    RestAppend(chunks[..n], drops[..n], [chunks[n]], [drops[n]]);
    assert chunks == chunks[..n] + [chunks[n]] && drops == drops[..n] + [drops[n]];
    assert Rest([chunks[n]], [drops[n]]) == chunks[n][drops[n]..] + Rest([], []);
  }

  /** A carried tail: the new chunk starts with the end of the flushed one. */
  lemma CarryOk(m: Merge, drops: seq<nat>, d: nat, ink: string, unit: string, size: int, overlap: int) returns (more: seq<nat>)
    requires ValidParameters(size, overlap) && MergeOk(m, drops, d, ink, size, overlap) && m.current != ""
    requires |Join(Tail(m.current, overlap), unit)| <= size
    ensures MergeOk(Merging(Flushed(m.chunks, m.current), Join(Tail(m.current, overlap), unit)), more,
                    |Tail(m.current, overlap)|, ink + Ink(unit), size, overlap)
  {
    more := FlushOk(m, drops, d, ink, size, overlap);
    var tail := Tail(m.current, overlap);
    JoinAt(tail, unit, |tail|);
    assert tail[|tail|..] == "" && "" + Ink(unit) == Ink(unit) && tail[..|tail|] == tail;
    var chunks := Flushed(m.chunks, m.current);
    assert Carries(chunks[|chunks| - 1], Join(tail, unit), |tail|);
  }

  /** A hard split: all windows but the last one are finished. */
  lemma HardOk(m: Merge, drops: seq<nat>, d: nat, ink: string, unit: string, size: int, overlap: int)
    returns (more: seq<nat>, e: nat)
    requires ValidParameters(size, overlap) && MergeOk(m, drops, d, ink, size, overlap)
    requires FixedSplit(unit, size, overlap) != []
    ensures var hard := FixedSplit(unit, size, overlap);
            MergeOk(Merging(Flushed(m.chunks, m.current) + hard[..|hard| - 1], hard[|hard| - 1]), more, e,
                    ink + Ink(unit), size, overlap)
  {
    var flushed, hard := Flushed(m.chunks, m.current), FixedSplit(unit, size, overlap);
    var before := FlushOk(m, drops, d, ink, size, overlap);
    var windows := FixedDrops(unit, size, overlap);
    more, e := before + windows[..|hard| - 1], windows[|hard| - 1];
    WindowsOk(flushed, before, ink, hard, windows, Ink(unit), size, overlap);
  }

  lemma FixedDrops(text: string, size: int, overlap: int) returns (drops: seq<nat>)
    requires ValidParameters(size, overlap)
    ensures DropsOk(FixedSplit(text, size, overlap), drops, overlap)
    ensures Ink(Rest(FixedSplit(text, size, overlap), drops)) == Ink(text)
  {
    NormalizeKeepsInk(text);
    drops := SlicesCover(Normalize(text), 0, size, overlap);
    assert Normalize(text)[0..] == Normalize(text);
  }

  lemma WindowsOk(flushed: seq<string>, before: seq<nat>, ink: string, hard: seq<string>, windows: seq<nat>, unitInk: string,
                  size: int, overlap: int)
    requires DropsOk(flushed, before, overlap) && Fits(flushed, size) && Ink(Rest(flushed, before)) == ink
    requires hard != [] && DropsOk(hard, windows, overlap) && Fits(hard, size) && Ink(Rest(hard, windows)) == unitInk
    ensures var n := |hard| - 1;
            MergeOk(Merging(flushed + hard[..n], hard[n]), before + windows[..n], windows[n], ink + unitInk, size, overlap)
  {
    var n := |hard| - 1;
    assert DropOk(hard, windows, overlap, n);
    HardDrops(flushed, before, hard, windows, overlap);
    RestAppend(flushed, before, hard[..n], windows[..n]);
    RestLast(hard, windows);
    InkConcat(Rest(flushed, before), Rest(hard[..n], windows[..n]));
    InkConcat(Rest(hard[..n], windows[..n]), hard[n][windows[n]..]);
    Assoc(ink, Ink(Rest(hard[..n], windows[..n])), Ink(hard[n][windows[n]..]));
    if n == 0 {
      assert flushed + hard[..n] == flushed;
    }
  }

  lemma HardDrops(flushed: seq<string>, before: seq<nat>, hard: seq<string>, windows: seq<nat>, overlap: int)
    requires hard != [] && DropsOk(flushed, before, overlap) && DropsOk(hard, windows, overlap)
    ensures DropsOk(flushed + hard[..|hard| - 1], before + windows[..|hard| - 1], overlap)
  {
    var n := |hard| - 1;
    var chunks, drops := flushed + hard[..n], before + windows[..n];
    forall i | 0 <= i < |chunks| ensures DropOk(chunks, drops, overlap, i) {
      if i < |flushed| {
        assert DropOk(flushed, before, overlap, i);
      } else {
        assert DropOk(hard, windows, overlap, i - |flushed|);
      }
    }
  }

  lemma MergeUnitOk(m: Merge, drops: seq<nat>, d: nat, ink: string, unit: string, size: int, overlap: int)
    returns (more: seq<nat>, e: nat)
    requires ValidParameters(size, overlap) && MergeOk(m, drops, d, ink, size, overlap)
    requires MergeUnit(m, unit, size, overlap).Merging?
    ensures MergeOk(MergeUnit(m, unit, size, overlap), more, e, ink + Ink(unit), size, overlap)
  {
    if |Join(m.current, unit)| <= size {
      more, e := drops, d;
      ExtendOk(m, drops, d, ink, unit, size, overlap);
    } else if |Join(Tail(m.current, overlap), unit)| <= size {
      e := |Tail(m.current, overlap)|;
      more := CarryOk(m, drops, d, ink, unit, size, overlap);
    } else {
      more, e := HardOk(m, drops, d, ink, unit, size, overlap);
    }
  }

  lemma {:induction false} MergedOk(units: seq<string>, size: int, overlap: int) returns (drops: seq<nat>, d: nat)
    requires ValidParameters(size, overlap) && Merged(units, size, overlap).Merging?
    ensures MergeOk(Merged(units, size, overlap), drops, d, Ink(Concat(units)), size, overlap)
  {
    if units == [] {
      drops, d := [], 0;
    } else {
      var n := |units| - 1;
      drops, d := MergedOk(units[..n], size, overlap);
      drops, d := MergeUnitOk(Merged(units[..n], size, overlap), drops, d, Ink(Concat(units[..n])), units[n], size, overlap);
      InkLast(units);
    }
  }

  lemma InkLast(units: seq<string>)
    requires units != []
    ensures Ink(Concat(units)) == Ink(Concat(units[..|units| - 1])) + Ink(units[|units| - 1])
  {
    var before, last := units[..|units| - 1], units[|units| - 1];
    ConcatAppend(before, [last]);
    ConcatOne(last);
    assert units == before + [last];
    InkConcat(Concat(before), last);
  }

  lemma ConcatOne(piece: string)
    ensures Concat([piece]) == piece
  {
  }

  /** Any overlap and any units: without what each chunk repeats of the one before, the ink of the
      units is left, across carried tails and hard splits, and no chunk is longer than the limit. */
  lemma MergedCovers(units: seq<string>, size: int, overlap: int)
    requires ValidParameters(size, overlap) && Merged(units, size, overlap).Merging?
    ensures var m := Merged(units, size, overlap);
            && Fits(Flushed(m.chunks, m.current), size)
            && Covers(Flushed(m.chunks, m.current), overlap, Ink(Concat(units)))
  {
    var drops, d := MergedOk(units, size, overlap);
    var all := FlushOk(Merged(units, size, overlap), drops, d, Ink(Concat(units)), size, overlap);
  }

  /** One unit jams the loop exactly when it is blank and fits neither behind the current chunk nor
      behind the carried tail. */
  lemma JamsExactly(m: Merge, unit: string, size: int, overlap: int)
    requires ValidParameters(size, overlap) && m.Merging?
    ensures MergeUnit(m, unit, size, overlap).Jammed?
       <==> AllSpace(unit) && |Join(m.current, unit)| > size && |Join(Tail(m.current, overlap), unit)| > size
  {
  }

  /** A unit that can never jam the loop. */
  predicate Harmless(unit: string, size: int, overlap: int) {
    !AllSpace(unit) || (overlap == 0 && |unit| <= size)
  }

  lemma {:induction false} HarmlessUnitsMerge(units: seq<string>, size: int, overlap: int)
    requires ValidParameters(size, overlap) && forall u :: u in units ==> Harmless(u, size, overlap)
    ensures Merged(units, size, overlap).Merging?
  {
    if units != [] {
      var n := |units| - 1;
      HarmlessUnitsMerge(units[..n], size, overlap);
      assert Harmless(units[n], size, overlap);
    }
  }

  /** Unit `i` is the first to jam the loop: it is blank, and too long behind the chunk that the units
      before it have left and behind its tail. */
  predicate JamsAt(units: seq<string>, size: int, overlap: int, i: nat)
    requires ValidParameters(size, overlap) && i < |units|
  {
    var m := Merged(units[..i], size, overlap);
    && m.Merging? && AllSpace(units[i])
    && |Join(m.current, units[i])| > size && |Join(Tail(m.current, overlap), units[i])| > size
  }

  /** The merge of a whole list of units fails exactly when one of them is such a unit. */
  lemma MergedJamsIff(units: seq<string>, size: int, overlap: int)
    requires ValidParameters(size, overlap)
    ensures Merged(units, size, overlap).Jammed? <==> exists i :: 0 <= i < |units| && JamsAt(units, size, overlap, i)
  {
    if Merged(units, size, overlap).Jammed? {
      var i := FirstJam(units, size, overlap);
    }
    forall i | 0 <= i < |units| && JamsAt(units, size, overlap, i) ensures Merged(units, size, overlap).Jammed? {
      JamsExactly(Merged(units[..i], size, overlap), units[i], size, overlap);
      MergedNext(units, size, overlap, i);
      StaysJammed(units, size, overlap, i + 1);
    }
  }

  lemma {:induction false} FirstJam(units: seq<string>, size: int, overlap: int) returns (i: nat)
    requires ValidParameters(size, overlap) && Merged(units, size, overlap).Jammed?
    ensures i < |units| && JamsAt(units, size, overlap, i)
    decreases |units|
  {
    var n := |units| - 1;
    if Merged(units[..n], size, overlap).Jammed? {
      i := FirstJam(units[..n], size, overlap);
      assert units[..n][..i] == units[..i];
    } else {
      i := n;
      JamsExactly(Merged(units[..n], size, overlap), units[n], size, overlap);
    }
  }

  function Finished(m: Merge): Result<seq<string>, ChunkError> {
    if m.Jammed? then Failure(BlankUnit) else Success(Flushed(m.chunks, m.current))
  }

  method MergeUnits(units: seq<string>, size: int, overlap: int) returns (r: Result<seq<string>, ChunkError>)
    requires ValidParameters(size, overlap)
    ensures r == Finished(Merged(units, size, overlap))
    ensures r.Failure? <==> Merged(units, size, overlap).Jammed?
    ensures r.Failure? ==> r.error == BlankUnit
    ensures r.Success? ==> Fits(r.value, size) && Covers(r.value, overlap, Ink(Concat(units)))
  {
    var chunks: seq<string> := [];
    var current := "";
    for i := 0 to |units|
      invariant Merged(units[..i], size, overlap) == Merging(chunks, current)
    {
      var unit := units[i];
      MergedNext(units, size, overlap, i);
      var candidate := if current != "" then current + "\n" + unit else unit;
      if |candidate| <= size {
        current := candidate;
        continue;
      }
      if current != "" {
        chunks := chunks + [current];
      }
      var tail := if current != "" && overlap != 0 then Tail(current, overlap) else "";
      candidate := if tail != "" then tail + "\n" + unit else unit;
      if |candidate| <= size {
        current := candidate;
      } else {
        var hard := FixedSplit(unit, size, overlap);
        if hard == [] {
          StaysJammed(units, size, overlap, i + 1);
          return Failure(BlankUnit);
        }
        chunks := chunks + hard[..|hard| - 1];
        current := hard[|hard| - 1];
      }
    }
    assert units[..|units|] == units;
    MergedCovers(units, size, overlap);
    if current != "" {
      chunks := chunks + [current];
    }
    r := Success(chunks);
  }

  /** Units that cannot jam the loop are merged. */
  lemma MergeSucceeds(units: seq<string>, size: int, overlap: int, r: Result<seq<string>, ChunkError>)
    requires ValidParameters(size, overlap) && forall u :: u in units ==> Harmless(u, size, overlap)
    requires r.Failure? <==> Merged(units, size, overlap).Jammed?
    ensures r.Success?
  {
    HarmlessUnitsMerge(units, size, overlap);
  }

  lemma MergedNext(units: seq<string>, size: int, overlap: int, i: nat)
    requires ValidParameters(size, overlap) && i < |units|
    ensures Merged(units[..i + 1], size, overlap) == MergeUnit(Merged(units[..i], size, overlap), units[i], size, overlap)
  {
    assert units[..i + 1][..i] == units[..i];
  }

  lemma {:induction false} StaysJammed(units: seq<string>, size: int, overlap: int, i: nat)
    requires ValidParameters(size, overlap) && i <= |units| && Merged(units[..i], size, overlap).Jammed?
    ensures Merged(units, size, overlap).Jammed?
    decreases |units| - i
  {
    if i == |units| {
      assert units[..i] == units;
    } else {
      MergedNext(units, size, overlap, i);
      StaysJammed(units, size, overlap, i + 1);
    }
  }
}
