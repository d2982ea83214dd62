/** What the merged chunks look like, to the character: which units each is made of, what it repeats,
    and that no chunk ends before it has to. */
module ChunkerMerge {
  import opened Wrappers
  import opened ChunkerText
  import opened Chunker

  // ---------- lines ----------

  /** The parts one below the other. */
  function Lines(parts: seq<string>): string {
    if parts == [] then ""
    else if |parts| == 1 then parts[0]
    else Lines(parts[..|parts| - 1]) + "\n" + parts[|parts| - 1]
  }

  lemma LinesMore(parts: seq<string>, part: string)
    ensures Lines(parts + [part]) == if parts == [] then part else Lines(parts) + "\n" + part
  {
    assert (parts + [part])[..|parts|] == parts;
  }

  lemma {:induction false} LinesAppend(a: seq<string>, b: seq<string>)
    requires a != [] && b != []
    ensures Lines(a + b) == Lines(a) + "\n" + Lines(b)
    decreases |b|
  {
    var n := |b| - 1;
    assert a + b == (a + b[..n]) + [b[n]] && b == b[..n] + [b[n]];
    LinesMore(a + b[..n], b[n]);
    LinesMore(b[..n], b[n]);
    if n == 0 {
      assert a + b[..n] == a;
    } else {
      LinesAppend(a, b[..n]);
      assert Lines(a) + "\n" + Lines(b[..n]) + "\n" + b[n] == Lines(a) + "\n" + (Lines(b[..n]) + "\n" + b[n]);
    }
  }

  /** What a chunk starts with, and the units below that. */
  function Glued(head: string, units: seq<string>): string {
    if head == "" then Lines(units) else Lines([head] + units)
  }

  lemma GluedMore(head: string, units: seq<string>, unit: string)
    requires head != "" || units != []
    ensures Glued(head, units + [unit]) == Glued(head, units) + "\n" + unit
  {
    if head == "" {
      LinesMore(units, unit);
    } else {
      LinesMore([head] + units, unit);
      assert [head] + (units + [unit]) == ([head] + units) + [unit];
    }
  }

  // ---------- the windows of a hard split ----------

  /** Window `i` starts `i` steps behind the first one, is as long as it can be, and the windows end with
      the text. */
  predicate Windowed(text: string, start: nat, size: nat, step: nat, windows: seq<string>)
    requires size > 0 && step > 0
  {
    && (start < |text| ==> (|windows| - 1) * step < |text| - start)
    && |text| <= start + |windows| * step
    && forall i :: 0 <= i < |windows| ==> WindowAt(text, start + i * step, size, windows[i])
  }

  predicate WindowAt(text: string, at: nat, size: nat, window: string) {
    at <= |text| && window == if at + size < |text| then text[at..at + size] else text[at..]
  }

  lemma {:induction false} SlicesAreWindows(text: string, start: nat, size: nat, step: nat)
    requires size > 0 && step > 0
    ensures Windowed(text, start, size, step, Slices(text, start, size, step))
    decreases |text| - start
  {
    var windows := Slices(text, start, size, step);
    if start < |text| {
      var rest := Slices(text, start + step, size, step);
      SlicesAreWindows(text, start + step, size, step);
      assert windows[1..] == rest && |windows| == |rest| + 1;
      assert |windows| * step == |rest| * step + step;
      assert (|windows| - 1) * step == |rest| * step;
      if rest != [] {
        assert (|rest| - 1) * step == |rest| * step - step;
      }
      forall i | 0 <= i < |windows| ensures WindowAt(text, start + i * step, size, windows[i]) {
        if i > 0 {
          assert WindowAt(text, (start + step) + (i - 1) * step, size, rest[i - 1]);
          assert (start + step) + (i - 1) * step == start + i * step;
        }
      }
    }
  }

  /** A hard split cuts the normalised unit every `size - overlap` characters into windows of `size`. */
  lemma HardSplitIsWindowed(unit: string, size: int, overlap: int)
    requires ValidParameters(size, overlap)
    ensures Windowed(Normalize(unit), 0, size, size - overlap, FixedSplit(unit, size, overlap))
  {
    SlicesAreWindows(Normalize(unit), 0, size, size - overlap);
  }

  // ---------- how a chunk is made ----------

  /** A chunk starts with its first unit, with the tail of the chunk before it, or is window `k` of the
      unit before `from`; job.units `from` to `to` follow. */
  datatype Lead = Fresh | Carried | Window(k: nat)
  datatype Piece = Piece(text: string, lead: Lead, from: nat, to: nat)

  /** The units, what a hard split makes of each, and the parameters of the merge. */
  datatype Job = Job(units: seq<string>, cuts: seq<seq<string>>, size: int, overlap: nat) {
    predicate Valid() {
      |cuts| == |units|
    }
  }

  function Texts(pieces: seq<Piece>): (texts: seq<string>)
    ensures |texts| == |pieces| && forall i :: 0 <= i < |pieces| ==> texts[i] == pieces[i].text
  {
    seq(|pieces|, i requires 0 <= i < |pieces| => pieces[i].text)
  }

  /** The last `overlap` characters of a chunk, or all of it. */
  function EndOf(chunk: string, overlap: nat): string {
    if |chunk| <= overlap then chunk else chunk[|chunk| - overlap..]
  }

  function UnitsBefore(before: Option<Piece>): nat {
    if before.Some? then before.value.to else 0
  }

  /** The unit does not fit behind the chunk before it, if there is one. */
  predicate NoRoom(before: Option<Piece>, unit: string, size: int) {
    if before.Some? then |before.value.text| + 1 + |unit| > size else |unit| > size
  }

  /** Nor behind its tail. */
  predicate NoRoomBehindTail(before: Option<Piece>, unit: string, size: int, overlap: nat) {
    if before.Some? && overlap > 0 then |EndOf(before.value.text, overlap)| + 1 + |unit| > size else |unit| > size
  }

  /** A chunk ends where the next unit does not fit. The next one starts with its tail and that unit or, if
      these are too long, with the windows of the unit. */
  predicate Follows(before: Option<Piece>, p: Piece, job: Job)
    requires job.Valid()
  {
    p.from <= p.to <= |job.units| && match p.lead
      case Fresh =>
        && (before.None? || job.overlap == 0) && UnitsBefore(before) == p.from < p.to
        && (before.Some? ==> NoRoom(before, job.units[p.from], job.size))
        && p.text == Glued("", job.units[p.from..p.to])
      case Carried =>
        && before.Some? && job.overlap > 0 && UnitsBefore(before) == p.from < p.to
        && NoRoom(before, job.units[p.from], job.size)
        && p.text == Glued(EndOf(before.value.text, job.overlap), job.units[p.from..p.to])
      case Window(k) =>
        && p.from > 0
        && (var hard := job.cuts[p.from - 1];
            k < |hard| && (k + 1 < |hard| ==> p.to == p.from) && p.text == Glued(hard[k], job.units[p.from..p.to]))
        && (k == 0 ==>
              && UnitsBefore(before) == p.from - 1 && NoRoom(before, job.units[p.from - 1], job.size)
              && NoRoomBehindTail(before, job.units[p.from - 1], job.size, job.overlap))
        && (k > 0 ==> before.Some? && before.value.lead == Window(k - 1) && before.value.from == before.value.to == p.from)
  }

  function LastOf(pieces: seq<Piece>): Option<Piece> {
    if pieces == [] then None else Some(pieces[|pieces| - 1])
  }

  /** Each piece follows the one before it. */
  predicate AllFollow(pieces: seq<Piece>, job: Job)
    requires job.Valid()
  {
    pieces != [] ==>
      && AllFollow(pieces[..|pieces| - 1], job)
      && Follows(LastOf(pieces[..|pieces| - 1]), pieces[|pieces| - 1], job)
  }

  /** The last window of a unit is there. */
  predicate Complete(last: Option<Piece>, job: Job)
    requires job.Valid()
  {
    last.Some? && last.value.lead.Window? ==>
      0 < last.value.from <= |job.units| && last.value.lead.k + 1 == |job.cuts[last.value.from - 1]|
  }

  /** The chunks are made of all the units, in order. */
  predicate MadeOf(chunks: seq<string>, pieces: seq<Piece>, job: Job)
    requires job.Valid()
  {
    && chunks == Texts(pieces) && UnitsBefore(LastOf(pieces)) == |job.units|
    && AllFollow(pieces, job) && Complete(LastOf(pieces), job)
  }

  lemma AddPiece(pieces: seq<Piece>, p: Piece, job: Job)
    requires job.Valid() && AllFollow(pieces, job)
    requires Follows(LastOf(pieces), p, job)
    ensures AllFollow(pieces + [p], job) && Texts(pieces + [p]) == Texts(pieces) + [p.text]
    ensures LastOf(pieces + [p]) == Some(p)
  {
    assert (pieces + [p])[..|pieces|] == pieces;
  }

  /** What the loop has made of the first `n` job.units: finished pieces and the current one. */
  predicate SoFar(m: Merge, done: seq<Piece>, last: Piece, job: Job, n: nat)
    requires job.Valid()
  {
    && m.Merging? && n <= |job.units|
    && if n == 0 then m == Merging([], "") && done == []
       else
         && m.chunks == Texts(done) && m.current == last.text != "" && last.to == n
         && AllFollow(done, job) && Follows(LastOf(done), last, job)
         && Complete(Some(last), job)
  }

  /** The current chunk takes one more unit. */
  lemma OneMoreUnit(before: Option<Piece>, p: Piece, job: Job)
    requires job.Valid() && Follows(before, p, job)
    requires Complete(Some(p), job) && p.text != "" && p.to < |job.units|
    ensures Follows(before, p.(text := p.text + "\n" + job.units[p.to], to := p.to + 1), job)
  {
    assert job.units[p.from..p.to + 1] == job.units[p.from..p.to] + [job.units[p.to]];
    match p.lead
    case Fresh => GluedMore("", job.units[p.from..p.to], job.units[p.to]);
    case Carried => GluedMore(EndOf(before.value.text, job.overlap), job.units[p.from..p.to], job.units[p.to]);
    case Window(k) =>
      GluedMore(job.cuts[p.from - 1][k], job.units[p.from..p.to], job.units[p.to]);
  }

  /** The next chunk starts with the tail of the last one, if there is an overlap, and the unit. */
  lemma NextStarts(last: Piece, job: Job)
    requires job.Valid() && last.to < |job.units| && last.text != "" && NoRoom(Some(last), job.units[last.to], job.size)
    ensures job.overlap == 0 ==> Follows(Some(last), Piece(job.units[last.to], Fresh, last.to, last.to + 1), job)
    ensures job.overlap > 0 ==>
              Follows(Some(last), Piece(EndOf(last.text, job.overlap) + "\n" + job.units[last.to], Carried, last.to, last.to + 1),
                      job)
  {
    var n, tail := last.to, EndOf(last.text, job.overlap);
    assert job.units[n..n + 1] == [job.units[n]];
    LinesMore([tail], job.units[n]);
    assert [tail] + [job.units[n]] == [tail, job.units[n]];
  }

  /** The windows of a unit that is too long, each a chunk so far. */
  function WindowPiece(job: Job, n: nat, k: nat): Piece
    requires job.Valid() && n < |job.units| && k < |job.cuts[n]|
  {
    Piece(job.cuts[n][k], Window(k), n + 1, n + 1)
  }

  lemma WindowFollows(before: Option<Piece>, job: Job, n: nat, k: nat)
    requires job.Valid() && n < |job.units| && k < |job.cuts[n]|
    requires k == 0 ==> UnitsBefore(before) == n && NoRoom(before, job.units[n], job.size) && NoRoomBehindTail(before, job.units[n], job.size, job.overlap)
    requires k > 0 ==> before == Some(WindowPiece(job, n, k - 1))
    ensures Follows(before, WindowPiece(job, n, k), job)
  {
    var window := job.cuts[n][k];
    assert job.units[n + 1..n + 1] == [];
    assert Glued(window, []) == window by {
      assert [window] + [] == [window];
    }
  }

  /** The first `k` windows are chunks. */
  lemma {:induction false} WindowsStart(done: seq<Piece>, job: Job, n: nat, k: nat) returns (pieces: seq<Piece>)
    requires job.Valid() && AllFollow(done, job) && n < |job.units| && UnitsBefore(LastOf(done)) == n
    requires NoRoom(LastOf(done), job.units[n], job.size) && NoRoomBehindTail(LastOf(done), job.units[n], job.size, job.overlap)
    requires k <= |job.cuts[n]|
    ensures AllFollow(pieces, job) && Texts(pieces) == Texts(done) + job.cuts[n][..k]
    ensures LastOf(pieces) == if k == 0 then LastOf(done) else Some(WindowPiece(job, n, k - 1))
    decreases k
  {
    if k == 0 {
      pieces := done;
      assert Texts(done) + job.cuts[n][..0] == Texts(done);
    } else {
      var rest := WindowsStart(done, job, n, k - 1);
      WindowFollows(LastOf(rest), job, n, k - 1);
      AddPiece(rest, WindowPiece(job, n, k - 1), job);
      OneMoreText(Texts(done), job.cuts[n], k - 1);
      pieces := rest + [WindowPiece(job, n, k - 1)];
    }
  }

  lemma OneMoreText(texts: seq<string>, windows: seq<string>, k: nat)
    requires k < |windows|
    ensures (texts + windows[..k]) + [windows[k]] == texts + windows[..k + 1]
  {
  }

  /** All that is finished before a unit that does not fit behind the current chunk. */
  lemma Finish(m: Merge, done: seq<Piece>, last: Piece, job: Job, n: nat)
    returns (pieces: seq<Piece>)
    requires job.Valid() && SoFar(m, done, last, job, n)
    ensures AllFollow(pieces, job) && Texts(pieces) == Flushed(m.chunks, m.current)
    ensures LastOf(pieces) == if n == 0 then None else Some(last)
  {
    if n == 0 {
      pieces := [];
    } else {
      AddPiece(done, last, job);
      pieces := done + [last];
    }
  }

  lemma NoRoomAtAll(m: Merge, done: seq<Piece>, last: Piece, job: Job, n: nat)
    requires job.Valid() && SoFar(m, done, last, job, n) && n < |job.units|
    requires |Join(m.current, job.units[n])| > job.size && |Join(Tail(m.current, job.overlap), job.units[n])| > job.size
    ensures var before := if n == 0 then None else Some(last);
            NoRoom(before, job.units[n], job.size) && NoRoomBehindTail(before, job.units[n], job.size, job.overlap)
  {
  }

  /** The current piece stands behind the finished ones. */
  lemma Stands(done: seq<Piece>, last: Piece, job: Job, n: nat)
    requires job.Valid() && 0 < n <= |job.units| && last.to == n && last.text != ""
    requires AllFollow(done, job) && Follows(LastOf(done), last, job) && Complete(Some(last), job)
    ensures SoFar(Merging(Texts(done), last.text), done, last, job, n)
  {
  }

  lemma WindowsStand(all: seq<Piece>, job: Job, n: nat) returns (done: seq<Piece>, last: Piece)
    requires job.Valid() && AllFollow(all, job) && n < |job.units| && UnitsBefore(LastOf(all)) == n
    requires NoRoom(LastOf(all), job.units[n], job.size) && NoRoomBehindTail(LastOf(all), job.units[n], job.size, job.overlap)
    requires job.cuts[n] != [] && job.cuts[n][|job.cuts[n]| - 1] != ""
    ensures var hard := job.cuts[n];
            SoFar(Merging(Texts(all) + hard[..|hard| - 1], hard[|hard| - 1]), done, last, job, n + 1)
  {
    var k := |job.cuts[n]| - 1;
    done := WindowsStart(all, job, n, k);
    last := WindowPiece(job, n, k);
    WindowFollows(LastOf(done), job, n, k);
    Stands(done, last, job, n + 1);
  }

  /** The unit is cut hard; the loop goes on with its last window. */
  lemma HardUnit(m: Merge, done: seq<Piece>, last: Piece, job: Job, n: nat)
    returns (done': seq<Piece>, last': Piece)
    requires job.Valid() && SoFar(m, done, last, job, n) && n < |job.units|
    requires |Join(m.current, job.units[n])| > job.size && |Join(Tail(m.current, job.overlap), job.units[n])| > job.size
    requires job.cuts[n] != [] && job.cuts[n][|job.cuts[n]| - 1] != ""
    ensures var hard := job.cuts[n];
            SoFar(Merging(Flushed(m.chunks, m.current) + hard[..|hard| - 1], hard[|hard| - 1]), done', last', job, n + 1)
  {
    NoRoomAtAll(m, done, last, job, n);
    var all := Finish(m, done, last, job, n);
    done', last' := WindowsStand(all, job, n);
  }

  /** The first chunk starts with the first unit. */
  lemma FirstStarts(job: Job)
    requires job.Valid() && job.units != [] && job.units[0] != ""
    ensures SoFar(Merging([], job.units[0]), [], Piece(job.units[0], Fresh, 0, 1), job, 1)
  {
    assert job.units[0..1] == [job.units[0]];
    Stands([], Piece(job.units[0], Fresh, 0, 1), job, 1);
  }

  lemma LongerStands(done: seq<Piece>, last: Piece, job: Job) returns (p: Piece)
    requires job.Valid() && AllFollow(done, job) && Follows(LastOf(done), last, job) && Complete(Some(last), job)
    requires last.text != "" && last.to < |job.units|
    ensures SoFar(Merging(Texts(done), last.text + "\n" + job.units[last.to]), done, p, job, last.to + 1)
  {
    OneMoreUnit(LastOf(done), last, job);
    p := last.(text := last.text + "\n" + job.units[last.to], to := last.to + 1);
    Stands(done, p, job, last.to + 1);
  }

  /** The unit fits behind the current chunk. */
  lemma FittingUnit(m: Merge, done: seq<Piece>, last: Piece, job: Job, n: nat) returns (last': Piece)
    requires job.Valid() && SoFar(m, done, last, job, n) && n < |job.units| && job.units[n] != ""
    ensures SoFar(Merging(m.chunks, Join(m.current, job.units[n])), done, last', job, n + 1)
  {
    if n == 0 {
      FirstStarts(job);
      last' := Piece(job.units[0], Fresh, 0, 1);
    } else {
      last' := LongerStands(done, last, job);
    }
  }

  /** The piece that the next unit starts. */
  lemma NextPiece(last: Piece, job: Job) returns (p: Piece)
    requires job.Valid() && last.to < |job.units| && last.text != "" && job.units[last.to] != ""
    requires NoRoom(Some(last), job.units[last.to], job.size)
    ensures p.text == if job.overlap == 0 then job.units[last.to] else EndOf(last.text, job.overlap) + "\n" + job.units[last.to]
    ensures Follows(Some(last), p, job) && Complete(Some(p), job) && p.to == last.to + 1 && p.text != ""
  {
    NextStarts(last, job);
    p := if job.overlap == 0 then Piece(job.units[last.to], Fresh, last.to, last.to + 1)
         else Piece(EndOf(last.text, job.overlap) + "\n" + job.units[last.to], Carried, last.to, last.to + 1);
  }

  lemma TailIsEnd(current: string, overlap: nat, unit: string)
    requires current != "" && unit != ""
    ensures Join(Tail(current, overlap), unit) == if overlap == 0 then unit else EndOf(current, overlap) + "\n" + unit
  {
  }

  /** The unit fits behind the tail of the current chunk only. */
  lemma NextUnit(m: Merge, done: seq<Piece>, last: Piece, job: Job, n: nat)
    returns (done': seq<Piece>, last': Piece)
    requires job.Valid() && SoFar(m, done, last, job, n) && n < |job.units| && job.units[n] != ""
    requires |Join(m.current, job.units[n])| > job.size && |Join(Tail(m.current, job.overlap), job.units[n])| <= job.size
    ensures SoFar(Merging(Flushed(m.chunks, m.current), Join(Tail(m.current, job.overlap), job.units[n])), done', last', job, n + 1)
  {
    TailIsEnd(m.current, job.overlap, job.units[n]);
    done' := Finish(m, done, last, job, n);
    last' := NextPiece(last, job);
    Stands(done', last', job, n + 1);
  }

  lemma UnitMade(m: Merge, done: seq<Piece>, last: Piece, job: Job, n: nat) returns (done': seq<Piece>, last': Piece)
    requires job.Valid() && SoFar(m, done, last, job, n) && n < |job.units| && job.units[n] != ""
    requires ValidParameters(job.size, job.overlap) && job.cuts[n] == FixedSplit(job.units[n], job.size, job.overlap)
    requires MergeUnit(m, job.units[n], job.size, job.overlap).Merging?
    ensures SoFar(MergeUnit(m, job.units[n], job.size, job.overlap), done', last', job, n + 1)
  {
    if |Join(m.current, job.units[n])| <= job.size {
      done' := done;
      last' := FittingUnit(m, done, last, job, n);
    } else if |Join(Tail(m.current, job.overlap), job.units[n])| <= job.size {
      done', last' := NextUnit(m, done, last, job, n);
    } else {
      done', last' := HardUnit(m, done, last, job, n);
    }
  }

  function JobOf(units: seq<string>, size: int, overlap: int): (job: Job)
    requires ValidParameters(size, overlap)
    ensures job.Valid() && job.units == units && job.size == size && job.overlap == overlap
    ensures forall i :: 0 <= i < |units| ==> job.cuts[i] == FixedSplit(units[i], size, overlap)
  {
    Job(units, seq(|units|, i requires 0 <= i < |units| => FixedSplit(units[i], size, overlap)), size, overlap)
  }

  lemma {:induction false} MadeSoFar(units: seq<string>, n: nat, size: int, overlap: int) returns (done: seq<Piece>, last: Piece)
    requires ValidParameters(size, overlap) && n <= |units| && forall i :: 0 <= i < |units| ==> units[i] != ""
    requires Merged(units[..n], size, overlap).Merging?
    ensures SoFar(Merged(units[..n], size, overlap), done, last, JobOf(units, size, overlap), n)
    decreases n
  {
    if n == 0 {
      done, last := [], Piece("", Fresh, 0, 0);
    } else {
      MergedNext(units, size, overlap, n - 1);
      done, last := MadeSoFar(units, n - 1, size, overlap);
      done, last := UnitMade(Merged(units[..n - 1], size, overlap), done, last, JobOf(units, size, overlap), n - 1);
    }
  }

  /** The merged chunks, character by character: consecutive units one below the other, behind the tail of
      the chunk before, and cut hard only where a unit fits in neither way. */
  lemma MergeIsGreedy(units: seq<string>, size: int, overlap: int) returns (pieces: seq<Piece>)
    requires ValidParameters(size, overlap) && (forall i :: 0 <= i < |units| ==> units[i] != "")
    requires Merged(units, size, overlap).Merging?
    ensures var m := Merged(units, size, overlap);
            MadeOf(Flushed(m.chunks, m.current), pieces, JobOf(units, size, overlap))
  {
    assert units[..|units|] == units;
    var done, last := MadeSoFar(units, |units|, size, overlap);
    pieces := Finish(Merged(units, size, overlap), done, last, JobOf(units, size, overlap), |units|);
  }

  // ---------- short units without overlap ----------

  /** Without overlap no unit that fits is cut and no tail is carried. */
  lemma ShortUnitsStartFresh(before: Option<Piece>, p: Piece, job: Job)
    requires job.Valid() && job.overlap == 0 && forall i :: 0 <= i < |job.units| ==> |job.units[i]| <= job.size
    requires Follows(before, p, job) && (before.Some? ==> before.value.lead.Fresh?)
    ensures p.lead.Fresh? && UnitsBefore(before) == p.from < p.to <= |job.units| && p.text == Lines(job.units[p.from..p.to])
  {
  }

  lemma {:induction false} LinesSoFar(pieces: seq<Piece>, job: Job)
    requires job.Valid() && job.overlap == 0 && forall i :: 0 <= i < |job.units| ==> |job.units[i]| <= job.size
    requires AllFollow(pieces, job)
    ensures UnitsBefore(LastOf(pieces)) <= |job.units| && Lines(Texts(pieces)) == Lines(job.units[..UnitsBefore(LastOf(pieces))])
    ensures pieces != [] ==> pieces[|pieces| - 1].lead.Fresh? && pieces[|pieces| - 1].to > 0
    decreases |pieces|
  {
    if pieces != [] {
      var rest, p := pieces[..|pieces| - 1], pieces[|pieces| - 1];
      assert Texts(pieces) == Texts(rest) + [p.text];
      LinesSoFar(rest, job);
      ShortUnitsStartFresh(LastOf(rest), p, job);
      OneMoreChunk(Texts(rest), p.text, job.units, p.from, p.to);
    }
  }

  lemma OneMoreChunk(chunks: seq<string>, chunk: string, units: seq<string>, from: nat, to: nat)
    requires from < to <= |units| && (chunks == [] <==> from == 0)
    requires Lines(chunks) == Lines(units[..from]) && chunk == Lines(units[from..to])
    ensures Lines(chunks + [chunk]) == Lines(units[..to])
  {
    assert units[..to] == units[..from] + units[from..to];
    LinesMore(chunks, chunk);
    if chunks != [] {
      LinesAppend(units[..from], units[from..to]);
    } else {
      assert units[..from] + units[from..to] == units[from..to];
    }
  }

  /** Short units merged without overlap are all there: the chunks one below the other are the units one
      below the other. */
  lemma ShortUnitsAreKept(units: seq<string>, size: int)
    requires ValidParameters(size, 0) && forall i :: 0 <= i < |units| ==> 0 < |units[i]| <= size
    ensures var m := Merged(units, size, 0);
            m.Merging? && Lines(Flushed(m.chunks, m.current)) == Lines(units)
  {
    forall u | u in units ensures Harmless(u, size, 0) {
      var i :| 0 <= i < |units| && units[i] == u;
    }
    HarmlessUnitsMerge(units, size, 0);
    var pieces := MergeIsGreedy(units, size, 0);
    LinesSoFar(pieces, JobOf(units, size, 0));
    assert units[..|units|] == units;
  }
}
