/** Schedules behind the methods of the document store: what one transaction, two transactions of one
    process, or a loop over several ones adds to a run. */
module IngestionRuns {
  import opened Wrappers
  import opened Ingestion
  import opened IngestionSafety
  import opened IngestionProgress

  /** The step of the administrator's replay, by the source of the letter. */
  function Replay(c: Cell, l: LetterId, e: EventId): Option<Cell> {
    if l !in c.letters then None
    else match c.letters[l].source
      case FromIngest => ReplayIngest(c, l, e)
      case FromOutbox(_) => ReplayOutbox(c, l)
      case FromCleanup(_) => ReplayCleanup(c, l, e)
  }

  // ---------- steps of the maintenance loops ----------

  lemma Ran(c: Cell, run: seq<Label>, d: Cell, l: Label, e: Cell) returns (more: seq<Label>)
    requires Exec(c, run) == Some(d) && Step(d, l) == Some(e)
    ensures Exec(c, more) == Some(e)
  {
    ExecAppend(c, run, [l]);
    assert [l][1..] == [];
    more := run + [l];
  }

  predicate RetryOutcome(c: Cell, l: LetterId, e: EventId, replayed: bool, c': Cell) {
    && l in c.letters
    && (!replayed ==> AutoDiscard(c, l) == Some(c'))
    && (replayed && c.letters[l].source.FromCleanup? ==> ReplayCleanup(c, l, e) == Some(c'))
    && (replayed && !c.letters[l].source.FromCleanup? ==> AutoRetry(c, l, e) == Some(c'))
  }

  /** From `i` on, the query's result: open letters that an ingestion or a cleanup left, each once,
      and an event id for each that nobody has used. */
  ghost predicate SelectedOk(c: Cell, selected: seq<LetterId>, ids: seq<EventId>, i: nat) {
    && |ids| == |selected|
    && (forall j :: i <= j < |selected| ==>
          OpenLetter(c, selected[j]) && !c.letters[selected[j]].source.FromOutbox? && ids[j] !in c.events)
    && (forall j, k :: 0 <= j < k < |selected| ==> selected[j] != selected[k] && ids[j] != ids[k])
  }

  /** The first `i` selected letters are settled and nothing else changed in the tables. */
  ghost predicate Settled(c: Cell, d: Cell, selected: seq<LetterId>, ids: seq<EventId>, i: nat, retried: nat)
    requires i <= |selected|
  {
    && SelectedOk(d, selected, ids, i)
    && d.letters.Keys == c.letters.Keys && |d.events| == |c.events| + retried
    && forall l :: l in d.letters ==> if l in selected[..i] then d.letters[l].status != Open else d.letters[l] == c.letters[l]
  }

  lemma RetryRan(c: Cell, run: seq<Label>, d: Cell, l: LetterId, e: EventId, replayed: bool, d': Cell)
    returns (more: seq<Label>)
    requires Exec(c, run) == Some(d) && RetryOutcome(d, l, e, replayed, d')
    ensures Exec(c, more) == Some(d')
  {
    var step :=
      if !replayed then ByMaintenance(DoAutoDiscard(l))
      else if d.letters[l].source.FromCleanup? then ByAdmin(DoReplayCleanup(l, e))
      else ByMaintenance(DoAutoRetry(l, e));
    more := Ran(c, run, d, step, d');
  }

  /** Letter `l` is settled and, when `added`, event `e` is new; the other entries stay. */
  predicate TablesAfter(d: Cell, l: LetterId, e: EventId, added: bool, d': Cell) {
    && l in d.letters && l in d'.letters
    && d'.letters == d.letters[l := d'.letters[l]]
    && d'.letters[l].source == d.letters[l].source && d'.letters[l].status != Open
    && (if added then e !in d.events && e in d'.events && d'.events == d.events[e := d'.events[e]]
        else d'.events == d.events)
  }

  lemma AutoDiscardTables(d: Cell, l: LetterId, e: EventId, d': Cell)
    requires AutoDiscard(d, l) == Some(d')
    ensures TablesAfter(d, l, e, false, d')
  {
  }

  lemma ReplayCleanupTables(d: Cell, l: LetterId, e: EventId, d': Cell)
    requires ReplayCleanup(d, l, e) == Some(d')
    ensures TablesAfter(d, l, e, true, d')
  {
  }

  lemma AutoRetryTables(d: Cell, l: LetterId, e: EventId, d': Cell)
    requires AutoRetry(d, l, e) == Some(d')
    ensures TablesAfter(d, l, e, true, d')
  {
  }

  lemma RetryTables(d: Cell, l: LetterId, e: EventId, replayed: bool, d': Cell)
    requires RetryOutcome(d, l, e, replayed, d')
    ensures TablesAfter(d, l, e, replayed, d')
  {
    if !replayed {
      AutoDiscardTables(d, l, e, d');
    } else if d.letters[l].source.FromCleanup? {
      ReplayCleanupTables(d, l, e, d');
    } else {
      AutoRetryTables(d, l, e, d');
    }
  }

  lemma SettledNext(c: Cell, d: Cell, selected: seq<LetterId>, ids: seq<EventId>, i: nat,
                    retried: nat, replayed: bool, d': Cell)
    requires i < |selected| && Settled(c, d, selected, ids, i, retried)
    requires RetryOutcome(d, selected[i], ids[i], replayed, d')
    ensures Settled(c, d', selected, ids, i + 1, retried + if replayed then 1 else 0)
  {
    RetryTables(d, selected[i], ids[i], replayed, d');
    assert selected[..i + 1] == selected[..i] + [selected[i]];
  }

  /** The first `i` keys are gone; nothing else changed. */
  ghost predicate DeletedUpTo(c: Cell, d: Cell, q: nat, keys: seq<ObjectKey>, i: nat)
    requires i <= |keys|
  {
    && q in c.deleteTasks && d == c.(stored := d.stored, deleteTasks := d.deleteTasks)
    && d.stored == c.stored - (set k | k in keys[..i])
    && d.deleteTasks == c.deleteTasks[q := c.deleteTasks[q].(remaining := keys[i..])]
  }

  ghost predicate DeletedBy(c: Cell, run: seq<Label>, d: Cell, q: nat, keys: seq<ObjectKey>, i: nat)
    requires i <= |keys|
  {
    Exec(c, run) == Some(d) && DeletedUpTo(c, d, q, keys, i)
  }

  lemma DeletedNone(c: Cell, q: nat, keys: seq<ObjectKey>)
    requires q in c.deleteTasks && c.deleteTasks[q].remaining == keys
    ensures DeletedBy(c, [], c, q, keys, 0)
  {
    assert keys[0..] == keys;
  }

  lemma DeletedHead(c: Cell, d: Cell, q: nat, keys: seq<ObjectKey>, i: nat)
    requires i < |keys| && DeletedUpTo(c, d, q, keys, i)
    ensures q in d.deleteTasks && d.deleteTasks[q].remaining != [] && d.deleteTasks[q].remaining[0] == keys[i]
  {
  }

  lemma DeletedNext(c: Cell, run: seq<Label>, d: Cell, q: nat, keys: seq<ObjectKey>, i: nat, d': Cell)
    returns (more: seq<Label>)
    requires i < |keys| && DeletedBy(c, run, d, q, keys, i) && DeleteObject(d, q) == Some(d')
    ensures DeletedBy(c, more, d', q, keys, i + 1)
  {
    more := Ran(c, run, d, ByDeleter(DoDeleteObject(q)), d');
    assert keys[..i + 1] == keys[..i] + [keys[i]];
  }

  lemma SettleRan(c: Cell, run: seq<Label>, d: Cell, q: nat, removed: bool, d': Cell) returns (more: seq<Label>)
    requires Exec(c, run) == Some(d)
    requires if removed then RemoveRow(d, q) == Some(d') else DeleteDone(d, q) == Some(d')
    ensures Exec(c, more) == Some(d')
  {
    more := Ran(c, run, d, ByDeleter(if removed then DoRemoveRow(q) else DoDeleteDone(q)), d');
  }

  lemma FailRan(c: Cell, run: seq<Label>, d: Cell, q: nat, l: LetterId, again: bool, d': Cell) returns (more: seq<Label>)
    requires Exec(c, run) == Some(d)
    requires if again then DeleteRetry(d, q) == Some(d') else DeletePark(d, q, l) == Some(d')
    ensures Exec(c, more) == Some(d')
  {
    more := Ran(c, run, d, ByDeleter(if again then DoDeleteRetry(q) else DoDeletePark(q, l)), d');
  }

  // ---------- steps of the dispatcher ----------

  /** The scan's result: distinct events that are neither sent nor parked, and due. */
  ghost predicate DueOk(c: Cell, due: seq<EventId>) {
    && (forall i :: 0 <= i < |due| ==>
          && due[i] in c.events && c.events[due[i]].nextRetry <= c.clock
          && (c.events[due[i]].status == Pending || c.events[due[i]].status == Publishing))
    && (forall i, j :: 0 <= i < j < |due| ==> due[i] != due[j])
  }

  /** What publishing event `e` does to the tables: sent and published, or one more failed attempt
      and, with the budget spent, a letter that names the event. */
  predicate PublishedAs(c: Cell, e: EventId, accepted: bool, l: LetterId, c': Cell)
    requires e in c.events
  {
    && e in c'.events && c'.events == c.events[e := c'.events[e]]
    && c'.config == c.config && c'.clock == c.clock && c'.dispatchers == c.dispatchers
    && (accepted ==> c'.events[e] == c.events[e].(status := Sent, published := true) && c'.letters == c.letters)
    && (!accepted ==>
          && c'.events[e] == FailedAttempt(c.events[e], c.events[e].retries, c.config, c.clock)
          && c'.letters == if c'.events[e].status == Parked then c.letters[l := Letter(FromOutbox(e), Open)] else c.letters)
  }

  function Claimed(ev: Event, clock: int): Event {
    ev.(status := Publishing, nextRetry := clock + 60)
  }

  /** The first `i` due events are claimed; nothing else changed. */
  ghost predicate ClaimedUpTo(c: Cell, d: Cell, due: seq<EventId>, i: nat)
    requires i <= |due|
  {
    && DueOk(c, due) && d == c.(events := d.events) && d.events.Keys == c.events.Keys
    && forall e :: e in c.events ==> d.events[e] == if e in due[..i] then Claimed(c.events[e], c.clock) else c.events[e]
  }

  lemma ClaimReady(c: Cell, d: Cell, due: seq<EventId>, i: nat)
    requires i < |due| && ClaimedUpTo(c, d, due, i)
    ensures due[i] in d.events && d.events[due[i]] == c.events[due[i]]
    ensures d.events[due[i]].nextRetry <= d.clock
    ensures d.events[due[i]].status == Pending || d.events[due[i]].status == Publishing
  {
    assert due[i] !in due[..i];
  }

  lemma ClaimNext(c: Cell, d: Cell, due: seq<EventId>, i: nat, d': Cell)
    requires i < |due| && ClaimedUpTo(c, d, due, i) && DispatchClaim(d, due[i]) == Some(d')
    ensures ClaimedUpTo(c, d', due, i + 1)
  {
    assert due[i] !in due[..i] && due[..i + 1] == due[..i] + [due[i]];
  }

  ghost predicate LettersOk(c: Cell, ls: seq<LetterId>, i: nat) {
    && (forall j :: i <= j < |ls| ==> ls[j] !in c.letters)
    && (forall j, k :: 0 <= j < k < |ls| ==> ls[j] != ls[k])
  }

  /** How a due event ends, against the state before the scan. */
  predicate EventOutcome(c: Cell, e: EventId, accepted: bool, l: LetterId, d: Cell) {
    && e in c.events && e in d.events
    && if accepted then d.events[e].status == Sent && d.events[e].published && d.events[e].retries == c.events[e].retries
       else d.events[e] == FailedAttempt(c.events[e], c.events[e].retries, c.config, c.clock)
            && (d.events[e].status == Parked ==> l in d.letters && d.letters[l] == Letter(FromOutbox(e), Open))
  }

  /** The first `i` claimed events have been published or refused. */
  ghost predicate Dispatched(c: Cell, d: Cell, due: seq<EventId>, accepted: seq<bool>, ls: seq<LetterId>, i: nat)
    requires i <= |due| == |accepted| == |ls|
  {
    && DueOk(c, due) && LettersOk(d, ls, i)
    && d.config == c.config && d.clock == c.clock && d.events.Keys == c.events.Keys
    && (forall j :: 0 <= j < i ==> EventOutcome(c, due[j], accepted[j], ls[j], d))
    && (forall j :: i <= j < |due| ==> d.events[due[j]] == c.events[due[j]].(status := Publishing, nextRetry := c.clock + 60))
    && (forall e :: e in d.events && e !in due ==> d.events[e] == c.events[e])
  }

  lemma DispatchedNext(c: Cell, d: Cell, due: seq<EventId>, accepted: seq<bool>, ls: seq<LetterId>, i: nat, d': Cell)
    requires i < |due| == |accepted| == |ls| && Dispatched(c, d, due, accepted, ls, i)
    requires PublishedAs(d, due[i], accepted[i], ls[i], d')
    ensures Dispatched(c, d', due, accepted, ls, i + 1)
  {
    forall j | 0 <= j < i ensures EventOutcome(c, due[j], accepted[j], ls[j], d') {
      assert EventOutcome(c, due[j], accepted[j], ls[j], d);
    }
  }

  lemma ClaimRan(c: Cell, run: seq<Label>, d: Cell, e: EventId, d': Cell) returns (more: seq<Label>)
    requires Exec(c, run) == Some(d) && DispatchClaim(d, e) == Some(d')
    ensures Exec(c, more) == Some(d')
  {
    more := Ran(c, run, d, ByDispatcher(DoDispatchClaim(e)), d');
  }

  predicate Handed(c: Cell, p: nat, e: EventId, d: Cell) {
    && e in c.events
    && (c.events[e].kind.IngestRequested? ==> PublishIngest(c, p) == Some(d))
    && (c.events[e].kind.DeleteRequested? ==> PublishDelete(c, p) == Some(d))
  }

  /** Event and dispatcher change, the other tables of the dispatcher stay. */
  predicate DispatcherTables(c: Cell, p: nat, e: EventId, d: Cell) {
    && e in c.events && e in d.events && d.events == c.events[e := d.events[e]]
    && d.letters == c.letters && d.config == c.config && d.clock == c.clock
    && d.dispatchers - {p} == c.dispatchers - {p}
  }

  lemma ReadTables(c: Cell, p: nat, e: EventId, d: Cell)
    requires DispatchRead(c, p, e) == Some(d)
    ensures DispatcherTables(c, p, e, d) && d.events[e] == c.events[e]
    ensures p in d.dispatchers && d.dispatchers[p].event == e
  {
  }

  lemma HandedTables(c: Cell, p: nat, e: EventId, d: Cell)
    requires Handed(c, p, e, d) && p in c.dispatchers && c.dispatchers[p].event == e
    ensures DispatcherTables(c, p, e, d) && d.events[e] == c.events[e].(published := true)
    ensures p in d.dispatchers && d.dispatchers[p].event == e
  {
  }

  lemma MarkedTables(c: Cell, p: nat, e: EventId, d: Cell)
    requires DispatchSent(c, p) == Some(d) && p in c.dispatchers && c.dispatchers[p].event == e
    ensures DispatcherTables(c, p, e, d) && d.events[e] == c.events[e].(status := Sent) && p !in d.dispatchers
  {
  }

  /** What a read, an accepted publish and the mark do to the tables. */
  lemma SentAs(c: Cell, p: nat, e: EventId, l: LetterId, read: Cell, published: Cell, d: Cell)
    requires p !in c.dispatchers && DispatchRead(c, p, e) == Some(read) && Handed(read, p, e, published)
    requires DispatchSent(published, p) == Some(d)
    ensures PublishedAs(c, e, true, l, d)
  {
    ReadTables(c, p, e, read);
    HandedTables(read, p, e, published);
    MarkedTables(published, p, e, d);
    SameWithout(c.dispatchers, d.dispatchers, p);
  }

  lemma SameWithout(a: map<nat, Dispatch>, b: map<nat, Dispatch>, p: nat)
    requires a - {p} == b - {p} && p !in a && p !in b
    ensures a == b
  {
    assert a - {p} == a && b - {p} == b;
  }

  lemma SentRan(c: Cell, p: nat, e: EventId, read: Cell, published: Cell, d: Cell) returns (run: seq<Label>)
    requires DispatchRead(c, p, e) == Some(read) && Handed(read, p, e, published)
    requires DispatchSent(published, p) == Some(d)
    ensures Exec(c, run) == Some(d)
  {
    run := Ran(c, [], c, ByDispatcher(DoDispatchRead(p, e)), read);
    var publish := if c.events[e].kind.IngestRequested? then DoPublishIngest(p) else DoPublishDelete(p);
    run := Ran(c, run, read, ByDispatcher(publish), published);
    run := Ran(c, run, published, ByDispatcher(DoDispatchSent(p)), d);
  }

  lemma RefusedRan(c: Cell, p: nat, e: EventId, l: LetterId, read: Cell, d: Cell) returns (run: seq<Label>)
    requires DispatchRead(c, p, e) == Some(read)
    requires DispatchBackOff(read, p) == Some(d) || DispatchPark(read, p, l) == Some(d)
    ensures Exec(c, run) == Some(d)
  {
    run := Ran(c, [], c, ByDispatcher(DoDispatchRead(p, e)), read);
    var refuse := if DispatchBackOff(read, p) == Some(d) then DoDispatchBackOff(p) else DoDispatchPark(p, l);
    run := Ran(c, run, read, ByDispatcher(refuse), d);
  }

  // ---------- two transactions of one worker ----------

  lemma SkipOnly(c: Cell, t: Token, d: Cell) returns (run: seq<Label>)
    requires Core(c) && SkipClaim(c, t) == Some(d)
    ensures SystemRun(c, run, d) && Core(d)
  {
    NoSteps(c);
    var last;
    run, last := GoWork(c, [], c, DoSkipClaim(t));
  }

  lemma ChunkOnly(c: Cell, t: Token, d: Cell) returns (run: seq<Label>)
    requires Core(c) && ToChunking(c, t) == Some(d)
    ensures SystemRun(c, run, d) && Core(d)
  {
    NoSteps(c);
    var last;
    run, last := GoWork(c, [], c, DoToChunking(t));
  }

  lemma FailOnly(c: Cell, t: Token, retryable: bool, l: LetterId, d: Cell) returns (run: seq<Label>)
    requires Core(c) && FailTerminally(c, t, retryable, l) == Some(d)
    ensures SystemRun(c, run, d) && Core(d)
  {
    NoSteps(c);
    var last;
    run, last := GoWork(c, [], c, DoFailTerminally(t, retryable, l));
  }

  lemma ClaimThenPlan(c: Cell, t: Token, d: Cell, e: Cell) returns (run: seq<Label>)
    requires Core(c) && Claim(c, t) == Some(d) && PlanReuse(d, t) == Some(e)
    ensures SystemRun(c, run, e) && Core(e)
  {
    NoSteps(c);
    var last;
    run, last := GoWork(c, [], c, DoClaim(t));
    run, last := GoWork(c, run, last, DoPlanReuse(t));
  }

  lemma ChunkThenEmbed(c: Cell, t: Token, pieces: seq<string>, d: Cell, e: Cell) returns (run: seq<Label>)
    requires Core(c) && ToChunking(c, t) == Some(d) && ToEmbedding(d, t, pieces) == Some(e)
    ensures SystemRun(c, run, e) && Core(e)
  {
    NoSteps(c);
    var last;
    run, last := GoWork(c, [], c, DoToChunking(t));
    run, last := GoWork(c, run, last, DoToEmbedding(t, pieces));
  }

  lemma FailThenRetry(c: Cell, t: Token, d: Cell, e: Cell) returns (run: seq<Label>)
    requires Core(c) && FailAndRetry(c, t) == Some(d) && PublishRetry(d, t) == Some(e)
    ensures SystemRun(c, run, e) && Core(e)
  {
    NoSteps(c);
    var last;
    run, last := GoWork(c, [], c, DoFailAndRetry(t));
    run, last := GoWork(c, run, last, DoPublishRetry(t));
  }

  lemma DiscardOnly(c: Cell, t: Token, d: Cell) returns (run: seq<Label>)
    requires Core(c) && DiscardStale(c, t) == Some(d)
    ensures SystemRun(c, run, d) && Core(d)
  {
    NoSteps(c);
    var last;
    run, last := GoWork(c, [], c, DoDiscardStale(t));
  }

  lemma StageThenActivate(c: Cell, t: Token, d: Cell, e: Cell) returns (run: seq<Label>)
    requires Core(c) && ToIndexing(c, t) == Some(d) && Activate(d, t) == Some(e)
    ensures SystemRun(c, run, e) && Core(e)
  {
    NoSteps(c);
    var last;
    run, last := GoWork(c, [], c, DoToIndexing(t));
    run, last := GoWork(c, run, last, DoActivate(t));
  }

  // ---------- the embedding loop ----------

  /** What has to be embedded comes in increasing order. */
  lemma {:induction false} PendingInOrder(chunks: ChunkTable, reuse: bool, pieces: seq<string>, v: nat, from: nat)
    requires from <= |pieces|
    ensures var pending := PendingFrom(chunks, reuse, pieces, v, from);
            forall i, j :: 0 <= i < j < |pending| ==> pending[i] < pending[j]
    decreases |pieces| - from
  {
    if from < |pieces| {
      PendingInOrder(chunks, reuse, pieces, v, from + 1);
      PendingIsWhatIsNotReusable(chunks, reuse, pieces, v, from + 1);
      FirstIsLess(from, PendingFrom(chunks, reuse, pieces, v, from + 1));
    }
  }

  lemma FirstIsLess(first: nat, rest: seq<nat>)
    requires forall i :: i in rest ==> first < i
    requires forall i, j :: 0 <= i < j < |rest| ==> rest[i] < rest[j]
    ensures forall i, j :: 0 <= i < j < |[first] + rest| ==> ([first] + rest)[i] < ([first] + rest)[j]
  {
    forall i, j | 0 <= i < j < |[first] + rest| ensures ([first] + rest)[i] < ([first] + rest)[j] {
      assert ([first] + rest)[j] == rest[j - 1] && rest[j - 1] in rest;
      assert i > 0 ==> ([first] + rest)[i] == rest[i - 1];
    }
  }

  /** After `run`, the first `start` pending chunks are in and nothing but the heartbeat changed. */
  ghost predicate Embedded(c: Cell, run: seq<Label>, d: Cell, t: Token, pieces: seq<string>, v: nat, model: nat,
                           pending: seq<nat>, start: nat)
    requires start <= |pending|
  {
    SystemRun(c, run, d) && Core(d) && ChunksIn(c, d, t, pieces, v, model, pending, start)
  }

  /** The first batch has refreshed the heartbeat. */
  ghost predicate ChunksIn(c: Cell, d: Cell, t: Token, pieces: seq<string>, v: nat, model: nat, pending: seq<nat>, start: nat)
    requires start <= |pending|
  {
    && HoldsLease(c, t) && HoldsLease(d, t) && t in c.workers && c.workers[t].model == model
    && d.clock == c.clock
    && d.row.doc == c.row.doc.(heartbeat := if start > 0 then Some(c.clock) else c.row.doc.heartbeat)
    && d.workers == c.workers[t := c.workers[t].(phase := Batching(pieces, v, pending[start..]))]
    && ValidBatch(pending, pieces)
    && d.chunks == InsertChunks(c.chunks, pending[..start], pieces, v, model)
  }

  lemma NothingEmbedded(c: Cell, t: Token, pieces: seq<string>, v: nat, model: nat, pending: seq<nat>)
    requires Core(c) && HoldsLease(c, t) && t in c.workers
    requires c.workers[t].phase == Batching(pieces, v, pending) && c.workers[t].model == model
    ensures Embedded(c, [], c, t, pieces, v, model, pending, 0)
  {
    NoSteps(c);
    assert BuildOk(c, c.row.doc, c.workers[t].phase);
    InsertNone(c.chunks, pieces, v, model);
    assert pending[0..] == pending;
  }

  lemma BatchReady(c: Cell, run: seq<Label>, d: Cell, t: Token, pieces: seq<string>, v: nat, model: nat,
                   pending: seq<nat>, start: nat, end: nat)
    requires start < end <= |pending| && Embedded(c, run, d, t, pieces, v, model, pending, start)
    ensures pending[start..] == pending[start..end] + pending[end..]
    ensures BatchKeys(pending[start..end], v) * d.chunks.Keys == {}
  {
    assert BuildOk(d, d.row.doc, d.workers[t].phase);
    forall k | k in BatchKeys(pending[start..end], v) ensures k !in d.chunks {
      assert k.seqNo in pending[start..];
    }
  }

  lemma BatchRan(c: Cell, run: seq<Label>, d: Cell, t: Token, size: nat, d': Cell)
    requires SystemRun(c, run, d) && Core(d) && InsertBatch(d, t, size) == Some(d')
    ensures SystemRun(c, run + [ByWorker(DoInsertBatch(t, size))], d') && Core(d')
  {
    var more, e := Go(c, run, d, ByWorker(DoInsertBatch(t, size)));
  }

  /** What one batch changes. */
  lemma BatchEffect(d: Cell, t: Token, pieces: seq<string>, v: nat, batch: seq<nat>, rest: seq<nat>, d': Cell)
    requires InPhase(d, t, Batching(pieces, v, batch + rest)) && ValidBatch(batch, pieces)
    requires InsertBatch(d, t, |batch|) == Some(d')
    ensures HoldsLease(d, t) && HoldsLease(d', t) && d'.row.doc == d.row.doc.(heartbeat := Some(d.clock)) && d'.clock == d.clock
    ensures d'.workers == d.workers[t := d.workers[t].(phase := Batching(pieces, v, rest))]
    ensures d'.chunks == InsertChunks(d.chunks, batch, pieces, v, d.workers[t].model)
  {
    assert (batch + rest)[..|batch|] == batch && (batch + rest)[|batch|..] == rest;
  }

  lemma BatchDone(c: Cell, run: seq<Label>, d: Cell, t: Token, pieces: seq<string>, v: nat, model: nat,
                  pending: seq<nat>, start: nat, end: nat, d': Cell)
    requires start < end <= |pending| && Embedded(c, run, d, t, pieces, v, model, pending, start)
    requires InsertBatch(d, t, end - start) == Some(d')
    ensures Embedded(c, run + [ByWorker(DoInsertBatch(t, end - start))], d', t, pieces, v, model, pending, end)
  {
    BatchRan(c, run, d, t, end - start, d');
    BatchIn(c, d, t, pieces, v, model, pending, start, end, d');
  }

  lemma BatchIn(c: Cell, d: Cell, t: Token, pieces: seq<string>, v: nat, model: nat, pending: seq<nat>, start: nat, end: nat,
                d': Cell)
    requires start < end <= |pending| && ChunksIn(c, d, t, pieces, v, model, pending, start)
    requires InsertBatch(d, t, end - start) == Some(d')
    ensures ChunksIn(c, d', t, pieces, v, model, pending, end)
  {
    var batch := pending[start..end];
    assert pending[start..] == batch + pending[end..];
    BatchEffect(d, t, pieces, v, batch, pending[end..], d');
    InsertAppend(c.chunks, pending[..start], batch, pieces, v, model);
    assert pending[..start] + batch == pending[..end];
  }

  lemma InsertOne(chunks: ChunkTable, i: nat, pieces: seq<string>, v: nat, model: nat)
    requires i < |pieces|
    ensures InsertChunks(chunks, [i], pieces, v, model)
         == chunks[ChunkKey(v, i) := Chunk(pieces[i], Encode(model, pieces[i]))]
  {
    assert BatchKeys([i], v) == {ChunkKey(v, i)};
  }

  lemma InsertNone(chunks: ChunkTable, pieces: seq<string>, v: nat, model: nat)
    ensures InsertChunks(chunks, [], pieces, v, model) == chunks
  {
  }

  /** Two batches do what their concatenation does: the batch size does not matter. */
  lemma InsertAppend(chunks: ChunkTable, a: seq<nat>, b: seq<nat>, pieces: seq<string>, v: nat, model: nat)
    requires ValidBatch(a, pieces) && ValidBatch(b, pieces)
    ensures ValidBatch(a + b, pieces)
    ensures InsertChunks(InsertChunks(chunks, a, pieces, v, model), b, pieces, v, model)
         == InsertChunks(chunks, a + b, pieces, v, model)
  {
    var once, twice := InsertChunks(chunks, a + b, pieces, v, model),
                       InsertChunks(InsertChunks(chunks, a, pieces, v, model), b, pieces, v, model);
    forall k: ChunkKey ensures k in once <==> k in twice
                       ensures k in once && k in twice ==> once[k] == twice[k] {
      InsertAt(chunks, a + b, pieces, v, model, k);
      InsertAt(chunks, a, pieces, v, model, k);
      InsertAt(InsertChunks(chunks, a, pieces, v, model), b, pieces, v, model, k);
    }
  }

  lemma InsertAt(chunks: ChunkTable, batch: seq<nat>, pieces: seq<string>, v: nat, model: nat, k: ChunkKey)
    requires ValidBatch(batch, pieces)
    ensures var all := InsertChunks(chunks, batch, pieces, v, model);
            if k.version == v && k.seqNo in batch
            then k in all && all[k] == Chunk(pieces[k.seqNo], Encode(model, pieces[k.seqNo]))
            else (k in all <==> k in chunks) && (k in chunks ==> all[k] == chunks[k])
  {
  }
}
