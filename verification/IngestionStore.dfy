/** The transactions as the repository writes them: columns and tables assigned in place.

    `View` is the state of the protocol; every method leaves the state that its step or its schedule
    of `Ingestion` leaves, so everything proved about schedules holds of the methods. */
module IngestionStore {
  import opened Wrappers
  import opened Ingestion
  import opened IngestionSafety
  import opened IngestionProgress
  import opened IngestionRuns

  function BatchEnd(start: nat, size: nat, n: nat): nat {
    if start + size < n then start + size else n
  }

  datatype Life = NotYet | Live | Removed

  /** What parser and splitter make of the stored object. */
  datatype Parsed =
    | Unreadable(retryable: bool)
    | Unsplittable(retryable: bool)
    | Pieces(pieces: seq<string>)

  /** An empty split is an error that no retry can mend; a failing embedder may recover. */
  function Retryable(parsed: Parsed): bool {
    match parsed
    case Unreadable(again) => again
    case Unsplittable(again) => again
    case Pieces(pieces) => pieces != []
  }

  /** What an attempt leaves of the chunks: all of them when there are no pieces, otherwise those it
      keeps and the first `done` pending ones, which are all pending ones exactly when it succeeds. */
  ghost predicate BuiltUpTo(chunks: ChunkTable, reuse: bool, v: nat, model: nat, parsed: Parsed, faultAt: Option<nat>,
                            ok: bool, done: nat, chunks': ChunkTable) {
    if parsed.Pieces? && parsed.pieces != [] then
      var pending := PendingFrom(chunks, reuse, parsed.pieces, v, 0);
      && (ok <==> !Within(faultAt, |pending|)) && done <= |pending| && ValidBatch(pending, parsed.pieces)
      && (ok ==> done == |pending|)
      && chunks' == InsertChunks(Kept(chunks, reuse, parsed.pieces, v), pending[..done], parsed.pieces, v, model)
    else
      !ok && chunks' == chunks
  }

  /** The embedder fails at one of the first `n` pending chunks. */
  predicate Within(faultAt: Option<nat>, n: nat) {
    faultAt.Some? && faultAt.value < n
  }

  class DocumentStore {
    const config: Config
    var clock: int
    var life: Life
    var doc: Document
    var chunks: ChunkTable
    var events: map<EventId, Event>
    var letters: map<LetterId, Letter>
    var inbox: multiset<nat>
    var deleteInbox: multiset<DeleteMessage>
    var stored: set<ObjectKey>
    ghost var everStored: set<ObjectKey>
    ghost var workers: map<Token, Worker>
    ghost var used: set<Token>
    ghost var dispatchers: map<nat, Dispatch>
    ghost var deleteTasks: map<nat, DeleteTask>

    ghost function View(): Cell
      reads this
    {
      var row := match life
        case NotYet => Unborn
        case Live => Present(doc)
        case Removed => Gone;
      Cell(config, clock, row, chunks, events, letters, inbox, workers, used, dispatchers, deleteInbox, deleteTasks,
           stored, everStored)
    }

    constructor (config: Config, clock: int)
      ensures View() == Initial(config, clock)
    {
      this.config, this.clock := config, clock;
      life, doc := NotYet, NewDocument(0, 0);
      chunks, events, letters, inbox, deleteInbox := map[], map[], map[], multiset{}, multiset{};
      stored, everStored, workers, used, dispatchers, deleteTasks := {}, {}, map[], {}, map[], map[];
    }

    // ---------- API requests ----------

    /** The object is written before the row refers to it. */
    method PutObject(key: ObjectKey)
      modifies this`stored, this`everStored
      ensures View() == Store(old(View()), key)
      ensures stored == old(stored) + {key} && everStored == old(everStored) + {key}
    {
      stored, everStored := stored + {key}, everStored + {key};
    }

    method UploadDocument(newContent: nat, key: ObjectKey, e: EventId) returns (ok: bool)
      requires e !in events && key !in everStored
      modifies this`life, this`doc, this`stored, this`everStored, this`events
      ensures ok ==> Upload(old(View()), newContent, key, e) == Some(View())
      ensures ok <==> old(life).NotYet?
      ensures ok ==>
                && life.Live? && doc == Document(Uploaded, None, None, newContent, key, None, None, None, 0, [], None)
                && stored == old(stored) + {key}
                && events == old(events)[e := Event(IngestRequested, Pending, 0, clock, false, 0)]
      ensures !ok ==> Upload(old(View()), newContent, key, e) == None && View() == old(View())
    {
      ok := life.NotYet?;
      if ok {
        PutObject(key);
        life, doc := Live, NewDocument(newContent, key);
        events := events[e := NewEvent(IngestRequested, clock)];
      }
    }

    method ReplaceContent(newContent: nat, key: ObjectKey, e: EventId) returns (ok: bool)
      requires e !in events && key !in everStored
      modifies this`doc, this`stored, this`everStored, this`events
      ensures ok ==> Replace(old(View()), newContent, key, e) == Some(View())
      ensures ok <==> old(life).Live? && old(doc).status != Deleting
      ensures ok ==>
                && doc == old(doc).(content := newContent, objectKey := key, status := Queued,
                                    target := Some(if old(doc).active.Some? then old(doc).active.value + 1 else 1))
                && stored == old(stored) + {key}
                && events == old(events)[e := Event(IngestRequested, Pending, 0, clock, false, 0)]
      ensures !ok ==> Replace(old(View()), newContent, key, e) == None && View() == old(View())
    {
      ok := life.Live? && doc.status != Deleting;
      if ok {
        PutObject(key);
        doc := doc.(objectKey := key, content := newContent, status := Queued, target := Some(Base(doc) + 1));
        events := events[e := NewEvent(IngestRequested, clock)];
      }
    }

    method ReindexDocument(e: EventId) returns (ok: bool)
      requires e !in events
      modifies this`doc, this`events
      ensures ok ==> Reindex(old(View()), e) == Some(View())
      ensures ok <==> old(life).Live? && (old(doc).status == Ready || old(doc).status == Failed)
      ensures ok ==>
                && doc == old(doc).(status := Queued, target := Some(Base(old(doc)) + 1))
                && events == old(events)[e := NewEvent(IngestRequested, clock)]
      ensures !ok ==> Reindex(old(View()), e) == None && View() == old(View())
    {
      ok := life.Live? && (doc.status == Ready || doc.status == Failed);
      if ok {
        doc := doc.(status := Queued, target := Some(Base(doc) + 1));
        events := events[e := NewEvent(IngestRequested, clock)];
      }
    }

    method CancelIngestion() returns (ok: bool)
      modifies this`doc
      ensures ok ==> Cancel(old(View())) == Some(View())
      ensures ok <==>
                && old(life).Live? && old(doc).status != Ready && old(doc).status != Failed
                && old(doc).status != Cancelled && old(doc).status != Deleting
      ensures ok ==> doc == old(doc).(status := Cancelled, token := None)
      ensures !ok ==> Cancel(old(View())) == None && View() == old(View())
    {
      ok := life.Live? && Cancellable(doc.status);
      if ok {
        doc := doc.(status := Cancelled, token := None);
      }
    }

    method DeleteDocument(e: EventId) returns (ok: bool)
      requires e !in events
      modifies this`doc, this`events
      ensures ok ==> Delete(old(View()), e) == Some(View())
      ensures ok <==> old(life).Live?
      ensures ok ==>
                && doc == old(doc).(status := Deleting, token := None)
                && events == old(events)[e := NewEvent(DeleteRequested(Payload([old(doc).objectKey], true)), clock)]
      ensures !ok ==> Delete(old(View()), e) == None && View() == old(View())
    {
      ok := life.Live?;
      if ok {
        doc := doc.(status := Deleting, token := None);
        events := events[e := NewEvent(DeleteRequested(Payload([doc.objectKey], true)), clock)];
      }
    }

    // ---------- dead letters ----------

    /** The four assignments that every re-queueing request makes. */
    method Requeue(e: EventId)
      requires life.Live? && e !in events
      modifies this`doc, this`events
      ensures View() == Enqueue(WithDoc(old(View()), Requeued(old(doc))), e, IngestRequested)
      ensures doc == old(doc).(status := Queued, token := None,
                               target := if old(doc).target.Some? then old(doc).target else Some(Base(old(doc)) + 1))
      ensures events == old(events)[e := NewEvent(IngestRequested, clock)]
    {
      doc := doc.(status := Queued, token := None);
      if doc.target.None? {
        doc := doc.(target := Some(Base(doc) + 1));
      }
      events := events[e := NewEvent(IngestRequested, clock)];
    }

    method ResumeFromStage(e: EventId) returns (ok: bool)
      requires e !in events
      modifies this`doc, this`events
      ensures ok ==> Resume(old(View()), e) == Some(View())
      ensures ok <==>
                old(life).Live? && (old(doc).status == Failed || old(doc).status == Retrying || old(doc).status == Cancelled)
      ensures ok ==> doc == Requeued(old(doc)) && events == old(events)[e := NewEvent(IngestRequested, clock)]
      ensures !ok ==> Resume(old(View()), e) == None && View() == old(View())
    {
      ok := life.Live? && (doc.status == Failed || doc.status == Retrying || doc.status == Cancelled);
      if ok {
        Requeue(e);
      }
    }

    /** One request whatever the letter's source is. */
    method ReplayDeadLetter(l: LetterId, e: EventId) returns (ok: bool)
      requires e !in events
      modifies this`doc, this`events, this`letters
      ensures ok ==> Replay(old(View()), l, e) == Some(View())
      ensures ok <==>
                && l in old(letters) && old(letters)[l].status == Open
                && (old(letters)[l].source.FromIngest? ==> old(life).Live?)
                && (old(letters)[l].source.FromOutbox? ==> old(letters)[l].source.event in old(events))
      ensures ok ==> letters == old(letters)[l := old(letters)[l].(status := Replayed)]
      ensures ok ==> match old(letters)[l].source
                case FromIngest => doc == Requeued(old(doc)) && events == old(events)[e := NewEvent(IngestRequested, clock)]
                case FromOutbox(parked) =>
                  doc == old(doc) && events == old(events)[parked := old(events)[parked].(status := Pending, nextRetry := clock)]
                case FromCleanup(payload) =>
                  doc == old(doc) && events == old(events)[e := NewEvent(DeleteRequested(payload), clock)]
      ensures !ok ==> Replay(old(View()), l, e) == None && View() == old(View())
    {
      ok := l in letters && letters[l].status == Open;
      if !ok {
        return;
      }
      match letters[l].source {
        case FromIngest =>
          ok := life.Live?;
          if ok {
            Requeue(e);
          }
        case FromOutbox(parked) =>
          ok := parked in events;
          if ok {
            events := events[parked := events[parked].(status := Pending, nextRetry := clock)];
          }
        case FromCleanup(payload) =>
          events := events[e := NewEvent(DeleteRequested(payload), clock)];
      }
      if ok {
        letters := letters[l := letters[l].(status := Replayed)];
      }
    }

    method DiscardDeadLetter(l: LetterId) returns (ok: bool)
      modifies this`letters
      ensures ok ==> DiscardLetter(old(View()), l) == Some(View())
      ensures ok <==> l in old(letters) && old(letters)[l].status == Open
      ensures ok ==>
                && l in letters && letters[l].status == Discarded && letters[l].source == old(letters)[l].source
                && letters == old(letters)[l := letters[l]]
      ensures !ok ==> DiscardLetter(old(View()), l) == None && View() == old(View())
    {
      ok := l in letters && letters[l].status == Open;
      if ok {
        letters := letters[l := letters[l].(status := Discarded)];
      }
    }

    // ---------- the ingestion worker ----------

    /** The compare-and-set on the status. */
    method ClaimLease(t: Token) returns (claimed: bool)
      requires InPhase(View(), t, Started)
      modifies this`doc, this`workers
      ensures claimed ==> Claim(old(View()), t) == Some(View())
      ensures claimed <==>
                old(life).Live? && (old(doc).status == Uploaded || old(doc).status == Queued || old(doc).status == Retrying)
      ensures claimed ==>
                doc == old(doc).(status := Parsing, token := Some(t), heartbeat := Some(clock),
                                 target := if old(doc).target.Some? then old(doc).target else Some(Base(old(doc)) + 1))
      ensures !claimed ==> SkipClaim(old(View()), t) == Some(View())
    {
      claimed := life.Live? && Claimable(doc.status);
      if claimed {
        doc := doc.(status := Parsing, token := Some(t), heartbeat := Some(clock));
        if doc.target.None? {
          doc := doc.(target := Some(Base(doc) + 1));
        }
        workers := workers[t := workers[t].(phase := Leased)];
      } else {
        workers := workers[t := workers[t].(phase := Finished)];
      }
    }

    /** Loads the row, once for the whole attempt, and stores a changed fingerprint under the token. */
    method StampFingerprint(t: Token, chunkConfig: nat, model: nat) returns (built: Fingerprint, reuse: bool, aim: Option<nat>)
      requires InPhase(View(), t, Leased) && life.Live?
      requires workers[t].chunkConfig == chunkConfig && workers[t].model == model
      modifies this`doc, this`workers
      ensures PlanReuse(old(View()), t) == Some(View()) && InPhase(View(), t, Planned(reuse, aim))
      ensures built == PrintOf(workers[t]) == Fingerprint(old(doc).content, chunkConfig, model)
      ensures (reuse <==> old(doc).fingerprint == Some(built)) && aim == old(doc).target
      ensures doc == if old(doc).token == Some(t) then old(doc).(fingerprint := Some(built)) else old(doc)
    {
      built, aim := Fingerprint(doc.content, chunkConfig, model), doc.target;
      reuse := doc.fingerprint == Some(built);
      if !reuse && doc.token == Some(t) {
        doc := doc.(fingerprint := Some(built));
      }
      workers := workers[t := workers[t].(content := doc.content, phase := Planned(reuse, aim))];
    }

    /** `_set_stage`: a stage is written under the token, or the lease is lost. */
    method SetStage(t: Token, stage: Status, ghost next: Phase) returns (ok: bool)
      requires t in workers
      modifies this`doc, this`workers
      ensures ok <==> HoldsLease(old(View()), t)
      ensures ok ==> View() == MoveTo(WithDoc(old(View()), Staged(old(doc), stage, clock)), t, next)
      ensures doc == if ok then old(doc).(status := stage, heartbeat := Some(clock)) else old(doc)
      ensures !ok ==> View() == MoveTo(old(View()), t, Finished)
    {
      ok := life.Live? && doc.token == Some(t);
      if ok {
        doc := doc.(status := stage, heartbeat := Some(clock));
      }
      workers := workers[t := workers[t].(phase := if ok then next else Finished)];
    }

    /** The sequence numbers whose stored text is still the text of the piece. */
    method FindReusable(reuse: bool, pieces: seq<string>, v: nat) returns (reusable: set<nat>)
      ensures forall i: nat :: i in reusable <==> Reusable(chunks, reuse, pieces, v, i)
      ensures forall i: nat ::
                i in reusable <==>
                reuse && i < |pieces| && ChunkKey(v, i) in chunks && chunks[ChunkKey(v, i)].content == pieces[i]
    {
      reusable := {};
      if reuse {
        for i := 0 to |pieces|
          invariant forall j: nat :: j in reusable <==> j < i && Reusable(chunks, reuse, pieces, v, j)
        {
          if ChunkKey(v, i) in chunks && chunks[ChunkKey(v, i)].content == pieces[i] {
            reusable := reusable + {i};
          }
        }
      }
    }

    /** What has to be embedded, in order. */
    method PendingPieces(reuse: bool, pieces: seq<string>, v: nat, reusable: set<nat>) returns (pending: seq<nat>)
      requires forall i: nat :: i in reusable <==> Reusable(chunks, reuse, pieces, v, i)
      ensures pending == PendingFrom(chunks, reuse, pieces, v, 0)
    {
      pending := [];
      for i := 0 to |pieces|
        invariant pending + PendingFrom(chunks, reuse, pieces, v, i) == PendingFrom(chunks, reuse, pieces, v, 0)
      {
        if i !in reusable {
          pending := pending + [i];
        }
      }
    }

    /** Deletes what cannot be reused and lists what has to be embedded. */
    method DiscardStaleChunks(t: Token, reuse: bool, pieces: seq<string>, v: nat) returns (pending: seq<nat>)
      requires InPhase(View(), t, Split(reuse, pieces, Some(v)))
      modifies this`chunks, this`workers
      ensures DiscardStale(old(View()), t) == Some(View()) && InPhase(View(), t, Batching(pieces, v, pending))
      ensures forall k :: k in chunks <==> k in old(chunks) && (k.version != v || Reusable(old(chunks), reuse, pieces, v, k.seqNo))
      ensures forall k :: k in chunks ==> chunks[k] == old(chunks)[k]
    {
      var reusable := FindReusable(reuse, pieces, v);
      pending := PendingPieces(reuse, pieces, v, reusable);
      chunks := map k | k in chunks && (k.version != v || k.seqNo in reusable) :: chunks[k];
      assert chunks == Kept(old(chunks), reuse, pieces, v);
      workers := workers[t := workers[t].(phase := Batching(pieces, v, pending))];
    }

    /** The embedded rows of one batch. */
    method AddChunks(batch: seq<nat>, pieces: seq<string>, v: nat, model: nat)
      requires ValidBatch(batch, pieces)
      modifies this`chunks
      ensures chunks == InsertChunks(old(chunks), batch, pieces, v, model)
      ensures forall i :: 0 <= i < |batch| ==>
                && ChunkKey(v, batch[i]) in chunks
                && chunks[ChunkKey(v, batch[i])] == Chunk(pieces[batch[i]], Encode(model, pieces[batch[i]]))
      ensures forall k: ChunkKey :: k.version != v || k.seqNo !in batch ==>
                (k in chunks <==> k in old(chunks)) && (k in chunks ==> chunks[k] == old(chunks)[k])
    {
      for j := 0 to |batch|
        invariant chunks == InsertChunks(old(chunks), batch[..j], pieces, v, model)
      {
        InsertAppend(old(chunks), batch[..j], [batch[j]], pieces, v, model);
        InsertOne(chunks, batch[j], pieces, v, model);
        assert batch[..j + 1] == batch[..j] + [batch[j]];
        chunks := chunks[ChunkKey(v, batch[j]) := Chunk(pieces[batch[j]], Encode(model, pieces[batch[j]]))];
      }
      assert batch[..|batch|] == batch;
    }

    /** One batch and its heartbeat in one transaction; a lost lease rolls the batch back. */
    method EmbedBatch(t: Token, batch: seq<nat>, pieces: seq<string>, v: nat, model: nat,
                      ghost rest: seq<nat>) returns (ok: bool)
      requires InPhase(View(), t, Batching(pieces, v, batch + rest)) && workers[t].model == model && batch != []
      requires ValidBatch(batch, pieces) && BatchKeys(batch, v) * chunks.Keys == {}
      modifies this`doc, this`chunks, this`workers
      ensures ok ==> InsertBatch(old(View()), t, |batch|) == Some(View())
      ensures ok <==> old(life).Live? && old(doc).token == Some(t)
      ensures doc == if ok then old(doc).(heartbeat := Some(clock)) else old(doc)
      ensures !ok ==> LoseLease(old(View()), t) == Some(View())
    {
      ok := life.Live? && doc.token == Some(t);
      assert (batch + rest)[..|batch|] == batch && (batch + rest)[|batch|..] == rest;
      if ok {
        AddChunks(batch, pieces, v, model);
        doc := doc.(heartbeat := Some(clock));
        workers := workers[t := workers[t].(phase := Batching(pieces, v, rest))];
      } else {
        workers := workers[t := workers[t].(phase := Finished)];
      }
    }

    /** Counts the chunks at the target; only then, and under the token, switches the index. */
    method ActivateIndex(t: Token, built: Fingerprint, pieces: seq<string>, v: nat) returns (ok: bool)
      requires InPhase(View(), t, Counting(pieces, v)) && PrintOf(workers[t]) == built
      modifies this`doc, this`workers
      ensures ok ==> Activate(old(View()), t) == Some(View())
      ensures ok <==>
                && |set k | k in chunks && k.version == v| == |pieces|
                && old(life).Live? && old(doc).token == Some(t) && old(doc).status == Indexing
      ensures ok ==>
                doc == old(doc).(status := Ready, active := Some(v), target := None, fingerprint := None, chunkCount := |pieces|,
                                 token := None, heartbeat := Some(clock), split := pieces, built := Some(built))
      ensures !ok ==> Activate(old(View()), t) == None && View() == old(View())
    {
      var persisted := set k | k in chunks && k.version == v;
      ok := |persisted| == |pieces| && life.Live? && doc.token == Some(t) && doc.status == Indexing;
      if ok {
        doc := doc.(status := Ready, active := Some(v), target := None, fingerprint := None,
                    chunkCount := |pieces|, token := None, heartbeat := Some(clock), split := pieces, built := Some(built));
        workers := workers[t := workers[t].(phase := Finished)];
      }
    }

    /** The exception path: back to retrying while retries are left, otherwise failed with a letter. */
    method RecordFailure(t: Token, retries: nat, retryable: bool, l: LetterId) returns (again: bool)
      requires t in workers && CanFail(workers[t].phase) && workers[t].retries == retries && l !in letters
      modifies this`doc, this`letters, this`workers
      ensures again <==> retryable && retries < 3
      ensures doc == if old(life).Live? && old(doc).token == Some(t)
                     then old(doc).(status := if again then Retrying else Failed, token := None, heartbeat := Some(clock))
                     else old(doc)
      ensures letters == if !again && life.Live? then old(letters)[l := Letter(FromIngest, Open)] else old(letters)
      ensures again ==> FailAndRetry(old(View()), t) == Some(View())
      ensures !again ==> FailTerminally(old(View()), t, retryable, l) == Some(View())
    {
      again := retryable && retries < INGEST_MAX_RETRIES;
      if life.Live? && doc.token == Some(t) {
        doc := doc.(status := if again then Retrying else Failed, token := None, heartbeat := Some(clock));
      }
      if !again && life.Live? {
        letters := letters[l := Letter(FromIngest, Open)];
      }
      workers := workers[t := workers[t].(phase := if again then MustRetry else Finished)];
    }

    /** `self.retry`: one more message, with one more retry behind it. */
    method ScheduleRetry(t: Token, retries: nat)
      requires InPhase(View(), t, MustRetry) && workers[t].retries == retries
      modifies this`inbox, this`workers
      ensures PublishRetry(old(View()), t) == Some(View())
      ensures inbox == old(inbox) + multiset{retries + 1}
    {
      inbox := inbox + multiset{retries + 1};
      workers := workers[t := workers[t].(phase := Finished)];
    }

    /** One round of the embedding loop. */
    method EmbedNext(ghost before: Cell, ghost run: seq<Label>, t: Token, pending: seq<nat>, pieces: seq<string>, v: nat,
                     model: nat, start: nat, end: nat)
      returns (ghost more: seq<Label>)
      requires start < end <= |pending| && Embedded(before, run, View(), t, pieces, v, model, pending, start)
      modifies this`doc, this`chunks, this`workers
      ensures Embedded(before, more, View(), t, pieces, v, model, pending, end)
    {
      ghost var d := View();
      BatchReady(before, run, d, t, pieces, v, model, pending, start, end);
      var ok := EmbedBatch(t, pending[start..end], pieces, v, model, pending[end..]);
      BatchDone(before, run, d, t, pieces, v, model, pending, start, end, View());
      more := run + [ByWorker(DoInsertBatch(t, end - start))];
    }

    /** The embedding loop, undisturbed: every pending chunk is inserted, whatever the batch size. When
        the embedder fails at position `faultAt`, the batches before that are in. */
    method EmbedPending(t: Token, pending: seq<nat>, pieces: seq<string>, v: nat, model: nat, configuredBatch: int,
                        faultAt: Option<nat>)
      returns (done: nat, ghost run: seq<Label>)
      requires Core(View()) && HoldsLease(View(), t)
      requires t in workers && workers[t].phase == Batching(pieces, v, pending) && workers[t].model == model
      modifies this`doc, this`chunks, this`workers
      ensures SystemRun(old(View()), run, View()) && Core(View()) && HoldsLease(View(), t)
      ensures done <= |pending| && (done == |pending| <==> !Within(faultAt, |pending|))
      ensures done < |pending| ==> done <= faultAt.value < done + if configuredBatch > 1 then configuredBatch else 1
      ensures ValidBatch(pending, pieces) && chunks == InsertChunks(old(chunks), pending[..done], pieces, v, model)
      ensures doc == old(doc).(heartbeat := if done > 0 then Some(clock) else old(doc).heartbeat)
      ensures workers == old(workers)[t := old(workers[t]).(phase := Batching(pieces, v, pending[done..]))]
    {
      var batchSize := if configuredBatch > 1 then configuredBatch else 1;
      done := 0;
      ghost var before := View();
      run := [];
      NothingEmbedded(before, t, pieces, v, model, pending);
      while done < |pending| && !Within(faultAt, BatchEnd(done, batchSize, |pending|))
        invariant 0 <= done <= |pending| && (Within(faultAt, |pending|) ==> done <= faultAt.value)
        invariant Embedded(before, run, View(), t, pieces, v, model, pending, done)
        decreases |pending| - done
      {
        var end := BatchEnd(done, batchSize, |pending|);
        run := EmbedNext(before, run, t, pending, pieces, v, model, done, end);
        done := end;
      }
    }

    /** Discards what is stale at the target that was loaded after the claim. */
    method PrepareTarget(t: Token, reuse: bool, pieces: seq<string>, v: nat) returns (pending: seq<nat>, ghost run: seq<Label>)
      requires Core(View()) && t in workers && workers[t].phase == Split(reuse, pieces, Some(v))
      modifies this`chunks, this`workers
      ensures SystemRun(old(View()), run, View()) && Core(View())
      ensures pending == PendingFrom(old(chunks), reuse, pieces, v, 0) && chunks == Kept(old(chunks), reuse, pieces, v)
      ensures workers == old(workers)[t := old(workers[t]).(phase := Batching(pieces, v, pending))]
    {
      pending := DiscardStaleChunks(t, reuse, pieces, v);
      run := DiscardOnly(old(View()), t, View());
    }

    /** What is left of the attempt after the split: the kept chunks and its own, up to the fault. */
    method EmbedPieces(t: Token, reuse: bool, pieces: seq<string>, v: nat, model: nat, configuredBatch: int,
                       faultAt: Option<nat>)
      returns (pending: seq<nat>, done: nat, ghost run: seq<Label>)
      requires Core(View()) && HoldsLease(View(), t)
      requires t in workers && workers[t].phase == Split(reuse, pieces, Some(v)) && workers[t].model == model
      modifies this`doc, this`chunks, this`workers
      ensures SystemRun(old(View()), run, View()) && Core(View()) && HoldsLease(View(), t)
      ensures pending == PendingFrom(old(chunks), reuse, pieces, v, 0) && ValidBatch(pending, pieces)
      ensures done <= |pending| && (done == |pending| <==> !Within(faultAt, |pending|))
      ensures chunks == InsertChunks(Kept(old(chunks), reuse, pieces, v), pending[..done], pieces, v, model)
      ensures doc == old(doc).(heartbeat := doc.heartbeat)
      ensures workers == old(workers)[t := old(workers[t]).(phase := Batching(pieces, v, pending[done..]))]
    {
      pending, run := PrepareTarget(t, reuse, pieces, v);
      ghost var d := View();
      ghost var more;
      done, more := EmbedPending(t, pending, pieces, v, model, configuredBatch, faultAt);
      assert SystemRun(old(View()), run + more, View()) by {
        Then(old(View()), run, d, more, View());
      }
      run := run + more;
    }

    /** Stage, count and switch. */
    method FinishIndex(t: Token, built: Fingerprint, pieces: seq<string>, v: nat) returns (ghost run: seq<Label>)
      requires Core(View()) && HoldsLease(View(), t) && InPhase(View(), t, Batching(pieces, v, []))
      requires PrintOf(workers[t]) == built && Whole(chunks, pieces, v)
      modifies this`doc, this`workers
      ensures SystemRun(old(View()), run, View()) && Core(View()) && life.Live?
      ensures doc == Activated(old(doc), built, pieces, v, clock)
    {
      var staged := SetStage(t, Indexing, Counting(pieces, v));
      ghost var d := View();
      WholeCount(chunks, pieces, v);
      var switched := ActivateIndex(t, built, pieces, v);
      run := StageThenActivate(old(View()), t, d, View());
    }

    /** The fingerprint behind a claim. */
    method StampClaimed(ghost before: Cell, t: Token, chunkConfig: nat, model: nat)
      returns (built: Fingerprint, reuse: bool, v: nat, ghost run: seq<Label>)
      requires Core(before) && Claim(before, t) == Some(View()) && InPhase(View(), t, Leased)
      requires HoldsLease(View(), t) && doc.target.Some?
      requires workers[t].chunkConfig == chunkConfig && workers[t].model == model
      modifies this`doc, this`workers
      ensures SystemRun(before, run, View()) && Core(View()) && HoldsLease(View(), t)
      ensures built == Fingerprint(old(doc).content, chunkConfig, model)
      ensures reuse == (old(doc).fingerprint == Some(built)) && v == old(doc).target.value
      ensures workers == old(workers)[t := old(workers[t]).(content := old(doc).content, phase := Planned(reuse, Some(v)))]
      ensures doc == old(doc).(fingerprint := Some(built))
    {
      var aim;
      built, reuse, aim := StampFingerprint(t, chunkConfig, model);
      v := aim.value;
      run := ClaimThenPlan(before, t, old(View()), View());
    }

    /** Claim and fingerprint. */
    method BeginAttempt(t: Token, chunkConfig: nat, model: nat)
      returns (claimed: bool, built: Fingerprint, reuse: bool, v: nat, ghost run: seq<Label>)
      requires Core(View()) && InPhase(View(), t, Started)
      requires workers[t].chunkConfig == chunkConfig && workers[t].model == model
      modifies this`doc, this`workers
      ensures SystemRun(old(View()), run, View()) && Core(View())
      ensures claimed <==> RowIsClaimable(old(View()))
      ensures claimed ==>
                && HoldsLease(View(), t) && built == Fingerprint(old(doc).content, chunkConfig, model)
                && reuse == (old(doc).fingerprint == Some(built)) && v == Base(old(doc)) + 1
      ensures claimed ==>
                workers == old(workers)[t := old(workers[t]).(content := old(doc).content, phase := Planned(reuse, Some(v)))]
      ensures claimed ==> doc.active == old(doc).active && doc.content == old(doc).content
      ensures !claimed ==> View() == MoveTo(old(View()), t, Finished)
    {
      built, reuse, v := Fingerprint(0, chunkConfig, model), false, 0;
      claimed := ClaimLease(t);
      if claimed {
        built, reuse, v, run := StampClaimed(old(View()), t, chunkConfig, model);
      } else {
        run := SkipOnly(old(View()), t, View());
      }
    }

    /** The stage write behind a split that has pieces. */
    method StageEmbedding(ghost before: Cell, t: Token, reuse: bool, aim: Option<nat>, pieces: seq<string>)
      returns (ghost run: seq<Label>)
      requires Core(before) && ToChunking(before, t) == Some(View()) && pieces != []
      requires HoldsLease(View(), t) && InPhase(View(), t, Splitting(reuse, aim))
      modifies this`doc, this`workers
      ensures SystemRun(before, run, View()) && Core(View()) && HoldsLease(View(), t)
      ensures doc == Staged(old(doc), Embedding, clock)
      ensures workers == old(workers)[t := old(workers[t]).(phase := Split(reuse, pieces, aim))]
    {
      var staged := SetStage(t, Embedding, Split(reuse, pieces, aim));
      run := ChunkThenEmbed(before, t, pieces, old(View()), View());
    }

    /** Parsing, chunking and the two stage writes around them: a parser fails before the first, a
        splitter behind it. */
    method SplitDocument(t: Token, reuse: bool, aim: Option<nat>, parsed: Parsed) returns (ok: bool, ghost run: seq<Label>)
      requires Core(View()) && HoldsLease(View(), t) && InPhase(View(), t, Planned(reuse, aim))
      modifies this`doc, this`workers
      ensures SystemRun(old(View()), run, View()) && Core(View()) && HoldsLease(View(), t)
      ensures ok <==> parsed.Pieces? && parsed.pieces != []
      ensures t in workers && (ok ==> workers == old(workers)[t := old(workers[t]).(phase := Split(reuse, parsed.pieces, aim))])
      ensures !ok ==> CanFail(workers[t].phase) && workers[t].retries == old(workers[t].retries)
      ensures doc == old(doc).(status := doc.status, heartbeat := doc.heartbeat)
      ensures doc.status == if parsed.Unreadable? then old(doc).status else if ok then Embedding else Chunking
    {
      if parsed.Unreadable? {
        NoSteps(View());
        ok, run := false, [];
        return;
      }
      var staged := SetStage(t, Chunking, Splitting(reuse, aim));
      ok := parsed.Pieces? && parsed.pieces != [];
      if ok {
        run := StageEmbedding(old(View()), t, reuse, aim, parsed.pieces);
      } else {
        run := ChunkOnly(old(View()), t, View());
      }
    }

    method RetryLater(ghost before: Cell, t: Token, retries: nat) returns (ghost run: seq<Label>)
      requires Core(before) && FailAndRetry(before, t) == Some(View())
      requires InPhase(View(), t, MustRetry) && workers[t].retries == retries
      modifies this`inbox, this`workers
      ensures SystemRun(before, run, View()) && Core(View()) && inbox == old(inbox) + multiset{retries + 1}
    {
      ScheduleRetry(t, retries);
      run := FailThenRetry(before, t, old(View()), View());
    }

    /** The failure write and, while retries are left, the retry. */
    method FailAttempt(t: Token, retries: nat, retryable: bool, l: LetterId) returns (ghost run: seq<Label>)
      requires Core(View()) && HoldsLease(View(), t) && t in workers && CanFail(workers[t].phase)
      requires workers[t].retries == retries && l !in letters
      modifies this`doc, this`letters, this`inbox, this`workers
      ensures SystemRun(old(View()), run, View()) && Core(View())
      ensures doc == old(doc).(status := doc.status, token := doc.token, heartbeat := doc.heartbeat)
      ensures if retryable && retries < INGEST_MAX_RETRIES
              then doc.status == Retrying && inbox == old(inbox) + multiset{retries + 1} && letters == old(letters)
              else doc.status == Failed && inbox == old(inbox) && letters == old(letters)[l := Letter(FromIngest, Open)]
    {
      var again := RecordFailure(t, retries, retryable, l);
      if again {
        run := RetryLater(old(View()), t, retries);
      } else {
        run := FailOnly(old(View()), t, retryable, l, View());
      }
    }

    /** From the split to the switch, or to the embedder's fault. */
    method BuildIndex(t: Token, built: Fingerprint, reuse: bool, pieces: seq<string>, v: nat, configuredBatch: int,
                      faultAt: Option<nat>)
      returns (ok: bool, done: nat, ghost run: seq<Label>)
      requires Core(View()) && HoldsLease(View(), t)
      requires t in workers && workers[t].phase == Split(reuse, pieces, Some(v)) && PrintOf(workers[t]) == built
      modifies this`doc, this`chunks, this`workers
      ensures SystemRun(old(View()), run, View()) && Core(View())
      ensures var pending := PendingFrom(old(chunks), reuse, pieces, v, 0);
              && (ok <==> !Within(faultAt, |pending|)) && done <= |pending| && ValidBatch(pending, pieces)
              && chunks == InsertChunks(Kept(old(chunks), reuse, pieces, v), pending[..done], pieces, v, built.model)
              && (ok ==> done == |pending|)
      ensures ok ==> doc == Activated(old(doc), built, pieces, v, clock)
      ensures !ok ==>
                && HoldsLease(View(), t) && doc == old(doc).(heartbeat := doc.heartbeat)
                && t in workers && CanFail(workers[t].phase) && workers[t].retries == old(workers[t].retries)
    {
      var pending;
      pending, done, run := EmbedPieces(t, reuse, pieces, v, built.model, configuredBatch, faultAt);
      ok := done == |pending|;
      if ok {
        ghost var d := View();
        assert pending[..done] == pending && pending[done..] == [];
        ResumedIsWhole(old(chunks), reuse, pieces, v, built.model);
        ghost var more := FinishIndex(t, built, pieces, v);
        assert SystemRun(old(View()), run + more, View()) by {
          Then(old(View()), run, d, more, View());
        }
        run := run + more;
      }
    }

    /** The try block, for every outcome of parser, splitter and embedder. */
    method TryToIndex(t: Token, built: Fingerprint, reuse: bool, v: nat, parsed: Parsed, configuredBatch: int,
                      faultAt: Option<nat>)
      returns (ok: bool, done: nat, ghost run: seq<Label>)
      requires Core(View()) && HoldsLease(View(), t)
      requires InPhase(View(), t, Planned(reuse, Some(v))) && PrintOf(workers[t]) == built
      modifies this`doc, this`chunks, this`workers
      ensures SystemRun(old(View()), run, View()) && Core(View())
      ensures BuiltUpTo(old(chunks), reuse, v, built.model, parsed, faultAt, ok, done, chunks)
      ensures ok ==> doc == Activated(old(doc).(status := doc.status, heartbeat := doc.heartbeat), built, parsed.pieces, v, clock)
      ensures !ok ==>
                && HoldsLease(View(), t) && doc == old(doc).(status := doc.status, heartbeat := doc.heartbeat)
                && t in workers && CanFail(workers[t].phase) && workers[t].retries == old(workers[t].retries)
    {
      done := 0;
      ok, run := SplitDocument(t, reuse, Some(v), parsed);
      if ok {
        ghost var d := View();
        ghost var more;
        ok, done, more := BuildIndex(t, built, reuse, parsed.pieces, v, configuredBatch, faultAt);
        assert SystemRun(old(View()), run + more, View()) by {
          Then(old(View()), run, d, more, View());
        }
        run := run + more;
      }
    }

    /** The try block under a lease and its exception path. A failing embedder leaves the first `done`
        pending chunks for the next attempt. */
    method ProcessDocument(t: Token, retries: nat, built: Fingerprint, reuse: bool, v: nat,
                           parsed: Parsed, configuredBatch: int, faultAt: Option<nat>, l: LetterId)
      returns (ok: bool, done: nat, ghost run: seq<Label>)
      requires Core(View()) && HoldsLease(View(), t) && l !in letters
      requires InPhase(View(), t, Planned(reuse, Some(v))) && workers[t].retries == retries && PrintOf(workers[t]) == built
      modifies this`doc, this`chunks, this`letters, this`inbox, this`workers
      ensures SystemRun(old(View()), run, View()) && Core(View())
      ensures BuiltUpTo(old(chunks), reuse, v, built.model, parsed, faultAt, ok, done, chunks)
      ensures ok ==>
                && doc.status == Ready && doc.active == Some(v) && doc.target.None? && doc.token.None?
                && doc.split == parsed.pieces && doc.chunkCount == |parsed.pieces| && doc.built == Some(built)
                && doc.content == old(doc).content && letters == old(letters) && inbox == old(inbox)
      ensures !ok ==> doc == old(doc).(status := doc.status, token := doc.token, heartbeat := doc.heartbeat)
      ensures !ok ==>
                if Retryable(parsed) && retries < INGEST_MAX_RETRIES
                then doc.status == Retrying && inbox == old(inbox) + multiset{retries + 1} && letters == old(letters)
                else doc.status == Failed && inbox == old(inbox) && letters == old(letters)[l := Letter(FromIngest, Open)]
    {
      ok, done, run := TryToIndex(t, built, reuse, v, parsed, configuredBatch, faultAt);
      if !ok {
        ghost var d := View();
        ghost var more := FailAttempt(t, retries, Retryable(parsed), l);
        assert SystemRun(old(View()), run + more, View()) by {
          Then(old(View()), run, d, more, View());
        }
        run := run + more;
      }
    }

    /** One undisturbed execution of the task, from the claim to the switch or the failure write. */
    method IngestDocument(t: Token, retries: nat, chunkConfig: nat, model: nat,
                          parsed: Parsed, configuredBatch: int, faultAt: Option<nat>, l: LetterId)
      returns (ok: bool, done: nat, ghost run: seq<Label>)
      requires Core(View()) && l !in letters
      requires t in workers && workers[t] == Worker(retries, chunkConfig, model, 0, Started)
      modifies this`doc, this`chunks, this`letters, this`inbox, this`workers
      ensures SystemRun(old(View()), run, View()) && Core(View())
      ensures !RowIsClaimable(old(View())) ==> !ok && View() == MoveTo(old(View()), t, Finished)
      ensures RowIsClaimable(old(View())) ==>
                var v, built := Base(old(doc)) + 1, Fingerprint(old(doc).content, chunkConfig, model);
                && BuiltUpTo(old(chunks), old(doc).fingerprint == Some(built), v, model, parsed, faultAt, ok, done, chunks)
                && (ok ==>
                      && doc.status == Ready && doc.active == Some(v) && doc.target.None? && doc.token.None?
                      && doc.split == parsed.pieces && doc.chunkCount == |parsed.pieces| && doc.built == Some(built))
      ensures RowIsClaimable(old(View())) && parsed == Pieces([]) ==> !ok && doc.status == Failed
      ensures RowIsClaimable(old(View())) && !ok ==>
                && doc.active == old(doc.active) && doc.content == old(doc.content)
                && if Retryable(parsed) && retries < INGEST_MAX_RETRIES
                   then doc.status == Retrying && inbox == old(inbox) + multiset{retries + 1} && letters == old(letters)
                   else doc.status == Failed && inbox == old(inbox) && letters == old(letters)[l := Letter(FromIngest, Open)]
    {
      var built, reuse, v;
      done := 0;
      ok, built, reuse, v, run := BeginAttempt(t, chunkConfig, model);
      if ok {
        ghost var d := View();
        ghost var more;
        ok, done, more := ProcessDocument(t, retries, built, reuse, v, parsed, configuredBatch, faultAt, l);
        assert SystemRun(old(View()), run + more, View()) by {
          Then(old(View()), run, d, more, View());
        }
        run := run + more;
      }
    }

    // ---------- maintenance ----------

    method ReconcileStale(staleAfter: nat, e: EventId) returns (recovered: bool)
      requires e !in events
      modifies this`doc, this`events
      ensures recovered ==> Reclaim(old(View()), staleAfter, e) == Some(View())
      ensures recovered <==>
                && old(life).Live? && (old(doc).status == Parsing || old(doc).status == Chunking
                                       || old(doc).status == Embedding || old(doc).status == Indexing)
                && old(doc).heartbeat.Some? && old(doc).heartbeat.value + staleAfter < clock
      ensures recovered ==>
                && doc == old(doc).(status := Retrying, token := None)
                && events == old(events)[e := NewEvent(IngestRequested, clock)]
      ensures !recovered ==> Reclaim(old(View()), staleAfter, e) == None && View() == old(View())
    {
      recovered := life.Live? && Working(doc.status) && doc.heartbeat.Some? && doc.heartbeat.value < clock - staleAfter;
      if recovered {
        doc := doc.(status := Retrying, token := None);
        events := events[e := NewEvent(IngestRequested, clock)];
      }
    }

    method CleanupSuperseded() returns (ok: bool)
      modifies this`chunks
      ensures ok ==> Cleanup(old(View())) == Some(View())
      ensures ok <==> life.Live? && doc.active.Some?
      ensures forall k :: k in chunks <==> k in old(chunks) && (ok ==> k.version == doc.active.value)
      ensures forall k :: k in chunks ==> chunks[k] == old(chunks)[k]
      ensures !ok ==> Cleanup(old(View())) == None && View() == old(View())
    {
      ok := life.Live? && doc.active.Some?;
      if ok {
        chunks := map k | k in chunks && k.version == doc.active.value :: chunks[k];
      }
    }

    /** One selected letter: replayed through a new event, or discarded. */
    method RetryLetter(l: LetterId, e: EventId) returns (replayed: bool)
      requires OpenLetter(View(), l) && !letters[l].source.FromOutbox? && e !in events
      modifies this`doc, this`events, this`letters
      ensures RetryOutcome(old(View()), l, e, replayed, View())
      ensures replayed <==>
                || old(letters)[l].source.FromCleanup?
                || (old(life).Live? && (old(doc).status == Failed || old(doc).status == Retrying))
      ensures letters == old(letters)[l := old(letters)[l].(status := if replayed then Replayed else Discarded)]
      ensures doc == if replayed && old(letters)[l].source.FromIngest? then Requeued(old(doc)) else old(doc)
      ensures events == if !replayed then old(events)
                        else if old(letters)[l].source.FromIngest? then old(events)[e := NewEvent(IngestRequested, clock)]
                        else old(events)[e := NewEvent(DeleteRequested(old(letters)[l].source.payload), clock)]
    {
      if letters[l].source.FromCleanup? {
        replayed := true;
        events := events[e := NewEvent(DeleteRequested(letters[l].source.payload), clock)];
      } else {
        replayed := life.Live? && (doc.status == Failed || doc.status == Retrying);
        if replayed {
          Requeue(e);
        }
      }
      letters := letters[l := letters[l].(status := if replayed then Replayed else Discarded)];
    }

    /** `retry_pending_dead_letters` over the selected letters: each is settled once, and exactly the
        replayed ones add an event. The whole loop is a schedule of single steps. */
    method RetryPendingDeadLetters(selected: seq<LetterId>, ids: seq<EventId>) returns (retried: nat, ghost run: seq<Label>)
      requires SelectedOk(View(), selected, ids, 0)
      modifies this`doc, this`events, this`letters
      ensures Exec(old(View()), run) == Some(View())
      ensures letters.Keys == old(letters).Keys && |events| == |old(events)| + retried
      ensures forall l :: l in letters ==> if l in selected then letters[l].status != Open else letters[l] == old(letters)[l]
    {
      retried, run := 0, [];
      ghost var before := View();
      for i := 0 to |selected|
        invariant Exec(before, run) == Some(View())
        invariant Settled(before, View(), selected, ids, i, retried)
      {
        ghost var d := View();
        assert SelectedOk(d, selected, ids, i);
        var replayed := RetryLetter(selected[i], ids[i]);
        run := RetryRan(before, run, d, selected[i], ids[i], replayed, View());
        SettledNext(before, d, selected, ids, i, retried, replayed, View());
        retried := retried + if replayed then 1 else 0;
      }
      assert selected[..|selected|] == selected;
    }

    // ---------- the delete_resources task ----------

    /** Deletes the first `upTo` keys; storage refuses the next one, if there is one. */
    method DeleteObjects(q: nat, keys: seq<ObjectKey>, upTo: nat) returns (ghost run: seq<Label>)
      requires q in deleteTasks && deleteTasks[q].remaining == keys && upTo <= |keys|
      modifies this`stored, this`deleteTasks
      ensures DeletedBy(old(View()), run, View(), q, keys, upTo)
    {
      run := [];
      ghost var before := View();
      DeletedNone(before, q, keys);
      for i := 0 to upTo
        invariant DeletedBy(before, run, View(), q, keys, i)
      {
        ghost var d := View();
        DeletedHead(before, d, q, keys, i);
        DeleteKey(q, keys[i]);
        run := DeletedNext(before, run, d, q, keys, i, View());
      }
    }

    method DeleteKey(q: nat, key: ObjectKey)
      requires q in deleteTasks && deleteTasks[q].remaining != [] && deleteTasks[q].remaining[0] == key
      modifies this`stored, this`deleteTasks
      ensures DeleteObject(old(View()), q) == Some(View())
      ensures stored == old(stored) - {key}
    {
      stored := stored - {key};
      deleteTasks := deleteTasks[q := deleteTasks[q].(remaining := deleteTasks[q].remaining[1..])];
    }

    /** Every object is gone: a tombstoned row goes too. */
    method SettleRow(q: nat, payload: Payload) returns (removed: bool)
      requires q in deleteTasks && deleteTasks[q].remaining == [] && deleteTasks[q].message.payload == payload
      modifies this`life, this`chunks, this`deleteTasks
      ensures removed ==> RemoveRow(old(View()), q) == Some(View())
      ensures !removed ==> DeleteDone(old(View()), q) == Some(View())
      ensures removed <==> payload.hasDocument && HasStatus(old(View()), Deleting)
      ensures life == (if removed then Removed else old(life)) && chunks == if removed then map[] else old(chunks)
    {
      removed := payload.hasDocument && life.Live? && doc.status == Deleting;
      if removed {
        life, chunks := Removed, map[];
      }
      deleteTasks := deleteTasks - {q};
    }

    /** Storage refused a key: retried from the first one, or parked as a dead letter. */
    method FailDeletion(q: nat, m: DeleteMessage, l: LetterId) returns (again: bool)
      requires q in deleteTasks && deleteTasks[q].remaining != [] && deleteTasks[q].message == m && l !in letters
      modifies this`deleteInbox, this`letters, this`deleteTasks
      ensures again ==> DeleteRetry(old(View()), q) == Some(View())
      ensures !again ==> DeletePark(old(View()), q, l) == Some(View())
      ensures if m.retries < config.deleteMaxRetries
              then deleteInbox == old(deleteInbox) + multiset{DeleteMessage(m.payload, m.retries + 1)}
              else letters == old(letters)[l := Letter(FromCleanup(m.payload), Open)]
    {
      again := m.retries < config.deleteMaxRetries;
      if again {
        deleteInbox := deleteInbox + multiset{DeleteMessage(m.payload, m.retries + 1)};
      } else {
        letters := letters[l := Letter(FromCleanup(m.payload), Open)];
      }
      deleteTasks := deleteTasks - {q};
    }

    /** The whole task; `faultAt` is the position of the key that storage refuses, if it refuses one.
        The row is removed only behind all of its payload's objects. */
    method DeleteResources(q: nat, m: DeleteMessage, faultAt: Option<nat>, l: LetterId) returns (ok: bool, ghost run: seq<Label>)
      requires q in deleteTasks && deleteTasks[q] == DeleteTask(m, m.payload.keys) && l !in letters
      modifies this`life, this`chunks, this`stored, this`deleteInbox, this`letters, this`deleteTasks
      ensures Exec(old(View()), run) == Some(View())
      ensures ok <==> (faultAt.Some? ==> faultAt.value >= |m.payload.keys|)
      ensures ok ==> stored == old(stored) - (set k | k in m.payload.keys)
      ensures ok ==> (life != old(life) <==> m.payload.hasDocument && HasStatus(old(View()), Deleting))
      ensures !ok ==> life == old(life) && (if m.retries < config.deleteMaxRetries
                                            then DeleteMessage(m.payload, m.retries + 1) in deleteInbox
                                            else l in letters && letters[l] == Letter(FromCleanup(m.payload), Open))
    {
      var keys := m.payload.keys;
      var upTo := if faultAt.Some? && faultAt.value < |keys| then faultAt.value else |keys|;
      ok := upTo == |keys|;
      run := DeleteObjects(q, keys, upTo);
      ghost var d := View();
      if ok {
        assert keys[..|keys|] == keys;
        var removed := SettleRow(q, m.payload);
        run := SettleRan(old(View()), run, d, q, removed, View());
      } else {
        var again := FailDeletion(q, m, l);
        run := FailRan(old(View()), run, d, q, l, again, View());
      }
    }

    // ---------- the outbox dispatcher ----------

    method ClaimEvent(e: EventId)
      requires e in events && (events[e].status == Pending || events[e].status == Publishing) && events[e].nextRetry <= clock
      modifies this`events
      ensures DispatchClaim(old(View()), e) == Some(View())
      ensures events == old(events)[e := old(events)[e].(status := Publishing, nextRetry := clock + 60)]
    {
      events := events[e := events[e].(status := Publishing, nextRetry := clock + 60)];
    }

    /** The claim of one batch: a crash leaves the events to the next scan a minute later. */
    method ClaimEvents(due: seq<EventId>) returns (ghost run: seq<Label>)
      requires DueOk(View(), due)
      modifies this`events
      ensures Exec(old(View()), run) == Some(View())
      ensures ClaimedUpTo(old(View()), View(), due, |due|)
    {
      run := [];
      ghost var before := View();
      for i := 0 to |due|
        invariant Exec(before, run) == Some(View())
        invariant ClaimedUpTo(before, View(), due, i)
      {
        ghost var d := View();
        ClaimReady(before, d, due, i);
        ClaimEvent(due[i]);
        ClaimNext(before, d, due, i, View());
        run := ClaimRan(before, run, d, due[i], View());
      }
      assert due[..|due|] == due;
    }

    /** Hands the event to the broker, on the queue of its kind. */
    method HandToBroker(ghost p: nat, e: EventId)
      requires e in events && p in dispatchers && dispatchers[p].event == e && !dispatchers[p].published
      modifies this`events, this`inbox, this`deleteInbox, this`dispatchers
      ensures Handed(old(View()), p, e, View())
      ensures match old(events)[e].kind
                case IngestRequested => inbox == old(inbox) + multiset{0} && deleteInbox == old(deleteInbox)
                case DeleteRequested(payload) =>
                  inbox == old(inbox) && deleteInbox == old(deleteInbox) + multiset{DeleteMessage(payload, 0)}
      ensures events == old(events)[e := old(events)[e].(published := true)]
      ensures dispatchers == old(dispatchers)[p := old(dispatchers)[p].(published := true)]
    {
      if events[e].kind.IngestRequested? {
        inbox := inbox + multiset{0};
      } else {
        deleteInbox := deleteInbox + multiset{DeleteMessage(events[e].kind.payload, 0)};
      }
      events := events[e := events[e].(published := true)];
      dispatchers := dispatchers[p := dispatchers[p].(published := true)];
    }

    method MarkSent(ghost p: nat, e: EventId)
      requires e in events && p in dispatchers && dispatchers[p].event == e && dispatchers[p].published
      modifies this`doc, this`events, this`dispatchers
      ensures DispatchSent(old(View()), p) == Some(View())
      ensures doc == if old(events)[e].kind.IngestRequested? && old(life).Live? && old(doc).status == Uploaded
                     then old(doc).(status := Queued) else old(doc)
      ensures events == old(events)[e := old(events)[e].(status := Sent)] && dispatchers == old(dispatchers) - {p}
    {
      if events[e].kind.IngestRequested? && life.Live? && doc.status == Uploaded {
        doc := doc.(status := Queued);
      }
      events := events[e := events[e].(status := Sent)];
      dispatchers := dispatchers - {p};
    }

    /** The count is one more than the session has read, whatever is stored by now. */
    method RecordRefusal(ghost p: nat, e: EventId, read: nat, l: LetterId) returns (spent: bool)
      requires e in events && p in dispatchers && dispatchers[p].event == e && dispatchers[p].read == read && l !in letters
      modifies this`events, this`letters, this`dispatchers
      ensures !spent ==> DispatchBackOff(old(View()), p) == Some(View())
      ensures spent ==> DispatchPark(old(View()), p, l) == Some(View())
      ensures spent <==> read + 1 >= config.outboxMaxRetries
      ensures events == old(events)[e := FailedAttempt(old(events)[e], read, config, clock)]
      ensures events[e] == old(events)[e].(retries := read + 1, status := if spent then Parked else Pending,
                                           nextRetry := clock + Backoff(config.outboxBaseRetry, read + 1),
                                           failures := old(events)[e].failures + 1)
      ensures dispatchers == old(dispatchers) - {p}
      ensures letters == if spent then old(letters)[l := Letter(FromOutbox(e), Open)] else old(letters)
    {
      var retries := read + 1;
      spent := retries >= config.outboxMaxRetries;
      events := events[e := events[e].(retries := retries, status := if spent then Parked else Pending,
                                       nextRetry := clock + Backoff(config.outboxBaseRetry, retries),
                                       failures := events[e].failures + 1)];
      if spent {
        letters := letters[l := Letter(FromOutbox(e), Open)];
      }
      dispatchers := dispatchers - {p};
    }

    method PublishAccepted(ghost p: nat, e: EventId, ghost l: LetterId) returns (ghost run: seq<Label>)
      requires e in events && events[e].status == Publishing && p !in dispatchers
      modifies this`doc, this`events, this`inbox, this`deleteInbox, this`dispatchers
      ensures Exec(old(View()), run) == Some(View()) && PublishedAs(old(View()), e, true, l, View())
    {
      dispatchers := dispatchers[p := Dispatch(e, events[e].retries, false)];
      ghost var read := View();
      HandToBroker(p, e);
      ghost var published := View();
      MarkSent(p, e);
      SentAs(old(View()), p, e, l, read, published, View());
      run := SentRan(old(View()), p, e, read, published, View());
    }

    method PublishRefused(ghost p: nat, e: EventId, l: LetterId) returns (ghost run: seq<Label>)
      requires e in events && events[e].status == Publishing && p !in dispatchers && l !in letters
      modifies this`events, this`letters, this`dispatchers
      ensures Exec(old(View()), run) == Some(View()) && PublishedAs(old(View()), e, false, l, View())
    {
      dispatchers := dispatchers[p := Dispatch(e, events[e].retries, false)];
      ghost var read := View();
      var spent := RecordRefusal(p, e, events[e].retries, l);
      assert dispatchers == old(dispatchers);
      run := RefusedRan(old(View()), p, e, l, read, View());
    }

    /** One scan: the due events are claimed together and published one by one; `accepted[i]` is the
        broker's answer for the i-th. Every one ends sent and published, or one failed attempt
        further with a letter once its budget is spent; the others stay. */
    method DispatchOutboxBatch(ghost p: nat, due: seq<EventId>, accepted: seq<bool>, ls: seq<LetterId>)
      returns (sent: nat, failed: nat, ghost run: seq<Label>)
      requires DueOk(View(), due) && |accepted| == |due| && LettersOk(View(), ls, 0) && |ls| == |due|
      requires p !in dispatchers
      modifies this`doc, this`events, this`letters, this`inbox, this`deleteInbox, this`dispatchers
      ensures Exec(old(View()), run) == Some(View())
      ensures sent + failed == |due| && events.Keys == old(events).Keys
      ensures forall i :: 0 <= i < |due| ==> EventOutcome(old(View()), due[i], accepted[i], ls[i], View())
      ensures forall e :: e in events && e !in due ==> events[e] == old(events)[e]
    {
      run := ClaimEvents(due);
      assert due[..|due|] == due;
      sent, failed := 0, 0;
      ghost var before := old(View());
      for i := 0 to |due|
        invariant Exec(before, run) == Some(View())
        invariant Dispatched(before, View(), due, accepted, ls, i)
        invariant p !in dispatchers && sent + failed == i
      {
        ghost var d := View();
        ghost var more;
        if accepted[i] {
          more := PublishAccepted(p, due[i], ls[i]);
          sent := sent + 1;
        } else {
          more := PublishRefused(p, due[i], ls[i]);
          failed := failed + 1;
        }
        DispatchedNext(before, d, due, accepted, ls, i, View());
        ExecAppend(before, run, more);
        run := run + more;
      }
    }
  }
}
