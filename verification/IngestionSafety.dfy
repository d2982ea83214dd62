/** The active index is whole in every reachable state, and exactly when a discard breaks it. */
module IngestionSafety {
  import opened Wrappers
  import opened Ingestion

  // ---------- the invariant ----------

  /** Which statuses carry a lease, and what a lease-carrying row knows. */
  predicate RowOk(d: Document, clock: int) {
    && (Working(d.status) ==> d.token.Some?)
    && (d.token.Some? ==> d.target.Some? && d.heartbeat.Some? && d.heartbeat.value <= clock)
    && (!Working(d.status) && d.status != Queued ==> d.token.None?)
  }

  ghost predicate TokensOk(c: Cell) {
    && (forall t :: t in c.workers ==> t in c.used)
    && (c.row.Present? ==> RowOk(c.row.doc, c.clock) && (c.row.doc.token.Some? ==> c.row.doc.token.value in c.used))
  }

  /** The target is none or one above the active version; no chunk lies above that. */
  ghost predicate VersionsOk(c: Cell) {
    match c.row
    case Present(d) =>
      && (d.target.Some? ==> d.target.value == Base(d) + 1)
      && forall k :: k in c.chunks ==> k.version <= Base(d) + 1
    case _ => c.chunks == map[]
  }

  /** Everything stored at version `v` comes from `pieces`. */
  ghost predicate FromPieces(chunks: ChunkTable, pieces: seq<string>, v: nat) {
    forall k :: k in chunks && k.version == v ==> k.seqNo < |pieces| && chunks[k].content == pieces[k.seqNo]
  }

  ghost predicate Distinct(s: seq<nat>) {
    forall i, j :: 0 <= i < j < |s| ==> s[i] != s[j]
  }

  /** The build of the lease holder: its target is the row's, its pending chunks are absent. */
  ghost predicate BuildOk(c: Cell, d: Document, p: Phase) {
    match p
    case Started => false
    case MustRetry => false
    case Planned(_, aim) => d.target == aim
    case Splitting(_, aim) => d.target == aim
    case Split(_, _, aim) => d.target == aim
    case Batching(pieces, v, pending) =>
      && d.target == Some(v)
      && FromPieces(c.chunks, pieces, v)
      && ValidBatch(pending, pieces)
      && Distinct(pending)
      && forall k :: k in c.chunks && k.version == v ==> k.seqNo !in pending
    case Counting(pieces, v) => d.target == Some(v) && FromPieces(c.chunks, pieces, v)
    case _ => true
  }

  ghost predicate LeaseOk(c: Cell) {
    forall t :: t in c.workers && HoldsLease(c, t) ==> BuildOk(c, c.row.doc, c.workers[t].phase)
  }

  /** Exactly one chunk for each piece of one split, and the row counts them. */
  ghost predicate Whole(chunks: ChunkTable, split: seq<string>, v: nat) {
    && FromPieces(chunks, split, v)
    && forall i: nat :: i < |split| ==> ChunkKey(v, i) in chunks
  }

  ghost predicate WholeActive(c: Cell) {
    c.row.Present? && c.row.doc.active.Some? ==>
      && Whole(c.chunks, c.row.doc.split, c.row.doc.active.value)
      && c.row.doc.chunkCount == |c.row.doc.split|
  }

  /** Holds in every reachable state, whatever the schedule. */
  ghost predicate Core(c: Cell) {
    TokensOk(c) && VersionsOk(c) && LeaseOk(c)
  }

  ghost predicate Inv(c: Cell) {
    Core(c) && WholeActive(c)
  }

  ghost predicate Keeps(c: Cell, c': Cell) {
    Core(c') && (WholeActive(c) ==> WholeActive(c'))
  }

  /** The unguarded discard of `t` would not touch the active index. */
  predicate DiscardKeeps(c: Cell, t: Token) {
    t in c.workers && c.workers[t].phase.Split? && c.row.Present? && c.row.doc.active.Some? ==>
      var p, v := c.workers[t].phase, c.row.doc.active.value;
      p.aim != Some(v)
      || forall k :: k in c.chunks && k.version == v ==> Reusable(c.chunks, p.reuse, p.pieces, v, k.seqNo)
  }

  // ---------- steps ----------

  /** Steps that leave the row, the chunks and the workers alone. */
  lemma FrameKeepsInv(c: Cell, c': Cell)
    requires Core(c)
    requires c'.row == c.row && c'.chunks == c.chunks && c'.workers == c.workers && c'.used == c.used
    requires c.clock <= c'.clock
    ensures Keeps(c, c')
  {
  }

  /** A row write that keeps the index columns, and leaves a lease only to a build that fits it. */
  lemma RowWriteKeepsInv(c: Cell, d: Document)
    requires Core(c) && c.row.Present? && RowOk(d, c.clock)
    requires d.active == c.row.doc.active && d.split == c.row.doc.split && d.chunkCount == c.row.doc.chunkCount
    requires d.target.Some? ==> d.target.value == Base(d) + 1
    requires d.token.Some? ==>
               && d.token.value in c.used
               && (d.token.value in c.workers ==> BuildOk(c, d, c.workers[d.token.value].phase))
    ensures Keeps(c, WithDoc(c, d))
  {
  }

  lemma MoveKeepsInv(c: Cell, t: Token, p: Phase)
    requires Core(c) && t in c.workers
    requires HoldsLease(c, t) ==> BuildOk(c, c.row.doc, p)
    ensures Keeps(c, MoveTo(c, t, p))
  {
  }

  lemma LeaveKeepsInv(c: Cell, t: Token, c': Cell)
    requires Core(c) && c'.row == c.row && c'.chunks == c.chunks && c'.used == c.used && c'.clock == c.clock
    requires c'.workers == c.workers - {t}
    ensures Keeps(c, c')
  {
  }

  lemma UploadKeepsInv(c: Cell, content: nat, key: ObjectKey, e: EventId, c': Cell)
    requires Core(c) && Upload(c, content, key, e) == Some(c')
    ensures Keeps(c, c')
  {
  }

  lemma ReplaceKeepsInv(c: Cell, content: nat, key: ObjectKey, e: EventId, c': Cell)
    requires Core(c) && Replace(c, content, key, e) == Some(c')
    ensures Keeps(c, c')
  {
    RowWriteKeepsInv(c, c'.row.doc);
    FrameKeepsInv(WithDoc(c, c'.row.doc), c');
  }

  lemma ReindexKeepsInv(c: Cell, e: EventId, c': Cell)
    requires Core(c) && Reindex(c, e) == Some(c')
    ensures Keeps(c, c')
  {
    RowWriteKeepsInv(c, c'.row.doc);
    FrameKeepsInv(WithDoc(c, c'.row.doc), c');
  }

  lemma CancelKeepsInv(c: Cell, c': Cell)
    requires Core(c) && Cancel(c) == Some(c')
    ensures Keeps(c, c')
  {
    RowWriteKeepsInv(c, c'.row.doc);
  }

  lemma DeleteKeepsInv(c: Cell, e: EventId, c': Cell)
    requires Core(c) && Delete(c, e) == Some(c')
    ensures Keeps(c, c')
  {
    RowWriteKeepsInv(c, c'.row.doc);
    FrameKeepsInv(WithDoc(c, c'.row.doc), c');
  }

  lemma DeleteKnowledgeBaseKeepsInv(c: Cell, e: EventId, c': Cell)
    requires Core(c) && DeleteKnowledgeBase(c, e) == Some(c')
    ensures Keeps(c, c')
  {
  }

  lemma ResumeKeepsInv(c: Cell, e: EventId, c': Cell)
    requires Core(c) && Resume(c, e) == Some(c')
    ensures Keeps(c, c')
  {
    RowWriteKeepsInv(c, c'.row.doc);
    FrameKeepsInv(WithDoc(c, c'.row.doc), c');
  }

  lemma ReplayIngestKeepsInv(c: Cell, l: LetterId, e: EventId, c': Cell)
    requires Core(c) && ReplayIngest(c, l, e) == Some(c')
    ensures Keeps(c, c')
  {
    RowWriteKeepsInv(c, c'.row.doc);
    FrameKeepsInv(WithDoc(c, c'.row.doc), c');
  }

  lemma DeliverKeepsInv(c: Cell, retries: nat, t: Token, chunkConfig: nat, model: nat, c': Cell)
    requires Core(c) && Deliver(c, retries, t, chunkConfig, model) == Some(c')
    ensures Keeps(c, c')
  {
  }

  lemma ClaimKeepsInv(c: Cell, t: Token, c': Cell)
    requires Core(c) && Claim(c, t) == Some(c')
    ensures Keeps(c, c')
  {
    MoveKeepsInv(c, t, Leased);
    RowWriteKeepsInv(MoveTo(c, t, Leased), c'.row.doc);
  }

  lemma SkipClaimKeepsInv(c: Cell, t: Token, c': Cell)
    requires Core(c) && SkipClaim(c, t) == Some(c')
    ensures Keeps(c, c')
  {
    MoveKeepsInv(c, t, Finished);
  }

  lemma PlanReuseKeepsInv(c: Cell, t: Token, c': Cell)
    requires Core(c) && PlanReuse(c, t) == Some(c')
    ensures Keeps(c, c')
  {
    MoveKeepsInv(c, t, c'.workers[t].phase);
    RowWriteKeepsInv(MoveTo(c, t, c'.workers[t].phase), c'.row.doc);
  }

  lemma RowVanishedKeepsInv(c: Cell, t: Token, c': Cell)
    requires Core(c) && RowVanished(c, t) == Some(c')
    ensures Keeps(c, c')
  {
    MoveKeepsInv(c, t, Finished);
  }

  lemma ToChunkingKeepsInv(c: Cell, t: Token, c': Cell)
    requires Core(c) && ToChunking(c, t) == Some(c')
    ensures Keeps(c, c')
  {
    MoveKeepsInv(c, t, c'.workers[t].phase);
    RowWriteKeepsInv(MoveTo(c, t, c'.workers[t].phase), c'.row.doc);
  }

  lemma ToEmbeddingKeepsInv(c: Cell, t: Token, pieces: seq<string>, c': Cell)
    requires Core(c) && ToEmbedding(c, t, pieces) == Some(c')
    ensures Keeps(c, c')
  {
    MoveKeepsInv(c, t, c'.workers[t].phase);
    RowWriteKeepsInv(MoveTo(c, t, c'.workers[t].phase), c'.row.doc);
  }

  lemma ToIndexingKeepsInv(c: Cell, t: Token, c': Cell)
    requires Core(c) && ToIndexing(c, t) == Some(c')
    ensures Keeps(c, c')
  {
    MoveKeepsInv(c, t, c'.workers[t].phase);
    RowWriteKeepsInv(MoveTo(c, t, c'.workers[t].phase), c'.row.doc);
  }

  lemma LoseLeaseKeepsInv(c: Cell, t: Token, c': Cell)
    requires Core(c) && LoseLease(c, t) == Some(c')
    ensures Keeps(c, c')
  {
    MoveKeepsInv(c, t, Finished);
  }

  lemma FailedRowKeepsInv(c: Cell, t: Token, status: Status)
    requires Core(c) && (status == Retrying || status == Failed)
    ensures Keeps(c, c.(row := FailedRow(c.row, t, status, c.clock)))
    ensures !HoldsLease(c.(row := FailedRow(c.row, t, status, c.clock)), t)
  {
    if HoldsLease(c, t) {
      RowWriteKeepsInv(c, c.row.doc.(status := status, token := None, heartbeat := Some(c.clock)));
    }
  }

  lemma FailAndRetryKeepsInv(c: Cell, t: Token, c': Cell)
    requires Core(c) && FailAndRetry(c, t) == Some(c')
    ensures Keeps(c, c')
  {
    FailedRowKeepsInv(c, t, Retrying);
    MoveKeepsInv(c.(row := c'.row), t, MustRetry);
  }

  lemma FailTerminallyKeepsInv(c: Cell, t: Token, retryable: bool, l: LetterId, c': Cell)
    requires Core(c) && FailTerminally(c, t, retryable, l) == Some(c')
    ensures Keeps(c, c')
  {
    FailedRowKeepsInv(c, t, Failed);
    MoveKeepsInv(c.(row := c'.row), t, Finished);
    FrameKeepsInv(MoveTo(c.(row := c'.row), t, Finished), c');
  }

  lemma PublishRetryKeepsInv(c: Cell, t: Token, c': Cell)
    requires Core(c) && PublishRetry(c, t) == Some(c')
    ensures Keeps(c, c')
  {
    MoveKeepsInv(c, t, Finished);
    FrameKeepsInv(MoveTo(c, t, Finished), c');
  }

  lemma AcknowledgeKeepsInv(c: Cell, t: Token, c': Cell)
    requires Core(c) && Acknowledge(c, t) == Some(c')
    ensures Keeps(c, c')
  {
    LeaveKeepsInv(c, t, c');
  }

  lemma CrashKeepsInv(c: Cell, t: Token, c': Cell)
    requires Core(c) && Crash(c, t) == Some(c')
    ensures Keeps(c, c')
  {
    LeaveKeepsInv(c, t, c');
  }

  lemma KillAndAcknowledgeKeepsInv(c: Cell, t: Token, c': Cell)
    requires Core(c) && KillAndAcknowledge(c, t) == Some(c')
    ensures Keeps(c, c')
  {
    LeaveKeepsInv(c, t, c');
  }

  lemma DispatchSentKeepsInv(c: Cell, p: nat, c': Cell)
    requires Core(c) && DispatchSent(c, p) == Some(c')
    ensures Keeps(c, c')
  {
    if c'.row == c.row {
      FrameKeepsInv(c, c');
    } else {
      RowWriteKeepsInv(c, c'.row.doc);
      FrameKeepsInv(WithDoc(c, c'.row.doc), c');
    }
  }

  lemma ReclaimKeepsInv(c: Cell, staleAfter: nat, e: EventId, c': Cell)
    requires Core(c) && Reclaim(c, staleAfter, e) == Some(c')
    ensures Keeps(c, c')
  {
    RowWriteKeepsInv(c, c'.row.doc);
    FrameKeepsInv(WithDoc(c, c'.row.doc), c');
  }

  lemma AutoRetryKeepsInv(c: Cell, l: LetterId, e: EventId, c': Cell)
    requires Core(c) && AutoRetry(c, l, e) == Some(c')
    ensures Keeps(c, c')
  {
    RowWriteKeepsInv(c, c'.row.doc);
    FrameKeepsInv(WithDoc(c, c'.row.doc), c');
  }

  lemma CleanupKeepsInv(c: Cell, c': Cell)
    requires Core(c) && Cleanup(c) == Some(c')
    ensures Keeps(c, c')
  {
  }

  lemma RemoveRowKeepsInv(c: Cell, q: nat, c': Cell)
    requires Core(c) && RemoveRow(c, q) == Some(c')
    ensures Keeps(c, c')
  {
  }

  // ---------- discard, batch and activation ----------

  lemma {:induction false} PendingIsWhatIsNotReusable(chunks: ChunkTable, reuse: bool, pieces: seq<string>, v: nat, from: nat)
    requires from <= |pieces|
    ensures var pending := PendingFrom(chunks, reuse, pieces, v, from);
            && Distinct(pending) && ValidBatch(pending, pieces)
            && forall i: nat :: i in pending <==> from <= i < |pieces| && !Reusable(chunks, reuse, pieces, v, i)
    decreases |pieces| - from
  {
    if from < |pieces| {
      PendingIsWhatIsNotReusable(chunks, reuse, pieces, v, from + 1);
    }
  }

  /** The unguarded discard keeps the active index exactly when it would not touch it. */
  lemma DiscardExact(c: Cell, t: Token, c': Cell)
    requires Inv(c) && DiscardStale(c, t) == Some(c')
    ensures WholeActive(c') <==> DiscardKeeps(c, t)
  {
    var p := c.workers[t].phase;
    var v := p.aim.value;
    assert c'.chunks == Kept(c.chunks, p.reuse, p.pieces, v);
    if c.row.Present? && c.row.doc.active == Some(v) {
      if WholeActive(c') {
        forall k | k in c.chunks && k.version == v
          ensures Reusable(c.chunks, p.reuse, p.pieces, v, k.seqNo)
        {
          assert ChunkKey(v, k.seqNo) in c'.chunks;
        }
      } else if DiscardKeeps(c, t) {
        assert forall k :: k in c.chunks && k.version == v ==> k in c'.chunks;
      }
    }
  }

  /** A worker that still holds its lease discards only above the active version. */
  lemma LeaseHolderDiscardKeeps(c: Cell, t: Token)
    requires Core(c) && HoldsLease(c, t)
    ensures DiscardKeeps(c, t)
  {
  }

  lemma DiscardStaleKeepsInv(c: Cell, t: Token, c': Cell)
    requires Core(c) && DiscardStale(c, t) == Some(c')
    ensures Core(c') && (WholeActive(c) && DiscardKeeps(c, t) ==> WholeActive(c'))
  {
    var p := c.workers[t].phase;
    var v := p.aim.value;
    if WholeActive(c) {
      DiscardExact(c, t, c');
    }
    PendingIsWhatIsNotReusable(c.chunks, p.reuse, p.pieces, v, 0);
    assert c'.chunks.Keys <= c.chunks.Keys;
    if HoldsLease(c, t) {
      forall k | k in c'.chunks && k.version == v
        ensures k.seqNo < |p.pieces| && c'.chunks[k].content == p.pieces[k.seqNo]
        ensures k.seqNo !in c'.workers[t].phase.pending
      {
      }
      assert BuildOk(c', c'.row.doc, c'.workers[t].phase);
    }
  }

  /** The chunks behind a batch: those of before, and new ones at the target from the pieces. */
  lemma BatchChunks(c: Cell, t: Token, size: nat, c': Cell)
    requires Core(c) && InsertBatch(c, t, size) == Some(c')
    ensures var p := c.workers[t].phase;
            && c'.workers[t].phase.Batching? && c'.workers[t].phase.pieces == p.pieces && c'.workers[t].phase.target == p.target
            && c.row.doc.target == Some(p.target) && c.row.doc.active != Some(p.target)
            && (forall k :: k in c.chunks ==> k in c'.chunks && c'.chunks[k] == c.chunks[k])
            && (forall k :: k in c'.chunks && k !in c.chunks ==>
                  k.version == p.target && k.seqNo in p.pending && k.seqNo !in c'.workers[t].phase.pending)
  {
    var p := c.workers[t].phase;
    var n := BatchSize(size, |p.pending|);
    assert BuildOk(c, c.row.doc, p);
    assert forall i :: i in p.pending[..n] ==> i !in p.pending[n..];
  }

  lemma BatchKeepsBuild(c: Cell, t: Token, size: nat, c': Cell)
    requires Core(c) && InsertBatch(c, t, size) == Some(c')
    ensures BuildOk(c', c'.row.doc, c'.workers[t].phase)
  {
    var p := c.workers[t].phase;
    var n := BatchSize(size, |p.pending|);
    BatchChunks(c, t, size, c');
    assert BuildOk(c, c.row.doc, p);
    assert forall i :: i in p.pending[n..] ==> i in p.pending;
  }

  lemma InsertBatchKeepsInv(c: Cell, t: Token, size: nat, c': Cell)
    requires Core(c) && InsertBatch(c, t, size) == Some(c')
    ensures Keeps(c, c')
  {
    BatchChunks(c, t, size, c');
    BatchKeepsBuild(c, t, size, c');
  }

  /** Pigeonhole: `|pieces|` chunks with sequence numbers below `|pieces|` are all of them. */
  lemma CountIsEnough(chunks: ChunkTable, pieces: seq<string>, v: nat)
    requires FromPieces(chunks, pieces, v) && |KeysAt(chunks, v)| == |pieces|
    ensures Whole(chunks, pieces, v)
  {
    var wanted := set i: nat | i < |pieces| :: ChunkKey(v, i);
    RangeSize(v, |pieces|);
    assert KeysAt(chunks, v) <= wanted;
    SubsetOfSameSize(KeysAt(chunks, v), wanted);
    forall i: nat | i < |pieces| ensures ChunkKey(v, i) in chunks {
      assert ChunkKey(v, i) in wanted;
    }
  }

  lemma {:induction false} RangeSize(v: nat, n: nat)
    ensures |set i: nat | i < n :: ChunkKey(v, i)| == n
  {
    var wanted := set i: nat | i < n :: ChunkKey(v, i);
    if n == 0 {
      assert wanted == {};
    } else {
      RangeSize(v, n - 1);
      assert wanted == (set i: nat | i < n - 1 :: ChunkKey(v, i)) + {ChunkKey(v, n - 1)};
    }
  }

  lemma SubsetOfSameSize<T>(a: set<T>, b: set<T>)
    requires a <= b && |a| == |b|
    ensures a == b
  {
    assert |b - a| == |b| - |a|;
  }

  lemma ActivateKeepsInv(c: Cell, t: Token, c': Cell)
    requires Core(c) && Activate(c, t) == Some(c')
    ensures Keeps(c, c')
  {
    var p := c.workers[t].phase;
    CountIsEnough(c.chunks, p.pieces, p.target);
  }

  // ---------- runs ----------

  predicate SafeLabel(c: Cell, l: Label) {
    l.ByWorker? && l.work.DoDiscardStale? ==> DiscardKeeps(c, l.work.t)
  }

  predicate FencedLabel(c: Cell, l: Label) {
    l.ByWorker? && l.work.DoDiscardStale? ==> HoldsLease(c, l.work.t)
  }

  /** No discard of the schedule touches the index that is active when it runs. */
  predicate SafeRun(c: Cell, ls: seq<Label>)
    decreases |ls|
  {
    ls != [] ==> SafeLabel(c, ls[0]) && (Step(c, ls[0]).Some? ==> SafeRun(Step(c, ls[0]).value, ls[1..]))
  }

  /** Every discard of the schedule is made by a worker that still holds its lease. */
  predicate FencedRun(c: Cell, ls: seq<Label>)
    decreases |ls|
  {
    ls != [] ==> FencedLabel(c, ls[0]) && (Step(c, ls[0]).Some? ==> FencedRun(Step(c, ls[0]).value, ls[1..]))
  }

  lemma UserStepKeepsInv(c: Cell, request: Request, c': Cell)
    requires Core(c) && StepUser(c, request) == Some(c')
    ensures Keeps(c, c')
  {
    match request
    case DoUpload(content, key, e) => UploadKeepsInv(c, content, key, e, c');
    case DoReplace(content, key, e) => ReplaceKeepsInv(c, content, key, e, c');
    case DoReindex(e) => ReindexKeepsInv(c, e, c');
    case DoCancel => CancelKeepsInv(c, c');
    case DoDelete(e) => DeleteKeepsInv(c, e, c');
    case DoDeleteKnowledgeBase(e) => DeleteKnowledgeBaseKeepsInv(c, e, c');
  }

  lemma AdminStepKeepsInv(c: Cell, triage: Triage, c': Cell)
    requires Core(c) && StepAdmin(c, triage) == Some(c')
    ensures Keeps(c, c')
  {
    match triage
    case DoResume(e) => ResumeKeepsInv(c, e, c');
    case DoReplayIngest(l, e) => ReplayIngestKeepsInv(c, l, e, c');
    case _ => FrameKeepsInv(c, c');
  }

  lemma WorkerStepKeepsInv(c: Cell, work: Work, c': Cell)
    requires Core(c) && StepWorker(c, work) == Some(c')
    ensures Core(c') && (WholeActive(c) && SafeLabel(c, ByWorker(work)) ==> WholeActive(c'))
  {
    match work
    case DoDeliver(retries, t, chunkConfig, model) => DeliverKeepsInv(c, retries, t, chunkConfig, model, c');
    case DoClaim(t) => ClaimKeepsInv(c, t, c');
    case DoSkipClaim(t) => SkipClaimKeepsInv(c, t, c');
    case DoPlanReuse(t) => PlanReuseKeepsInv(c, t, c');
    case DoRowVanished(t) => RowVanishedKeepsInv(c, t, c');
    case DoToChunking(t) => ToChunkingKeepsInv(c, t, c');
    case DoToEmbedding(t, pieces) => ToEmbeddingKeepsInv(c, t, pieces, c');
    case DoDiscardStale(t) => DiscardStaleKeepsInv(c, t, c');
    case DoInsertBatch(t, size) => InsertBatchKeepsInv(c, t, size, c');
    case DoToIndexing(t) => ToIndexingKeepsInv(c, t, c');
    case DoActivate(t) => ActivateKeepsInv(c, t, c');
    case DoLoseLease(t) => LoseLeaseKeepsInv(c, t, c');
    case DoFailAndRetry(t) => FailAndRetryKeepsInv(c, t, c');
    case DoFailTerminally(t, retryable, l) => FailTerminallyKeepsInv(c, t, retryable, l, c');
    case DoPublishRetry(t) => PublishRetryKeepsInv(c, t, c');
    case DoAcknowledge(t) => AcknowledgeKeepsInv(c, t, c');
    case DoCrash(t) => CrashKeepsInv(c, t, c');
    case DoKillAndAcknowledge(t) => KillAndAcknowledgeKeepsInv(c, t, c');
    case _ => FrameKeepsInv(c, c');
  }

  lemma DispatcherStepKeepsInv(c: Cell, outbox: Outbox, c': Cell)
    requires Core(c) && StepDispatcher(c, outbox) == Some(c')
    ensures Keeps(c, c')
  {
    match outbox
    case DoDispatchSent(p) => DispatchSentKeepsInv(c, p, c');
    case _ => FrameKeepsInv(c, c');
  }

  lemma MaintenanceStepKeepsInv(c: Cell, upkeep: Upkeep, c': Cell)
    requires Core(c) && StepMaintenance(c, upkeep) == Some(c')
    ensures Keeps(c, c')
  {
    match upkeep
    case DoReclaim(staleAfter, e) => ReclaimKeepsInv(c, staleAfter, e, c');
    case DoAutoRetry(l, e) => AutoRetryKeepsInv(c, l, e, c');
    case DoCleanup => CleanupKeepsInv(c, c');
    case _ => FrameKeepsInv(c, c');
  }

  lemma DeleterStepKeepsInv(c: Cell, removal: Removal, c': Cell)
    requires Core(c) && StepDeleter(c, removal) == Some(c')
    ensures Keeps(c, c')
  {
    match removal
    case DoRemoveRow(q) => RemoveRowKeepsInv(c, q, c');
    case _ => FrameKeepsInv(c, c');
  }

  lemma StepKeepsInv(c: Cell, l: Label, c': Cell)
    requires Core(c) && Step(c, l) == Some(c')
    ensures Core(c') && (WholeActive(c) && SafeLabel(c, l) ==> WholeActive(c'))
  {
    match l
    case ByUser(request) => UserStepKeepsInv(c, request, c');
    case ByAdmin(triage) => AdminStepKeepsInv(c, triage, c');
    case ByWorker(work) => WorkerStepKeepsInv(c, work, c');
    case ByDispatcher(outbox) => DispatcherStepKeepsInv(c, outbox, c');
    case ByMaintenance(upkeep) => MaintenanceStepKeepsInv(c, upkeep, c');
    case ByDeleter(removal) => DeleterStepKeepsInv(c, removal, c');
  }

  lemma {:induction false} RunKeepsCore(c: Cell, ls: seq<Label>, c': Cell)
    requires Core(c) && Exec(c, ls) == Some(c')
    ensures Core(c')
    decreases |ls|
  {
    if ls != [] {
      StepKeepsInv(c, ls[0], Step(c, ls[0]).value);
      RunKeepsCore(Step(c, ls[0]).value, ls[1..], c');
    }
  }

  lemma {:induction false} RunKeepsInv(c: Cell, ls: seq<Label>, c': Cell)
    requires Inv(c) && SafeRun(c, ls) && Exec(c, ls) == Some(c')
    ensures Inv(c')
    decreases |ls|
  {
    if ls != [] {
      StepKeepsInv(c, ls[0], Step(c, ls[0]).value);
      RunKeepsInv(Step(c, ls[0]).value, ls[1..], c');
    }
  }

  lemma {:induction false} FencedRunIsSafe(c: Cell, ls: seq<Label>)
    requires Core(c) && FencedRun(c, ls)
    ensures SafeRun(c, ls)
    decreases |ls|
  {
    if ls != [] {
      if !SafeLabel(c, ls[0]) {
        LeaseHolderDiscardKeeps(c, ls[0].work.t);
      }
      if Step(c, ls[0]).Some? {
        StepKeepsInv(c, ls[0], Step(c, ls[0]).value);
        FencedRunIsSafe(Step(c, ls[0]).value, ls[1..]);
      }
    }
  }

  /** Any schedule of any number of workers whose discards are made under a lease. */
  lemma ActiveIndexIsWhole(config: Config, clock: int, ls: seq<Label>, c: Cell)
    requires Exec(Initial(config, clock), ls) == Some(c) && FencedRun(Initial(config, clock), ls)
    ensures Inv(c)
  {
    FencedRunIsSafe(Initial(config, clock), ls);
    RunKeepsInv(Initial(config, clock), ls, c);
  }

  /** Whatever the schedule: the target is none or one above the active version, no chunk lies above
      that, and what a lease holder has loaded as its target is still the row's. */
  lemma VersionsAreConsistent(config: Config, clock: int, ls: seq<Label>, c: Cell)
    requires Exec(Initial(config, clock), ls) == Some(c) && c.row.Present?
    ensures c.row.doc.target.None? || c.row.doc.target == Some(Base(c.row.doc) + 1)
    ensures forall k :: k in c.chunks ==> k.version <= Base(c.row.doc) + 1
    ensures forall t :: t in c.workers && HoldsLease(c, t) ==>
              match c.workers[t].phase
              case Planned(_, aim) => c.row.doc.target == aim
              case Splitting(_, aim) => c.row.doc.target == aim
              case Split(_, _, aim) => c.row.doc.target == aim
              case Batching(_, v, _) => c.row.doc.target == Some(v)
              case Counting(_, v) => c.row.doc.target == Some(v)
              case _ => true
  {
    RunKeepsCore(Initial(config, clock), ls, c);
    forall t | t in c.workers && HoldsLease(c, t) ensures BuildOk(c, c.row.doc, c.workers[t].phase) {
    }
  }
}
