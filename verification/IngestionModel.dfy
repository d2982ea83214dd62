/** The document-ingestion protocol: one `documents` row with everything that acts on it.

    A `Cell` holds the row, its versioned chunks, its outbox events, its dead letters, the broker
    messages addressed to it, the stored object, and the local state of every process that is
    handling it. Each function from `Cell` to `Option<Cell>` is one committed transaction (or one
    broker or storage effect between two transactions) of one process, one function for each outcome
    of that transaction; `None` means that the process cannot take that step now. `Step` dispatches on a
    `Label`, `Exec` runs a schedule. */
module Ingestion {
  import opened Wrappers

  type Token = nat
  type EventId = nat
  type LetterId = nat
  type ObjectKey = nat

  const INGEST_MAX_RETRIES: nat := 3

  /** `deleted` is never committed: the transaction that writes it also removes the row. */
  datatype Status =
    | Uploaded | Queued | Parsing | Chunking | Embedding | Indexing
    | Ready | Retrying | Failed | Cancelled | Deleting

  /** What the SHA-256 pipeline fingerprint identifies, with a collision-free hash. */
  datatype Fingerprint = Fingerprint(content: nat, chunkConfig: nat, model: nat)

  /** The embedding model is a deterministic encoder: same model and text, same vector. */
  datatype Vector = Encode(model: nat, text: string)

  datatype Chunk = Chunk(content: string, vector: Vector)

  /** The unique key (document, seq, index_version) of a chunk of this document. */
  datatype ChunkKey = ChunkKey(version: nat, seqNo: nat)

  type ChunkTable = map<ChunkKey, Chunk>

  /** `split` and `built` are history variables: the pieces and the fingerprint of the attempt that
      activated the current index. */
  datatype Document = Document(
    status: Status,
    token: Option<Token>,
    heartbeat: Option<int>,
    content: nat,
    objectKey: ObjectKey,
    fingerprint: Option<Fingerprint>,
    active: Option<nat>,
    target: Option<nat>,
    chunkCount: nat,
    split: seq<string>,
    built: Option<Fingerprint>)

  datatype Row = Unborn | Present(doc: Document) | Gone

  /** `hasDocument` is false for a payload written by the deletion of a whole knowledge base. */
  datatype Payload = Payload(keys: seq<ObjectKey>, hasDocument: bool)

  datatype EventKind = IngestRequested | DeleteRequested(payload: Payload)
  datatype EventStatus = Pending | Publishing | Sent | Parked

  /** `published` and `failures` are history variables: some dispatcher handed this event to the
      broker; so many attempts to do so have failed. */
  datatype Event = Event(
    kind: EventKind, status: EventStatus, retries: nat, nextRetry: int, published: bool, failures: nat)

  datatype LetterSource = FromIngest | FromOutbox(event: EventId) | FromCleanup(payload: Payload)
  datatype LetterStatus = Open | Replayed | Discarded
  datatype Letter = Letter(source: LetterSource, status: LetterStatus)

  /** Where one execution of `ingest_document` stands between its transactions. `aim` is the target
      version in the row as its session has loaded it. */
  datatype Phase =
    | Started
    | Leased
    | Planned(reuse: bool, aim: Option<nat>)
    | Splitting(reuse: bool, aim: Option<nat>)
    | Split(reuse: bool, pieces: seq<string>, aim: Option<nat>)
    | Batching(pieces: seq<string>, target: nat, pending: seq<nat>)
    | Counting(pieces: seq<string>, target: nat)
    | MustRetry
    | Finished

  /** `content` is that of the row as the session has loaded it after the claim, and 0 before. */
  datatype Worker = Worker(retries: nat, chunkConfig: nat, model: nat, content: nat, phase: Phase)

  /** A dispatcher whose session has read `event` as publishing, with `read` retries, and has not yet
      committed the outcome. */
  datatype Dispatch = Dispatch(event: EventId, read: nat, published: bool)

  datatype DeleteMessage = DeleteMessage(payload: Payload, retries: nat)
  datatype DeleteTask = DeleteTask(message: DeleteMessage, remaining: seq<ObjectKey>)

  datatype Config = Config(outboxMaxRetries: int, outboxBaseRetry: nat, deleteMaxRetries: int)

  datatype Cell = Cell(
    config: Config,
    clock: int,
    row: Row,
    chunks: ChunkTable,
    events: map<EventId, Event>,
    letters: map<LetterId, Letter>,
    inbox: multiset<nat>,
    workers: map<Token, Worker>,
    used: set<Token>,
    dispatchers: map<nat, Dispatch>,
    deleteInbox: multiset<DeleteMessage>,
    deleteTasks: map<nat, DeleteTask>,
    stored: set<ObjectKey>,
    everStored: set<ObjectKey>)

  function Initial(config: Config, clock: int): Cell {
    Cell(config, clock, Unborn, map[], map[], map[], multiset{}, map[], {}, map[], multiset{}, map[], {}, {})
  }

  // ---------- vocabulary ----------

  predicate Claimable(status: Status) {
    status == Uploaded || status == Queued || status == Retrying
  }

  predicate Working(status: Status) {
    status == Parsing || status == Chunking || status == Embedding || status == Indexing
  }

  predicate Cancellable(status: Status) {
    Claimable(status) || Working(status)
  }

  /** `active_index_version or 0` */
  function Base(d: Document): nat {
    if d.active.Some? then d.active.value else 0
  }

  function TargetOrNext(d: Document): Option<nat> {
    if d.target.Some? then d.target else Some(Base(d) + 1)
  }

  predicate HoldsLease(c: Cell, t: Token) {
    c.row.Present? && c.row.doc.token == Some(t)
  }

  predicate HasStatus(c: Cell, status: Status) {
    c.row.Present? && c.row.doc.status == status
  }

  predicate InPhase(c: Cell, t: Token, p: Phase) {
    t in c.workers && c.workers[t].phase == p
  }

  function WithDoc(c: Cell, d: Document): Cell {
    c.(row := Present(d))
  }

  function MoveTo(c: Cell, t: Token, p: Phase): Cell
    requires t in c.workers
  {
    c.(workers := c.workers[t := c.workers[t].(phase := p)])
  }

  function NewEvent(kind: EventKind, clock: int): Event {
    Event(kind, Pending, 0, clock, false, 0)
  }

  function Enqueue(c: Cell, e: EventId, kind: EventKind): Cell {
    c.(events := c.events[e := NewEvent(kind, c.clock)])
  }

  function Park(c: Cell, l: LetterId, source: LetterSource): Cell {
    c.(letters := c.letters[l := Letter(source, Open)])
  }

  function Resolve(c: Cell, l: LetterId, status: LetterStatus): Cell
    requires l in c.letters
  {
    c.(letters := c.letters[l := c.letters[l].(status := status)])
  }

  /** The row as every re-queueing transaction that releases the lease leaves it. */
  function Requeued(d: Document): Document {
    d.(status := Queued, token := None, target := TargetOrNext(d))
  }

  // ---------- API requests ----------

  function NewDocument(content: nat, key: ObjectKey): Document {
    Document(Uploaded, None, None, content, key, None, None, None, 0, [], None)
  }

  function Upload(c: Cell, content: nat, key: ObjectKey, e: EventId): Option<Cell> {
    if c.row.Unborn? && e !in c.events && key !in c.everStored then
      Some(Enqueue(Store(WithDoc(c, NewDocument(content, key)), key), e, IngestRequested))
    else None
  }

  function Store(c: Cell, key: ObjectKey): Cell {
    c.(stored := c.stored + {key}, everStored := c.everStored + {key})
  }

  /** Points the row at new content. The processing token is not cleared. */
  function Replace(c: Cell, content: nat, key: ObjectKey, e: EventId): Option<Cell> {
    if c.row.Present? && c.row.doc.status != Deleting && e !in c.events && key !in c.everStored then
      var d := c.row.doc;
      var d' := d.(content := content, objectKey := key, status := Queued, target := Some(Base(d) + 1));
      Some(Enqueue(Store(WithDoc(c, d'), key), e, IngestRequested))
    else None
  }

  function Reindex(c: Cell, e: EventId): Option<Cell> {
    if (HasStatus(c, Ready) || HasStatus(c, Failed)) && e !in c.events then
      var d := c.row.doc;
      Some(Enqueue(WithDoc(c, d.(status := Queued, target := Some(Base(d) + 1))), e, IngestRequested))
    else None
  }

  function Cancel(c: Cell): Option<Cell> {
    if c.row.Present? && Cancellable(c.row.doc.status) then
      Some(WithDoc(c, c.row.doc.(status := Cancelled, token := None)))
    else None
  }

  function Resume(c: Cell, e: EventId): Option<Cell> {
    if (HasStatus(c, Failed) || HasStatus(c, Retrying) || HasStatus(c, Cancelled)) && e !in c.events then
      Some(Enqueue(WithDoc(c, Requeued(c.row.doc)), e, IngestRequested))
    else None
  }

  function Delete(c: Cell, e: EventId): Option<Cell> {
    if c.row.Present? && e !in c.events then
      var d := c.row.doc;
      Some(Enqueue(WithDoc(c, d.(status := Deleting, token := None)), e,
                   DeleteRequested(Payload([d.objectKey], true))))
    else None
  }

  /** Deleting the knowledge base removes the row and, by cascade, its chunks at once. */
  function DeleteKnowledgeBase(c: Cell, e: EventId): Option<Cell> {
    if c.row.Present? && e !in c.events then
      Some(Enqueue(c.(row := Gone, chunks := map[]), e,
                   DeleteRequested(Payload([c.row.doc.objectKey], false))))
    else None
  }

  // ---------- dead letters ----------

  predicate OpenLetter(c: Cell, l: LetterId) {
    l in c.letters && c.letters[l].status == Open
  }

  /** An administrator replays a failed ingestion; the status of the row is not looked at. */
  function ReplayIngest(c: Cell, l: LetterId, e: EventId): Option<Cell> {
    if OpenLetter(c, l) && c.letters[l].source.FromIngest? && c.row.Present? && e !in c.events
    then Some(Resolve(Enqueue(WithDoc(c, Requeued(c.row.doc)), e, IngestRequested), l, Replayed))
    else None
  }

  /** The retry count of the parked event is not reset. */
  function ReplayOutbox(c: Cell, l: LetterId): Option<Cell> {
    if OpenLetter(c, l) && c.letters[l].source.FromOutbox? && c.letters[l].source.event in c.events then
      var e := c.letters[l].source.event;
      Some(Resolve(c.(events := c.events[e := c.events[e].(status := Pending, nextRetry := c.clock)]), l, Replayed))
    else None
  }

  /** Both the administrator's replay and the periodic retry re-enqueue the same payload. */
  function ReplayCleanup(c: Cell, l: LetterId, e: EventId): Option<Cell> {
    if OpenLetter(c, l) && c.letters[l].source.FromCleanup? && e !in c.events
    then Some(Resolve(Enqueue(c, e, DeleteRequested(c.letters[l].source.payload)), l, Replayed))
    else None
  }

  function DiscardLetter(c: Cell, l: LetterId): Option<Cell> {
    if OpenLetter(c, l) then Some(Resolve(c, l, Discarded)) else None
  }

  /** The periodic `retry_pending_dead_letters` re-queues failed and retrying documents only. */
  function AutoRetry(c: Cell, l: LetterId, e: EventId): Option<Cell> {
    if OpenLetter(c, l) && c.letters[l].source.FromIngest? && e !in c.events
       && (HasStatus(c, Failed) || HasStatus(c, Retrying))
    then Some(Resolve(Enqueue(WithDoc(c, Requeued(c.row.doc)), e, IngestRequested), l, Replayed))
    else None
  }

  function AutoDiscard(c: Cell, l: LetterId): Option<Cell> {
    if OpenLetter(c, l) && c.letters[l].source.FromIngest?
       && !HasStatus(c, Failed) && !HasStatus(c, Retrying)
    then Some(Resolve(c, l, Discarded))
    else None
  }

  // ---------- the ingestion worker ----------

  /** The broker hands a message to a worker, which draws a fresh token. */
  function Deliver(c: Cell, retries: nat, t: Token, chunkConfig: nat, model: nat): Option<Cell> {
    if retries in c.inbox && t !in c.used then
      Some(c.(inbox := c.inbox - multiset{retries}, used := c.used + {t},
              workers := c.workers[t := Worker(retries, chunkConfig, model, 0, Started)]))
    else None
  }

  predicate RowIsClaimable(c: Cell) {
    c.row.Present? && Claimable(c.row.doc.status)
  }

  function Claim(c: Cell, t: Token): Option<Cell> {
    if InPhase(c, t, Started) && RowIsClaimable(c) then
      var d := c.row.doc.(status := Parsing, token := Some(t), heartbeat := Some(c.clock),
                          target := TargetOrNext(c.row.doc));
      Some(MoveTo(WithDoc(c, d), t, Leased))
    else None
  }

  function SkipClaim(c: Cell, t: Token): Option<Cell> {
    if InPhase(c, t, Started) && !RowIsClaimable(c) then Some(MoveTo(c, t, Finished)) else None
  }

  function PrintOf(w: Worker): Fingerprint {
    Fingerprint(w.content, w.chunkConfig, w.model)
  }

  /** The fingerprint is written under the token; writing an equal one changes nothing. */
  function Stamped(d: Document, t: Token, wanted: Fingerprint): Document {
    if d.token == Some(t) then d.(fingerprint := Some(wanted)) else d
  }

  /** The session loads the row here, once: it does not expire on commit, so content, object key and
      target stay as they were. The fingerprint is stored before any chunk of another fingerprint is
      discarded. */
  function PlanReuse(c: Cell, t: Token): Option<Cell> {
    if InPhase(c, t, Leased) && c.row.Present? then
      var d := c.row.doc;
      var w := c.workers[t].(content := d.content);
      var planned := w.(phase := Planned(d.fingerprint == Some(PrintOf(w)), d.target));
      Some(WithDoc(c, Stamped(d, t, PrintOf(w))).(workers := c.workers[t := planned]))
    else None
  }

  /** The row was deleted right after the claim. */
  function RowVanished(c: Cell, t: Token): Option<Cell> {
    if InPhase(c, t, Leased) && !c.row.Present? then Some(MoveTo(c, t, Finished)) else None
  }

  function Staged(d: Document, status: Status, clock: int): Document {
    d.(status := status, heartbeat := Some(clock))
  }

  function ToChunking(c: Cell, t: Token): Option<Cell> {
    if t in c.workers && c.workers[t].phase.Planned? && HoldsLease(c, t) then
      var p := c.workers[t].phase;
      Some(MoveTo(WithDoc(c, Staged(c.row.doc, Chunking, c.clock)), t, Splitting(p.reuse, p.aim)))
    else None
  }

  /** `pieces` is whatever the splitter returned; an empty split never gets here. */
  function ToEmbedding(c: Cell, t: Token, pieces: seq<string>): Option<Cell> {
    if t in c.workers && c.workers[t].phase.Splitting? && HoldsLease(c, t) && pieces != [] then
      var p := c.workers[t].phase;
      Some(MoveTo(WithDoc(c, Staged(c.row.doc, Embedding, c.clock)), t, Split(p.reuse, pieces, p.aim)))
    else None
  }

  /** A token-guarded write of this phase would find that the lease is lost. */
  predicate LeaseIsLost(c: Cell, t: Token)
    requires t in c.workers
  {
    match c.workers[t].phase
    case Planned(_, _) => !HoldsLease(c, t)
    case Splitting(_, _) => !HoldsLease(c, t)
    case Batching(_, _, _) => !HoldsLease(c, t)
    case Counting(pieces, v) => |KeysAt(c.chunks, v)| == |pieces| && !(HoldsLease(c, t) && c.row.doc.status == Indexing)
    case _ => false
  }

  /** `LeaseLostError`: the transaction is rolled back and the attempt ends. */
  function LoseLease(c: Cell, t: Token): Option<Cell> {
    if t in c.workers && LeaseIsLost(c, t) then Some(MoveTo(c, t, Finished)) else None
  }

  predicate Reusable(chunks: ChunkTable, reuse: bool, pieces: seq<string>, v: nat, seqNo: nat) {
    && reuse
    && seqNo < |pieces|
    && ChunkKey(v, seqNo) in chunks
    && chunks[ChunkKey(v, seqNo)].content == pieces[seqNo]
  }

  function Kept(chunks: ChunkTable, reuse: bool, pieces: seq<string>, v: nat): ChunkTable {
    map k | k in chunks && (k.version != v || Reusable(chunks, reuse, pieces, v, k.seqNo)) :: chunks[k]
  }

  /** The sequence numbers from `from` on that still have to be embedded, in order. */
  function PendingFrom(chunks: ChunkTable, reuse: bool, pieces: seq<string>, v: nat, from: nat): seq<nat>
    requires from <= |pieces|
    decreases |pieces| - from
  {
    if from == |pieces| then []
    else if Reusable(chunks, reuse, pieces, v, from) then PendingFrom(chunks, reuse, pieces, v, from + 1)
    else [from] + PendingFrom(chunks, reuse, pieces, v, from + 1)
  }

  /** The discard of stale chunks at the target loaded after the claim: nothing guards it by the
      token. Without a target the attempt takes the failure path. */
  function DiscardStale(c: Cell, t: Token): Option<Cell> {
    if t in c.workers && c.workers[t].phase.Split? && c.workers[t].phase.aim.Some? then
      var p := c.workers[t].phase;
      var v := p.aim.value;
      var pending := PendingFrom(c.chunks, p.reuse, p.pieces, v, 0);
      Some(MoveTo(c.(chunks := Kept(c.chunks, p.reuse, p.pieces, v)), t, Batching(p.pieces, v, pending)))
    else None
  }

  predicate ValidBatch(batch: seq<nat>, pieces: seq<string>) {
    forall i :: 0 <= i < |batch| ==> batch[i] < |pieces|
  }

  /** One embedded batch: every listed sequence number gets its chunk at version `v`. */
  function InsertChunks(chunks: ChunkTable, batch: seq<nat>, pieces: seq<string>, v: nat, model: nat): ChunkTable
    requires ValidBatch(batch, pieces)
  {
    chunks + map k: ChunkKey | k in BatchKeys(batch, v)
               :: Chunk(pieces[k.seqNo], Encode(model, pieces[k.seqNo]))
  }

  function BatchKeys(batch: seq<nat>, v: nat): (keys: set<ChunkKey>)
    ensures forall k :: k in keys <==> k.version == v && k.seqNo in batch
  {
    set s | s in batch :: ChunkKey(v, s)
  }

  function BatchSize(size: nat, pending: nat): nat {
    if size < pending then size else pending
  }

  /** Chunks and heartbeat commit together; a duplicate key takes the failure path. */
  function InsertBatch(c: Cell, t: Token, size: nat): Option<Cell> {
    if t in c.workers && c.workers[t].phase.Batching? && 0 < size && HoldsLease(c, t) then
      var p := c.workers[t].phase;
      var n := BatchSize(size, |p.pending|);
      var batch := p.pending[..n];
      if batch == [] || !ValidBatch(batch, p.pieces) || BatchKeys(batch, p.target) * c.chunks.Keys != {} then None
      else
        var chunks := InsertChunks(c.chunks, batch, p.pieces, p.target, c.workers[t].model);
        Some(MoveTo(WithDoc(c, c.row.doc.(heartbeat := Some(c.clock))).(chunks := chunks), t,
                    Batching(p.pieces, p.target, p.pending[n..])))
    else None
  }

  function ToIndexing(c: Cell, t: Token): Option<Cell> {
    if t in c.workers && c.workers[t].phase.Batching? && c.workers[t].phase.pending == [] && HoldsLease(c, t) then
      var p := c.workers[t].phase;
      Some(MoveTo(WithDoc(c, Staged(c.row.doc, Indexing, c.clock)), t, Counting(p.pieces, p.target)))
    else None
  }

  function KeysAt(chunks: ChunkTable, v: nat): set<ChunkKey> {
    set k | k in chunks && k.version == v
  }

  function Activated(d: Document, built: Fingerprint, pieces: seq<string>, v: nat, clock: int): Document {
    d.(status := Ready, active := Some(v), target := None, fingerprint := None, chunkCount := |pieces|,
       token := None, heartbeat := Some(clock), split := pieces, built := Some(built))
  }

  /** Count check and activation share a transaction; a wrong count takes the failure path. */
  function Activate(c: Cell, t: Token): Option<Cell> {
    if t in c.workers && c.workers[t].phase.Counting? && HoldsLease(c, t) && c.row.doc.status == Indexing then
      var p := c.workers[t].phase;
      if |KeysAt(c.chunks, p.target)| == |p.pieces|
      then Some(MoveTo(WithDoc(c, Activated(c.row.doc, PrintOf(c.workers[t]), p.pieces, p.target, c.clock)), t, Finished))
      else None
    else None
  }

  /** Phases inside the try block, where any exception takes the failure path. */
  predicate CanFail(p: Phase) {
    p.Planned? || p.Splitting? || p.Split? || p.Batching? || p.Counting?
  }

  /** The failure write is guarded by the token. */
  function FailedRow(row: Row, t: Token, status: Status, clock: int): Row {
    match row
    case Present(d) =>
      if d.token == Some(t) then Present(d.(status := status, token := None, heartbeat := Some(clock))) else row
    case _ => row
  }

  /** A retryable failure with retries left; `retryable` failures without any go to `FailTerminally`. */
  function FailAndRetry(c: Cell, t: Token): Option<Cell> {
    if t in c.workers && CanFail(c.workers[t].phase) && c.workers[t].retries < INGEST_MAX_RETRIES
    then Some(MoveTo(c.(row := FailedRow(c.row, t, Retrying, c.clock)), t, MustRetry))
    else None
  }

  function ParkedLetters(c: Cell, l: LetterId): map<LetterId, Letter> {
    if c.row.Present? then c.letters[l := Letter(FromIngest, Open)] else c.letters
  }

  /** The dead letter asks only for the row's existence, not for the lease. */
  function FailTerminally(c: Cell, t: Token, retryable: bool, l: LetterId): Option<Cell> {
    if t in c.workers && CanFail(c.workers[t].phase) && l !in c.letters
       && (retryable ==> c.workers[t].retries >= INGEST_MAX_RETRIES)
    then Some(MoveTo(c.(row := FailedRow(c.row, t, Failed, c.clock), letters := ParkedLetters(c, l)), t, Finished))
    else None
  }

  function PublishRetry(c: Cell, t: Token): Option<Cell> {
    if InPhase(c, t, MustRetry)
    then Some(MoveTo(c.(inbox := c.inbox + multiset{c.workers[t].retries + 1}), t, Finished))
    else None
  }

  /** The finished task acknowledges its message. */
  function Acknowledge(c: Cell, t: Token): Option<Cell> {
    if InPhase(c, t, Finished) then Some(c.(workers := c.workers - {t})) else None
  }

  /** The worker dies; the broker still owns the message and delivers it again. */
  function Crash(c: Cell, t: Token): Option<Cell> {
    if t in c.workers then
      Some(c.(inbox := c.inbox + multiset{c.workers[t].retries}, workers := c.workers - {t}))
    else None
  }

  /** The hard time limit kills a worker, or an exception leaves it outside of the try block: its
      message is acknowledged all the same. */
  function KillAndAcknowledge(c: Cell, t: Token): Option<Cell> {
    if t in c.workers then Some(c.(workers := c.workers - {t})) else None
  }

  /** At-least-once delivery: a message that exists may be delivered once more. */
  function Duplicate(c: Cell, retries: nat): Option<Cell> {
    if retries in c.inbox || (exists t :: t in c.workers && c.workers[t].retries == retries)
    then Some(c.(inbox := c.inbox + multiset{retries}))
    else None
  }

  // ---------- the outbox dispatcher ----------

  /** `_backoff`, in seconds. */
  function Backoff(base: nat, retryCount: nat): nat {
    var delay := base * Pow2(if retryCount == 0 then 0 else retryCount - 1);
    if delay < 300 then delay else 300
  }

  function Pow2(n: nat): nat {
    if n == 0 then 1 else 2 * Pow2(n - 1)
  }

  function DispatchClaim(c: Cell, e: EventId): Option<Cell> {
    if e in c.events && (c.events[e].status == Pending || c.events[e].status == Publishing)
       && c.events[e].nextRetry <= c.clock
    then Some(c.(events := c.events[e := c.events[e].(status := Publishing, nextRetry := c.clock + 60)]))
    else None
  }

  function DispatchRead(c: Cell, p: nat, e: EventId): Option<Cell> {
    if p !in c.dispatchers && e in c.events && c.events[e].status == Publishing
    then Some(c.(dispatchers := c.dispatchers[p := Dispatch(e, c.events[e].retries, false)]))
    else None
  }

  /** The dispatcher has read an event and may hand it to the broker. */
  predicate MayPublish(c: Cell, p: nat) {
    p in c.dispatchers && !c.dispatchers[p].published && c.dispatchers[p].event in c.events
  }

  function MarkPublished(c: Cell, p: nat): Cell
    requires MayPublish(c, p)
  {
    var e := c.dispatchers[p].event;
    c.(dispatchers := c.dispatchers[p := c.dispatchers[p].(published := true)],
       events := c.events[e := c.events[e].(published := true)])
  }

  function PublishIngest(c: Cell, p: nat): Option<Cell> {
    if MayPublish(c, p) && c.events[c.dispatchers[p].event].kind.IngestRequested?
    then Some(MarkPublished(c, p).(inbox := c.inbox + multiset{0}))
    else None
  }

  function PublishDelete(c: Cell, p: nat): Option<Cell> {
    if MayPublish(c, p) && c.events[c.dispatchers[p].event].kind.DeleteRequested? then
      var m := DeleteMessage(c.events[c.dispatchers[p].event].kind.payload, 0);
      Some(MarkPublished(c, p).(deleteInbox := c.deleteInbox + multiset{m}))
    else None
  }

  function QueuedIfUploaded(row: Row, kind: EventKind): Row {
    match row
    case Present(d) =>
      if kind.IngestRequested? && d.status == Uploaded then Present(d.(status := Queued)) else row
    case _ => row
  }

  function DispatchSent(c: Cell, p: nat): Option<Cell> {
    if p in c.dispatchers && c.dispatchers[p].published && c.dispatchers[p].event in c.events then
      var e := c.dispatchers[p].event;
      Some(c.(dispatchers := c.dispatchers - {p},
              events := c.events[e := c.events[e].(status := Sent)],
              row := QueuedIfUploaded(c.row, c.events[e].kind)))
    else None
  }

  /** One failed attempt: back to pending with a delay, or parked once the budget is spent. The new
      count is computed from the count that the session has read, not from the stored one. */
  function FailedAttempt(ev: Event, read: nat, config: Config, clock: int): Event {
    var retries := read + 1;
    ev.(retries := retries,
        status := if retries >= config.outboxMaxRetries then Parked else Pending,
        nextRetry := clock + Backoff(config.outboxBaseRetry, retries),
        failures := ev.failures + 1)
  }

  /** The transaction of a failed publish, before the dead letter of a parked event. */
  function AfterFailedAttempt(c: Cell, p: nat): Cell
    requires p in c.dispatchers && c.dispatchers[p].event in c.events
  {
    var e := c.dispatchers[p].event;
    c.(dispatchers := c.dispatchers - {p},
       events := c.events[e := FailedAttempt(c.events[e], c.dispatchers[p].read, c.config, c.clock)])
  }

  predicate LastAttempt(c: Cell, p: nat)
    requires p in c.dispatchers
  {
    c.dispatchers[p].read + 1 >= c.config.outboxMaxRetries
  }

  function DispatchBackOff(c: Cell, p: nat): Option<Cell> {
    if p in c.dispatchers && c.dispatchers[p].event in c.events && !LastAttempt(c, p)
    then Some(AfterFailedAttempt(c, p))
    else None
  }

  function DispatchPark(c: Cell, p: nat, l: LetterId): Option<Cell> {
    if p in c.dispatchers && c.dispatchers[p].event in c.events && LastAttempt(c, p) && l !in c.letters
    then Some(Park(AfterFailedAttempt(c, p), l, FromOutbox(c.dispatchers[p].event)))
    else None
  }

  function DispatchDie(c: Cell, p: nat): Option<Cell> {
    if p in c.dispatchers then Some(c.(dispatchers := c.dispatchers - {p})) else None
  }

  // ---------- maintenance ----------

  function Reclaim(c: Cell, staleAfter: nat, e: EventId): Option<Cell> {
    if c.row.Present? && Working(c.row.doc.status) && c.row.doc.heartbeat.Some?
       && c.row.doc.heartbeat.value < c.clock - staleAfter && e !in c.events
    then Some(Enqueue(WithDoc(c, c.row.doc.(status := Retrying, token := None)), e, IngestRequested))
    else None
  }

  function Cleanup(c: Cell): Option<Cell> {
    if c.row.Present? && c.row.doc.active.Some? then
      Some(c.(chunks := map k | k in c.chunks && k.version == c.row.doc.active.value :: c.chunks[k]))
    else None
  }

  /** The sweep of stored objects that no row refers to, and the best-effort delete after a replace. */
  function SweepOrphan(c: Cell, key: ObjectKey): Option<Cell> {
    if key in c.stored && !(c.row.Present? && c.row.doc.objectKey == key)
    then Some(c.(stored := c.stored - {key}))
    else None
  }

  // ---------- the delete_resources task ----------

  function DeleteDeliver(c: Cell, m: DeleteMessage, q: nat): Option<Cell> {
    if m in c.deleteInbox && q !in c.deleteTasks then
      Some(c.(deleteInbox := c.deleteInbox - multiset{m},
              deleteTasks := c.deleteTasks[q := DeleteTask(m, m.payload.keys)]))
    else None
  }

  function DeleteObject(c: Cell, q: nat): Option<Cell> {
    if q in c.deleteTasks && c.deleteTasks[q].remaining != [] then
      var task := c.deleteTasks[q];
      Some(c.(stored := c.stored - {task.remaining[0]},
              deleteTasks := c.deleteTasks[q := task.(remaining := task.remaining[1..])]))
    else None
  }

  /** Storage refused a key: the task is retried from the first key. */
  function DeleteRetry(c: Cell, q: nat): Option<Cell> {
    if q in c.deleteTasks && c.deleteTasks[q].remaining != []
       && c.deleteTasks[q].message.retries < c.config.deleteMaxRetries then
      var m := c.deleteTasks[q].message;
      Some(c.(deleteTasks := c.deleteTasks - {q},
              deleteInbox := c.deleteInbox + multiset{DeleteMessage(m.payload, m.retries + 1)}))
    else None
  }

  function DeletePark(c: Cell, q: nat, l: LetterId): Option<Cell> {
    if q in c.deleteTasks && c.deleteTasks[q].remaining != [] && l !in c.letters
       && c.deleteTasks[q].message.retries >= c.config.deleteMaxRetries
    then Some(Park(c.(deleteTasks := c.deleteTasks - {q}), l, FromCleanup(c.deleteTasks[q].message.payload)))
    else None
  }

  /** Every key of the payload is gone and the task looks at the row. */
  predicate RemovesRow(c: Cell, q: nat) {
    && q in c.deleteTasks && c.deleteTasks[q].remaining == []
    && c.deleteTasks[q].message.payload.hasDocument && HasStatus(c, Deleting)
  }

  function RemoveRow(c: Cell, q: nat): Option<Cell> {
    if RemovesRow(c, q)
    then Some(c.(row := Gone, chunks := map[], deleteTasks := c.deleteTasks - {q}))
    else None
  }

  function DeleteDone(c: Cell, q: nat): Option<Cell> {
    if q in c.deleteTasks && c.deleteTasks[q].remaining == [] && !RemovesRow(c, q)
    then Some(c.(deleteTasks := c.deleteTasks - {q}))
    else None
  }

  function DeleteCrash(c: Cell, q: nat): Option<Cell> {
    if q in c.deleteTasks then
      Some(c.(deleteTasks := c.deleteTasks - {q},
              deleteInbox := c.deleteInbox + multiset{c.deleteTasks[q].message}))
    else None
  }

  /** The hard time limit kills the task and its message is acknowledged all the same. */
  function DeleteKill(c: Cell, q: nat): Option<Cell> {
    if q in c.deleteTasks then Some(c.(deleteTasks := c.deleteTasks - {q})) else None
  }

  function Tick(c: Cell, now: int): Option<Cell> {
    if c.clock <= now then Some(c.(clock := now)) else None
  }

  // ---------- schedules ----------

  datatype Request =
    | DoUpload(content: nat, key: ObjectKey, e: EventId)
    | DoReplace(content: nat, key: ObjectKey, e: EventId)
    | DoReindex(e: EventId)
    | DoCancel
    | DoDelete(e: EventId)
    | DoDeleteKnowledgeBase(e: EventId)

  datatype Triage =
    | DoResume(e: EventId)
    | DoReplayIngest(l: LetterId, e: EventId)
    | DoReplayOutbox(l: LetterId)
    | DoReplayCleanup(l: LetterId, e: EventId)
    | DoDiscardLetter(l: LetterId)

  datatype Work =
    | DoDeliver(retries: nat, t: Token, chunkConfig: nat, model: nat)
    | DoClaim(t: Token)
    | DoSkipClaim(t: Token)
    | DoPlanReuse(t: Token)
    | DoRowVanished(t: Token)
    | DoToChunking(t: Token)
    | DoToEmbedding(t: Token, pieces: seq<string>)
    | DoDiscardStale(t: Token)
    | DoInsertBatch(t: Token, size: nat)
    | DoToIndexing(t: Token)
    | DoActivate(t: Token)
    | DoLoseLease(t: Token)
    | DoFailAndRetry(t: Token)
    | DoFailTerminally(t: Token, retryable: bool, l: LetterId)
    | DoPublishRetry(t: Token)
    | DoAcknowledge(t: Token)
    | DoCrash(t: Token)
    | DoKillAndAcknowledge(t: Token)
    | DoDuplicate(retries: nat)

  /** The first half of an attempt; large case analyses take the halves one at a time. */
  predicate IsEarly(work: Work) {
    work.DoDeliver? || work.DoClaim? || work.DoSkipClaim? || work.DoPlanReuse? || work.DoRowVanished?
    || work.DoToChunking? || work.DoToEmbedding? || work.DoDiscardStale? || work.DoDuplicate?
  }

  datatype Outbox =
    | DoDispatchClaim(e: EventId)
    | DoDispatchRead(p: nat, e: EventId)
    | DoPublishIngest(p: nat)
    | DoPublishDelete(p: nat)
    | DoDispatchSent(p: nat)
    | DoDispatchBackOff(p: nat)
    | DoDispatchPark(p: nat, l: LetterId)
    | DoDispatchDie(p: nat)

  datatype Upkeep =
    | DoReclaim(staleAfter: nat, e: EventId)
    | DoAutoRetry(l: LetterId, e: EventId)
    | DoAutoDiscard(l: LetterId)
    | DoCleanup
    | DoSweepOrphan(key: ObjectKey)
    | DoTick(now: int)

  datatype Removal =
    | DoDeleteDeliver(m: DeleteMessage, q: nat)
    | DoDeleteObject(q: nat)
    | DoDeleteRetry(q: nat)
    | DoDeletePark(q: nat, l: LetterId)
    | DoRemoveRow(q: nat)
    | DoDeleteDone(q: nat)
    | DoDeleteCrash(q: nat)
    | DoDeleteKill(q: nat)

  datatype Label =
    | ByUser(request: Request)
    | ByAdmin(triage: Triage)
    | ByWorker(work: Work)
    | ByDispatcher(outbox: Outbox)
    | ByMaintenance(upkeep: Upkeep)
    | ByDeleter(removal: Removal)

  function StepUser(c: Cell, request: Request): Option<Cell> {
    match request
    case DoUpload(content, key, e) => Upload(c, content, key, e)
    case DoReplace(content, key, e) => Replace(c, content, key, e)
    case DoReindex(e) => Reindex(c, e)
    case DoCancel => Cancel(c)
    case DoDelete(e) => Delete(c, e)
    case DoDeleteKnowledgeBase(e) => DeleteKnowledgeBase(c, e)
  }

  function StepAdmin(c: Cell, triage: Triage): Option<Cell> {
    match triage
    case DoResume(e) => Resume(c, e)
    case DoReplayIngest(l, e) => ReplayIngest(c, l, e)
    case DoReplayOutbox(l) => ReplayOutbox(c, l)
    case DoReplayCleanup(l, e) => ReplayCleanup(c, l, e)
    case DoDiscardLetter(l) => DiscardLetter(c, l)
  }

  function StepWorker(c: Cell, work: Work): Option<Cell> {
    match work
    case DoDeliver(retries, t, chunkConfig, model) => Deliver(c, retries, t, chunkConfig, model)
    case DoClaim(t) => Claim(c, t)
    case DoSkipClaim(t) => SkipClaim(c, t)
    case DoPlanReuse(t) => PlanReuse(c, t)
    case DoRowVanished(t) => RowVanished(c, t)
    case DoToChunking(t) => ToChunking(c, t)
    case DoToEmbedding(t, pieces) => ToEmbedding(c, t, pieces)
    case DoDiscardStale(t) => DiscardStale(c, t)
    case DoInsertBatch(t, size) => InsertBatch(c, t, size)
    case DoToIndexing(t) => ToIndexing(c, t)
    case DoActivate(t) => Activate(c, t)
    case DoLoseLease(t) => LoseLease(c, t)
    case DoFailAndRetry(t) => FailAndRetry(c, t)
    case DoFailTerminally(t, retryable, l) => FailTerminally(c, t, retryable, l)
    case DoPublishRetry(t) => PublishRetry(c, t)
    case DoAcknowledge(t) => Acknowledge(c, t)
    case DoCrash(t) => Crash(c, t)
    case DoKillAndAcknowledge(t) => KillAndAcknowledge(c, t)
    case DoDuplicate(retries) => Duplicate(c, retries)
  }

  function StepDispatcher(c: Cell, outbox: Outbox): Option<Cell> {
    match outbox
    case DoDispatchClaim(e) => DispatchClaim(c, e)
    case DoDispatchRead(p, e) => DispatchRead(c, p, e)
    case DoPublishIngest(p) => PublishIngest(c, p)
    case DoPublishDelete(p) => PublishDelete(c, p)
    case DoDispatchSent(p) => DispatchSent(c, p)
    case DoDispatchBackOff(p) => DispatchBackOff(c, p)
    case DoDispatchPark(p, l) => DispatchPark(c, p, l)
    case DoDispatchDie(p) => DispatchDie(c, p)
  }

  function StepMaintenance(c: Cell, upkeep: Upkeep): Option<Cell> {
    match upkeep
    case DoReclaim(staleAfter, e) => Reclaim(c, staleAfter, e)
    case DoAutoRetry(l, e) => AutoRetry(c, l, e)
    case DoAutoDiscard(l) => AutoDiscard(c, l)
    case DoCleanup => Cleanup(c)
    case DoSweepOrphan(key) => SweepOrphan(c, key)
    case DoTick(now) => Tick(c, now)
  }

  function StepDeleter(c: Cell, removal: Removal): Option<Cell> {
    match removal
    case DoDeleteDeliver(m, q) => DeleteDeliver(c, m, q)
    case DoDeleteObject(q) => DeleteObject(c, q)
    case DoDeleteRetry(q) => DeleteRetry(c, q)
    case DoDeletePark(q, l) => DeletePark(c, q, l)
    case DoRemoveRow(q) => RemoveRow(c, q)
    case DoDeleteDone(q) => DeleteDone(c, q)
    case DoDeleteCrash(q) => DeleteCrash(c, q)
    case DoDeleteKill(q) => DeleteKill(c, q)
  }

  function Step(c: Cell, l: Label): Option<Cell> {
    match l
    case ByUser(request) => StepUser(c, request)
    case ByAdmin(triage) => StepAdmin(c, triage)
    case ByWorker(work) => StepWorker(c, work)
    case ByDispatcher(outbox) => StepDispatcher(c, outbox)
    case ByMaintenance(upkeep) => StepMaintenance(c, upkeep)
    case ByDeleter(removal) => StepDeleter(c, removal)
  }

  /** `None` when some step of the schedule cannot be taken. */
  function Exec(c: Cell, ls: seq<Label>): Option<Cell>
    decreases |ls|
  {
    if ls == [] then Some(c)
    else
      var next := Step(c, ls[0]);
      if next.Some? then Exec(next.value, ls[1..]) else None
  }

  lemma {:induction false} ExecAppend(c: Cell, ls: seq<Label>, ms: seq<Label>)
    ensures Exec(c, ls + ms) == if Exec(c, ls).Some? then Exec(Exec(c, ls).value, ms) else None
    decreases |ls|
  {
    if ls == [] {
      assert ls + ms == ms;
    } else {
      assert (ls + ms)[1..] == ls[1..] + ms;
      if Step(c, ls[0]).Some? {
        ExecAppend(Step(c, ls[0]).value, ls[1..], ms);
      }
    }
  }

  lemma {:induction false} FreshId(s: set<nat>) returns (n: nat)
    ensures forall x :: x in s ==> x < n
    decreases |s|
  {
    n := 0;
    if s != {} {
      var x :| x in s;
      var m := FreshId(s - {x});
      n := if x < m then m else x + 1;
      assert forall y :: y in s ==> y == x || y in s - {x};
    }
  }
}
