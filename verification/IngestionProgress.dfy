/** Exactly which unfinished documents the system alone can still finish. */
module IngestionProgress {
  import opened Wrappers
  import opened Ingestion
  import opened IngestionSafety
  import opened IngestionDrivers

  /** Steps that need no user and no accident: workers, dispatchers, maintenance, deletion, the
      replay of an outbox letter and that of a cleanup letter, which the periodic retry also makes. */
  predicate IsSystem(l: Label) {
    match l
    case ByUser(_) => false
    case ByAdmin(a) => a.DoReplayOutbox? || a.DoReplayCleanup?
    case ByWorker(w) => !w.DoCrash? && !w.DoDuplicate?
    case _ => true
  }

  predicate SystemRun(c: Cell, ls: seq<Label>, c': Cell) {
    Exec(c, ls) == Some(c') && forall l :: l in ls ==> IsSystem(l)
  }

  lemma NoSteps(c: Cell)
    ensures SystemRun(c, [], c)
  {
  }

  lemma Go(c: Cell, ls: seq<Label>, d: Cell, l: Label) returns (more: seq<Label>, d': Cell)
    requires SystemRun(c, ls, d) && Core(d) && IsSystem(l) && Step(d, l).Some?
    ensures more == ls + [l] && Step(d, l) == Some(d') && SystemRun(c, more, d') && Core(d')
  {
    more, d' := ls + [l], Step(d, l).value;
    ExecAppend(c, ls, [l]);
    assert Exec(d, [l]) == Some(d') by {
      assert [l][1..] == [];
    }
    StepKeepsInv(d, l, d');
  }

  lemma GoWork(c: Cell, ls: seq<Label>, d: Cell, w: Work) returns (more: seq<Label>, d': Cell)
    requires SystemRun(c, ls, d) && Core(d) && StepWorker(d, w).Some? && !w.DoCrash? && !w.DoDuplicate?
    ensures StepWorker(d, w) == Some(d') && SystemRun(c, more, d') && Core(d')
  {
    assert Step(d, ByWorker(w)) == StepWorker(d, w);
    more, d' := Go(c, ls, d, ByWorker(w));
  }

  lemma GoOutbox(c: Cell, ls: seq<Label>, d: Cell, o: Outbox) returns (more: seq<Label>, d': Cell)
    requires SystemRun(c, ls, d) && Core(d) && StepDispatcher(d, o).Some?
    ensures StepDispatcher(d, o) == Some(d') && SystemRun(c, more, d') && Core(d')
  {
    assert Step(d, ByDispatcher(o)) == StepDispatcher(d, o);
    more, d' := Go(c, ls, d, ByDispatcher(o));
  }

  lemma GoUpkeep(c: Cell, ls: seq<Label>, d: Cell, u: Upkeep) returns (more: seq<Label>, d': Cell)
    requires SystemRun(c, ls, d) && Core(d) && StepMaintenance(d, u).Some?
    ensures StepMaintenance(d, u) == Some(d') && SystemRun(c, more, d') && Core(d')
  {
    assert Step(d, ByMaintenance(u)) == StepMaintenance(d, u);
    more, d' := Go(c, ls, d, ByMaintenance(u));
  }

  lemma Then(c: Cell, ls: seq<Label>, d: Cell, ms: seq<Label>, e: Cell)
    requires SystemRun(c, ls, d) && SystemRun(d, ms, e)
    ensures SystemRun(c, ls + ms, e)
  {
    ExecAppend(c, ls, ms);
  }

  // ---------- one uninterrupted attempt ----------

  /** The other workers and the row's content are as before. */
  predicate OnlyMoved(c: Cell, c': Cell, t: Token) {
    && (forall u :: u in c.workers && u != t ==> u in c'.workers && c'.workers[u] == c.workers[u])
    && c.row.Present? && c'.row.Present? && c'.row.doc.content == c.row.doc.content
  }

  /** What one attempt leaves when nothing interferes: the kept chunks and its own batches. */
  function Resumed(chunks: ChunkTable, reuse: bool, pieces: seq<string>, v: nat, model: nat): ChunkTable
  {
    PendingIsWhatIsNotReusable(chunks, reuse, pieces, v, 0);
    InsertChunks(Kept(chunks, reuse, pieces, v), PendingFrom(chunks, reuse, pieces, v, 0), pieces, v, model)
  }

  lemma ClaimToPlan(c: Cell, t: Token) returns (ls: seq<Label>, d: Cell)
    requires Core(c) && InPhase(c, t, Started) && RowIsClaimable(c)
    ensures SystemRun(c, ls, d) && Core(d) && HoldsLease(d, t) && OnlyMoved(c, d, t)
    ensures Base(d.row.doc) == Base(c.row.doc) && d.chunks == c.chunks && d.row.doc.status == Parsing
    ensures var w := c.workers[t].(content := c.row.doc.content);
            && d.row.doc.fingerprint == Some(PrintOf(w))
            && t in d.workers
            && d.workers[t] == w.(phase := Planned(c.row.doc.fingerprint == Some(PrintOf(w)), d.row.doc.target))
  {
    NoSteps(c);
    ls, d := GoWork(c, [], c, DoClaim(t));
    ls, d := GoWork(c, ls, d, DoPlanReuse(t));
  }

  lemma PlanToSplit(c: Cell, t: Token, pieces: seq<string>) returns (ls: seq<Label>, d: Cell)
    requires Core(c) && HoldsLease(c, t) && t in c.workers && c.workers[t].phase.Planned? && pieces != []
    ensures SystemRun(c, ls, d) && Core(d) && HoldsLease(d, t) && OnlyMoved(c, d, t)
    ensures Base(d.row.doc) == Base(c.row.doc) && d.chunks == c.chunks && d.row.doc.status == Embedding
    ensures d.row.doc.fingerprint == c.row.doc.fingerprint
    ensures var p := c.workers[t].phase;
            t in d.workers && d.workers[t] == c.workers[t].(phase := Split(p.reuse, pieces, p.aim))
  {
    NoSteps(c);
    ls, d := GoWork(c, [], c, DoToChunking(t));
    ls, d := GoWork(c, ls, d, DoToEmbedding(t, pieces));
  }

  lemma SplitToBatches(c: Cell, t: Token) returns (ls: seq<Label>, d: Cell)
    requires Core(c) && HoldsLease(c, t) && t in c.workers && c.workers[t].phase.Split?
    ensures SystemRun(c, ls, d) && Core(d) && HoldsLease(d, t) && OnlyMoved(c, d, t) && d.row == c.row
    ensures var p, v := c.workers[t].phase, Base(c.row.doc) + 1;
            && t in d.workers
            && d.workers[t] == c.workers[t].(phase := Batching(p.pieces, v, PendingFrom(c.chunks, p.reuse, p.pieces, v, 0)))
            && d.chunks == Kept(c.chunks, p.reuse, p.pieces, v)
  {
    NoSteps(c);
    assert BuildOk(c, c.row.doc, c.workers[t].phase);
    ls, d := GoWork(c, [], c, DoDiscardStale(t));
  }

  /** All remaining chunks in one batch; several smaller batches would do as well. */
  lemma InsertAll(c: Cell, t: Token)
    requires Core(c) && HoldsLease(c, t) && t in c.workers && c.workers[t].phase.Batching?
    requires c.workers[t].phase.pending != []
    ensures var p := c.workers[t].phase;
            && ValidBatch(p.pending, p.pieces)
            && InsertBatch(c, t, |p.pending|) ==
                 Some(MoveTo(WithDoc(c, c.row.doc.(heartbeat := Some(c.clock)))
                               .(chunks := InsertChunks(c.chunks, p.pending, p.pieces, p.target, c.workers[t].model)),
                             t, Batching(p.pieces, p.target, [])))
  {
    var p := c.workers[t].phase;
    assert BuildOk(c, c.row.doc, p);
    assert BatchSize(|p.pending|, |p.pending|) == |p.pending|;
    assert p.pending[..|p.pending|] == p.pending && p.pending[|p.pending|..] == [];
    assert BatchKeys(p.pending, p.target) * c.chunks.Keys == {};
  }

  lemma InsertRemaining(c: Cell, t: Token) returns (ls: seq<Label>, d: Cell)
    requires Core(c) && HoldsLease(c, t) && t in c.workers && c.workers[t].phase.Batching?
    ensures SystemRun(c, ls, d) && Core(d) && HoldsLease(d, t) && OnlyMoved(c, d, t)
    ensures Base(d.row.doc) == Base(c.row.doc) && d.row.doc.status == c.row.doc.status
    ensures d.row.doc.fingerprint == c.row.doc.fingerprint
    ensures var p := c.workers[t].phase;
            && ValidBatch(p.pending, p.pieces)
            && t in d.workers && d.workers[t] == c.workers[t].(phase := Batching(p.pieces, p.target, []))
            && d.chunks == InsertChunks(c.chunks, p.pending, p.pieces, p.target, c.workers[t].model)
  {
    NoSteps(c);
    ls, d := [], c;
    var p := c.workers[t].phase;
    assert BuildOk(c, c.row.doc, p);
    if p.pending != [] {
      InsertAll(c, t);
      ls, d := GoWork(c, ls, d, DoInsertBatch(t, |p.pending|));
    } else {
      assert BatchKeys(p.pending, p.target) == {};
      assert InsertChunks(c.chunks, p.pending, p.pieces, p.target, c.workers[t].model) == c.chunks;
    }
  }

  lemma ResumedIsWhole(chunks: ChunkTable, reuse: bool, pieces: seq<string>, v: nat, model: nat)
    ensures Whole(Resumed(chunks, reuse, pieces, v, model), pieces, v)
  {
    PendingIsWhatIsNotReusable(chunks, reuse, pieces, v, 0);
    var pending := PendingFrom(chunks, reuse, pieces, v, 0);
    forall i: nat | i < |pieces| ensures ChunkKey(v, i) in Resumed(chunks, reuse, pieces, v, model) {
      assert Reusable(chunks, reuse, pieces, v, i) || i in pending;
    }
  }

  lemma WholeCount(chunks: ChunkTable, pieces: seq<string>, v: nat)
    requires Whole(chunks, pieces, v)
    ensures |KeysAt(chunks, v)| == |pieces|
  {
    RangeSize(v, |pieces|);
    assert KeysAt(chunks, v) == set i: nat | i < |pieces| :: ChunkKey(v, i);
  }

  lemma SplitToIndexing(c: Cell, t: Token) returns (ls: seq<Label>, d: Cell)
    requires Core(c) && HoldsLease(c, t) && t in c.workers && c.workers[t].phase.Split?
    ensures SystemRun(c, ls, d) && Core(d) && HoldsLease(d, t) && OnlyMoved(c, d, t) && d.row.doc.status == Indexing
    ensures var p, v := c.workers[t].phase, Base(c.row.doc) + 1;
            && InPhase(d, t, Counting(p.pieces, v)) && d.workers[t] == c.workers[t].(phase := d.workers[t].phase)
            && d.chunks == Resumed(c.chunks, p.reuse, p.pieces, v, c.workers[t].model)
  {
    ls, d := SplitToBatches(c, t);
    var more, e := InsertRemaining(d, t);
    Then(c, ls, d, more, e);
    ls, d := GoWork(c, ls + more, e, DoToIndexing(t));
  }

  /** An attempt that has split the document and is left alone activates exactly its resumed build. */
  lemma SplitFinishes(c: Cell, t: Token) returns (ls: seq<Label>, d: Cell)
    requires Core(c) && HoldsLease(c, t) && t in c.workers && c.workers[t].phase.Split?
    ensures SystemRun(c, ls, d) && Core(d) && OnlyMoved(c, d, t)
    ensures var p, v := c.workers[t].phase, Base(c.row.doc) + 1;
            && HasStatus(d, Ready) && d.row.doc.split == p.pieces && d.row.doc.active == Some(v)
            && d.row.doc.built == Some(PrintOf(c.workers[t]))
            && d.chunks == Resumed(c.chunks, p.reuse, p.pieces, v, c.workers[t].model)
  {
    ls, d := SplitToIndexing(c, t);
    var p, v := c.workers[t].phase, Base(c.row.doc) + 1;
    ResumedIsWhole(c.chunks, p.reuse, p.pieces, v, c.workers[t].model);
    WholeCount(d.chunks, p.pieces, v);
    ls, d := GoWork(c, ls, d, DoActivate(t));
  }

  /** A worker that starts on a claimable document and is left alone activates its split. */
  lemma AttemptFinishes(c: Cell, t: Token, pieces: seq<string>) returns (ls: seq<Label>, d: Cell)
    requires Core(c) && InPhase(c, t, Started) && RowIsClaimable(c) && pieces != []
    ensures SystemRun(c, ls, d) && HasStatus(d, Ready) && d.row.doc.split == pieces
    ensures Core(d) && OnlyMoved(c, d, t) && d.row.doc.active == Some(Base(c.row.doc) + 1)
  {
    ls, d := ClaimToPlan(c, t);
    var more, e := PlanToSplit(d, t, pieces);
    Then(c, ls, d, more, e);
    ls, d := ls + more, e;
    more, e := SplitFinishes(d, t);
    Then(c, ls, d, more, e);
    ls, d := ls + more, e;
  }

  // ---------- from anywhere ----------

  /** The document is ready with `pieces` at the next version; nobody else's attempt has moved. */
  predicate FinishedWith(c: Cell, d: Cell, pieces: seq<string>) {
    && (forall u :: u in c.workers ==> u in d.workers && d.workers[u] == c.workers[u])
    && HasStatus(d, Ready) && d.row.doc.split == pieces
    && c.row.Present? && d.row.doc.active == Some(Base(c.row.doc) + 1)
  }

  /** Any message in the broker is enough. */
  lemma MessageFinishes(c: Cell, pieces: seq<string>) returns (ls: seq<Label>, d: Cell)
    requires Core(c) && c.inbox != multiset{} && RowIsClaimable(c) && pieces != []
    ensures SystemRun(c, ls, d) && Core(d) && FinishedWith(c, d, pieces)
  {
    var retries :| retries in c.inbox;
    var t := FreshId(c.used);
    NoSteps(c);
    ls, d := GoWork(c, [], c, DoDeliver(retries, t, 0, 0));
    var more, e := AttemptFinishes(d, t, pieces);
    Then(c, ls, d, more, e);
    ls, d := ls + more, e;
  }

  lemma OwingFinishes(c: Cell, t: Token, pieces: seq<string>) returns (ls: seq<Label>, d: Cell)
    requires Core(c) && Owing(c, t) && RowIsClaimable(c) && pieces != []
    ensures SystemRun(c, ls, d) && HasStatus(d, Ready) && d.row.doc.split == pieces
  {
    if c.workers[t].phase.Started? {
      ls, d := AttemptFinishes(c, t, pieces);
    } else {
      NoSteps(c);
      ls, d := GoWork(c, [], c, DoPublishRetry(t));
      var more, e := MessageFinishes(d, pieces);
      Then(c, ls, d, more, e);
      ls, d := ls + more, e;
    }
  }

  lemma ReadAndPublish(c: Cell, e: EventId) returns (ls: seq<Label>, d: Cell)
    requires Core(c) && LiveIngest(c, e) && c.events[e].status == Publishing
    ensures SystemRun(c, ls, d) && Core(d) && d.row == c.row && d.workers == c.workers && d.used == c.used
    ensures d.chunks == c.chunks && 0 in d.inbox
  {
    var p := FreshId(c.dispatchers.Keys);
    NoSteps(c);
    ls, d := GoOutbox(c, [], c, DoDispatchRead(p, e));
    ls, d := GoOutbox(c, ls, d, DoPublishIngest(p));
  }

  lemma PublishingFinishes(c: Cell, e: EventId, pieces: seq<string>) returns (ls: seq<Label>, d: Cell)
    requires Core(c) && LiveIngest(c, e) && c.events[e].status == Publishing && RowIsClaimable(c) && pieces != []
    ensures SystemRun(c, ls, d) && Core(d) && FinishedWith(c, d, pieces)
  {
    ls, d := ReadAndPublish(c, e);
    var more, f := MessageFinishes(d, pieces);
    Then(c, ls, d, more, f);
    ls, d := ls + more, f;
  }

  lemma WaitAndClaim(c: Cell, e: EventId) returns (ls: seq<Label>, d: Cell)
    requires Core(c) && e in c.events && c.events[e].status == Pending
    ensures SystemRun(c, ls, d) && Core(d) && d.row == c.row && d.workers == c.workers && d.used == c.used
    ensures e in d.events && d.events[e].kind == c.events[e].kind && d.events[e].status == Publishing
  {
    var due := c.events[e].nextRetry;
    NoSteps(c);
    ls, d := GoUpkeep(c, [], c, DoTick(if c.clock < due then due else c.clock));
    ls, d := GoOutbox(c, ls, d, DoDispatchClaim(e));
  }

  lemma PendingFinishes(c: Cell, e: EventId, pieces: seq<string>) returns (ls: seq<Label>, d: Cell)
    requires Core(c) && LiveIngest(c, e) && c.events[e].status == Pending && RowIsClaimable(c) && pieces != []
    ensures SystemRun(c, ls, d) && Core(d) && FinishedWith(c, d, pieces)
  {
    ls, d := WaitAndClaim(c, e);
    var more, f := PublishingFinishes(d, e, pieces);
    Then(c, ls, d, more, f);
    ls, d := ls + more, f;
  }

  /** An open letter sends its event again, whatever its status is. */
  lemma ReplayFinishes(c: Cell, e: EventId, l: LetterId, pieces: seq<string>) returns (ls: seq<Label>, d: Cell)
    requires Core(c) && LiveIngest(c, e) && OpenFor(c, l, e)
    requires RowIsClaimable(c) && pieces != []
    ensures SystemRun(c, ls, d) && HasStatus(d, Ready) && d.row.doc.split == pieces
  {
    NoSteps(c);
    assert ReplayOutbox(c, l).Some?;
    ls, d := Go(c, [], c, ByAdmin(DoReplayOutbox(l)));
    var more, f := PendingFinishes(d, e, pieces);
    Then(c, ls, d, more, f);
    ls, d := ls + more, f;
  }

  lemma EventFinishes(c: Cell, e: EventId, pieces: seq<string>) returns (ls: seq<Label>, d: Cell)
    requires Core(c) && LiveIngest(c, e) && RowIsClaimable(c) && pieces != []
    ensures SystemRun(c, ls, d) && HasStatus(d, Ready) && d.row.doc.split == pieces
  {
    if c.events[e].status == Pending {
      ls, d := PendingFinishes(c, e, pieces);
    } else if c.events[e].status == Publishing {
      ls, d := PublishingFinishes(c, e, pieces);
    } else {
      var l :| OpenFor(c, l, e);
      ls, d := ReplayFinishes(c, e, l, pieces);
    }
  }

  /** A dispatcher that holds the event publishes it, or records a failure behind which it is scanned
      or parked. */
  lemma ReaderFinishes(c: Cell, p: nat, pieces: seq<string>) returns (ls: seq<Label>, d: Cell)
    requires Core(c) && IngestReader(c, p) && RowIsClaimable(c) && pieces != []
    ensures SystemRun(c, ls, d) && HasStatus(d, Ready) && d.row.doc.split == pieces
  {
    var e := c.dispatchers[p].event;
    var more, f;
    NoSteps(c);
    if !c.dispatchers[p].published {
      ls, d := GoOutbox(c, [], c, DoPublishIngest(p));
      assert 0 in d.inbox;
      more, f := MessageFinishes(d, pieces);
    } else {
      var l := FreshId(c.letters.Keys);
      var refuse := if LastAttempt(c, p) then DoDispatchPark(p, l) else DoDispatchBackOff(p);
      ls, d := GoOutbox(c, [], c, refuse);
      RefusedIsLive(c, p, l, d);
      more, f := EventFinishes(d, e, pieces);
    }
    Then(c, ls, d, more, f);
    ls, d := ls + more, f;
  }

  lemma RefusedIsLive(c: Cell, p: nat, l: LetterId, d: Cell)
    requires IngestReader(c, p) && (DispatchBackOff(c, p) == Some(d) || DispatchPark(c, p, l) == Some(d))
    ensures LiveIngest(d, c.dispatchers[p].event) && d.row == c.row
  {
    assert DispatchPark(c, p, l) == Some(d) ==> OpenFor(d, l, c.dispatchers[p].event);
  }

  lemma RetriedIsLive(c: Cell, l: LetterId, e: EventId) returns (d: Cell)
    requires AwaitsLetter(c) && IngestLetter(c, l) && e !in c.events
    ensures StepMaintenance(c, DoAutoRetry(l, e)) == Some(d)
    ensures RowIsClaimable(d) && LiveIngest(d, e) && d.events[e].status == Pending
  {
    d := AutoRetry(c, l, e).value;
  }

  /** The periodic retry takes the letter of a failed or retrying document. */
  lemma LetterFinishes(c: Cell, l: LetterId, pieces: seq<string>) returns (ls: seq<Label>, d: Cell)
    requires Core(c) && AwaitsLetter(c) && IngestLetter(c, l) && pieces != []
    ensures SystemRun(c, ls, d) && HasStatus(d, Ready) && d.row.doc.split == pieces
  {
    var e := FreshId(c.events.Keys);
    var retried := RetriedIsLive(c, l, e);
    NoSteps(c);
    ls, d := GoUpkeep(c, [], c, DoAutoRetry(l, e));
    var more, f := PendingFinishes(d, e, pieces);
    Then(c, ls, d, more, f);
    ls, d := ls + more, f;
  }

  /** An attempt that fails for good leaves a letter. */
  lemma FailureLeavesLetter(c: Cell, t: Token, pieces: seq<string>) returns (ls: seq<Label>, d: Cell)
    requires Core(c) && t in c.workers && CanFail(c.workers[t].phase) && (AwaitsLetter(c) || HoldsLease(c, t))
    requires pieces != []
    ensures SystemRun(c, ls, d) && HasStatus(d, Ready) && d.row.doc.split == pieces
  {
    var l := FreshId(c.letters.Keys);
    NoSteps(c);
    ls, d := GoWork(c, [], c, DoFailTerminally(t, false, l));
    var more, f := LetterFinishes(d, l, pieces);
    Then(c, ls, d, more, f);
    ls, d := ls + more, f;
  }

  /** An attempt that fails with retries left leaves a message. */
  lemma FailureLeavesRetry(c: Cell, t: Token, pieces: seq<string>) returns (ls: seq<Label>, d: Cell)
    requires Core(c) && t in c.workers && CanFail(c.workers[t].phase) && c.workers[t].retries < INGEST_MAX_RETRIES
    requires RowIsClaimable(c) && pieces != []
    ensures SystemRun(c, ls, d) && HasStatus(d, Ready) && d.row.doc.split == pieces
  {
    NoSteps(c);
    ls, d := GoWork(c, [], c, DoFailAndRetry(t));
    var more, f := OwingFinishes(d, t, pieces);
    Then(c, ls, d, more, f);
    ls, d := ls + more, f;
  }

  lemma FailureFinishes(c: Cell, t: Token, pieces: seq<string>) returns (ls: seq<Label>, d: Cell)
    requires Core(c) && t in c.workers && CanFail(c.workers[t].phase) && pieces != []
    requires (RowIsClaimable(c) && MayRetry(c, t)) || AwaitsLetter(c)
    ensures SystemRun(c, ls, d) && HasStatus(d, Ready) && d.row.doc.split == pieces
  {
    if AwaitsLetter(c) || HoldsLease(c, t) {
      ls, d := FailureLeavesLetter(c, t, pieces);
    } else {
      ls, d := FailureLeavesRetry(c, t, pieces);
    }
  }

  /** An attempt right behind its claim first plans. */
  lemma AttemptingFinishes(c: Cell, t: Token, pieces: seq<string>) returns (ls: seq<Label>, d: Cell)
    requires Core(c) && Attempting(c, t) && pieces != []
    requires (RowIsClaimable(c) && MayRetry(c, t)) || AwaitsLetter(c)
    ensures SystemRun(c, ls, d) && HasStatus(d, Ready) && d.row.doc.split == pieces
  {
    if c.workers[t].phase.Leased? {
      NoSteps(c);
      ls, d := GoWork(c, [], c, DoPlanReuse(t));
      var more, f := FailureFinishes(d, t, pieces);
      Then(c, ls, d, more, f);
      ls, d := ls + more, f;
    } else {
      ls, d := FailureFinishes(c, t, pieces);
    }
  }

  /** Each driver is enough. */
  lemma DrivenFinishes(c: Cell, driver: Driver, pieces: seq<string>) returns (ls: seq<Label>, d: Cell)
    requires Core(c) && Drives(c, driver) && pieces != []
    ensures SystemRun(c, ls, d) && HasStatus(d, Ready) && d.row.doc.split == pieces
  {
    match driver
    case InBroker => ls, d := MessageFinishes(c, pieces);
    case OfWorker(t) =>
      if RowIsClaimable(c) && Owing(c, t) {
        ls, d := OwingFinishes(c, t, pieces);
      } else {
        ls, d := AttemptingFinishes(c, t, pieces);
      }
    case OfEvent(e) => ls, d := EventFinishes(c, e, pieces);
    case OfDispatcher(p) => ls, d := ReaderFinishes(c, p, pieces);
    case OfLetter(l) => ls, d := LetterFinishes(c, l, pieces);
  }

  /** A dead worker's document is first reclaimed once its heartbeat has expired. */
  lemma WorkingFinishes(c: Cell, staleAfter: nat, pieces: seq<string>) returns (ls: seq<Label>, d: Cell)
    requires Core(c) && c.row.Present? && Working(c.row.doc.status) && pieces != []
    ensures SystemRun(c, ls, d) && Core(d) && FinishedWith(c, d, pieces)
  {
    var e := FreshId(c.events.Keys);
    NoSteps(c);
    ls, d := GoUpkeep(c, [], c, DoTick(c.clock + staleAfter + 1));
    ls, d := GoUpkeep(c, ls, d, DoReclaim(staleAfter, e));
    var more, f := PendingFinishes(d, e, pieces);
    Then(c, ls, d, more, f);
    ls, d := ls + more, f;
  }

  predicate Unfinished(c: Cell) {
    c.row.Present? && (Claimable(c.row.doc.status) || Working(c.row.doc.status) || c.row.doc.status == Failed)
  }

  /** An unfinished document that is not stranded has a schedule of system steps that activates any
      split the next attempt computes, whatever crashed, was killed or discarded before. */
  lemma UnfinishedCanFinish(c: Cell, staleAfter: nat, pieces: seq<string>) returns (ls: seq<Label>, d: Cell)
    requires Core(c) && Unfinished(c) && !Stranded(c) && pieces != []
    ensures SystemRun(c, ls, d) && HasStatus(d, Ready) && d.row.doc.split == pieces
  {
    if Working(c.row.doc.status) {
      ls, d := WorkingFinishes(c, staleAfter, pieces);
    } else {
      var driver :| Drives(c, driver);
      ls, d := DrivenFinishes(c, driver, pieces);
    }
  }

  // ---------- a stranded document stays stranded ----------

  /** Nothing is in flight or scanned that a claimable document could wait for. */
  ghost predicate Adrift(c: Cell) {
    && RowIsClaimable(c) && c.inbox == multiset{}
    && (forall t :: !Owing(c, t) && !MayRetry(c, t))
    && (forall e :: !LiveIngest(c, e)) && (forall p :: !IngestReader(c, p))
    && (HasStatus(c, Retrying) ==> (forall t :: !Attempting(c, t)) && forall x :: !IngestLetter(c, x))
  }

  /** No letter, and no attempt that would leave one. */
  ghost predicate Dropped(c: Cell) {
    HasStatus(c, Failed) && (forall t :: !Attempting(c, t)) && forall x :: !IngestLetter(c, x)
  }

  lemma LeftIsStranded(c: Cell)
    requires Adrift(c) || Dropped(c)
    ensures Stranded(c)
  {
    forall d ensures !Drives(c, d) {
      match d
      case OfWorker(t) => assert Attempting(c, t) || Owing(c, t) || !Drives(c, d);
      case _ =>
    }
  }

  lemma StrandedIsLeft(c: Cell)
    requires Stranded(c)
    ensures Adrift(c) || Dropped(c)
  {
    assert !Drives(c, InBroker);
    forall t
      ensures RowIsClaimable(c) ==> !Owing(c, t) && !MayRetry(c, t)
      ensures AwaitsLetter(c) ==> !Attempting(c, t)
    {
      assert !Drives(c, OfWorker(t));
    }
    forall e ensures RowIsClaimable(c) ==> !LiveIngest(c, e) {
      assert !Drives(c, OfEvent(e));
    }
    forall p ensures RowIsClaimable(c) ==> !IngestReader(c, p) {
      assert !Drives(c, OfDispatcher(p));
    }
    forall x ensures AwaitsLetter(c) ==> !IngestLetter(c, x) {
      assert !Drives(c, OfLetter(x));
    }
  }

  /** Ingestion events, their letters and their dispatchers are as before, or fewer. */
  ghost predicate NoNewScans(c: Cell, c': Cell) {
    && (forall e :: LiveIngest(c', e) ==> LiveIngest(c, e))
    && (forall p :: IngestReader(c', p) ==> IngestReader(c, p))
    && (forall x :: IngestLetter(c', x) ==> IngestLetter(c, x))
  }

  /** A dispatcher that still moves does so with an event that is not an ingestion. */
  lemma DispatcherElsewhere(c: Cell, outbox: Outbox, c': Cell)
    requires Adrift(c) && StepDispatcher(c, outbox) == Some(c')
    ensures c'.row == c.row && c'.inbox == c.inbox && c'.workers == c.workers
    ensures forall p :: IngestReader(c', p) ==> IngestReader(c, p)
    ensures forall x :: IngestLetter(c', x) ==> IngestLetter(c, x)
  {
    match outbox {
      case DoDispatchClaim(e) => assert !LiveIngest(c, e);
      case DoDispatchRead(p, e) => assert !LiveIngest(c, e);
      case DoPublishIngest(p) => if IngestReader(c, p) { assert false; }
      case _ => assert !IngestReader(c, outbox.p);
    }
  }

  lemma DispatcherRevivesNone(c: Cell, outbox: Outbox, c': Cell, e: EventId)
    requires Adrift(c) && StepDispatcher(c, outbox) == Some(c') && LiveIngest(c', e)
    ensures LiveIngest(c, e)
  {
    match outbox {
      case DoDispatchClaim(d) => assert !LiveIngest(c, d);
      case DoDispatchRead(p, d) => assert !LiveIngest(c, d);
      case DoPublishIngest(p) => if IngestReader(c, p) { assert false; }
      case _ => assert !IngestReader(c, outbox.p);
    }
    assert c'.events[e] == c.events[e];
    assert forall y :: OpenFor(c', y, e) ==> OpenFor(c, y, e);
  }

  lemma DispatcherLeavesAdrift(c: Cell, outbox: Outbox, c': Cell)
    requires Adrift(c) && StepDispatcher(c, outbox) == Some(c')
    ensures c'.row == c.row && c'.inbox == c.inbox && c'.workers == c.workers && NoNewScans(c, c')
  {
    DispatcherElsewhere(c, outbox, c');
    forall e | LiveIngest(c', e) ensures LiveIngest(c, e) {
      DispatcherRevivesNone(c, outbox, c', e);
    }
  }

  lemma AdminLeavesAdrift(c: Cell, triage: Triage, c': Cell)
    requires Adrift(c) && StepAdmin(c, triage) == Some(c') && (triage.DoReplayOutbox? || triage.DoReplayCleanup?)
    ensures c'.row == c.row && c'.inbox == c.inbox && c'.workers == c.workers && NoNewScans(c, c')
  {
    if triage.DoReplayOutbox? {
      var e := c.letters[triage.l].source.event;
      assert OpenFor(c, triage.l, e) && !LiveIngest(c, e);
    }
    forall e | LiveIngest(c', e) ensures LiveIngest(c, e) {
      assert forall y :: OpenFor(c', y, e) ==> OpenFor(c, y, e);
    }
  }

  lemma MaintenanceLeavesAdrift(c: Cell, upkeep: Upkeep, c': Cell)
    requires Adrift(c) && StepMaintenance(c, upkeep) == Some(c')
    ensures c'.row == c.row && c'.inbox == c.inbox && c'.workers == c.workers && NoNewScans(c, c')
  {
    if upkeep.DoAutoRetry? && IngestLetter(c, upkeep.l) {
      assert false;
    }
    forall e | LiveIngest(c', e) ensures LiveIngest(c, e) {
      assert forall y :: OpenFor(c', y, e) ==> OpenFor(c, y, e);
    }
  }

  lemma DeleterLeaves(c: Cell, removal: Removal, c': Cell)
    requires NeedsDriver(c) && StepDeleter(c, removal) == Some(c')
    ensures c'.row == c.row && c'.inbox == c.inbox && c'.workers == c.workers && NoNewScans(c, c')
  {
    DeleterFrame(c, removal, c');
    DeleterLetters(c, removal, c');
    forall e | LiveIngest(c', e) ensures LiveIngest(c, e) {
      assert forall y :: OpenFor(c', y, e) ==> OpenFor(c, y, e);
    }
  }

  lemma DeleterLetters(c: Cell, removal: Removal, c': Cell)
    requires NeedsDriver(c) && StepDeleter(c, removal) == Some(c')
    ensures c'.row == c.row
    ensures forall x :: x in c'.letters ==> (x in c.letters && c'.letters[x] == c.letters[x]) || c'.letters[x].source.FromCleanup?
  {
  }

  /** Workers at most finish or go on; only letters of a document that is neither failed nor retrying
      are added. */
  ghost predicate OnlyWorkersMove(c: Cell, c': Cell) {
    && c'.row == c.row && c'.inbox == c.inbox && c'.events == c.events && c'.dispatchers == c.dispatchers
    && (forall u :: u in c'.workers ==>
          u in c.workers && c'.workers[u].retries == c.workers[u].retries
          && (c'.workers[u] == c.workers[u] || c'.workers[u].phase.Finished? || (Attempting(c, u) && Attempting(c', u))))
    && (forall x :: x in c'.letters ==>
          (x in c.letters && c'.letters[x] == c.letters[x])
          || (c'.letters[x] == Letter(FromIngest, Open) && !HasStatus(c, Retrying)))
  }

  lemma WorkerLeavesAdrift(c: Cell, work: Work, c': Cell)
    requires Adrift(c) && StepWorker(c, work) == Some(c') && !work.DoCrash? && !work.DoDuplicate?
    ensures OnlyWorkersMove(c, c')
  {
    if !work.DoDeliver? {
      assert !Owing(c, work.t) && !MayRetry(c, work.t);
      assert HasStatus(c, Retrying) ==> !Attempting(c, work.t);
    }
  }

  lemma StillAdrift(c: Cell, c': Cell)
    requires Adrift(c) && c'.row == c.row && c'.inbox == c.inbox && c'.workers == c.workers && NoNewScans(c, c')
    ensures Adrift(c')
  {
    forall t ensures !Owing(c', t) && !MayRetry(c', t) && (HasStatus(c, Retrying) ==> !Attempting(c', t)) {
      assert !Owing(c, t) && !MayRetry(c, t) && (HasStatus(c, Retrying) ==> !Attempting(c, t));
    }
  }

  lemma MovedWorkersAdrift(c: Cell, c': Cell)
    requires Adrift(c) && OnlyWorkersMove(c, c')
    ensures Adrift(c')
  {
    forall t ensures !Owing(c', t) && !MayRetry(c', t) && (HasStatus(c, Retrying) ==> !Attempting(c', t)) {
      assert !Owing(c, t) && !MayRetry(c, t) && (HasStatus(c, Retrying) ==> !Attempting(c, t));
    }
    forall e ensures !LiveIngest(c', e) {
      assert !LiveIngest(c, e);
      assert forall y :: OpenFor(c', y, e) ==> OpenFor(c, y, e);
    }
    forall p ensures !IngestReader(c', p) {
      assert !IngestReader(c, p);
    }
    if HasStatus(c, Retrying) {
      forall x ensures !IngestLetter(c', x) {
        assert !IngestLetter(c, x);
      }
    }
  }

  lemma StepAdrift(c: Cell, l: Label, c': Cell)
    requires Adrift(c) && IsSystem(l) && Step(c, l) == Some(c')
    ensures c'.row == c.row && Adrift(c')
  {
    match l
    case ByAdmin(triage) =>
      AdminLeavesAdrift(c, triage, c');
      StillAdrift(c, c');
    case ByWorker(work) =>
      WorkerLeavesAdrift(c, work, c');
      MovedWorkersAdrift(c, c');
    case ByDispatcher(outbox) =>
      DispatcherLeavesAdrift(c, outbox, c');
      StillAdrift(c, c');
    case ByMaintenance(upkeep) =>
      MaintenanceLeavesAdrift(c, upkeep, c');
      StillAdrift(c, c');
    case ByDeleter(removal) =>
      DeleterLeaves(c, removal, c');
      StillAdrift(c, c');
  }

  lemma EarlyDropped(c: Cell, work: Work, c': Cell)
    requires Core(c) && Dropped(c) && StepWorker(c, work) == Some(c') && IsEarly(work)
    ensures c'.row == c.row && Dropped(c')
  {
    if !work.DoDeliver? && !work.DoDuplicate? {
      assert !Attempting(c, work.t);
    }
    forall t ensures !Attempting(c', t) {
      assert !Attempting(c, t);
    }
    assert forall x :: IngestLetter(c', x) ==> IngestLetter(c, x);
  }

  lemma LateDropped(c: Cell, work: Work, c': Cell)
    requires Core(c) && Dropped(c) && StepWorker(c, work) == Some(c') && !IsEarly(work)
    ensures c'.row == c.row && Dropped(c')
  {
    assert !Attempting(c, work.t);
    forall t ensures !Attempting(c', t) {
      assert !Attempting(c, t);
    }
    assert forall x :: IngestLetter(c', x) ==> IngestLetter(c, x);
  }

  lemma DispatcherDropped(c: Cell, outbox: Outbox, c': Cell)
    requires Dropped(c) && StepDispatcher(c, outbox) == Some(c')
    ensures c'.row == c.row && c'.workers == c.workers && forall x :: IngestLetter(c', x) ==> IngestLetter(c, x)
  {
  }

  lemma MaintenanceDropped(c: Cell, upkeep: Upkeep, c': Cell)
    requires Dropped(c) && StepMaintenance(c, upkeep) == Some(c')
    ensures c'.row == c.row && c'.workers == c.workers && forall x :: IngestLetter(c', x) ==> IngestLetter(c, x)
  {
    if upkeep.DoAutoRetry? && IngestLetter(c, upkeep.l) {
      assert false;
    }
  }

  lemma OthersDropped(c: Cell, l: Label, c': Cell)
    requires Dropped(c) && IsSystem(l) && Step(c, l) == Some(c') && !l.ByWorker?
    ensures c'.row == c.row && c'.workers == c.workers && forall x :: IngestLetter(c', x) ==> IngestLetter(c, x)
  {
    match l
    case ByAdmin(triage) =>
    case ByDispatcher(outbox) => DispatcherDropped(c, outbox, c');
    case ByMaintenance(upkeep) => MaintenanceDropped(c, upkeep, c');
    case ByDeleter(removal) => DeleterLeaves(c, removal, c');
  }

  lemma StepDropped(c: Cell, l: Label, c': Cell)
    requires Core(c) && Dropped(c) && IsSystem(l) && Step(c, l) == Some(c')
    ensures c'.row == c.row && Dropped(c')
  {
    if !l.ByWorker? {
      OthersDropped(c, l, c');
      forall t ensures !Attempting(c', t) {
        assert !Attempting(c, t);
      }
    } else if IsEarly(l.work) {
      EarlyDropped(c, l.work, c');
    } else {
      LateDropped(c, l.work, c');
    }
  }

  /** Whatever the system does: it does not touch the row of a stranded document. */
  lemma {:induction false} StrandedStays(c: Cell, ls: seq<Label>, c': Cell)
    requires Core(c) && Stranded(c) && SystemRun(c, ls, c')
    ensures c'.row == c.row && Stranded(c')
    decreases |ls|
  {
    if ls != [] {
      var next := Step(c, ls[0]).value;
      StepKeepsInv(c, ls[0], next);
      StrandedIsLeft(c);
      if Adrift(c) {
        StepAdrift(c, ls[0], next);
      } else {
        StepDropped(c, ls[0], next);
      }
      LeftIsStranded(next);
      assert forall l :: l in ls[1..] ==> l in ls;
      StrandedStays(next, ls[1..], c');
    }
  }

  ghost predicate CanFinish(c: Cell) {
    exists ls, d :: SystemRun(c, ls, d) && HasStatus(d, Ready)
  }

  /** In every state of every schedule, an unfinished document is stranded exactly when no schedule of
      system steps makes it ready. */
  lemma StrandedIffNothingFinishes(config: Config, clock: int, past: seq<Label>, c: Cell)
    requires Exec(Initial(config, clock), past) == Some(c) && Unfinished(c)
    ensures Stranded(c) <==> !CanFinish(c)
  {
    RunKeepsCore(Initial(config, clock), past, c);
    if !Stranded(c) {
      var ls, d := UnfinishedCanFinish(c, 0, ["a"]);
    } else if CanFinish(c) {
      var ls, d :| SystemRun(c, ls, d) && HasStatus(d, Ready);
      StrandedStays(c, ls, d);
      assert false;
    }
  }
}
