/** Leases, versions and tombstones along whole schedules. */
module IngestionFencing {
  import opened Wrappers
  import opened Ingestion
  import opened IngestionSafety

  // ---------- the lease ----------

  /** `t` is past its only attempt to claim the document. */
  predicate HasClaimed(c: Cell, t: Token) {
    t in c.used && (t in c.workers ==> !c.workers[t].phase.Started?)
  }

  /** The steps that end a lease of `t`. A content replacement and a reindex are not among them. */
  predicate Fences(l: Label, t: Token) {
    match l
    case ByUser(r) => r.DoCancel? || r.DoDelete? || r.DoDeleteKnowledgeBase?
    case ByAdmin(a) => a.DoResume? || a.DoReplayIngest?
    case ByWorker(w) =>
      w.DoClaim? || ((w.DoFailAndRetry? || w.DoFailTerminally? || w.DoActivate?) && w.t == t)
    case ByDispatcher(_) => false
    case ByMaintenance(u) => u.DoReclaim? || u.DoAutoRetry?
    case ByDeleter(d) => d.DoRemoveRow?
  }

  predicate FencedBetween(ls: seq<Label>, t: Token) {
    exists i :: 0 <= i < |ls| && Fences(ls[i], t)
  }

  lemma UserLeaseStep(c: Cell, request: Request, t: Token, c': Cell)
    requires HasClaimed(c, t) && StepUser(c, request) == Some(c')
    ensures HasClaimed(c', t)
    ensures HoldsLease(c', t) <==> HoldsLease(c, t) && !Fences(ByUser(request), t)
  {
  }

  lemma AdminLeaseStep(c: Cell, triage: Triage, t: Token, c': Cell)
    requires HasClaimed(c, t) && StepAdmin(c, triage) == Some(c')
    ensures HasClaimed(c', t)
    ensures HoldsLease(c', t) <==> HoldsLease(c, t) && !Fences(ByAdmin(triage), t)
  {
  }

  lemma ClaimLeaseStep(c: Cell, work: Work, t: Token, c': Cell)
    requires HasClaimed(c, t) && StepWorker(c, work) == Some(c')
    requires work.DoDeliver? || work.DoClaim? || work.DoSkipClaim? || work.DoPlanReuse?
    ensures HasClaimed(c', t)
    ensures HoldsLease(c', t) <==> HoldsLease(c, t) && !Fences(ByWorker(work), t)
  {
  }

  lemma SplitLeaseStep(c: Cell, work: Work, t: Token, c': Cell)
    requires HasClaimed(c, t) && StepWorker(c, work) == Some(c')
    requires work.DoRowVanished? || work.DoToChunking? || work.DoToEmbedding? || work.DoDiscardStale? || work.DoDuplicate?
    ensures HasClaimed(c', t)
    ensures HoldsLease(c', t) <==> HoldsLease(c, t) && !Fences(ByWorker(work), t)
  {
  }

  lemma EarlyLeaseStep(c: Cell, work: Work, t: Token, c': Cell)
    requires HasClaimed(c, t) && StepWorker(c, work) == Some(c') && IsEarly(work)
    ensures HasClaimed(c', t)
    ensures HoldsLease(c', t) <==> HoldsLease(c, t) && !Fences(ByWorker(work), t)
  {
    if work.DoDeliver? || work.DoClaim? || work.DoSkipClaim? || work.DoPlanReuse? {
      ClaimLeaseStep(c, work, t, c');
    } else {
      SplitLeaseStep(c, work, t, c');
    }
  }

  lemma LateLeaseStep(c: Cell, work: Work, t: Token, c': Cell)
    requires HasClaimed(c, t) && StepWorker(c, work) == Some(c') && !IsEarly(work)
    ensures HasClaimed(c', t)
    ensures HoldsLease(c', t) <==> HoldsLease(c, t) && !Fences(ByWorker(work), t)
  {
  }

  lemma WorkerLeaseStep(c: Cell, work: Work, t: Token, c': Cell)
    requires HasClaimed(c, t) && StepWorker(c, work) == Some(c')
    ensures HasClaimed(c', t)
    ensures HoldsLease(c', t) <==> HoldsLease(c, t) && !Fences(ByWorker(work), t)
  {
    if IsEarly(work) {
      EarlyLeaseStep(c, work, t, c');
    } else {
      LateLeaseStep(c, work, t, c');
    }
  }

  lemma DispatcherLeaseStep(c: Cell, outbox: Outbox, t: Token, c': Cell)
    requires HasClaimed(c, t) && StepDispatcher(c, outbox) == Some(c')
    ensures HasClaimed(c', t)
    ensures HoldsLease(c', t) <==> HoldsLease(c, t) && !Fences(ByDispatcher(outbox), t)
  {
  }

  lemma MaintenanceLeaseStep(c: Cell, upkeep: Upkeep, t: Token, c': Cell)
    requires HasClaimed(c, t) && StepMaintenance(c, upkeep) == Some(c')
    ensures HasClaimed(c', t)
    ensures HoldsLease(c', t) <==> HoldsLease(c, t) && !Fences(ByMaintenance(upkeep), t)
  {
  }

  lemma DeleterRow(c: Cell, removal: Removal, c': Cell)
    requires StepDeleter(c, removal) == Some(c')
    ensures c'.workers == c.workers && c'.used == c.used
    ensures if removal.DoRemoveRow? then c'.row.Gone? else c'.row == c.row
  {
  }

  lemma DeleterLeaseStep(c: Cell, removal: Removal, t: Token, c': Cell)
    requires HasClaimed(c, t) && StepDeleter(c, removal) == Some(c')
    ensures HasClaimed(c', t)
    ensures HoldsLease(c', t) <==> HoldsLease(c, t) && !Fences(ByDeleter(removal), t)
  {
    DeleterRow(c, removal, c');
  }

  lemma LeaseStep(c: Cell, l: Label, t: Token, c': Cell)
    requires HasClaimed(c, t) && Step(c, l) == Some(c')
    ensures HasClaimed(c', t)
    ensures HoldsLease(c', t) <==> HoldsLease(c, t) && !Fences(l, t)
  {
    match l
    case ByUser(request) => UserLeaseStep(c, request, t, c');
    case ByAdmin(triage) => AdminLeaseStep(c, triage, t, c');
    case ByWorker(work) => WorkerLeaseStep(c, work, t, c');
    case ByDispatcher(outbox) => DispatcherLeaseStep(c, outbox, t, c');
    case ByMaintenance(upkeep) => MaintenanceLeaseStep(c, upkeep, t, c');
    case ByDeleter(removal) => DeleterLeaseStep(c, removal, t, c');
  }

  /** After any schedule, a token-guarded write of `t` takes effect exactly when it would have before
      it and no claim, cancel, delete, reclaim, re-queue, failure or activation came between. */
  lemma {:induction false} LeaseFencing(c: Cell, ls: seq<Label>, t: Token, c': Cell)
    requires HasClaimed(c, t) && Exec(c, ls) == Some(c')
    ensures HoldsLease(c', t) <==> HoldsLease(c, t) && !FencedBetween(ls, t)
    ensures HasClaimed(c', t)
    decreases |ls|
  {
    if ls != [] {
      var next := Step(c, ls[0]).value;
      LeaseStep(c, ls[0], t, next);
      LeaseFencing(next, ls[1..], t, c');
      assert forall i :: 0 <= i < |ls[1..]| ==> ls[1..][i] == ls[i + 1];
      assert FencedBetween(ls, t) <==> Fences(ls[0], t) || FencedBetween(ls[1..], t) by {
        if FencedBetween(ls, t) && !Fences(ls[0], t) {
          var i :| 0 <= i < |ls| && Fences(ls[i], t);
          assert Fences(ls[1..][i - 1], t);
        }
      }
    }
  }

  // ---------- versions ----------

  predicate IsActivation(l: Label) {
    l.ByWorker? && l.work.DoActivate?
  }

  predicate IsReplacement(l: Label) {
    l.ByUser? && l.request.DoReplace?
  }

  /** A row that is gone stays gone; a present row is never unborn again; only an activation moves
      its active version, by one; only a replacement of its content points it at another object. */
  predicate RowMoves(c: Cell, l: Label, c': Cell) {
    && (c.row.Gone? ==> c'.row.Gone?)
    && (c.row.Present? ==> !c'.row.Unborn?)
    && (c.row.Present? && c'.row.Present? ==>
          && c'.row.doc.active == (if IsActivation(l) then Some(Base(c.row.doc) + 1) else c.row.doc.active)
          && (IsReplacement(l) || c'.row.doc.objectKey == c.row.doc.objectKey))
  }

  lemma UserRowStep(c: Cell, request: Request, c': Cell)
    requires Core(c) && StepUser(c, request) == Some(c')
    ensures RowMoves(c, ByUser(request), c')
  {
  }

  lemma AdminRowStep(c: Cell, triage: Triage, c': Cell)
    requires Core(c) && StepAdmin(c, triage) == Some(c')
    ensures RowMoves(c, ByAdmin(triage), c')
  {
  }

  lemma WorkerRowStep(c: Cell, work: Work, c': Cell)
    requires Core(c) && StepWorker(c, work) == Some(c')
    ensures RowMoves(c, ByWorker(work), c')
  {
  }

  lemma DispatcherRowStep(c: Cell, outbox: Outbox, c': Cell)
    requires Core(c) && StepDispatcher(c, outbox) == Some(c')
    ensures RowMoves(c, ByDispatcher(outbox), c')
  {
  }

  lemma MaintenanceRowStep(c: Cell, upkeep: Upkeep, c': Cell)
    requires Core(c) && StepMaintenance(c, upkeep) == Some(c')
    ensures RowMoves(c, ByMaintenance(upkeep), c')
  {
  }

  lemma DeleterRowStep(c: Cell, removal: Removal, c': Cell)
    requires Core(c) && StepDeleter(c, removal) == Some(c')
    ensures RowMoves(c, ByDeleter(removal), c')
  {
  }

  lemma RowStep(c: Cell, l: Label, c': Cell)
    requires Core(c) && Step(c, l) == Some(c')
    ensures RowMoves(c, l, c')
  {
    match l
    case ByUser(request) => UserRowStep(c, request, c');
    case ByAdmin(triage) => AdminRowStep(c, triage, c');
    case ByWorker(work) => WorkerRowStep(c, work, c');
    case ByDispatcher(outbox) => DispatcherRowStep(c, outbox, c');
    case ByMaintenance(upkeep) => MaintenanceRowStep(c, upkeep, c');
    case ByDeleter(removal) => DeleterRowStep(c, removal, c');
  }

  function Activations(ls: seq<Label>): nat {
    if ls == [] then 0 else (if IsActivation(ls[0]) then 1 else 0) + Activations(ls[1..])
  }

  /** Along any schedule the active version counts the activations: it never falls or skips. */
  lemma {:induction false} VersionCountsActivations(c: Cell, ls: seq<Label>, c': Cell)
    requires Core(c) && c.row.Present? && Exec(c, ls) == Some(c')
    ensures !c'.row.Unborn?
    ensures c'.row.Present? ==> Base(c'.row.doc) == Base(c.row.doc) + Activations(ls)
    decreases |ls|
  {
    if ls != [] {
      var next := Step(c, ls[0]).value;
      RowStep(c, ls[0], next);
      StepKeepsInv(c, ls[0], next);
      if next.row.Present? {
        VersionCountsActivations(next, ls[1..], c');
      } else {
        GoneForever(next, ls[1..], c');
      }
    }
  }

  lemma {:induction false} GoneForever(c: Cell, ls: seq<Label>, c': Cell)
    requires Core(c) && c.row.Gone? && Exec(c, ls) == Some(c')
    ensures c'.row.Gone?
    decreases |ls|
  {
    if ls != [] {
      var next := Step(c, ls[0]).value;
      RowStep(c, ls[0], next);
      StepKeepsInv(c, ls[0], next);
      GoneForever(next, ls[1..], c');
    }
  }

  // ---------- frozen indexes ----------

  ghost predicate SameChunksAt(chunks: ChunkTable, chunks': ChunkTable, v: nat) {
    forall k: ChunkKey :: k.version == v ==>
      (k in chunks <==> k in chunks') && (k in chunks && k in chunks' ==> chunks[k] == chunks'[k])
  }

  /** While no activation switches it, the active index keeps exactly its chunks. */
  ghost predicate Frozen(c: Cell, c': Cell) {
    c.row.Present? && c'.row.Present? && c.row.doc.active.Some? ==>
      SameChunksAt(c.chunks, c'.chunks, c.row.doc.active.value)
  }

  lemma DiscardFreezesActive(c: Cell, t: Token, c': Cell)
    requires Core(c) && DiscardStale(c, t) == Some(c') && DiscardKeeps(c, t)
    ensures Frozen(c, c')
  {
  }

  lemma BatchFreezesActive(c: Cell, t: Token, size: nat, c': Cell)
    requires Core(c) && InsertBatch(c, t, size) == Some(c')
    ensures Frozen(c, c')
  {
    assert c.row.doc.active != Some(c.workers[t].phase.target);
  }

  lemma EarlyChunkFrame(c: Cell, work: Work, c': Cell)
    requires StepWorker(c, work) == Some(c') && IsEarly(work) && !work.DoDiscardStale?
    ensures c'.chunks == c.chunks
  {
  }

  lemma LateChunkFrame(c: Cell, work: Work, c': Cell)
    requires StepWorker(c, work) == Some(c') && !IsEarly(work) && !work.DoInsertBatch?
    ensures c'.chunks == c.chunks
  {
  }

  lemma WorkerChunkFrame(c: Cell, work: Work, c': Cell)
    requires StepWorker(c, work) == Some(c') && !work.DoDiscardStale? && !work.DoInsertBatch?
    ensures c'.chunks == c.chunks
  {
    if IsEarly(work) {
      EarlyChunkFrame(c, work, c');
    } else {
      LateChunkFrame(c, work, c');
    }
  }

  lemma UserFreezesActive(c: Cell, request: Request, c': Cell)
    requires Core(c) && StepUser(c, request) == Some(c')
    ensures Frozen(c, c')
  {
  }

  lemma AdminFreezesActive(c: Cell, triage: Triage, c': Cell)
    requires Core(c) && StepAdmin(c, triage) == Some(c')
    ensures Frozen(c, c')
  {
  }

  lemma WorkerFreezesActive(c: Cell, work: Work, c': Cell)
    requires Core(c) && StepWorker(c, work) == Some(c') && SafeLabel(c, ByWorker(work))
    ensures Frozen(c, c')
  {
    match work
    case DoDiscardStale(t) => DiscardFreezesActive(c, t, c');
    case DoInsertBatch(t, size) => BatchFreezesActive(c, t, size, c');
    case _ => WorkerChunkFrame(c, work, c');
  }

  lemma DispatcherFreezesActive(c: Cell, outbox: Outbox, c': Cell)
    requires Core(c) && StepDispatcher(c, outbox) == Some(c')
    ensures Frozen(c, c')
  {
  }

  lemma MaintenanceFreezesActive(c: Cell, upkeep: Upkeep, c': Cell)
    requires Core(c) && StepMaintenance(c, upkeep) == Some(c')
    ensures Frozen(c, c')
  {
  }

  lemma DeleterFreezesActive(c: Cell, removal: Removal, c': Cell)
    requires Core(c) && StepDeleter(c, removal) == Some(c')
    ensures Frozen(c, c')
  {
  }

  lemma StepFreezesActive(c: Cell, l: Label, c': Cell)
    requires Core(c) && Step(c, l) == Some(c') && SafeLabel(c, l)
    ensures Frozen(c, c')
  {
    match l
    case ByUser(request) => UserFreezesActive(c, request, c');
    case ByAdmin(triage) => AdminFreezesActive(c, triage, c');
    case ByWorker(work) => WorkerFreezesActive(c, work, c');
    case ByDispatcher(outbox) => DispatcherFreezesActive(c, outbox, c');
    case ByMaintenance(upkeep) => MaintenanceFreezesActive(c, upkeep, c');
    case ByDeleter(removal) => DeleterFreezesActive(c, removal, c');
  }

  /** No later build touches the active index: between two activations its chunks stay the same. */
  lemma {:induction false} ActiveIndexIsFrozen(c: Cell, ls: seq<Label>, c': Cell)
    requires Core(c) && c.row.Present? && SafeRun(c, ls) && Exec(c, ls) == Some(c') && Activations(ls) == 0
    ensures Frozen(c, c')
    decreases |ls|
  {
    if ls != [] {
      var next := Step(c, ls[0]).value;
      RowStep(c, ls[0], next);
      StepKeepsInv(c, ls[0], next);
      StepFreezesActive(c, ls[0], next);
      if next.row.Present? {
        ActiveIndexIsFrozen(next, ls[1..], c');
      } else {
        GoneForever(next, ls[1..], c');
      }
    }
  }

  // ---------- deletion ----------

  predicate Tombstoned(c: Cell) {
    c.row.Gone? || HasStatus(c, Deleting)
  }

  predicate IsIngestReplay(l: Label) {
    l.ByAdmin? && l.triage.DoReplayIngest?
  }

  lemma UserTombstoneStep(c: Cell, request: Request, c': Cell)
    requires Core(c) && Tombstoned(c) && StepUser(c, request) == Some(c')
    ensures Tombstoned(c') <==> !IsIngestReplay(ByUser(request))
  {
  }

  lemma AdminTombstoneStep(c: Cell, triage: Triage, c': Cell)
    requires Core(c) && Tombstoned(c) && StepAdmin(c, triage) == Some(c')
    ensures Tombstoned(c') <==> !IsIngestReplay(ByAdmin(triage))
  {
  }

  lemma EarlyTombstoneStep(c: Cell, work: Work, c': Cell)
    requires Core(c) && Tombstoned(c) && StepWorker(c, work) == Some(c') && IsEarly(work)
    ensures Tombstoned(c')
  {
  }

  lemma LateTombstoneStep(c: Cell, work: Work, c': Cell)
    requires Core(c) && Tombstoned(c) && StepWorker(c, work) == Some(c') && !IsEarly(work)
    ensures Tombstoned(c')
  {
  }

  lemma WorkerTombstoneStep(c: Cell, work: Work, c': Cell)
    requires Core(c) && Tombstoned(c) && StepWorker(c, work) == Some(c')
    ensures Tombstoned(c') <==> !IsIngestReplay(ByWorker(work))
  {
    if IsEarly(work) {
      EarlyTombstoneStep(c, work, c');
    } else {
      LateTombstoneStep(c, work, c');
    }
  }

  lemma DispatcherTombstoneStep(c: Cell, outbox: Outbox, c': Cell)
    requires Core(c) && Tombstoned(c) && StepDispatcher(c, outbox) == Some(c')
    ensures Tombstoned(c') <==> !IsIngestReplay(ByDispatcher(outbox))
  {
  }

  lemma MaintenanceTombstoneStep(c: Cell, upkeep: Upkeep, c': Cell)
    requires Core(c) && Tombstoned(c) && StepMaintenance(c, upkeep) == Some(c')
    ensures Tombstoned(c') <==> !IsIngestReplay(ByMaintenance(upkeep))
  {
  }

  lemma DeleterTombstoneStep(c: Cell, removal: Removal, c': Cell)
    requires Core(c) && Tombstoned(c) && StepDeleter(c, removal) == Some(c')
    ensures Tombstoned(c') <==> !IsIngestReplay(ByDeleter(removal))
  {
  }

  /** One step takes a document out of deletion exactly when it replays an ingestion letter. */
  lemma TombstoneStep(c: Cell, l: Label, c': Cell)
    requires Core(c) && Tombstoned(c) && Step(c, l) == Some(c')
    ensures Tombstoned(c') <==> !IsIngestReplay(l)
  {
    match l
    case ByUser(request) => UserTombstoneStep(c, request, c');
    case ByAdmin(triage) => AdminTombstoneStep(c, triage, c');
    case ByWorker(work) => WorkerTombstoneStep(c, work, c');
    case ByDispatcher(outbox) => DispatcherTombstoneStep(c, outbox, c');
    case ByMaintenance(upkeep) => MaintenanceTombstoneStep(c, upkeep, c');
    case ByDeleter(removal) => DeleterTombstoneStep(c, removal, c');
  }

  /** Deletion is absorbing along every schedule without such a replay. */
  lemma {:induction false} DeletionIsAbsorbing(c: Cell, ls: seq<Label>, c': Cell)
    requires Core(c) && Tombstoned(c) && Exec(c, ls) == Some(c')
    requires forall l :: l in ls ==> !IsIngestReplay(l)
    ensures Tombstoned(c') && !RowIsClaimable(c') && (forall t :: !HoldsLease(c', t))
    decreases |ls|
  {
    if ls != [] {
      var next := Step(c, ls[0]).value;
      TombstoneStep(c, ls[0], next);
      StepKeepsInv(c, ls[0], next);
      DeletionIsAbsorbing(next, ls[1..], c');
    }
  }
}
