/** Checkpoint resume: exactly when the activated chunks are those of one uninterrupted build. */
module IngestionResume {
  import opened Wrappers
  import opened Ingestion
  import opened IngestionSafety
  import opened IngestionFencing
  import opened IngestionProgress
  import opened IngestionContent

  /** The chunks of a build that starts from nothing and is never interrupted. */
  function FreshBuild(pieces: seq<string>, model: nat, v: nat): ChunkTable {
    map i: nat | i < |pieces| :: ChunkKey(v, i) := Chunk(pieces[i], Encode(model, pieces[i]))
  }

  function AtVersion(chunks: ChunkTable, v: nat): ChunkTable {
    map k | k in chunks && k.version == v :: chunks[k]
  }

  // ---------- one attempt ----------

  lemma ResumedAt(chunks: ChunkTable, reuse: bool, pieces: seq<string>, v: nat, model: nat, k: ChunkKey)
    requires k.version == v
    ensures k in Resumed(chunks, reuse, pieces, v, model) <==> k.seqNo < |pieces|
    ensures k.seqNo < |pieces| ==>
              Resumed(chunks, reuse, pieces, v, model)[k] ==
                if Reusable(chunks, reuse, pieces, v, k.seqNo) then chunks[k]
                else Chunk(pieces[k.seqNo], Encode(model, pieces[k.seqNo]))
  {
    PendingIsWhatIsNotReusable(chunks, reuse, pieces, v, 0);
    assert k == ChunkKey(v, k.seqNo);
  }

  lemma FreshAt(pieces: seq<string>, model: nat, v: nat, k: ChunkKey)
    ensures k in FreshBuild(pieces, model, v) <==> k.version == v && k.seqNo < |pieces|
    ensures k.version == v && k.seqNo < |pieces| ==>
              FreshBuild(pieces, model, v)[k] == Chunk(pieces[k.seqNo], Encode(model, pieces[k.seqNo]))
  {
    assert k == ChunkKey(k.version, k.seqNo);
  }

  /** One attempt ends like a fresh build exactly when every chunk it reuses was embedded by its own
      model: reuse looks at the stored text, not at the model. */
  lemma ResumedIsFreshIff(chunks: ChunkTable, reuse: bool, pieces: seq<string>, v: nat, model: nat)
    ensures AtVersion(Resumed(chunks, reuse, pieces, v, model), v) == FreshBuild(pieces, model, v)
       <==> forall i: nat :: Reusable(chunks, reuse, pieces, v, i)
              ==> chunks[ChunkKey(v, i)].vector == Encode(model, pieces[i])
  {
    var left := AtVersion(Resumed(chunks, reuse, pieces, v, model), v);
    var right := FreshBuild(pieces, model, v);
    forall k: ChunkKey
      ensures k in left <==> k in right
      ensures k in left && k in right ==>
        (left[k] == right[k] <==>
           (Reusable(chunks, reuse, pieces, v, k.seqNo) ==> chunks[k].vector == Encode(model, pieces[k.seqNo])))
    {
      FreshAt(pieces, model, v, k);
      if k.version == v {
        ResumedAt(chunks, reuse, pieces, v, model, k);
      }
    }
    if left == right {
      forall i: nat | Reusable(chunks, reuse, pieces, v, i)
        ensures chunks[ChunkKey(v, i)].vector == Encode(model, pieces[i])
      {
        FreshAt(pieces, model, v, ChunkKey(v, i));
        assert left[ChunkKey(v, i)] == right[ChunkKey(v, i)];
      }
    }
  }

  // ---------- every schedule, whatever models it uses ----------

  /** Every chunk above the active version was embedded by the model of the stored fingerprint. */
  ghost predicate Fits(c: Cell) {
    c.row.Present? ==>
      forall k :: k in c.chunks && k.version > Base(c.row.doc) ==>
        && c.row.doc.fingerprint.Some?
        && c.chunks[k].vector == Encode(c.row.doc.fingerprint.value.model, c.chunks[k].content)
  }

  /** A lease holder between the stamp of a changed fingerprint and the discard of the old chunks. */
  predicate Discarding(c: Cell, t: Token) {
    && HoldsLease(c, t) && t in c.workers
    && match c.workers[t].phase
       case Planned(reuse, _) => !reuse
       case Splitting(reuse, _) => !reuse
       case Split(reuse, _, _) => !reuse
       case _ => false
  }

  ghost predicate HolderOk(c: Cell, t: Token) {
    HoldsLease(c, t) && t in c.workers && PastPlan(c.workers[t].phase) ==>
      && c.row.doc.fingerprint == Some(PrintOf(c.workers[t]))
      && (c.workers[t].phase.Batching? || c.workers[t].phase.Counting? ==> Fits(c))
  }

  /** The stored fingerprint tells the truth about the chunks, or its writer is about to make it true. */
  ghost predicate PrintInv(c: Cell) {
    (Fits(c) || exists t :: Discarding(c, t)) && forall t :: HolderOk(c, t)
  }

  /** The step takes the lease or the life of `t`. */
  predicate Ends(l: Label, t: Token) {
    Fences(l, t) || (l.ByWorker? && (l.work.DoCrash? || l.work.DoKillAndAcknowledge?) && l.work.t == t)
  }

  /** The step ends an attempt between stamp and discard while chunks of another model are still there
      and the row stays. */
  ghost predicate Abandons(c: Cell, l: Label) {
    && !Fits(c) && !(l.ByUser? && l.request.DoDeleteKnowledgeBase?)
    && exists t :: Discarding(c, t) && Ends(l, t)
  }

  predicate Shrinks(c: Cell, c': Cell) {
    forall k :: k in c'.chunks ==> k in c.chunks && c'.chunks[k] == c.chunks[k]
  }

  predicate TokenStays(c: Cell, c': Cell) {
    c'.row.Present? && c'.row.doc.token.Some? ==> c.row.Present? && c'.row.doc.token == c.row.doc.token
  }

  lemma UserShrinks(c: Cell, request: Request, c': Cell)
    requires StepUser(c, request) == Some(c')
    ensures Shrinks(c, c') && TokenStays(c, c')
  {
  }

  lemma AdminShrinks(c: Cell, triage: Triage, c': Cell)
    requires StepAdmin(c, triage) == Some(c')
    ensures Shrinks(c, c') && TokenStays(c, c')
  {
  }

  lemma DispatcherShrinks(c: Cell, outbox: Outbox, c': Cell)
    requires StepDispatcher(c, outbox) == Some(c')
    ensures Shrinks(c, c') && TokenStays(c, c')
  {
  }

  lemma MaintenanceShrinks(c: Cell, upkeep: Upkeep, c': Cell)
    requires StepMaintenance(c, upkeep) == Some(c')
    ensures Shrinks(c, c') && TokenStays(c, c')
  {
  }

  lemma DeleterShrinks(c: Cell, removal: Removal, c': Cell)
    requires StepDeleter(c, removal) == Some(c')
    ensures Shrinks(c, c') && TokenStays(c, c')
  {
  }

  lemma OthersShrink(c: Cell, l: Label, c': Cell)
    requires Step(c, l) == Some(c') && !l.ByWorker?
    ensures Shrinks(c, c') && TokenStays(c, c')
  {
    match l
    case ByUser(request) => UserShrinks(c, request, c');
    case ByAdmin(triage) => AdminShrinks(c, triage, c');
    case ByDispatcher(outbox) => DispatcherShrinks(c, outbox, c');
    case ByMaintenance(upkeep) => MaintenanceShrinks(c, upkeep, c');
    case ByDeleter(removal) => DeleterShrinks(c, removal, c');
  }

  /** Chunks at most disappear, index columns and fingerprint stay. */
  ghost predicate Quiet(c: Cell, c': Cell) {
    && Shrinks(c, c')
    && (c'.row.Present? ==>
          && c.row.Present? && c'.row.doc.active == c.row.doc.active
          && c'.row.doc.fingerprint == c.row.doc.fingerprint)
  }

  /** A worker past its plan was there before, with the same fingerprint and at least as far. */
  ghost predicate HolderWas(c: Cell, c': Cell, t: Token) {
    HoldsLease(c', t) && t in c'.workers && PastPlan(c'.workers[t].phase) ==>
      && HoldsLease(c, t) && t in c.workers && PastPlan(c.workers[t].phase)
      && PrintOf(c'.workers[t]) == PrintOf(c.workers[t])
      && (c'.workers[t].phase.Batching? || c'.workers[t].phase.Counting? ==>
            c.workers[t].phase.Batching? || c.workers[t].phase.Counting?)
  }

  lemma QuietKeepsPrint(c: Cell, l: Label, c': Cell)
    requires PrintInv(c) && Quiet(c, c') && !Abandons(c, l)
    requires forall t :: HolderWas(c, c', t)
    requires forall t :: Discarding(c, t) && !Ends(l, t) ==> Discarding(c', t)
    requires l.ByUser? && l.request.DoDeleteKnowledgeBase? ==> !c'.row.Present?
    ensures PrintInv(c')
  {
    if Fits(c) {
      assert Fits(c');
    } else {
      var t :| Discarding(c, t);
      assert c'.row.Present? ==> !Ends(l, t) && Discarding(c', t);
    }
    forall t ensures HolderOk(c', t) {
      assert HolderWas(c, c', t) && HolderOk(c, t);
    }
  }

  lemma HolderHasClaimed(c: Cell, t: Token)
    requires Core(c) && HoldsLease(c, t)
    ensures HasClaimed(c, t)
  {
    assert t in c.workers ==> BuildOk(c, c.row.doc, c.workers[t].phase);
  }

  lemma OthersKeepDiscarding(c: Cell, l: Label, c': Cell, t: Token)
    requires Core(c) && Step(c, l) == Some(c') && !l.ByWorker? && c'.workers == c.workers
    requires Discarding(c, t) && !Ends(l, t)
    ensures Discarding(c', t)
  {
    HolderHasClaimed(c, t);
    LeaseStep(c, l, t, c');
  }

  lemma OthersKeepPrint(c: Cell, l: Label, c': Cell)
    requires Core(c) && PrintInv(c) && Step(c, l) == Some(c') && !l.ByWorker? && !Abandons(c, l)
    ensures PrintInv(c')
  {
    OthersBystand(c, l, c');
    OthersShrink(c, l, c');
    forall t | Discarding(c, t) && !Ends(l, t) ensures Discarding(c', t) {
      OthersKeepDiscarding(c, l, c', t);
    }
    forall t ensures HolderWas(c, c', t) {
    }
    if c.row.Present? {
      QuietKeepsPrint(c, l, c');
    } else {
      assert c'.chunks == map[];
      assert Fits(c');
      forall t ensures HolderOk(c', t) {
      }
    }
  }

  predicate MovesPrint(work: Work) {
    work.DoPlanReuse? || work.DoDiscardStale? || work.DoInsertBatch? || work.DoActivate?
  }

  lemma ClaimingQuiet(c: Cell, work: Work, c': Cell)
    requires Core(c) && StepWorker(c, work) == Some(c')
    requires work.DoDeliver? || work.DoClaim? || work.DoSkipClaim? || work.DoDuplicate?
    ensures Quiet(c, c') && forall t :: HolderWas(c, c', t)
    ensures forall t :: Discarding(c, t) && !Ends(ByWorker(work), t) ==> Discarding(c', t)
  {
    assert forall t :: HoldsLease(c, t) && t in c.workers ==> BuildOk(c, c.row.doc, c.workers[t].phase);
  }

  lemma SplittingQuiet(c: Cell, work: Work, c': Cell)
    requires StepWorker(c, work) == Some(c') && (work.DoRowVanished? || work.DoToChunking? || work.DoToEmbedding?)
    ensures Quiet(c, c') && forall t :: HolderWas(c, c', t)
    ensures forall t :: Discarding(c, t) && !Ends(ByWorker(work), t) ==> Discarding(c', t)
  {
  }

  lemma FailingQuiet(c: Cell, work: Work, c': Cell)
    requires Core(c) && StepWorker(c, work) == Some(c')
    requires work.DoToIndexing? || work.DoLoseLease? || work.DoFailAndRetry? || work.DoFailTerminally?
    ensures Quiet(c, c') && forall t :: HolderWas(c, c', t)
    ensures forall t :: Discarding(c, t) && !Ends(ByWorker(work), t) ==> Discarding(c', t)
  {
  }

  lemma LeavingQuiet(c: Cell, work: Work, c': Cell)
    requires Core(c) && StepWorker(c, work) == Some(c')
    requires work.DoPublishRetry? || work.DoAcknowledge? || work.DoCrash? || work.DoKillAndAcknowledge?
    ensures Quiet(c, c') && forall t :: HolderWas(c, c', t)
    ensures forall t :: Discarding(c, t) && !Ends(ByWorker(work), t) ==> Discarding(c', t)
  {
  }

  lemma WorkerQuiet(c: Cell, work: Work, c': Cell)
    requires Core(c) && StepWorker(c, work) == Some(c') && !MovesPrint(work)
    ensures Quiet(c, c') && forall t :: HolderWas(c, c', t)
    ensures forall t :: Discarding(c, t) && !Ends(ByWorker(work), t) ==> Discarding(c', t)
  {
    if work.DoDeliver? || work.DoClaim? || work.DoSkipClaim? || work.DoDuplicate? {
      ClaimingQuiet(c, work, c');
    } else if work.DoRowVanished? || work.DoToChunking? || work.DoToEmbedding? {
      SplittingQuiet(c, work, c');
    } else if work.DoToIndexing? || work.DoLoseLease? || work.DoFailAndRetry? || work.DoFailTerminally? {
      FailingQuiet(c, work, c');
    } else {
      LeavingQuiet(c, work, c');
    }
  }

  lemma QuietWorkerPrint(c: Cell, work: Work, c': Cell)
    requires Core(c) && PrintInv(c) && StepWorker(c, work) == Some(c') && !MovesPrint(work)
    requires !Abandons(c, ByWorker(work))
    ensures PrintInv(c')
  {
    WorkerQuiet(c, work, c');
    QuietKeepsPrint(c, ByWorker(work), c');
  }

  lemma PlanReusePrint(c: Cell, t: Token, c': Cell)
    requires Core(c) && PrintInv(c) && PlanReuse(c, t) == Some(c')
    ensures PrintInv(c')
  {
    forall u | Discarding(c, u) ensures Discarding(c', u) {
    }
    forall u ensures HolderOk(c', u) {
      assert HolderOk(c, u);
    }
    if HoldsLease(c, t) {
      assert forall u :: !Discarding(c, u);
      if c'.workers[t].phase.reuse {
        assert Fits(c');
      } else {
        assert Discarding(c', t);
      }
    } else if Fits(c) {
      assert Fits(c');
    }
  }

  lemma DiscardStalePrint(c: Cell, t: Token, c': Cell)
    requires Core(c) && PrintInv(c) && DiscardStale(c, t) == Some(c')
    ensures PrintInv(c')
  {
    if HoldsLease(c, t) {
      assert HolderOk(c, t) && BuildOk(c, c.row.doc, c.workers[t].phase);
      assert Fits(c') by {
        if c.workers[t].phase.reuse {
          assert forall u :: !Discarding(c, u);
        }
      }
      forall u ensures HolderOk(c', u) {
      }
    } else {
      assert forall u :: Discarding(c, u) ==> Discarding(c', u);
      forall u ensures HolderOk(c', u) {
        assert HolderOk(c, u);
      }
      if Fits(c) {
        assert Fits(c');
      }
    }
  }

  lemma InsertBatchPrint(c: Cell, t: Token, size: nat, c': Cell)
    requires Core(c) && PrintInv(c) && InsertBatch(c, t, size) == Some(c')
    ensures PrintInv(c')
  {
    assert HolderOk(c, t);
    assert Fits(c');
    forall u ensures HolderOk(c', u) {
    }
  }

  lemma ActivatePrint(c: Cell, t: Token, c': Cell)
    requires Core(c) && Activate(c, t) == Some(c')
    ensures PrintInv(c')
  {
    assert BuildOk(c, c.row.doc, c.workers[t].phase);
    assert Fits(c');
    forall u ensures HolderOk(c', u) {
    }
  }

  lemma WorkerKeepsPrint(c: Cell, work: Work, c': Cell)
    requires Core(c) && PrintInv(c) && StepWorker(c, work) == Some(c') && !Abandons(c, ByWorker(work))
    ensures PrintInv(c')
  {
    match work
    case DoPlanReuse(t) => PlanReusePrint(c, t, c');
    case DoDiscardStale(t) => DiscardStalePrint(c, t, c');
    case DoInsertBatch(t, size) => InsertBatchPrint(c, t, size, c');
    case DoActivate(t) => ActivatePrint(c, t, c');
    case _ => QuietWorkerPrint(c, work, c');
  }

  /** Nobody holds the lease between stamp and discard any more, and the chunks are as they were. */
  ghost predicate LeftBehind(c: Cell, c': Cell) {
    && c.row.Present? && c'.row.Present? && c'.chunks == c.chunks
    && c'.row.doc.active == c.row.doc.active && c'.row.doc.fingerprint == c.row.doc.fingerprint
    && forall u :: !Discarding(c', u)
  }

  lemma UserLeavesBehind(c: Cell, request: Request, t: Token, c': Cell)
    requires Discarding(c, t) && StepUser(c, request) == Some(c')
    requires Ends(ByUser(request), t) && !request.DoDeleteKnowledgeBase?
    ensures LeftBehind(c, c')
  {
  }

  lemma AdminLeavesBehind(c: Cell, triage: Triage, t: Token, c': Cell)
    requires Discarding(c, t) && StepAdmin(c, triage) == Some(c') && Ends(ByAdmin(triage), t)
    ensures LeftBehind(c, c')
  {
  }

  lemma WorkerLeavesBehind(c: Cell, work: Work, t: Token, c': Cell)
    requires Discarding(c, t) && StepWorker(c, work) == Some(c') && Ends(ByWorker(work), t)
    ensures LeftBehind(c, c')
  {
  }

  lemma MaintenanceLeavesBehind(c: Cell, upkeep: Upkeep, t: Token, c': Cell)
    requires Discarding(c, t) && StepMaintenance(c, upkeep) == Some(c') && Ends(ByMaintenance(upkeep), t)
    ensures LeftBehind(c, c')
  {
  }

  lemma EndLeavesBehind(c: Cell, l: Label, t: Token, c': Cell)
    requires Core(c) && Discarding(c, t) && Step(c, l) == Some(c') && Ends(l, t)
    requires !(l.ByUser? && l.request.DoDeleteKnowledgeBase?)
    ensures LeftBehind(c, c')
  {
    match l
    case ByUser(request) => UserLeavesBehind(c, request, t, c');
    case ByAdmin(triage) => AdminLeavesBehind(c, triage, t, c');
    case ByWorker(work) => WorkerLeavesBehind(c, work, t, c');
    case ByMaintenance(upkeep) => MaintenanceLeavesBehind(c, upkeep, t, c');
    case ByDispatcher(_) => assert false;
    case ByDeleter(_) => assert false;
  }

  /** A step breaks the promise of the stored fingerprint exactly when it abandons such an attempt. */
  lemma StepPrintIff(c: Cell, l: Label, c': Cell)
    requires Core(c) && PrintInv(c) && Step(c, l) == Some(c')
    ensures PrintInv(c') <==> !Abandons(c, l)
  {
    if Abandons(c, l) {
      var t :| Discarding(c, t) && Ends(l, t);
      EndLeavesBehind(c, l, t, c');
    } else if l.ByWorker? {
      WorkerKeepsPrint(c, l.work, c');
    } else {
      OthersKeepPrint(c, l, c');
    }
  }

  // ---------- the active index ----------

  /** The active chunks were embedded by the attempt that activated them. */
  ghost predicate ActiveFits(c: Cell) {
    c.row.Present? && c.row.doc.active.Some? ==>
      && c.row.doc.built.Some?
      && forall k :: k in c.chunks && k.version == c.row.doc.active.value ==>
           c.chunks[k].vector == Encode(c.row.doc.built.value.model, c.chunks[k].content)
  }

  lemma InsertBatchActive(c: Cell, t: Token, size: nat, c': Cell)
    requires Core(c) && ActiveFits(c) && InsertBatch(c, t, size) == Some(c')
    ensures ActiveFits(c')
  {
    assert BuildOk(c, c.row.doc, c.workers[t].phase);
  }

  lemma ActivateActive(c: Cell, t: Token, c': Cell)
    requires Core(c) && PrintInv(c) && Activate(c, t) == Some(c')
    ensures ActiveFits(c')
  {
    assert HolderOk(c, t) && BuildOk(c, c.row.doc, c.workers[t].phase);
  }

  lemma EarlyActive(c: Cell, work: Work, c': Cell)
    requires ActiveFits(c) && StepWorker(c, work) == Some(c') && IsEarly(work)
    ensures ActiveFits(c')
  {
  }

  lemma LateActive(c: Cell, work: Work, c': Cell)
    requires ActiveFits(c) && StepWorker(c, work) == Some(c')
    requires !IsEarly(work) && !work.DoInsertBatch? && !work.DoActivate?
    ensures ActiveFits(c')
  {
  }

  lemma StepActive(c: Cell, l: Label, c': Cell)
    requires Core(c) && PrintInv(c) && ActiveFits(c) && Step(c, l) == Some(c')
    ensures ActiveFits(c')
  {
    match l
    case ByWorker(work) =>
      match work {
        case DoInsertBatch(t, size) => InsertBatchActive(c, t, size, c');
        case DoActivate(t) => ActivateActive(c, t, c');
        case _ => if IsEarly(work) { EarlyActive(c, work, c'); } else { LateActive(c, work, c'); }
      }
    case _ =>
      OthersBystand(c, l, c');
      OthersShrink(c, l, c');
  }

  /** No step of the schedule abandons an attempt between the stamp of a changed fingerprint and the
      discard of chunks of another model. */
  ghost predicate SoundRun(c: Cell, ls: seq<Label>)
    decreases |ls|
  {
    ls != [] ==> !Abandons(c, ls[0]) && (Step(c, ls[0]).Some? ==> SoundRun(Step(c, ls[0]).value, ls[1..]))
  }

  lemma {:induction false} RunPrint(c: Cell, ls: seq<Label>, c': Cell)
    requires Core(c) && PrintInv(c) && ActiveFits(c) && SoundRun(c, ls) && Exec(c, ls) == Some(c')
    ensures PrintInv(c') && ActiveFits(c')
    decreases |ls|
  {
    if ls != [] {
      var next := Step(c, ls[0]).value;
      StepKeepsInv(c, ls[0], next);
      StepPrintIff(c, ls[0], next);
      StepActive(c, ls[0], next);
      RunPrint(next, ls[1..], c');
    }
  }

  lemma ActiveIsFresh(c: Cell)
    requires Inv(c) && ActiveFits(c) && c.row.Present? && c.row.doc.active.Some?
    ensures AtVersion(c.chunks, c.row.doc.active.value)
         == FreshBuild(c.row.doc.split, c.row.doc.built.value.model, c.row.doc.active.value)
  {
    var d := c.row.doc;
    var v := d.active.value;
    forall k: ChunkKey
      ensures k in AtVersion(c.chunks, v) <==> k in FreshBuild(d.split, d.built.value.model, v)
    {
      FreshAt(d.split, d.built.value.model, v, k);
      assert k == ChunkKey(k.version, k.seqNo);
    }
  }

  /** Whatever crashes, retries, partial batches, replacements and changes of model and configuration a
      schedule holds: unless it abandons such an attempt, the active index is, chunk by chunk, one
      uninterrupted build of the fingerprint of the attempt that activated it, from the content that
      this attempt had loaded. */
  lemma ResumeUnderStoredFingerprint(f: Splitter, config: Config, clock: int, ls: seq<Label>, c: Cell)
    requires var start := Initial(config, clock);
             Exec(start, ls) == Some(c) && SafeRun(start, ls) && SoundRun(start, ls) && FaithfulRun(f, start, ls)
    requires c.row.Present? && c.row.doc.active.Some?
    ensures var d := c.row.doc;
            && d.built.Some? && d.built.value.content == IndexedContent(ls)
            && AtVersion(c.chunks, d.active.value) == FreshBuild(f(d.built.value), d.built.value.model, d.active.value)
  {
    var start := Initial(config, clock);
    RunKeepsInv(start, ls, c);
    RunPrint(start, ls, c);
    RunContent(f, start, ls, c);
    RunHistory(start, ls, c);
    ActiveIsFresh(c);
  }

  // ---------- schedules of one embedding model ----------

  predicate LabelModel(l: Label, model: nat) {
    l.ByWorker? && l.work.DoDeliver? ==> l.work.model == model
  }

  /** The workers and the fingerprints that they have left. */
  ghost predicate ModelOk(c: Cell, model: nat) {
    && (forall t :: t in c.workers ==> c.workers[t].model == model)
    && (c.row.Present? && c.row.doc.fingerprint.Some? ==> c.row.doc.fingerprint.value.model == model)
    && (c.row.Present? && c.row.doc.built.Some? ==> c.row.doc.built.value.model == model)
  }

  lemma EarlyModels(c: Cell, work: Work, model: nat, c': Cell)
    requires ModelOk(c, model) && LabelModel(ByWorker(work), model) && StepWorker(c, work) == Some(c') && IsEarly(work)
    ensures ModelOk(c', model)
  {
  }

  lemma LateModels(c: Cell, work: Work, model: nat, c': Cell)
    requires ModelOk(c, model) && StepWorker(c, work) == Some(c') && !IsEarly(work)
    ensures ModelOk(c', model)
  {
  }

  lemma PlanReuseFits(c: Cell, t: Token, model: nat, c': Cell)
    requires Fits(c) && ModelOk(c, model) && ModelOk(c', model) && PlanReuse(c, t) == Some(c')
    ensures Fits(c')
  {
  }

  lemma DiscardStaleFits(c: Cell, t: Token, c': Cell)
    requires Fits(c) && DiscardStale(c, t) == Some(c')
    ensures Fits(c')
  {
  }

  lemma InsertBatchFits(c: Cell, t: Token, size: nat, c': Cell)
    requires PrintInv(c') && InsertBatch(c, t, size) == Some(c')
    ensures Fits(c')
  {
    assert HolderOk(c', t);
  }

  lemma ActivateFits(c: Cell, t: Token, c': Cell)
    requires PrintInv(c') && Activate(c, t) == Some(c')
    ensures Fits(c')
  {
    assert forall u :: !Discarding(c', u);
  }

  lemma QuietFits(c: Cell, work: Work, c': Cell)
    requires Core(c) && Fits(c) && StepWorker(c, work) == Some(c') && !MovesPrint(work)
    ensures Fits(c')
  {
    WorkerQuiet(c, work, c');
  }

  lemma WorkerFits(c: Cell, work: Work, model: nat, c': Cell)
    requires Core(c) && Fits(c) && ModelOk(c, model) && StepWorker(c, work) == Some(c')
    requires PrintInv(c') && ModelOk(c', model)
    ensures Fits(c')
  {
    match work
    case DoPlanReuse(t) => PlanReuseFits(c, t, model, c');
    case DoDiscardStale(t) => DiscardStaleFits(c, t, c');
    case DoInsertBatch(t, size) => InsertBatchFits(c, t, size, c');
    case DoActivate(t) => ActivateFits(c, t, c');
    case _ => QuietFits(c, work, c');
  }

  lemma StepOneModel(c: Cell, l: Label, model: nat, c': Cell)
    requires Core(c) && PrintInv(c) && Fits(c) && ModelOk(c, model) && LabelModel(l, model) && Step(c, l) == Some(c')
    ensures PrintInv(c') && Fits(c') && ModelOk(c', model)
  {
    StepPrintIff(c, l, c');
    if !l.ByWorker? {
      OthersBystand(c, l, c');
      OthersShrink(c, l, c');
    } else {
      if IsEarly(l.work) {
        EarlyModels(c, l.work, model, c');
      } else {
        LateModels(c, l.work, model, c');
      }
      WorkerFits(c, l.work, model, c');
    }
  }

  lemma {:induction false} RunOneModel(c: Cell, ls: seq<Label>, model: nat, c': Cell)
    requires Core(c) && PrintInv(c) && Fits(c) && ModelOk(c, model) && forall l :: l in ls ==> LabelModel(l, model)
    requires Exec(c, ls) == Some(c')
    ensures SoundRun(c, ls) && ModelOk(c', model)
    decreases |ls|
  {
    if ls != [] {
      var next := Step(c, ls[0]).value;
      StepKeepsInv(c, ls[0], next);
      StepOneModel(c, ls[0], model, next);
      RunOneModel(next, ls[1..], model, c');
    }
  }

  /** As long as the embedding model stays the same, no crash, lost lease, partial batch, replacement or
      change of the chunk configuration matters: every active index is a fresh build of its split. */
  lemma ResumeEqualsFreshBuild(c: Cell, ls: seq<Label>, model: nat, c': Cell)
    requires Inv(c) && PrintInv(c) && ActiveFits(c) && Fits(c) && ModelOk(c, model)
    requires forall l :: l in ls ==> LabelModel(l, model)
    requires Exec(c, ls) == Some(c') && SafeRun(c, ls) && c'.row.Present? && c'.row.doc.active.Some?
    ensures AtVersion(c'.chunks, c'.row.doc.active.value)
         == FreshBuild(c'.row.doc.split, model, c'.row.doc.active.value)
  {
    RunOneModel(c, ls, model, c');
    RunPrint(c, ls, c');
    RunKeepsInv(c, ls, c');
    ActiveIsFresh(c');
  }

  // ---------- what an abandoned attempt leaves ----------

  /** An attempt that is left alone after its split activates a fresh build exactly when no chunk that
      it reuses was embedded by another model. */
  lemma ReuseIsFreshIff(c: Cell, t: Token) returns (ls: seq<Label>, d: Cell)
    requires Core(c) && HoldsLease(c, t) && t in c.workers && c.workers[t].phase.Split?
    ensures SystemRun(c, ls, d) && HasStatus(d, Ready)
    ensures var w, v := c.workers[t], Base(c.row.doc) + 1;
            && d.row.doc.active == Some(v) && d.row.doc.built == Some(PrintOf(w))
            && (AtVersion(d.chunks, v) == FreshBuild(w.phase.pieces, w.model, v) <==>
                  forall i: nat :: Reusable(c.chunks, w.phase.reuse, w.phase.pieces, v, i)
                    ==> c.chunks[ChunkKey(v, i)].vector == Encode(w.model, w.phase.pieces[i]))
  {
    ls, d := SplitFinishes(c, t);
    var w := c.workers[t];
    ResumedIsFreshIff(c.chunks, w.phase.reuse, w.phase.pieces, Base(c.row.doc) + 1, w.model);
  }

  /** A claimable document whose stored fingerprint is that of its content but does not fit chunk `i`
      above the active version: the next attempt under that fingerprint, left alone, activates that
      chunk, and so no fresh build, whenever its split has the same text there. */
  lemma MisfitIsActivated(c: Cell, t: Token, pieces: seq<string>, i: nat) returns (ls: seq<Label>, d: Cell)
    requires Core(c) && InPhase(c, t, Started) && RowIsClaimable(c)
    requires c.row.doc.fingerprint == Some(PrintOf(c.workers[t].(content := c.row.doc.content)))
    requires var k := ChunkKey(Base(c.row.doc) + 1, i);
             && i < |pieces| && k in c.chunks && c.chunks[k].content == pieces[i]
             && c.chunks[k].vector != Encode(c.workers[t].model, pieces[i])
    ensures SystemRun(c, ls, d) && HasStatus(d, Ready) && d.row.doc.split == pieces
    ensures var v := Base(c.row.doc) + 1;
            && d.row.doc.active == Some(v) && d.row.doc.built == c.row.doc.fingerprint
            && AtVersion(d.chunks, v) != FreshBuild(pieces, c.workers[t].model, v)
  {
    ls, d := ClaimToPlan(c, t);
    var more, e := PlanToSplit(d, t, pieces);
    Then(c, ls, d, more, e);
    ls := ls + more;
    more, d := SplitFinishes(e, t);
    Then(c, ls, e, more, d);
    ls := ls + more;
    var v := Base(c.row.doc) + 1;
    ResumedIsFreshIff(e.chunks, true, pieces, v, e.workers[t].model);
    assert Reusable(e.chunks, true, pieces, v, i);
  }
}
