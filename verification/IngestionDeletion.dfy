/** Deleting a document: objects first, the row last, and exactly which steps forget it in between. */
module IngestionDeletion {
  import opened Wrappers
  import opened Ingestion
  import opened IngestionSafety
  import opened IngestionFencing
  import opened IngestionDrivers

  // ---------- payloads ----------

  /** Deleting the objects of `p` may be followed by removing the row. */
  predicate Removable(row: Row, p: Payload) {
    p.hasDocument ==>
      row.Gone? || (row.Present? && row.doc.status == Deleting && row.doc.objectKey in p.keys)
  }

  /** Only keys that were really stored and, when `strict`, only a tombstoned row's own object. */
  predicate PayloadOk(c: Cell, strict: bool, p: Payload) {
    && (forall k :: k in p.keys ==> k in c.everStored)
    && (strict ==> Removable(c.row, p))
  }

  predicate KindOk(c: Cell, strict: bool, kind: EventKind) {
    kind.DeleteRequested? ==> PayloadOk(c, strict, kind.payload)
  }

  predicate SourceOk(c: Cell, strict: bool, source: LetterSource) {
    source.FromCleanup? ==> PayloadOk(c, strict, source.payload)
  }

  /** The task has deleted a prefix of its keys, in order, and none of them came back. */
  predicate TaskOk(stored: set<ObjectKey>, task: DeleteTask) {
    var keys := task.message.payload.keys;
    && |task.remaining| <= |keys|
    && task.remaining == keys[|keys| - |task.remaining|..]
    && forall i :: 0 <= i < |keys| - |task.remaining| ==> keys[i] !in stored
  }

  ghost predicate StorageOk(c: Cell, strict: bool) {
    && c.stored <= c.everStored
    && (c.row.Present? ==> c.row.doc.objectKey in c.everStored)
    && (forall e :: e in c.events ==> KindOk(c, strict, c.events[e].kind))
    && (forall l :: l in c.letters ==> SourceOk(c, strict, c.letters[l].source))
    && (forall m :: m in c.deleteInbox ==> PayloadOk(c, strict, m.payload))
    && (forall q :: q in c.deleteTasks ==>
          TaskOk(c.stored, c.deleteTasks[q]) && PayloadOk(c, strict, c.deleteTasks[q].message.payload))
  }

  // ---------- what one step may do ----------

  /** Objects appear only under keys never used before. */
  predicate StorageMoves(c: Cell, c': Cell) {
    && c.everStored <= c'.everStored
    && c'.stored <= c'.everStored
    && c'.stored * c.everStored <= c.stored
    && (c'.row.Present? ==> c'.row.doc.objectKey in c'.everStored)
  }

  lemma TaskStays(c: Cell, strict: bool, c': Cell, task: DeleteTask)
    requires StorageMoves(c, c')
    requires TaskOk(c.stored, task) && PayloadOk(c, strict, task.message.payload)
    ensures TaskOk(c'.stored, task)
  {
    var keys := task.message.payload.keys;
    forall i | 0 <= i < |keys| - |task.remaining| ensures keys[i] !in c'.stored {
      assert keys[i] in keys;
    }
  }

  /** Every payload of `c'` was there before, or is good in itself. */
  lemma StorageKept(c: Cell, strict: bool, c': Cell)
    requires StorageOk(c, strict) && StorageMoves(c, c')
    requires strict ==> forall p :: Removable(c.row, p) ==> Removable(c'.row, p)
    requires forall e :: e in c'.events ==>
               (e in c.events && c'.events[e].kind == c.events[e].kind) || KindOk(c', strict, c'.events[e].kind)
    requires forall l :: l in c'.letters ==>
               (l in c.letters && c'.letters[l].source == c.letters[l].source)
               || SourceOk(c', strict, c'.letters[l].source)
    requires forall m :: m in c'.deleteInbox ==> m in c.deleteInbox || PayloadOk(c', strict, m.payload)
    requires forall q :: q in c'.deleteTasks ==>
               (q in c.deleteTasks && c'.deleteTasks[q] == c.deleteTasks[q])
               || (TaskOk(c'.stored, c'.deleteTasks[q]) && PayloadOk(c', strict, c'.deleteTasks[q].message.payload))
    ensures StorageOk(c', strict)
  {
    assert forall p :: PayloadOk(c, strict, p) ==> PayloadOk(c', strict, p);
    forall q | q in c'.deleteTasks
      ensures TaskOk(c'.stored, c'.deleteTasks[q]) && PayloadOk(c', strict, c'.deleteTasks[q].message.payload)
    {
      if q in c.deleteTasks && c'.deleteTasks[q] == c.deleteTasks[q] {
        TaskStays(c, strict, c', c.deleteTasks[q]);
      }
    }
  }

  // ---------- every step keeps it ----------

  /** Only an ingestion replay can make the removal of a row wrong. */
  lemma RemovableStays(c: Cell, l: Label, c': Cell, p: Payload)
    requires Core(c) && Step(c, l) == Some(c') && !IsIngestReplay(l) && Removable(c.row, p)
    ensures Removable(c'.row, p)
  {
    if p.hasDocument {
      TombstoneStep(c, l, c');
      RowStep(c, l, c');
    }
  }

  ghost predicate RemovableKept(c: Cell, strict: bool, c': Cell) {
    strict ==> forall p :: Removable(c.row, p) ==> Removable(c'.row, p)
  }

  lemma UserStorage(c: Cell, request: Request, strict: bool, c': Cell)
    requires StorageOk(c, strict) && RemovableKept(c, strict, c') && StepUser(c, request) == Some(c')
    ensures StorageOk(c', strict)
  {
    StorageKept(c, strict, c');
  }

  lemma AdminStorage(c: Cell, triage: Triage, strict: bool, c': Cell)
    requires StorageOk(c, strict) && RemovableKept(c, strict, c') && StepAdmin(c, triage) == Some(c')
    ensures StorageOk(c', strict)
  {
    if triage.DoReplayCleanup? {
      assert SourceOk(c, strict, c.letters[triage.l].source);
      assert PayloadOk(c', strict, c.letters[triage.l].source.payload);
    }
    StorageKept(c, strict, c');
  }

  lemma WorkerStorage(c: Cell, work: Work, strict: bool, c': Cell)
    requires StorageOk(c, strict) && RemovableKept(c, strict, c') && StepWorker(c, work) == Some(c')
    ensures StorageOk(c', strict)
  {
    WorkerLeavesObjects(c, work, c');
    WorkerLeavesLetters(c, work, c');
    StorageKept(c, strict, c');
  }

  lemma EarlyLeavesObjects(c: Cell, work: Work, c': Cell)
    requires StepWorker(c, work) == Some(c') && IsEarly(work)
    ensures c'.stored == c.stored && c'.everStored == c.everStored && c'.events == c.events
    ensures c'.deleteInbox == c.deleteInbox && c'.deleteTasks == c.deleteTasks
  {
  }

  lemma LateLeavesObjects(c: Cell, work: Work, c': Cell)
    requires StepWorker(c, work) == Some(c') && !IsEarly(work)
    ensures c'.stored == c.stored && c'.everStored == c.everStored && c'.events == c.events
    ensures c'.deleteInbox == c.deleteInbox && c'.deleteTasks == c.deleteTasks
  {
  }

  lemma WorkerLeavesObjects(c: Cell, work: Work, c': Cell)
    requires StepWorker(c, work) == Some(c')
    ensures c'.stored == c.stored && c'.everStored == c.everStored && c'.events == c.events
    ensures c'.deleteInbox == c.deleteInbox && c'.deleteTasks == c.deleteTasks
  {
    if IsEarly(work) {
      EarlyLeavesObjects(c, work, c');
    } else {
      LateLeavesObjects(c, work, c');
    }
  }

  lemma WorkerLeavesLetters(c: Cell, work: Work, c': Cell)
    requires StepWorker(c, work) == Some(c')
    ensures c'.row.Present? ==> c.row.Present? && c'.row.doc.objectKey == c.row.doc.objectKey
    ensures forall l :: l in c'.letters ==>
              (l in c.letters && c'.letters[l] == c.letters[l]) || c'.letters[l].source.FromIngest?
  {
  }

  lemma DispatcherStorage(c: Cell, outbox: Outbox, strict: bool, c': Cell)
    requires StorageOk(c, strict) && RemovableKept(c, strict, c') && StepDispatcher(c, outbox) == Some(c')
    ensures StorageOk(c', strict)
  {
    if outbox.DoPublishDelete? {
      var kind := c.events[c.dispatchers[outbox.p].event].kind;
      assert KindOk(c, strict, kind) && PayloadOk(c', strict, kind.payload);
    }
    StorageKept(c, strict, c');
  }

  lemma MaintenanceStorage(c: Cell, upkeep: Upkeep, strict: bool, c': Cell)
    requires StorageOk(c, strict) && RemovableKept(c, strict, c') && StepMaintenance(c, upkeep) == Some(c')
    ensures StorageOk(c', strict)
  {
    StorageKept(c, strict, c');
  }

  lemma DeliverStorage(c: Cell, m: DeleteMessage, q: nat, strict: bool, c': Cell)
    requires StorageOk(c, strict) && DeleteDeliver(c, m, q) == Some(c')
    ensures StorageOk(c', strict)
  {
    assert PayloadOk(c, strict, m.payload);
    StorageKept(c, strict, c');
  }

  lemma DeleteObjectStorage(c: Cell, q: nat, strict: bool, c': Cell)
    requires StorageOk(c, strict) && DeleteObject(c, q) == Some(c')
    ensures StorageOk(c', strict)
  {
    var task, keys := c.deleteTasks[q], c.deleteTasks[q].message.payload.keys;
    assert PayloadOk(c, strict, task.message.payload) && TaskOk(c.stored, task);
    assert task.remaining[0] == keys[|keys| - |task.remaining|];
    StorageKept(c, strict, c');
  }

  /** The tasks that leave, and what they leave behind. */
  lemma LeavingStorage(c: Cell, removal: Removal, strict: bool, c': Cell)
    requires StorageOk(c, strict) && RemovableKept(c, strict, c') && StepDeleter(c, removal) == Some(c')
    requires !removal.DoDeleteDeliver? && !removal.DoDeleteObject?
    ensures StorageOk(c', strict)
  {
    StorageKept(c, strict, c');
  }

  lemma DeleterStorage(c: Cell, removal: Removal, strict: bool, c': Cell)
    requires StorageOk(c, strict) && RemovableKept(c, strict, c') && StepDeleter(c, removal) == Some(c')
    ensures StorageOk(c', strict)
  {
    match removal
    case DoDeleteDeliver(m, q) => DeliverStorage(c, m, q, strict, c');
    case DoDeleteObject(q) => DeleteObjectStorage(c, q, strict, c');
    case _ => LeavingStorage(c, removal, strict, c');
  }

  lemma StepStorage(c: Cell, l: Label, strict: bool, c': Cell)
    requires Core(c) && StorageOk(c, strict) && Step(c, l) == Some(c')
    requires strict ==> !IsIngestReplay(l)
    ensures StorageOk(c', strict)
  {
    if strict {
      forall p | Removable(c.row, p) ensures Removable(c'.row, p) {
        RemovableStays(c, l, c', p);
      }
    }
    match l
    case ByUser(request) => UserStorage(c, request, strict, c');
    case ByAdmin(triage) => AdminStorage(c, triage, strict, c');
    case ByWorker(work) => WorkerStorage(c, work, strict, c');
    case ByDispatcher(outbox) => DispatcherStorage(c, outbox, strict, c');
    case ByMaintenance(upkeep) => MaintenanceStorage(c, upkeep, strict, c');
    case ByDeleter(removal) => DeleterStorage(c, removal, strict, c');
  }

  lemma {:induction false} RunStorage(c: Cell, ls: seq<Label>, strict: bool, c': Cell)
    requires Core(c) && StorageOk(c, strict) && Exec(c, ls) == Some(c')
    requires strict ==> forall l :: l in ls ==> !IsIngestReplay(l)
    ensures StorageOk(c', strict)
    decreases |ls|
  {
    if ls != [] {
      var next := Step(c, ls[0]).value;
      StepStorage(c, ls[0], strict, next);
      StepKeepsInv(c, ls[0], next);
      RunStorage(next, ls[1..], strict, c');
    }
  }

  /** When `delete_resources` looks at the row, no object of its payload is stored any more, for any
      number of concurrent deletions, retries and uploads. */
  lemma RowGoesAfterObjects(config: Config, clock: int, ls: seq<Label>, c: Cell, q: nat)
    requires Exec(Initial(config, clock), ls) == Some(c)
    requires q in c.deleteTasks && c.deleteTasks[q].remaining == []
    ensures forall k :: k in c.deleteTasks[q].message.payload.keys ==> k !in c.stored
  {
    RunStorage(Initial(config, clock), ls, false, c);
    assert TaskOk(c.stored, c.deleteTasks[q]);
  }

  /** Without a replay of an ingestion letter, the removed row's own object went before it. */
  lemma RemovedRowHasNoObject(config: Config, clock: int, ls: seq<Label>, c: Cell, q: nat)
    requires Exec(Initial(config, clock), ls) == Some(c) && RemovesRow(c, q)
    requires forall l :: l in ls ==> !IsIngestReplay(l)
    ensures c.row.doc.objectKey !in c.stored
  {
    RunStorage(Initial(config, clock), ls, true, c);
    assert TaskOk(c.stored, c.deleteTasks[q]) && PayloadOk(c, true, c.deleteTasks[q].message.payload);
  }

  // ---------- what drives a deletion ----------

  predicate RemovesDocument(kind: EventKind) {
    kind.DeleteRequested? && kind.payload.hasDocument
  }

  ghost predicate LiveDelete(c: Cell, e: EventId) {
    Scannable(c, e) && RemovesDocument(c.events[e].kind)
  }

  /** A dispatcher that has read such an event: it publishes it, or records that it could not. */
  predicate DeleteReader(c: Cell, p: nat) {
    p in c.dispatchers && c.dispatchers[p].event in c.events && RemovesDocument(c.events[c.dispatchers[p].event].kind)
  }

  predicate DeleteSent(c: Cell, m: DeleteMessage) {
    m in c.deleteInbox && m.payload.hasDocument
  }

  predicate DeleteRunning(c: Cell, q: nat) {
    q in c.deleteTasks && c.deleteTasks[q].message.payload.hasDocument
  }

  /** An open letter of a deletion that storage refused: it can be replayed. */
  predicate CleanupLetter(c: Cell, l: LetterId) {
    OpenLetter(c, l) && c.letters[l].source.FromCleanup? && c.letters[l].source.payload.hasDocument
  }

  /** Something that can still remove the row. */
  datatype Remover = InEvent(e: EventId) | InDispatcher(p: nat) | InMessage(m: DeleteMessage) | InTask(q: nat) | InLetter(l: LetterId)

  ghost predicate Removes(c: Cell, r: Remover) {
    match r
    case InEvent(e) => LiveDelete(c, e)
    case InDispatcher(p) => DeleteReader(c, p)
    case InMessage(m) => DeleteSent(c, m)
    case InTask(q) => DeleteRunning(c, q)
    case InLetter(l) => CleanupLetter(c, l)
  }

  ghost predicate Forgotten(c: Cell) {
    HasStatus(c, Deleting) && !exists r :: Removes(c, r)
  }

  // ---------- the steps that take a remover ----------

  /** The step takes removers and adds none. */
  predicate TakesRemovers(l: Label) {
    match l
    case ByDeleter(d) => d.DoDeleteKill?
    case ByAdmin(a) => a.DoDiscardLetter?
    case ByDispatcher(o) => o.DoDispatchSent? || o.DoDispatchDie?
    case _ => false
  }

  ghost predicate TakesRemover(c: Cell, l: Label, r: Remover) {
    match l
    case ByDeleter(d) => d.DoDeleteKill? && r == InTask(d.q)
    case ByAdmin(a) => a.DoDiscardLetter? && (r == InLetter(a.l) || (r.InEvent? && OnlyLetter(c, a.l, r.e)))
    case ByDispatcher(o) =>
      || ((o.DoDispatchSent? || o.DoDispatchDie?) && r == InDispatcher(o.p))
      || (r.InEvent? && MarksSent(c, l, r.e) && !CanReplay(c, r.e))
    case _ => false
  }

  /** The step takes every remover that is left. */
  ghost predicate Forgets(c: Cell, l: Label) {
    TakesRemovers(l) && HasStatus(c, Deleting) && forall r :: Removes(c, r) ==> TakesRemover(c, l, r)
  }

  ghost predicate LeavesOtherRemovers(c: Cell, l: Label, c': Cell) {
    (HasStatus(c', Deleting) <==> HasStatus(c, Deleting))
    && forall r :: Removes(c', r) <==> Removes(c, r) && !TakesRemover(c, l, r)
  }

  lemma LeftForgetsIff(c: Cell, l: Label, c': Cell)
    requires TakesRemovers(l) && LeavesOtherRemovers(c, l, c')
    ensures Forgotten(c') <==> Forgets(c, l)
  {
    if Forgotten(c') {
      forall r | Removes(c, r) ensures TakesRemover(c, l, r) {
        assert !Removes(c', r);
      }
    }
  }

  lemma KillLeavesOthers(c: Cell, q: nat, c': Cell)
    requires DeleteKill(c, q) == Some(c')
    ensures LeavesOtherRemovers(c, ByDeleter(DoDeleteKill(q)), c')
  {
    forall r ensures Removes(c', r) <==> Removes(c, r) && !TakesRemover(c, ByDeleter(DoDeleteKill(q)), r) {
      if r.InEvent? {
        assert forall y :: OpenFor(c', y, r.e) <==> OpenFor(c, y, r.e);
      }
    }
  }

  lemma DiscardLeavesOtherRemovers(c: Cell, x: LetterId, c': Cell)
    requires DiscardLetter(c, x) == Some(c')
    ensures LeavesOtherRemovers(c, ByAdmin(DoDiscardLetter(x)), c')
  {
    forall r ensures Removes(c', r) <==> Removes(c, r) && !TakesRemover(c, ByAdmin(DoDiscardLetter(x)), r) {
      if r.InEvent? {
        assert forall y :: OpenFor(c', y, r.e) <==> y != x && OpenFor(c, y, r.e);
      }
    }
  }

  lemma SentLeavesOtherRemovers(c: Cell, p: nat, c': Cell)
    requires DispatchSent(c, p) == Some(c')
    ensures LeavesOtherRemovers(c, ByDispatcher(DoDispatchSent(p)), c')
  {
    forall r ensures Removes(c', r) <==> Removes(c, r) && !TakesRemover(c, ByDispatcher(DoDispatchSent(p)), r) {
      if r.InEvent? {
        assert forall y :: OpenFor(c', y, r.e) <==> OpenFor(c, y, r.e);
      }
    }
  }

  lemma DieLeavesOtherRemovers(c: Cell, p: nat, c': Cell)
    requires DispatchDie(c, p) == Some(c')
    ensures LeavesOtherRemovers(c, ByDispatcher(DoDispatchDie(p)), c')
  {
    forall r ensures Removes(c', r) <==> Removes(c, r) && !TakesRemover(c, ByDispatcher(DoDispatchDie(p)), r) {
      if r.InEvent? {
        assert forall y :: OpenFor(c', y, r.e) <==> OpenFor(c, y, r.e);
      }
    }
  }

  lemma TakingForgetsIff(c: Cell, l: Label, c': Cell)
    requires Step(c, l) == Some(c') && TakesRemovers(l)
    ensures Forgotten(c') <==> Forgets(c, l)
  {
    match l {
      case ByDeleter(d) => KillLeavesOthers(c, d.q, c');
      case ByAdmin(a) => DiscardLeavesOtherRemovers(c, a.l, c');
      case ByDispatcher(o) =>
        if o.DoDispatchSent? { SentLeavesOtherRemovers(c, o.p, c'); } else { DieLeavesOtherRemovers(c, o.p, c'); }
    }
    LeftForgetsIff(c, l, c');
  }

  // ---------- every other step ----------

  /** Each remover stays or turns into another one. */
  ghost predicate HandsOn(c: Cell, c': Cell) {
    HasStatus(c', Deleting) ==>
      || (exists r :: Removes(c', r))
      || (HasStatus(c, Deleting) && forall r :: Removes(c, r) ==> exists s :: Removes(c', s))
  }

  lemma HandedOn(c: Cell, c': Cell)
    requires !Forgotten(c) && HandsOn(c, c')
    ensures !Forgotten(c')
  {
    if HasStatus(c', Deleting) && HasStatus(c, Deleting) {
      var r :| Removes(c, r);
    }
  }

  /** Messages, tasks, dispatchers and letters are all still there, or something else is. */
  ghost predicate KeepsRemovers(c: Cell, c': Cell) {
    && (forall p :: DeleteReader(c, p) ==> exists s :: Removes(c', s))
    && (forall m :: DeleteSent(c, m) ==> exists s :: Removes(c', s))
    && (forall q :: DeleteRunning(c, q) ==> exists s :: Removes(c', s))
    && (forall l :: CleanupLetter(c, l) ==> exists s :: Removes(c', s))
  }

  lemma KeptOn(c: Cell, l: Label, c': Cell)
    requires ScansKept(c, l, c') && !TakesRemovers(l) && KeepsRemovers(c, c')
    requires HasStatus(c', Deleting) ==> HasStatus(c, Deleting)
    ensures HandsOn(c, c')
  {
    forall r | Removes(c, r) ensures exists s :: Removes(c', s) {
      if r.InEvent? {
        assert ScanKept(c, l, c', r.e);
        assert Removes(c', r);
      }
    }
  }

  /** The frame of everyone but the deletion task. */
  lemma FrameKeepsRemovers(c: Cell, c': Cell)
    requires c.deleteInbox <= c'.deleteInbox && c'.deleteTasks == c.deleteTasks
    requires forall p :: DeleteReader(c, p) ==> DeleteReader(c', p) || LiveDelete(c', c.dispatchers[p].event)
    requires forall l :: CleanupLetter(c, l) ==> CleanupLetter(c', l)
    ensures KeepsRemovers(c, c')
  {
    forall p | DeleteReader(c, p) ensures exists s :: Removes(c', s) {
      if DeleteReader(c', p) {
        assert Removes(c', InDispatcher(p));
      } else {
        assert Removes(c', InEvent(c.dispatchers[p].event));
      }
    }
    forall m | DeleteSent(c, m) ensures exists s :: Removes(c', s) {
      assert Removes(c', InMessage(m));
    }
    forall q | DeleteRunning(c, q) ensures exists s :: Removes(c', s) {
      assert Removes(c', InTask(q));
    }
    forall l | CleanupLetter(c, l) ensures exists s :: Removes(c', s) {
      assert Removes(c', InLetter(l));
    }
  }

  lemma UserHandsOn(c: Cell, request: Request, c': Cell)
    requires StepUser(c, request) == Some(c') && ScansKept(c, ByUser(request), c')
    ensures HandsOn(c, c')
  {
    if request.DoDelete? {
      assert Removes(c', InEvent(request.e));
    } else if HasStatus(c', Deleting) {
      FrameKeepsRemovers(c, c');
      KeptOn(c, ByUser(request), c');
    }
  }

  lemma AdminHandsOn(c: Cell, triage: Triage, c': Cell)
    requires StepAdmin(c, triage) == Some(c') && ScansKept(c, ByAdmin(triage), c') && !triage.DoDiscardLetter?
    ensures HandsOn(c, c')
  {
    if triage.DoReplayCleanup? && CleanupLetter(c, triage.l) {
      assert Removes(c', InEvent(triage.e));
    } else if HasStatus(c', Deleting) {
      FrameKeepsRemovers(c, c');
      KeptOn(c, ByAdmin(triage), c');
    }
  }

  lemma WorkerStaysDeleting(c: Cell, work: Work, c': Cell)
    requires StepWorker(c, work) == Some(c')
    ensures HasStatus(c', Deleting) ==> HasStatus(c, Deleting)
    ensures forall l :: CleanupLetter(c, l) ==> CleanupLetter(c', l)
    ensures c'.dispatchers == c.dispatchers
  {
  }

  lemma WorkerHandsOn(c: Cell, work: Work, c': Cell)
    requires StepWorker(c, work) == Some(c') && ScansKept(c, ByWorker(work), c')
    ensures HandsOn(c, c')
  {
    WorkerLeavesObjects(c, work, c');
    WorkerStaysDeleting(c, work, c');
    FrameKeepsRemovers(c, c');
    KeptOn(c, ByWorker(work), c');
  }

  lemma DispatcherKeepsReaders(c: Cell, outbox: Outbox, c': Cell)
    requires StepDispatcher(c, outbox) == Some(c') && !outbox.DoDispatchSent? && !outbox.DoDispatchDie?
    ensures forall p :: DeleteReader(c, p) ==> DeleteReader(c', p) || LiveDelete(c', c.dispatchers[p].event)
  {
    match outbox {
      case DoDispatchPark(p, x) => assert OpenFor(c', x, c.dispatchers[p].event);
      case _ =>
    }
  }

  lemma DispatcherHandsOn(c: Cell, outbox: Outbox, c': Cell)
    requires StepDispatcher(c, outbox) == Some(c') && ScansKept(c, ByDispatcher(outbox), c')
    requires !outbox.DoDispatchSent? && !outbox.DoDispatchDie?
    ensures HandsOn(c, c')
  {
    DispatcherKeepsReaders(c, outbox, c');
    FrameKeepsRemovers(c, c');
    KeptOn(c, ByDispatcher(outbox), c');
  }

  lemma MaintenanceHandsOn(c: Cell, upkeep: Upkeep, c': Cell)
    requires StepMaintenance(c, upkeep) == Some(c') && ScansKept(c, ByMaintenance(upkeep), c')
    ensures HandsOn(c, c')
  {
    if HasStatus(c', Deleting) {
      FrameKeepsRemovers(c, c');
      KeptOn(c, ByMaintenance(upkeep), c');
    }
  }

  /** A task that moves or leaves: its message, the task, or the letter that replaces it. */
  lemma TaskHandsOn(c: Cell, removal: Removal, c': Cell) returns (r: Remover)
    requires StepDeleter(c, removal) == Some(c') && !removal.DoDeleteKill?
    requires match removal
             case DoDeleteDeliver(m, _) => DeleteSent(c, m)
             case _ => DeleteRunning(c, removal.q)
    requires HasStatus(c', Deleting)
    ensures Removes(c', r)
  {
    match removal
    case DoDeleteDeliver(_, q) => r := InTask(q);
    case DoDeleteObject(q) => r := InTask(q);
    case DoDeleteRetry(q) => r := InMessage(DeleteMessage(c.deleteTasks[q].message.payload, c.deleteTasks[q].message.retries + 1));
    case DoDeletePark(_, l) => r := InLetter(l);
    case DoDeleteCrash(q) => r := InMessage(c.deleteTasks[q].message);
    case DoRemoveRow(q) => r := InTask(q);
    case DoDeleteDone(q) => r := InTask(q);
  }

  /** The removers that the deletion task's step does not touch. */
  predicate Untouched(removal: Removal, r: Remover) {
    match removal
    case DoDeleteDeliver(m, _) => r != InMessage(m)
    case _ => r != InTask(removal.q)
  }

  lemma UntouchedRemains(c: Cell, removal: Removal, c': Cell, r: Remover)
    requires StepDeleter(c, removal) == Some(c') && Removes(c, r) && Untouched(removal, r)
    ensures Removes(c', r)
  {
    if r.InEvent? {
      DeleterFrame(c, removal, c');
      assert forall y :: OpenFor(c, y, r.e) ==> OpenFor(c', y, r.e);
    }
  }

  lemma DeleterHandsOn(c: Cell, removal: Removal, c': Cell)
    requires StepDeleter(c, removal) == Some(c') && !removal.DoDeleteKill?
    ensures HandsOn(c, c')
  {
    if HasStatus(c', Deleting) {
      DeleterFrame(c, removal, c');
      forall r | Removes(c, r) ensures exists s :: Removes(c', s) {
        if Untouched(removal, r) {
          UntouchedRemains(c, removal, c', r);
        } else {
          var s := TaskHandsOn(c, removal, c');
        }
      }
    }
  }

  lemma StepHandsOn(c: Cell, l: Label, c': Cell)
    requires Step(c, l) == Some(c') && ScansKept(c, l, c') && !TakesRemovers(l)
    ensures HandsOn(c, c')
  {
    match l
    case ByUser(request) => UserHandsOn(c, request, c');
    case ByAdmin(triage) => AdminHandsOn(c, triage, c');
    case ByWorker(work) => WorkerHandsOn(c, work, c');
    case ByDispatcher(outbox) => DispatcherHandsOn(c, outbox, c');
    case ByMaintenance(upkeep) => MaintenanceHandsOn(c, upkeep, c');
    case ByDeleter(removal) => DeleterHandsOn(c, removal, c');
  }

  // ---------- exactly when a step forgets ----------

  /** From a state that drives its deletion, a step forgets it exactly when it takes every remover left. */
  lemma StepForgetsIff(c: Cell, l: Label, c': Cell)
    requires IntentsOk(c) && !Forgotten(c) && Step(c, l) == Some(c')
    ensures IntentsOk(c') && (Forgotten(c') <==> Forgets(c, l))
  {
    StepScans(c, l, c');
    if TakesRemovers(l) {
      TakingForgetsIff(c, l, c');
    } else {
      StepHandsOn(c, l, c');
      HandedOn(c, c');
    }
  }

  /** A kill forgets the deletion exactly when the killed task was all that was left of it. */
  lemma KillForgetsIff(c: Cell, q: nat, c': Cell)
    requires DeleteKill(c, q) == Some(c')
    ensures Forgotten(c') <==> HasStatus(c, Deleting) && forall r :: Removes(c, r) ==> r == InTask(q)
  {
    TakingForgetsIff(c, ByDeleter(DoDeleteKill(q)), c');
  }

  /** A discard does exactly when the letter was, or was all that could revive the events that were. */
  lemma DiscardForgetsIff(c: Cell, x: LetterId, c': Cell)
    requires DiscardLetter(c, x) == Some(c')
    ensures Forgotten(c') <==>
              HasStatus(c, Deleting)
              && forall r :: Removes(c, r) ==> r == InLetter(x) || (r.InEvent? && OnlyLetter(c, x, r.e))
  {
    TakingForgetsIff(c, ByAdmin(DoDiscardLetter(x)), c');
  }

  /** Marking an event as sent does exactly when that dispatcher and its event were, and no open letter
      could send the event again. */
  lemma SentForgetsIff(c: Cell, p: nat, c': Cell)
    requires DispatchSent(c, p) == Some(c')
    ensures var e := c.dispatchers[p].event;
            Forgotten(c') <==>
              HasStatus(c, Deleting)
              && forall r :: Removes(c, r) ==> r == InDispatcher(p) || (r == InEvent(e) && !CanReplay(c, e))
  {
    TakingForgetsIff(c, ByDispatcher(DoDispatchSent(p)), c');
  }

  /** No step of the schedule takes every remover of a deletion. */
  ghost predicate KeepsDeletions(c: Cell, ls: seq<Label>)
    decreases |ls|
  {
    ls != [] ==>
      && !Forgets(c, ls[0])
      && (Step(c, ls[0]).Some? ==> KeepsDeletions(Step(c, ls[0]).value, ls[1..]))
  }

  lemma {:induction false} RunKeepsDeletions(c: Cell, ls: seq<Label>, c': Cell)
    requires IntentsOk(c) && !Forgotten(c) && Exec(c, ls) == Some(c') && KeepsDeletions(c, ls)
    ensures !Forgotten(c')
    decreases |ls|
  {
    if ls != [] {
      var next := Step(c, ls[0]).value;
      StepForgetsIff(c, ls[0], next);
      RunKeepsDeletions(next, ls[1..], c');
    }
  }

  /** A tombstoned row always has an event that is scanned again or that an open letter sends again, a
      dispatcher that holds it, a message, a running task or an open cleanup letter, unless the schedule
      takes the last of them. */
  lemma NoDeletionIsForgotten(config: Config, clock: int, ls: seq<Label>, c: Cell)
    requires Exec(Initial(config, clock), ls) == Some(c) && KeepsDeletions(Initial(config, clock), ls)
    requires HasStatus(c, Deleting)
    ensures || (exists e :: e in c.events && RemovesDocument(c.events[e].kind)
                            && (c.events[e].status == Pending || c.events[e].status == Publishing
                                || exists l :: OpenFor(c, l, e)))
            || (exists p :: DeleteReader(c, p)) || (exists m :: DeleteSent(c, m))
            || (exists q :: DeleteRunning(c, q)) || (exists l :: CleanupLetter(c, l))
  {
    RunKeepsDeletions(Initial(config, clock), ls, c);
    var r :| Removes(c, r);
  }
}
