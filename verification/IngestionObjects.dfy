/** The stored object of a document: which one the row refers to, and that nothing but its own deletion
    takes it away. */
module IngestionObjects {
  import opened Wrappers
  import opened Ingestion
  import opened IngestionSafety
  import opened IngestionFencing
  import opened IngestionContent
  import opened IngestionDeletion
  import opened IngestionProgress
  import opened IngestionRemoval

  // ---------- the key in the row ----------

  /** The key of the last upload or replacement of the schedule. */
  function KeyOf(ls: seq<Label>): ObjectKey
    decreases |ls|
  {
    if ls == [] then 0
    else if WritesContent(Last(ls)) then Last(ls).request.key
    else KeyOf(Init(ls))
  }

  /** The row refers to the object that the step brings, or to the one before. */
  predicate KeyMoves(c: Cell, l: Label, c': Cell) {
    c'.row.Present? ==>
      if WritesContent(l) then c'.row.doc.objectKey == l.request.key && l.request.key in c'.stored
      else c.row.Present? && c'.row.doc.objectKey == c.row.doc.objectKey
  }

  lemma UserKey(c: Cell, request: Request, c': Cell)
    requires StepUser(c, request) == Some(c')
    ensures KeyMoves(c, ByUser(request), c')
  {
  }

  lemma AdminKey(c: Cell, triage: Triage, c': Cell)
    requires StepAdmin(c, triage) == Some(c')
    ensures KeyMoves(c, ByAdmin(triage), c')
  {
  }

  lemma DispatcherKey(c: Cell, outbox: Outbox, c': Cell)
    requires StepDispatcher(c, outbox) == Some(c')
    ensures KeyMoves(c, ByDispatcher(outbox), c')
  {
  }

  lemma MaintenanceKey(c: Cell, upkeep: Upkeep, c': Cell)
    requires StepMaintenance(c, upkeep) == Some(c')
    ensures KeyMoves(c, ByMaintenance(upkeep), c')
  {
  }

  lemma DeleterKey(c: Cell, removal: Removal, c': Cell)
    requires StepDeleter(c, removal) == Some(c')
    ensures KeyMoves(c, ByDeleter(removal), c')
  {
  }

  lemma StepKey(c: Cell, l: Label, c': Cell)
    requires Step(c, l) == Some(c')
    ensures KeyMoves(c, l, c')
  {
    match l
    case ByUser(request) => UserKey(c, request, c');
    case ByAdmin(triage) => AdminKey(c, triage, c');
    case ByWorker(work) => WorkerLeavesLetters(c, work, c');
    case ByDispatcher(outbox) => DispatcherKey(c, outbox, c');
    case ByMaintenance(upkeep) => MaintenanceKey(c, upkeep, c');
    case ByDeleter(removal) => DeleterKey(c, removal, c');
  }

  /** In every reachable state the row refers to the object of the last upload or replacement. */
  lemma {:induction false} RowRefersToLastUpload(config: Config, clock: int, ls: seq<Label>, c: Cell)
    requires Exec(Initial(config, clock), ls) == Some(c) && c.row.Present?
    ensures c.row.doc.objectKey == KeyOf(ls)
    decreases |ls|
  {
    assert ls != [];
    assert ls == Init(ls) + [Last(ls)] && [Last(ls)][1..] == [];
    ExecAppend(Initial(config, clock), Init(ls), [Last(ls)]);
    var before := Exec(Initial(config, clock), Init(ls)).value;
    StepKey(before, Last(ls), c);
    if before.row.Present? {
      RowRefersToLastUpload(config, clock, Init(ls), before);
    }
  }

  // ---------- the object behind the key ----------

  /** The step is the deletion task's, and deletes object `key`. */
  predicate DeletesObject(c: Cell, l: Label, key: ObjectKey) {
    && l.ByDeleter? && l.removal.DoDeleteObject? && l.removal.q in c.deleteTasks
    && c.deleteTasks[l.removal.q].remaining != [] && c.deleteTasks[l.removal.q].remaining[0] == key
  }

  predicate ObjectIsThere(c: Cell) {
    c.row.Present? ==> c.row.doc.objectKey in c.stored
  }

  /** Everyone but the deletion task. */
  lemma OthersLeaveObject(c: Cell, l: Label, c': Cell)
    requires Step(c, l) == Some(c') && !l.ByDeleter? && ObjectIsThere(c)
    ensures ObjectIsThere(c')
  {
    StepKey(c, l, c');
    match l
    case ByUser(request) => UserLeavesObject(c, request, c');
    case ByAdmin(triage) => AdminLeavesObjects(c, triage, c');
    case ByWorker(work) => WorkerLeavesObjects(c, work, c');
    case ByDispatcher(outbox) => DispatcherLeavesObjects(c, outbox, c');
    case ByMaintenance(upkeep) => MaintenanceLeavesObject(c, upkeep, c');
  }

  lemma UserLeavesObject(c: Cell, request: Request, c': Cell)
    requires StepUser(c, request) == Some(c') && ObjectIsThere(c)
    ensures ObjectIsThere(c')
  {
  }

  lemma AdminLeavesObjects(c: Cell, triage: Triage, c': Cell)
    requires StepAdmin(c, triage) == Some(c')
    ensures c'.stored == c.stored
  {
  }

  lemma DispatcherLeavesObjects(c: Cell, outbox: Outbox, c': Cell)
    requires StepDispatcher(c, outbox) == Some(c')
    ensures c'.stored == c.stored
  {
  }

  lemma MaintenanceLeavesObject(c: Cell, upkeep: Upkeep, c': Cell)
    requires StepMaintenance(c, upkeep) == Some(c') && ObjectIsThere(c)
    ensures ObjectIsThere(c')
  {
  }

  /** From any state whose row has its object, a step takes the object away exactly when it is the
      deletion task's step for that key: no sweep, replacement or retry does. */
  lemma StepLosesObjectIff(c: Cell, l: Label, c': Cell)
    requires Step(c, l) == Some(c') && c.row.Present? && ObjectIsThere(c)
    ensures !ObjectIsThere(c') <==> DeletesObject(c, l, c.row.doc.objectKey)
  {
    if l.ByDeleter? {
      DeleterLosesObjectIff(c, l.removal, c');
    } else {
      OthersLeaveObject(c, l, c');
    }
  }

  lemma DeleterLosesObjectIff(c: Cell, removal: Removal, c': Cell)
    requires StepDeleter(c, removal) == Some(c') && c.row.Present? && ObjectIsThere(c)
    ensures !ObjectIsThere(c') <==> DeletesObject(c, ByDeleter(removal), c.row.doc.objectKey)
  {
  }

  // ---------- documents that nobody deletes ----------

  /** Nothing anywhere asks for the deletion of objects. */
  ghost predicate NoPayloads(c: Cell) {
    && (forall e :: e in c.events ==> c.events[e].kind.IngestRequested?)
    && (forall l :: l in c.letters ==> !c.letters[l].source.FromCleanup?)
    && c.deleteInbox == multiset{} && c.deleteTasks == map[]
  }

  /** Before its deletion a document has its object, and nothing that would delete it. */
  ghost predicate Kept(c: Cell) {
    !Tombstoned(c) ==> NoPayloads(c) && ObjectIsThere(c)
  }

  lemma UserAsksNothing(c: Cell, request: Request, c': Cell)
    requires StepUser(c, request) == Some(c') && NoPayloads(c) && !Tombstoned(c')
    ensures NoPayloads(c')
  {
  }

  lemma AdminAsksNothing(c: Cell, triage: Triage, c': Cell)
    requires StepAdmin(c, triage) == Some(c') && NoPayloads(c)
    ensures NoPayloads(c')
  {
  }

  lemma WorkerAsksNothing(c: Cell, work: Work, c': Cell)
    requires StepWorker(c, work) == Some(c') && NoPayloads(c)
    ensures NoPayloads(c')
  {
    WorkerLeavesObjects(c, work, c');
    WorkerLeavesLetters(c, work, c');
  }

  lemma DispatcherAsksNothing(c: Cell, outbox: Outbox, c': Cell)
    requires StepDispatcher(c, outbox) == Some(c') && NoPayloads(c)
    ensures NoPayloads(c')
  {
  }

  lemma MaintenanceAsksNothing(c: Cell, upkeep: Upkeep, c': Cell)
    requires StepMaintenance(c, upkeep) == Some(c') && NoPayloads(c)
    ensures NoPayloads(c')
  {
  }

  lemma DeleterHasNothing(c: Cell, removal: Removal)
    requires NoPayloads(c)
    ensures StepDeleter(c, removal) == None
  {
  }

  lemma StepKeepsObject(c: Cell, l: Label, c': Cell)
    requires Core(c) && Kept(c) && Step(c, l) == Some(c') && !IsIngestReplay(l)
    ensures Kept(c')
  {
    if Tombstoned(c) {
      TombstoneStep(c, l, c');
    } else if l.ByDeleter? {
      DeleterHasNothing(c, l.removal);
    } else if !Tombstoned(c') {
      OthersLeaveObject(c, l, c');
      match l {
        case ByUser(request) => UserAsksNothing(c, request, c');
        case ByAdmin(triage) => AdminAsksNothing(c, triage, c');
        case ByWorker(work) => WorkerAsksNothing(c, work, c');
        case ByDispatcher(outbox) => DispatcherAsksNothing(c, outbox, c');
        case ByMaintenance(upkeep) => MaintenanceAsksNothing(c, upkeep, c');
      }
    }
  }

  lemma {:induction false} RunKeepsObject(c: Cell, ls: seq<Label>, c': Cell)
    requires Core(c) && Kept(c) && Exec(c, ls) == Some(c') && forall l :: l in ls ==> !IsIngestReplay(l)
    ensures Kept(c')
    decreases |ls|
  {
    if ls != [] {
      var next := Step(c, ls[0]).value;
      StepKeepsObject(c, ls[0], next);
      StepKeepsInv(c, ls[0], next);
      RunKeepsObject(next, ls[1..], c');
    }
  }

  /** Without a replay of an ingestion letter, which can bring back a document whose deletion has begun,
      every document that is not being deleted has the object of its last upload or replacement: no
      sweep, no retry and no concurrent replacement ever takes it. */
  lemma LiveDocumentHasItsObject(config: Config, clock: int, ls: seq<Label>, c: Cell)
    requires Exec(Initial(config, clock), ls) == Some(c) && forall l :: l in ls ==> !IsIngestReplay(l)
    requires c.row.Present? && c.row.doc.status != Deleting
    ensures c.row.doc.objectKey == KeyOf(ls) && KeyOf(ls) in c.stored
  {
    RowRefersToLastUpload(config, clock, ls, c);
    RunKeepsObject(Initial(config, clock), ls, c);
  }

  /** What a replacement leaves behind can go: the sweep takes the object of the old content, and leaves
      the one that the row refers to now. */
  lemma ReplacedObjectGoes(c: Cell, content: nat, key: ObjectKey, e: EventId, c': Cell) returns (d: Cell)
    requires c.stored <= c.everStored && ObjectIsThere(c)
    requires Step(c, ByUser(DoReplace(content, key, e))) == Some(c')
    ensures Step(c', ByMaintenance(DoSweepOrphan(c.row.doc.objectKey))) == Some(d)
    ensures c.row.doc.objectKey !in d.stored && d.row == c'.row && d.row.doc.objectKey == key && key in d.stored
  {
    d := SweepOrphan(c', c.row.doc.objectKey).value;
  }

  // ---------- the objects of a payload ----------

  /** Storage no longer refuses: the task deletes what is left of its keys. */
  lemma {:induction false} TaskDeletes(c: Cell, q: nat) returns (ls: seq<Label>, d: Cell)
    requires Core(c) && q in c.deleteTasks
    ensures SystemRun(c, ls, d) && d.row == c.row && d.stored <= c.stored
    ensures forall k :: k in c.deleteTasks[q].remaining ==> k !in d.stored
    decreases |c.deleteTasks[q].remaining|
  {
    NoSteps(c);
    if c.deleteTasks[q].remaining == [] {
      ls, d := [], c;
    } else {
      var more, e;
      ls, e := GoTask(c, [], c, DoDeleteObject(q));
      more, d := TaskDeletes(e, q);
      Then(c, ls, e, more, d);
      ls := ls + more;
    }
  }

  lemma MessageDeletes(c: Cell, m: DeleteMessage) returns (ls: seq<Label>, d: Cell)
    requires Core(c) && m in c.deleteInbox
    ensures SystemRun(c, ls, d) && d.row == c.row && forall k :: k in m.payload.keys ==> k !in d.stored
  {
    var q := FreshId(c.deleteTasks.Keys);
    NoSteps(c);
    var more, e;
    ls, e := GoTask(c, [], c, DoDeleteDeliver(m, q));
    more, d := TaskDeletes(e, q);
    Then(c, ls, e, more, d);
    ls := ls + more;
  }

  lemma ReadAndDelete(c: Cell, e: EventId) returns (ls: seq<Label>, d: Cell)
    requires Core(c) && e in c.events && c.events[e].status == Publishing && c.events[e].kind.DeleteRequested?
    ensures SystemRun(c, ls, d) && d.row == c.row && forall k :: k in c.events[e].kind.payload.keys ==> k !in d.stored
  {
    var p := FreshId(c.dispatchers.Keys);
    NoSteps(c);
    var more, f, g;
    ls, f := GoOutbox(c, [], c, DoDispatchRead(p, e));
    ls, g := GoOutbox(c, ls, f, DoPublishDelete(p));
    more, d := MessageDeletes(g, DeleteMessage(c.events[e].kind.payload, 0));
    Then(c, ls, g, more, d);
    ls := ls + more;
  }

  lemma PublishAndDelete(c: Cell, e: EventId) returns (ls: seq<Label>, d: Cell)
    requires Core(c) && e in c.events && c.events[e].status == Pending && c.events[e].kind.DeleteRequested?
    ensures SystemRun(c, ls, d) && d.row == c.row && forall k :: k in c.events[e].kind.payload.keys ==> k !in d.stored
  {
    var f, more;
    ls, f := WaitAndClaim(c, e);
    more, d := ReadAndDelete(f, e);
    Then(c, ls, f, more, d);
    ls := ls + more;
  }

  /** Deleting a knowledge base drops the row at once, and its event still names the row's object: a
      schedule of system steps deletes it, although there is no row any more. */
  lemma KnowledgeBaseObjectGoes(c: Cell, e: EventId, c': Cell) returns (ls: seq<Label>, d: Cell)
    requires Core(c) && Step(c, ByUser(DoDeleteKnowledgeBase(e))) == Some(c')
    ensures c'.row.Gone? && c'.chunks == map[]
    ensures SystemRun(c', ls, d) && d.row.Gone? && c.row.doc.objectKey !in d.stored
  {
    StepKeepsInv(c, ByUser(DoDeleteKnowledgeBase(e)), c');
    ls, d := PublishAndDelete(c', e);
  }
}
