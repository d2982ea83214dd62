/** Exactly which deletions the system alone can still finish. */
module IngestionRemoval {
  import opened Wrappers
  import opened Ingestion
  import opened IngestionSafety
  import opened IngestionDrivers
  import opened IngestionDeletion
  import opened IngestionProgress

  // ---------- each remover is enough ----------

  lemma GoTask(c: Cell, ls: seq<Label>, d: Cell, w: Removal) returns (more: seq<Label>, d': Cell)
    requires SystemRun(c, ls, d) && Core(d) && StepDeleter(d, w).Some?
    ensures StepDeleter(d, w) == Some(d') && SystemRun(c, more, d') && Core(d')
  {
    assert Step(d, ByDeleter(w)) == StepDeleter(d, w);
    more, d' := Go(c, ls, d, ByDeleter(w));
  }

  /** A task that storage no longer refuses deletes what is left of its keys, and then the row. */
  lemma {:induction false} TaskRemoves(c: Cell, q: nat) returns (ls: seq<Label>, d: Cell)
    requires Core(c) && HasStatus(c, Deleting) && DeleteRunning(c, q)
    ensures SystemRun(c, ls, d) && d.row.Gone?
    decreases |c.deleteTasks[q].remaining|
  {
    NoSteps(c);
    if c.deleteTasks[q].remaining == [] {
      ls, d := GoTask(c, [], c, DoRemoveRow(q));
    } else {
      var more, e;
      ls, e := GoTask(c, [], c, DoDeleteObject(q));
      more, d := TaskRemoves(e, q);
      Then(c, ls, e, more, d);
      ls := ls + more;
    }
  }

  lemma MessageRemoves(c: Cell, m: DeleteMessage) returns (ls: seq<Label>, d: Cell)
    requires Core(c) && HasStatus(c, Deleting) && DeleteSent(c, m)
    ensures SystemRun(c, ls, d) && d.row.Gone?
  {
    var q := FreshId(c.deleteTasks.Keys);
    NoSteps(c);
    var more, e;
    ls, e := GoTask(c, [], c, DoDeleteDeliver(m, q));
    more, d := TaskRemoves(e, q);
    Then(c, ls, e, more, d);
    ls := ls + more;
  }

  lemma UnpublishedRemoves(c: Cell, p: nat) returns (ls: seq<Label>, d: Cell)
    requires Core(c) && HasStatus(c, Deleting) && DeleteReader(c, p) && !c.dispatchers[p].published
    ensures SystemRun(c, ls, d) && d.row.Gone?
  {
    NoSteps(c);
    var more, e;
    ls, e := GoOutbox(c, [], c, DoPublishDelete(p));
    more, d := MessageRemoves(e, DeleteMessage(c.events[c.dispatchers[p].event].kind.payload, 0));
    Then(c, ls, e, more, d);
    ls := ls + more;
  }

  lemma PublishingRemoves(c: Cell, e: EventId) returns (ls: seq<Label>, d: Cell)
    requires Core(c) && HasStatus(c, Deleting) && LiveDelete(c, e) && c.events[e].status == Publishing
    ensures SystemRun(c, ls, d) && d.row.Gone?
  {
    var p := FreshId(c.dispatchers.Keys);
    NoSteps(c);
    var more, f;
    ls, f := GoOutbox(c, [], c, DoDispatchRead(p, e));
    more, d := UnpublishedRemoves(f, p);
    Then(c, ls, f, more, d);
    ls := ls + more;
  }

  lemma PendingRemoves(c: Cell, e: EventId) returns (ls: seq<Label>, d: Cell)
    requires Core(c) && HasStatus(c, Deleting) && LiveDelete(c, e) && c.events[e].status == Pending
    ensures SystemRun(c, ls, d) && d.row.Gone?
  {
    var more, f;
    ls, f := WaitAndClaim(c, e);
    more, d := PublishingRemoves(f, e);
    Then(c, ls, f, more, d);
    ls := ls + more;
  }

  lemma EventRemoves(c: Cell, e: EventId) returns (ls: seq<Label>, d: Cell)
    requires Core(c) && HasStatus(c, Deleting) && LiveDelete(c, e)
    ensures SystemRun(c, ls, d) && d.row.Gone?
  {
    if c.events[e].status == Pending {
      ls, d := PendingRemoves(c, e);
    } else if c.events[e].status == Publishing {
      ls, d := PublishingRemoves(c, e);
    } else {
      var l :| OpenFor(c, l, e);
      NoSteps(c);
      assert ReplayOutbox(c, l).Some?;
      var more, f;
      ls, f := Go(c, [], c, ByAdmin(DoReplayOutbox(l)));
      more, d := PendingRemoves(f, e);
      Then(c, ls, f, more, d);
      ls := ls + more;
    }
  }

  lemma ReaderRemoves(c: Cell, p: nat) returns (ls: seq<Label>, d: Cell)
    requires Core(c) && HasStatus(c, Deleting) && DeleteReader(c, p)
    ensures SystemRun(c, ls, d) && d.row.Gone?
  {
    if !c.dispatchers[p].published {
      ls, d := UnpublishedRemoves(c, p);
    } else {
      var l := FreshId(c.letters.Keys);
      var refuse := if LastAttempt(c, p) then DoDispatchPark(p, l) else DoDispatchBackOff(p);
      NoSteps(c);
      var more, f;
      ls, f := GoOutbox(c, [], c, refuse);
      assert refuse.DoDispatchPark? ==> OpenFor(f, l, c.dispatchers[p].event);
      more, d := EventRemoves(f, c.dispatchers[p].event);
      Then(c, ls, f, more, d);
      ls := ls + more;
    }
  }

  lemma LetterRemoves(c: Cell, l: LetterId) returns (ls: seq<Label>, d: Cell)
    requires Core(c) && HasStatus(c, Deleting) && CleanupLetter(c, l)
    ensures SystemRun(c, ls, d) && d.row.Gone?
  {
    var e := FreshId(c.events.Keys);
    NoSteps(c);
    assert ReplayCleanup(c, l, e).Some?;
    var more, f;
    ls, f := Go(c, [], c, ByAdmin(DoReplayCleanup(l, e)));
    more, d := PendingRemoves(f, e);
    Then(c, ls, f, more, d);
    ls := ls + more;
  }

  /** Whatever was killed, discarded or refused before: as long as something is left of a deletion, a
      schedule of system steps removes the row. */
  lemma DeletionCanFinish(c: Cell) returns (ls: seq<Label>, d: Cell)
    requires Core(c) && HasStatus(c, Deleting) && !Forgotten(c)
    ensures SystemRun(c, ls, d) && d.row.Gone?
  {
    var r :| Removes(c, r);
    match r
    case InEvent(e) => ls, d := EventRemoves(c, e);
    case InDispatcher(p) => ls, d := ReaderRemoves(c, p);
    case InMessage(m) => ls, d := MessageRemoves(c, m);
    case InTask(q) => ls, d := TaskRemoves(c, q);
    case InLetter(l) => ls, d := LetterRemoves(c, l);
  }

  // ---------- a forgotten deletion stays forgotten ----------

  lemma NothingRemoves(c: Cell)
    requires Forgotten(c)
    ensures forall e :: !LiveDelete(c, e)
    ensures forall p :: !DeleteReader(c, p)
    ensures forall m :: !DeleteSent(c, m)
    ensures forall q :: !DeleteRunning(c, q)
    ensures forall l :: !CleanupLetter(c, l)
  {
    forall e ensures !LiveDelete(c, e) {
      assert !Removes(c, InEvent(e));
    }
    forall p ensures !DeleteReader(c, p) {
      assert !Removes(c, InDispatcher(p));
    }
    forall m ensures !DeleteSent(c, m) {
      assert !Removes(c, InMessage(m));
    }
    forall q ensures !DeleteRunning(c, q) {
      assert !Removes(c, InTask(q));
    }
    forall l ensures !CleanupLetter(c, l) {
      assert !Removes(c, InLetter(l));
    }
  }

  /** The row is as it was, and no remover is new. */
  ghost predicate NoNewRemovers(c: Cell, c': Cell) {
    c'.row == c.row && forall r :: Removes(c', r) ==> Removes(c, r)
  }

  /** Events that remove documents, and their letters, are as before. */
  lemma SameEvents(c: Cell, c': Cell, e: EventId)
    requires LiveDelete(c', e) && e in c.events && c'.events[e] == c.events[e]
    requires forall y :: OpenFor(c', y, e) ==> OpenFor(c, y, e)
    ensures LiveDelete(c, e)
  {
  }

  lemma DispatcherAddsNoReader(c: Cell, outbox: Outbox, c': Cell)
    requires Forgotten(c) && StepDispatcher(c, outbox) == Some(c')
    ensures c'.row == c.row && forall r :: Removes(c', r) && !r.InEvent? ==> Removes(c, r)
  {
    NothingRemoves(c);
    match outbox {
      case DoDispatchClaim(e) => assert !LiveDelete(c, e);
      case DoDispatchRead(p, e) => assert !LiveDelete(c, e);
      case _ => assert !DeleteReader(c, outbox.p);
    }
  }

  lemma DispatcherAddsNoEvent(c: Cell, outbox: Outbox, c': Cell, e: EventId)
    requires Forgotten(c) && StepDispatcher(c, outbox) == Some(c') && LiveDelete(c', e)
    ensures LiveDelete(c, e)
  {
    NothingRemoves(c);
    match outbox {
      case DoDispatchClaim(d) => assert !LiveDelete(c, d);
      case DoDispatchRead(p, d) => assert !LiveDelete(c, d);
      case _ => assert !DeleteReader(c, outbox.p);
    }
    assert forall y :: OpenFor(c', y, e) ==> OpenFor(c, y, e);
    SameEvents(c, c', e);
  }

  lemma DispatcherAddsNone(c: Cell, outbox: Outbox, c': Cell)
    requires Forgotten(c) && StepDispatcher(c, outbox) == Some(c')
    ensures NoNewRemovers(c, c')
  {
    DispatcherAddsNoReader(c, outbox, c');
    forall r | Removes(c', r) ensures Removes(c, r) {
      if r.InEvent? {
        DispatcherAddsNoEvent(c, outbox, c', r.e);
      }
    }
  }

  lemma AdminAddsNone(c: Cell, triage: Triage, c': Cell)
    requires Forgotten(c) && StepAdmin(c, triage) == Some(c') && (triage.DoReplayOutbox? || triage.DoReplayCleanup?)
    ensures NoNewRemovers(c, c')
  {
    NothingRemoves(c);
    if triage.DoReplayOutbox? {
      var e := c.letters[triage.l].source.event;
      assert OpenFor(c, triage.l, e) && !LiveDelete(c, e);
    } else {
      assert !CleanupLetter(c, triage.l);
    }
    forall r | Removes(c', r) ensures Removes(c, r) {
      if r.InEvent? {
        assert forall y :: OpenFor(c', y, r.e) ==> OpenFor(c, y, r.e);
        SameEvents(c, c', r.e);
      }
    }
  }

  lemma MaintenanceAddsNone(c: Cell, upkeep: Upkeep, c': Cell)
    requires Forgotten(c) && StepMaintenance(c, upkeep) == Some(c')
    ensures NoNewRemovers(c, c')
  {
    forall r | Removes(c', r) ensures Removes(c, r) {
      if r.InEvent? {
        assert forall y :: OpenFor(c', y, r.e) ==> OpenFor(c, y, r.e);
        SameEvents(c, c', r.e);
      }
    }
  }

  lemma ClaimingRow(c: Cell, work: Work, c': Cell)
    requires HasStatus(c, Deleting) && StepWorker(c, work) == Some(c')
    requires work.DoDeliver? || work.DoClaim? || work.DoSkipClaim? || work.DoRowVanished? || work.DoDuplicate?
    ensures c'.row == c.row && c'.dispatchers == c.dispatchers
  {
  }

  lemma EarlyRow(c: Cell, work: Work, c': Cell)
    requires Core(c) && HasStatus(c, Deleting) && StepWorker(c, work) == Some(c') && IsEarly(work)
    ensures c'.row == c.row && c'.dispatchers == c.dispatchers
  {
    if work.DoDeliver? || work.DoClaim? || work.DoSkipClaim? || work.DoRowVanished? || work.DoDuplicate? {
      ClaimingRow(c, work, c');
    }
  }

  lemma LateRow(c: Cell, work: Work, c': Cell)
    requires Core(c) && HasStatus(c, Deleting) && StepWorker(c, work) == Some(c') && !IsEarly(work)
    ensures c'.row == c.row && c'.dispatchers == c.dispatchers
  {
  }

  lemma WorkerAddsNone(c: Cell, work: Work, c': Cell)
    requires Core(c) && Forgotten(c) && StepWorker(c, work) == Some(c')
    ensures NoNewRemovers(c, c')
  {
    if IsEarly(work) {
      EarlyRow(c, work, c');
    } else {
      LateRow(c, work, c');
    }
    WorkerLeavesObjects(c, work, c');
    WorkerLeavesLetters(c, work, c');
    forall r | Removes(c', r) ensures Removes(c, r) {
      if r.InEvent? {
        assert forall y :: OpenFor(c', y, r.e) ==> OpenFor(c, y, r.e);
        SameEvents(c, c', r.e);
      }
    }
  }

  lemma DeleterAddsNone(c: Cell, removal: Removal, c': Cell)
    requires Forgotten(c) && StepDeleter(c, removal) == Some(c')
    ensures NoNewRemovers(c, c')
  {
    NothingRemoves(c);
    match removal {
      case DoDeleteDeliver(m, _) => assert !DeleteSent(c, m);
      case DoRemoveRow(q) => if DeleteRunning(c, q) { assert false; }
      case _ => assert !DeleteRunning(c, removal.q);
    }
    forall r | Removes(c', r) ensures Removes(c, r) {
      if r.InEvent? {
        assert forall y :: OpenFor(c', y, r.e) ==> OpenFor(c, y, r.e);
        SameEvents(c, c', r.e);
      }
    }
  }

  lemma StepAddsNone(c: Cell, l: Label, c': Cell)
    requires Core(c) && Forgotten(c) && IsSystem(l) && Step(c, l) == Some(c')
    ensures NoNewRemovers(c, c')
  {
    match l
    case ByAdmin(triage) => AdminAddsNone(c, triage, c');
    case ByWorker(work) => WorkerAddsNone(c, work, c');
    case ByDispatcher(outbox) => DispatcherAddsNone(c, outbox, c');
    case ByMaintenance(upkeep) => MaintenanceAddsNone(c, upkeep, c');
    case ByDeleter(removal) => DeleterAddsNone(c, removal, c');
  }

  /** Whatever the system does: it does not touch the row of a forgotten deletion. */
  lemma {:induction false} ForgottenStays(c: Cell, ls: seq<Label>, c': Cell)
    requires Core(c) && Forgotten(c) && SystemRun(c, ls, c')
    ensures c'.row == c.row && Forgotten(c')
    decreases |ls|
  {
    if ls != [] {
      var next := Step(c, ls[0]).value;
      StepKeepsInv(c, ls[0], next);
      StepAddsNone(c, ls[0], next);
      assert forall l :: l in ls[1..] ==> l in ls;
      ForgottenStays(next, ls[1..], c');
    }
  }

  ghost predicate CanRemove(c: Cell) {
    exists ls, d :: SystemRun(c, ls, d) && d.row.Gone?
  }

  /** In every state of every schedule, a deletion is forgotten exactly when no schedule of system steps
      removes the row. */
  lemma ForgottenIffNothingRemoves(config: Config, clock: int, past: seq<Label>, c: Cell)
    requires Exec(Initial(config, clock), past) == Some(c) && HasStatus(c, Deleting)
    ensures Forgotten(c) <==> !CanRemove(c)
  {
    RunKeepsCore(Initial(config, clock), past, c);
    if !Forgotten(c) {
      var ls, d := DeletionCanFinish(c);
    } else if CanRemove(c) {
      var ls, d :| SystemRun(c, ls, d) && d.row.Gone?;
      ForgottenStays(c, ls, d);
      assert false;
    }
  }
}
