/** No delivery intent is lost across crashes and redeliveries, and exactly which steps strand a document. */
module IngestionDrivers {
  import opened Wrappers
  import opened Ingestion
  import opened IngestionSafety
  import opened IngestionFencing

  // ---------- delivery intents ----------

  /** A dead letter of the outbox that names event `e`: an operator can act on it, or has discarded it. */
  predicate NamesEvent(c: Cell, l: LetterId, e: EventId) {
    l in c.letters && c.letters[l] == Letter(FromOutbox(e), c.letters[l].status) && c.letters[l].status != Replayed
  }

  ghost predicate HasLetter(c: Cell, e: EventId) {
    exists l :: NamesEvent(c, l, e)
  }

  /** Sent means published, parked means there is a letter about it; anything else is scanned again. */
  ghost predicate IntentOk(c: Cell, e: EventId)
    requires e in c.events
  {
    && (c.events[e].status == Sent ==> c.events[e].published)
    && (c.events[e].status == Parked ==> HasLetter(c, e))
  }

  ghost predicate IntentsOk(c: Cell) {
    && (forall e :: e in c.events ==> IntentOk(c, e))
    && (forall p :: p in c.dispatchers ==>
          && c.dispatchers[p].event in c.events
          && (c.dispatchers[p].published ==> c.events[c.dispatchers[p].event].published))
  }

  /** An open letter that revives the parked event `e` when it is replayed. */
  predicate OpenFor(c: Cell, l: LetterId, e: EventId) {
    l in c.letters && c.letters[l] == Letter(FromOutbox(e), Open)
  }

  ghost predicate CanReplay(c: Cell, e: EventId) {
    exists l :: OpenFor(c, l, e)
  }

  /** The dispatcher scans by status. */
  predicate Scanned(c: Cell, e: EventId) {
    e in c.events && (c.events[e].status == Pending || c.events[e].status == Publishing)
  }

  /** An event that is scanned again, at once or after a replay of one of its letters. The replay asks
      neither for the status of the event nor whether it was published. */
  ghost predicate Scannable(c: Cell, e: EventId) {
    e in c.events && (Scanned(c, e) || CanReplay(c, e))
  }

  predicate IsDiscard(l: Label) {
    l.ByAdmin? && l.triage.DoDiscardLetter?
  }

  /** The step marks event `e` as sent. */
  predicate MarksSent(c: Cell, l: Label, e: EventId) {
    && l.ByDispatcher? && l.outbox.DoDispatchSent? && l.outbox.p in c.dispatchers
    && c.dispatchers[l.outbox.p].event == e
  }

  /** The event is scanned as before, unless it was published and is marked as sent, or its letter was
      discarded. */
  ghost predicate ScanKept(c: Cell, l: Label, c': Cell, e: EventId) {
    && e in c.events && e in c'.events && c'.events[e].kind == c.events[e].kind
    && (Scannable(c', e)
        || (MarksSent(c, l, e) && c'.events[e].published)
        || (IsDiscard(l) && OpenFor(c, l.triage.l, e)))
  }

  ghost predicate ScansKept(c: Cell, l: Label, c': Cell) {
    IntentsOk(c') && forall e :: Scannable(c, e) ==> ScanKept(c, l, c', e)
  }

  /** Events and dispatchers are only added or removed; of the letters, one may be discarded. */
  lemma FrameKeepsScans(c: Cell, l: Label, c': Cell)
    requires IntentsOk(c)
    requires forall p :: p in c'.dispatchers ==> p in c.dispatchers && c'.dispatchers[p] == c.dispatchers[p]
    requires forall e :: e in c.events ==> e in c'.events && c'.events[e] == c.events[e]
    requires forall e :: e in c'.events && e !in c.events ==> c'.events[e].status == Pending
    requires forall x, e :: NamesEvent(c, x, e) ==> NamesEvent(c', x, e)
    requires forall x, e :: OpenFor(c, x, e) ==> OpenFor(c', x, e) || (IsDiscard(l) && l.triage.l == x)
    ensures ScansKept(c, l, c')
  {
    forall e | e in c'.events ensures IntentOk(c', e) {
      if e in c.events && c.events[e].status == Parked {
        assert IntentOk(c, e);
        var x :| NamesEvent(c, x, e);
        assert NamesEvent(c', x, e);
      } else if e in c.events {
        assert IntentOk(c, e);
      }
    }
    forall e | Scannable(c, e) ensures ScanKept(c, l, c', e) {
      if !Scanned(c, e) {
        var x :| OpenFor(c, x, e);
        assert OpenFor(c', x, e) || (IsDiscard(l) && l.triage.l == x);
      }
    }
  }

  /** One event was rewritten; the letters of the others stay as they are. */
  lemma RewriteKeepsScans(c: Cell, l: Label, c': Cell, e: EventId)
    requires IntentsOk(c) && e in c.events && e in c'.events && c'.events == c.events[e := c'.events[e]]
    requires c.events[e].published ==> c'.events[e].published
    requires IntentOk(c', e) && (Scannable(c, e) ==> ScanKept(c, l, c', e))
    requires forall x, d :: d != e && NamesEvent(c, x, d) ==> NamesEvent(c', x, d)
    requires forall x, d :: d != e && OpenFor(c, x, d) ==> OpenFor(c', x, d)
    requires forall p :: p in c'.dispatchers ==>
               (p in c.dispatchers && c.dispatchers[p] == c'.dispatchers[p])
               || (c'.dispatchers[p].event == e && (c'.dispatchers[p].published ==> c'.events[e].published))
    ensures ScansKept(c, l, c')
  {
    forall d | d in c'.events ensures IntentOk(c', d) {
      if d != e {
        assert IntentOk(c, d);
        if c.events[d].status == Parked {
          var x :| NamesEvent(c, x, d);
          assert NamesEvent(c', x, d);
        }
      }
    }
    forall d | Scannable(c, d) ensures ScanKept(c, l, c', d) {
      if d != e && !Scanned(c, d) {
        var x :| OpenFor(c, x, d);
        assert OpenFor(c', x, d);
      }
    }
  }

  lemma DispatchClaimScans(c: Cell, e: EventId, c': Cell)
    requires IntentsOk(c) && DispatchClaim(c, e) == Some(c')
    ensures ScansKept(c, ByDispatcher(DoDispatchClaim(e)), c')
  {
    RewriteKeepsScans(c, ByDispatcher(DoDispatchClaim(e)), c', e);
  }

  lemma DispatchReadScans(c: Cell, p: nat, e: EventId, c': Cell)
    requires IntentsOk(c) && DispatchRead(c, p, e) == Some(c')
    ensures ScansKept(c, ByDispatcher(DoDispatchRead(p, e)), c')
  {
    assert IntentOk(c, e) && Scanned(c', e);
    RewriteKeepsScans(c, ByDispatcher(DoDispatchRead(p, e)), c', e);
  }

  lemma PublishScans(c: Cell, p: nat, l: Label, c': Cell)
    requires IntentsOk(c) && (PublishIngest(c, p) == Some(c') || PublishDelete(c, p) == Some(c'))
    ensures ScansKept(c, l, c')
  {
    var e := c.dispatchers[p].event;
    assert IntentOk(c, e);
    if HasLetter(c, e) {
      var x :| NamesEvent(c, x, e);
      assert NamesEvent(c', x, e);
    }
    if CanReplay(c, e) {
      var x :| OpenFor(c, x, e);
      assert OpenFor(c', x, e);
    }
    RewriteKeepsScans(c, l, c', e);
  }

  lemma DispatchSentScans(c: Cell, p: nat, c': Cell)
    requires IntentsOk(c) && DispatchSent(c, p) == Some(c')
    ensures ScansKept(c, ByDispatcher(DoDispatchSent(p)), c')
  {
    var e := c.dispatchers[p].event;
    assert IntentOk(c, e);
    RewriteKeepsScans(c, ByDispatcher(DoDispatchSent(p)), c', e);
  }

  lemma DispatchBackOffScans(c: Cell, p: nat, c': Cell)
    requires IntentsOk(c) && DispatchBackOff(c, p) == Some(c')
    ensures ScansKept(c, ByDispatcher(DoDispatchBackOff(p)), c')
  {
    var e := c.dispatchers[p].event;
    RewriteKeepsScans(c, ByDispatcher(DoDispatchBackOff(p)), c', e);
  }

  lemma DispatchParkScans(c: Cell, p: nat, x: LetterId, c': Cell)
    requires IntentsOk(c) && DispatchPark(c, p, x) == Some(c')
    ensures ScansKept(c, ByDispatcher(DoDispatchPark(p, x)), c')
  {
    var e := c.dispatchers[p].event;
    assert NamesEvent(c', x, e) && OpenFor(c', x, e);
    RewriteKeepsScans(c, ByDispatcher(DoDispatchPark(p, x)), c', e);
  }

  lemma ReplayOutboxScans(c: Cell, x: LetterId, c': Cell)
    requires IntentsOk(c) && ReplayOutbox(c, x) == Some(c')
    ensures ScansKept(c, ByAdmin(DoReplayOutbox(x)), c')
  {
    RewriteKeepsScans(c, ByAdmin(DoReplayOutbox(x)), c', c.letters[x].source.event);
  }

  lemma UserScans(c: Cell, request: Request, c': Cell)
    requires IntentsOk(c) && StepUser(c, request) == Some(c')
    ensures ScansKept(c, ByUser(request), c')
  {
    FrameKeepsScans(c, ByUser(request), c');
  }

  lemma AdminScans(c: Cell, triage: Triage, c': Cell)
    requires IntentsOk(c) && StepAdmin(c, triage) == Some(c')
    ensures ScansKept(c, ByAdmin(triage), c')
  {
    match triage
    case DoReplayOutbox(x) => ReplayOutboxScans(c, x, c');
    case _ => FrameKeepsScans(c, ByAdmin(triage), c');
  }

  lemma EarlyLeavesIntents(c: Cell, work: Work, c': Cell)
    requires StepWorker(c, work) == Some(c') && IsEarly(work)
    ensures c'.events == c.events && c'.dispatchers == c.dispatchers && c'.letters == c.letters
  {
  }

  lemma LateLeavesIntents(c: Cell, work: Work, c': Cell)
    requires StepWorker(c, work) == Some(c') && !IsEarly(work)
    ensures c'.events == c.events && c'.dispatchers == c.dispatchers
    ensures forall x :: x in c.letters ==> x in c'.letters && c'.letters[x] == c.letters[x]
  {
  }

  lemma WorkerScans(c: Cell, work: Work, c': Cell)
    requires IntentsOk(c) && StepWorker(c, work) == Some(c')
    ensures ScansKept(c, ByWorker(work), c')
  {
    if IsEarly(work) {
      EarlyLeavesIntents(c, work, c');
    } else {
      LateLeavesIntents(c, work, c');
    }
    FrameKeepsScans(c, ByWorker(work), c');
  }

  lemma DispatcherScans(c: Cell, outbox: Outbox, c': Cell)
    requires IntentsOk(c) && StepDispatcher(c, outbox) == Some(c')
    ensures ScansKept(c, ByDispatcher(outbox), c')
  {
    match outbox
    case DoDispatchClaim(e) => DispatchClaimScans(c, e, c');
    case DoDispatchRead(p, e) => DispatchReadScans(c, p, e, c');
    case DoPublishIngest(p) => PublishScans(c, p, ByDispatcher(outbox), c');
    case DoPublishDelete(p) => PublishScans(c, p, ByDispatcher(outbox), c');
    case DoDispatchSent(p) => DispatchSentScans(c, p, c');
    case DoDispatchBackOff(p) => DispatchBackOffScans(c, p, c');
    case DoDispatchPark(p, x) => DispatchParkScans(c, p, x, c');
    case DoDispatchDie(_) => FrameKeepsScans(c, ByDispatcher(outbox), c');
  }

  lemma MaintenanceScans(c: Cell, upkeep: Upkeep, c': Cell)
    requires IntentsOk(c) && StepMaintenance(c, upkeep) == Some(c')
    ensures ScansKept(c, ByMaintenance(upkeep), c')
  {
    FrameKeepsScans(c, ByMaintenance(upkeep), c');
  }

  lemma DeleterScans(c: Cell, removal: Removal, c': Cell)
    requires IntentsOk(c) && StepDeleter(c, removal) == Some(c')
    ensures ScansKept(c, ByDeleter(removal), c')
  {
    FrameKeepsScans(c, ByDeleter(removal), c');
  }

  /** Every step keeps the delivery intents, and an event stays scannable until it is marked as sent,
      which only a published one is, or a letter of it is discarded. */
  lemma StepScans(c: Cell, l: Label, c': Cell)
    requires IntentsOk(c) && Step(c, l) == Some(c')
    ensures ScansKept(c, l, c')
  {
    match l
    case ByUser(request) => UserScans(c, request, c');
    case ByAdmin(triage) => AdminScans(c, triage, c');
    case ByWorker(work) => WorkerScans(c, work, c');
    case ByDispatcher(outbox) => DispatcherScans(c, outbox, c');
    case ByMaintenance(upkeep) => MaintenanceScans(c, upkeep, c');
    case ByDeleter(removal) => DeleterScans(c, removal, c');
  }

  // ---------- drivers ----------

  /** A worker that still owes the document an attempt to claim it, or the next message. */
  predicate Owing(c: Cell, t: Token) {
    t in c.workers && (c.workers[t].phase.Started? || c.workers[t].phase.MustRetry?)
  }

  /** An attempt behind its claim: whatever goes wrong with it takes the failure path. */
  predicate Attempting(c: Cell, t: Token) {
    t in c.workers && (c.workers[t].phase.Leased? || CanFail(c.workers[t].phase))
  }

  /** The failure of this attempt makes the document claimable or leaves it a message. */
  predicate MayRetry(c: Cell, t: Token) {
    Attempting(c, t) && (c.workers[t].retries < INGEST_MAX_RETRIES || HoldsLease(c, t))
  }

  ghost predicate LiveIngest(c: Cell, e: EventId) {
    Scannable(c, e) && c.events[e].kind.IngestRequested?
  }

  /** A dispatcher that has read such an event: it publishes it, or records that it could not. */
  predicate IngestReader(c: Cell, p: nat) {
    p in c.dispatchers && c.dispatchers[p].event in c.events && c.events[c.dispatchers[p].event].kind.IngestRequested?
  }

  /** An open letter of a failed ingestion: it can be replayed. */
  predicate IngestLetter(c: Cell, l: LetterId) {
    l in c.letters && c.letters[l] == Letter(FromIngest, Open)
  }

  /** The periodic retry looks at letters of these documents. */
  predicate AwaitsLetter(c: Cell) {
    HasStatus(c, Failed) || HasStatus(c, Retrying)
  }

  /** Something that can still move the document on. */
  datatype Driver = InBroker | OfWorker(t: Token) | OfEvent(e: EventId) | OfDispatcher(p: nat) | OfLetter(l: LetterId)

  ghost predicate Drives(c: Cell, d: Driver) {
    match d
    case InBroker => RowIsClaimable(c) && c.inbox != multiset{}
    case OfWorker(t) =>
      || (RowIsClaimable(c) && (Owing(c, t) || MayRetry(c, t)))
      || (AwaitsLetter(c) && Attempting(c, t))
    case OfEvent(e) => RowIsClaimable(c) && LiveIngest(c, e)
    case OfDispatcher(p) => RowIsClaimable(c) && IngestReader(c, p)
    case OfLetter(l) => AwaitsLetter(c) && IngestLetter(c, l)
  }

  /** Working documents are not listed: the reconciler takes them back by their heartbeat. */
  predicate NeedsDriver(c: Cell) {
    RowIsClaimable(c) || HasStatus(c, Failed)
  }

  ghost predicate Stranded(c: Cell) {
    NeedsDriver(c) && !exists d :: Drives(c, d)
  }

  // ---------- the steps that take a driver ----------

  /** The step takes drivers and adds none. The rows that a failing or crashing attempt can no longer
      help are those its message or letter does not reach. */
  predicate TakesDrivers(c: Cell, l: Label) {
    match l
    case ByWorker(w) =>
      || w.DoKillAndAcknowledge? || w.DoLoseLease?
      || ((w.DoCrash? || w.DoFailAndRetry?) && HasStatus(c, Failed))
      || (w.DoFailTerminally? && !AwaitsLetter(c) && !HoldsLease(c, w.t))
    case ByAdmin(a) => a.DoDiscardLetter?
    case ByDispatcher(o) => o.DoDispatchSent? || o.DoDispatchDie?
    case _ => false
  }

  /** Letter `x` is all that can revive event `e`. */
  ghost predicate OnlyLetter(c: Cell, x: LetterId, e: EventId) {
    !Scanned(c, e) && forall y :: OpenFor(c, y, e) ==> y == x
  }

  ghost predicate Takes(c: Cell, l: Label, d: Driver) {
    match l
    case ByWorker(w) => !w.DoDuplicate? && d == OfWorker(w.t)
    case ByAdmin(a) =>
      a.DoDiscardLetter? && (d == OfLetter(a.l) || (d.OfEvent? && OnlyLetter(c, a.l, d.e)))
    case ByDispatcher(o) =>
      || ((o.DoDispatchSent? || o.DoDispatchDie?) && d == OfDispatcher(o.p))
      || (d.OfEvent? && MarksSent(c, l, d.e) && !CanReplay(c, d.e))
    case _ => false
  }

  /** The step takes every driver that is left. */
  ghost predicate Strands(c: Cell, l: Label) {
    TakesDrivers(c, l) && NeedsDriver(c) && forall d :: Drives(c, d) ==> Takes(c, l, d)
  }

  /** Exactly the drivers that the step does not take are left. */
  ghost predicate LeavesOthers(c: Cell, l: Label, c': Cell) {
    (NeedsDriver(c') <==> NeedsDriver(c)) && forall d :: Drives(c', d) <==> Drives(c, d) && !Takes(c, l, d)
  }

  lemma LeftStrandsIff(c: Cell, l: Label, c': Cell)
    requires TakesDrivers(c, l) && LeavesOthers(c, l, c')
    ensures Stranded(c') <==> Strands(c, l)
  {
    if Stranded(c') {
      forall d | Drives(c, d) ensures Takes(c, l, d) {
        assert !Drives(c', d);
      }
    }
  }

  /** Attempt `t` ends, and neither its message nor its letter reaches the row. */
  ghost predicate Ended(c: Cell, t: Token, c': Cell) {
    && c'.row == c.row && c'.events == c.events && c'.dispatchers == c.dispatchers
    && (RowIsClaimable(c) ==> c'.inbox == c.inbox)
    && (forall u :: u != t ==> (u in c'.workers <==> u in c.workers) && (u in c.workers ==> c'.workers[u] == c.workers[u]))
    && (t in c'.workers ==>
          c'.workers[t].phase.Finished? || (c'.workers[t].phase.MustRetry? && HasStatus(c, Failed)))
    && (forall x :: x in c.letters ==> x in c'.letters && c'.letters[x] == c.letters[x])
    && (forall x :: x in c'.letters && x !in c.letters ==> c'.letters[x].source.FromIngest?)
    && (AwaitsLetter(c) ==> c'.letters == c.letters)
  }

  lemma LeavingEnds(c: Cell, w: Work, c': Cell)
    requires StepWorker(c, w) == Some(c') && TakesDrivers(c, ByWorker(w))
    requires w.DoKillAndAcknowledge? || w.DoCrash? || w.DoLoseLease?
    ensures Ended(c, w.t, c')
  {
  }

  lemma FailingEnds(c: Cell, w: Work, c': Cell)
    requires Core(c) && StepWorker(c, w) == Some(c') && TakesDrivers(c, ByWorker(w))
    requires w.DoFailAndRetry? || w.DoFailTerminally?
    ensures Ended(c, w.t, c')
  {
  }

  lemma EndedScans(c: Cell, t: Token, c': Cell, e: EventId)
    requires Ended(c, t, c')
    ensures LiveIngest(c', e) <==> LiveIngest(c, e)
  {
    assert forall y :: OpenFor(c', y, e) <==> OpenFor(c, y, e);
  }

  lemma EndedTakes(c: Cell, t: Token, c': Cell, d: Driver)
    requires Ended(c, t, c')
    ensures Drives(c', d) <==> Drives(c, d) && d != OfWorker(t)
  {
    match d
    case OfEvent(e) => EndedScans(c, t, c', e);
    case _ =>
  }

  lemma EndLeavesOthers(c: Cell, w: Work, c': Cell)
    requires Core(c) && StepWorker(c, w) == Some(c') && TakesDrivers(c, ByWorker(w))
    ensures LeavesOthers(c, ByWorker(w), c')
  {
    if w.DoFailAndRetry? || w.DoFailTerminally? {
      FailingEnds(c, w, c');
    } else {
      LeavingEnds(c, w, c');
    }
    forall d ensures Drives(c', d) <==> Drives(c, d) && !Takes(c, ByWorker(w), d) {
      EndedTakes(c, w.t, c', d);
    }
  }

  lemma DiscardLeavesOthers(c: Cell, x: LetterId, c': Cell)
    requires DiscardLetter(c, x) == Some(c')
    ensures LeavesOthers(c, ByAdmin(DoDiscardLetter(x)), c')
  {
    assert forall y, e :: OpenFor(c', y, e) <==> y != x && OpenFor(c, y, e);
    forall d ensures Drives(c', d) <==> Drives(c, d) && !Takes(c, ByAdmin(DoDiscardLetter(x)), d) {
      if d.OfEvent? {
        assert Scannable(c', d.e) <==> Scannable(c, d.e) && !OnlyLetter(c, x, d.e);
      }
    }
  }

  lemma SentLeavesOthers(c: Cell, p: nat, c': Cell)
    requires DispatchSent(c, p) == Some(c')
    ensures LeavesOthers(c, ByDispatcher(DoDispatchSent(p)), c')
  {
    assert forall y, e :: OpenFor(c', y, e) <==> OpenFor(c, y, e);
    forall d ensures Drives(c', d) <==> Drives(c, d) && !Takes(c, ByDispatcher(DoDispatchSent(p)), d) {
      if d.OfEvent? {
        assert CanReplay(c', d.e) <==> CanReplay(c, d.e);
      }
    }
  }

  lemma DieLeavesOthers(c: Cell, p: nat, c': Cell)
    requires DispatchDie(c, p) == Some(c')
    ensures LeavesOthers(c, ByDispatcher(DoDispatchDie(p)), c')
  {
    assert forall y, e :: OpenFor(c', y, e) <==> OpenFor(c, y, e);
    forall d ensures Drives(c', d) <==> Drives(c, d) && !Takes(c, ByDispatcher(DoDispatchDie(p)), d) {
      if d.OfEvent? {
        assert Scannable(c', d.e) <==> Scannable(c, d.e);
      }
    }
  }

  lemma TakingStrandsIff(c: Cell, l: Label, c': Cell)
    requires Core(c) && Step(c, l) == Some(c') && TakesDrivers(c, l)
    ensures Stranded(c') <==> Strands(c, l)
  {
    match l {
      case ByWorker(w) => EndLeavesOthers(c, w, c');
      case ByAdmin(a) => DiscardLeavesOthers(c, a.l, c');
      case ByDispatcher(o) => if o.DoDispatchSent? { SentLeavesOthers(c, o.p, c'); } else { DieLeavesOthers(c, o.p, c'); }
    }
    LeftStrandsIff(c, l, c');
  }

  // ---------- every other step ----------

  /** Each driver stays or turns into another one, unless none is needed any more. */
  ghost predicate DrivesOn(c: Cell, c': Cell) {
    NeedsDriver(c') ==>
      || (exists d :: Drives(c', d))
      || (NeedsDriver(c) && forall d :: Drives(c, d) ==> exists e :: Drives(c', e))
  }

  lemma DrivenOn(c: Cell, c': Cell)
    requires !Stranded(c) && DrivesOn(c, c')
    ensures !Stranded(c')
  {
    if NeedsDriver(c') && NeedsDriver(c) {
      var d :| Drives(c, d);
    }
  }

  /** The row needs the same kind of driver as before, and messages, workers, dispatchers and letters are
      still there. */
  predicate Stays(c: Cell, c': Cell) {
    && c'.row.Present? && c.row.Present? && c'.row.doc.token == c.row.doc.token
    && RowIsClaimable(c') == RowIsClaimable(c) && AwaitsLetter(c') == AwaitsLetter(c)
  }

  ghost predicate Carries(c: Cell, c': Cell) {
    && Stays(c, c') && c.inbox <= c'.inbox && c'.workers == c.workers
    && (forall p :: IngestReader(c, p) ==> IngestReader(c', p) || LiveIngest(c', c.dispatchers[p].event))
    && (AwaitsLetter(c) ==> forall x :: IngestLetter(c, x) ==> IngestLetter(c', x))
  }

  lemma CarriesOn(c: Cell, l: Label, c': Cell)
    requires ScansKept(c, l, c') && !TakesDrivers(c, l) && Carries(c, c')
    ensures DrivesOn(c, c')
  {
    forall d | Drives(c, d) ensures exists e :: Drives(c', e) {
      match d {
        case InBroker =>
          var m :| m in c.inbox;
          assert m in c'.inbox && Drives(c', InBroker);
        case OfEvent(e) =>
          assert ScanKept(c, l, c', e);
          assert Drives(c', d);
        case OfDispatcher(p) =>
          if IngestReader(c', p) {
            assert Drives(c', d);
          } else {
            assert Drives(c', OfEvent(c.dispatchers[p].event));
          }
        case _ => assert Drives(c', d);
      }
    }
  }

  /** A request that enqueues an ingestion. */
  lemma EnqueueDrives(c: Cell, c': Cell, e: EventId)
    requires e in c'.events && c'.events[e] == NewEvent(IngestRequested, c.clock) && RowIsClaimable(c')
    ensures DrivesOn(c, c')
  {
    assert Drives(c', OfEvent(e));
  }

  lemma UserDrives(c: Cell, request: Request, c': Cell)
    requires StepUser(c, request) == Some(c')
    ensures DrivesOn(c, c')
  {
    match request
    case DoUpload(_, _, e) => EnqueueDrives(c, c', e);
    case DoReplace(_, _, e) => EnqueueDrives(c, c', e);
    case DoReindex(e) => EnqueueDrives(c, c', e);
    case _ =>
  }

  lemma AdminDrives(c: Cell, triage: Triage, c': Cell)
    requires StepAdmin(c, triage) == Some(c') && !triage.DoDiscardLetter? && ScansKept(c, ByAdmin(triage), c')
    ensures DrivesOn(c, c')
  {
    match triage
    case DoResume(e) => EnqueueDrives(c, c', e);
    case DoReplayIngest(_, e) => EnqueueDrives(c, c', e);
    case _ => if NeedsDriver(c') { CarriesOn(c, ByAdmin(triage), c'); }
  }

  lemma DispatcherCarries(c: Cell, outbox: Outbox, c': Cell)
    requires StepDispatcher(c, outbox) == Some(c') && !outbox.DoDispatchSent? && !outbox.DoDispatchDie?
    ensures c.row.Present? ==> Carries(c, c')
  {
    match outbox {
      case DoDispatchPark(p, x) => assert OpenFor(c', x, c.dispatchers[p].event);
      case _ =>
    }
  }

  lemma DispatcherDrives(c: Cell, outbox: Outbox, c': Cell)
    requires StepDispatcher(c, outbox) == Some(c') && ScansKept(c, ByDispatcher(outbox), c')
    requires !outbox.DoDispatchSent? && !outbox.DoDispatchDie?
    ensures DrivesOn(c, c')
  {
    DispatcherCarries(c, outbox, c');
    if NeedsDriver(c') {
      assert c.row.Present? by {
        DispatcherRow(c, outbox, c');
      }
      CarriesOn(c, ByDispatcher(outbox), c');
    }
  }

  lemma DispatcherRow(c: Cell, outbox: Outbox, c': Cell)
    requires StepDispatcher(c, outbox) == Some(c')
    ensures c'.row.Present? ==> c.row.Present?
  {
  }

  lemma MaintenanceDrives(c: Cell, upkeep: Upkeep, c': Cell)
    requires StepMaintenance(c, upkeep) == Some(c') && ScansKept(c, ByMaintenance(upkeep), c')
    ensures DrivesOn(c, c')
  {
    match upkeep
    case DoReclaim(_, e) => EnqueueDrives(c, c', e);
    case DoAutoRetry(_, e) => EnqueueDrives(c, c', e);
    case _ => if NeedsDriver(c') { CarriesOn(c, ByMaintenance(upkeep), c'); }
  }

  lemma DeleterFrame(c: Cell, removal: Removal, c': Cell)
    requires StepDeleter(c, removal) == Some(c')
    ensures c'.inbox == c.inbox && c'.workers == c.workers && c'.events == c.events && c'.dispatchers == c.dispatchers
    ensures c'.row == c.row || c'.row.Gone?
    ensures forall x :: x in c.letters ==> x in c'.letters && c'.letters[x] == c.letters[x]
  {
    DeleterKeepsLetters(c, removal, c');
    match removal
    case DoRemoveRow(q) => assert RemovesRow(c, q);
    case _ =>
  }

  lemma DeleterKeepsLetters(c: Cell, removal: Removal, c': Cell)
    requires StepDeleter(c, removal) == Some(c')
    ensures forall x :: x in c.letters ==> x in c'.letters && c'.letters[x] == c.letters[x]
  {
    if removal.DoDeletePark? {
      assert removal.l !in c.letters;
    } else {
      assert c'.letters == c.letters;
    }
  }

  lemma DeleterDrives(c: Cell, removal: Removal, c': Cell)
    requires StepDeleter(c, removal) == Some(c') && ScansKept(c, ByDeleter(removal), c')
    ensures DrivesOn(c, c')
  {
    DeleterFrame(c, removal, c');
    if NeedsDriver(c') {
      CarriesOn(c, ByDeleter(removal), c');
    }
  }

  // ---------- the worker's steps ----------

  /** Everything but worker `t` is still there; `t` is still at work if it was. */
  ghost predicate Moves(c: Cell, t: Token, c': Cell) {
    && Stays(c, c') && c.inbox <= c'.inbox && c'.dispatchers == c.dispatchers && c'.events == c.events
    && (forall u :: u in c.workers && u != t ==> u in c'.workers && c'.workers[u] == c.workers[u])
    && (forall x :: x in c.letters ==> x in c'.letters && c'.letters[x] == c.letters[x])
    && (Drives(c, OfWorker(t)) ==> exists d :: Drives(c', d))
  }

  lemma MovesOn(c: Cell, t: Token, c': Cell)
    requires Moves(c, t, c')
    ensures DrivesOn(c, c')
  {
    forall d | Drives(c, d) ensures exists e :: Drives(c', e) {
      match d {
        case InBroker =>
          var m :| m in c.inbox;
          assert m in c'.inbox && Drives(c', InBroker);
        case OfWorker(u) => if u != t { assert Drives(c', d); }
        case OfEvent(e) =>
          assert forall y :: OpenFor(c, y, e) ==> OpenFor(c', y, e);
          assert Drives(c', d);
        case _ => assert Drives(c', d);
      }
    }
  }

  lemma DeliverDrives(c: Cell, retries: nat, t: Token, chunkConfig: nat, model: nat, c': Cell)
    requires Core(c) && Deliver(c, retries, t, chunkConfig, model) == Some(c')
    ensures DrivesOn(c, c')
  {
    if RowIsClaimable(c) {
      assert Drives(c', OfWorker(t));
    } else if NeedsDriver(c') {
      forall d | Drives(c, d) ensures exists e :: Drives(c', e) {
        assert Drives(c', d);
      }
    }
  }

  lemma ClaimDrives(c: Cell, work: Work, c': Cell)
    requires StepWorker(c, work) == Some(c') && (work.DoClaim? || work.DoSkipClaim? || work.DoPlanReuse?)
    ensures DrivesOn(c, c')
  {
    if NeedsDriver(c') {
      assert Drives(c, OfWorker(work.t)) ==> Drives(c', OfWorker(work.t));
      MovesOn(c, work.t, c');
    }
  }

  lemma SplitDrives(c: Cell, work: Work, c': Cell)
    requires StepWorker(c, work) == Some(c')
    requires work.DoRowVanished? || work.DoToChunking? || work.DoToEmbedding? || work.DoDiscardStale? || work.DoInsertBatch?
    ensures DrivesOn(c, c')
  {
    if NeedsDriver(c') {
      assert Drives(c, OfWorker(work.t)) ==> Drives(c', OfWorker(work.t));
      MovesOn(c, work.t, c');
    }
  }

  lemma FinishDrives(c: Cell, work: Work, c': Cell)
    requires StepWorker(c, work) == Some(c')
    requires work.DoToIndexing? || work.DoActivate? || work.DoAcknowledge?
    ensures DrivesOn(c, c')
  {
    if NeedsDriver(c') {
      MovesOn(c, work.t, c');
    }
  }

  lemma MessageDrives(c: Cell, work: Work, c': Cell)
    requires StepWorker(c, work) == Some(c') && !TakesDrivers(c, ByWorker(work))
    requires work.DoPublishRetry? || work.DoCrash?
    ensures DrivesOn(c, c')
  {
    if RowIsClaimable(c') {
      assert Drives(c', InBroker);
    } else if NeedsDriver(c') {
      MovesOn(c, work.t, c');
    }
  }

  lemma DuplicateDrives(c: Cell, retries: nat, c': Cell)
    requires Duplicate(c, retries) == Some(c')
    ensures DrivesOn(c, c')
  {
    if RowIsClaimable(c') {
      assert Drives(c', InBroker);
    } else if NeedsDriver(c') {
      forall d | Drives(c, d) ensures exists e :: Drives(c', e) {
        assert Drives(c', d);
      }
    }
  }

  lemma FailDrives(c: Cell, work: Work, c': Cell)
    requires StepWorker(c, work) == Some(c') && !TakesDrivers(c, ByWorker(work))
    requires work.DoFailAndRetry? || work.DoFailTerminally?
    ensures DrivesOn(c, c')
  {
    if work.DoFailAndRetry? && RowIsClaimable(c') {
      assert Drives(c', OfWorker(work.t));
    } else if work.DoFailTerminally? && c.row.Present? && AwaitsLetter(c') {
      assert Drives(c', OfLetter(work.l));
    }
  }

  lemma WorkerDrives(c: Cell, work: Work, c': Cell)
    requires Core(c) && StepWorker(c, work) == Some(c') && !TakesDrivers(c, ByWorker(work))
    ensures DrivesOn(c, c')
  {
    match work
    case DoDeliver(retries, t, chunkConfig, model) => DeliverDrives(c, retries, t, chunkConfig, model, c');
    case DoClaim(_) => ClaimDrives(c, work, c');
    case DoSkipClaim(_) => ClaimDrives(c, work, c');
    case DoPlanReuse(_) => ClaimDrives(c, work, c');
    case DoRowVanished(_) => SplitDrives(c, work, c');
    case DoToChunking(_) => SplitDrives(c, work, c');
    case DoToEmbedding(_, _) => SplitDrives(c, work, c');
    case DoDiscardStale(_) => SplitDrives(c, work, c');
    case DoInsertBatch(_, _) => SplitDrives(c, work, c');
    case DoToIndexing(_) => FinishDrives(c, work, c');
    case DoActivate(_) => FinishDrives(c, work, c');
    case DoAcknowledge(_) => FinishDrives(c, work, c');
    case DoPublishRetry(_) => MessageDrives(c, work, c');
    case DoCrash(_) => MessageDrives(c, work, c');
    case DoDuplicate(retries) => DuplicateDrives(c, retries, c');
    case DoFailAndRetry(_) => FailDrives(c, work, c');
    case DoFailTerminally(_, _, _) => FailDrives(c, work, c');
    case DoLoseLease(_) => assert false;
    case DoKillAndAcknowledge(_) => assert false;
  }

  lemma StepDrives(c: Cell, l: Label, c': Cell)
    requires Core(c) && ScansKept(c, l, c') && Step(c, l) == Some(c') && !TakesDrivers(c, l)
    ensures DrivesOn(c, c')
  {
    match l
    case ByUser(request) => UserDrives(c, request, c');
    case ByAdmin(triage) => AdminDrives(c, triage, c');
    case ByWorker(work) => WorkerDrives(c, work, c');
    case ByDispatcher(outbox) => DispatcherDrives(c, outbox, c');
    case ByMaintenance(upkeep) => MaintenanceDrives(c, upkeep, c');
    case ByDeleter(removal) => DeleterDrives(c, removal, c');
  }

  // ---------- exactly when a step strands ----------

  ghost predicate DriverInv(c: Cell) {
    Core(c) && IntentsOk(c) && !Stranded(c)
  }

  /** From a state that drives its document, a step strands it exactly when it takes every driver left. */
  lemma StepStrandsIff(c: Cell, l: Label, c': Cell)
    requires DriverInv(c) && Step(c, l) == Some(c')
    ensures Core(c') && IntentsOk(c') && (Stranded(c') <==> Strands(c, l))
  {
    StepKeepsInv(c, l, c');
    StepScans(c, l, c');
    if TakesDrivers(c, l) {
      TakingStrandsIff(c, l, c');
    } else {
      StepDrives(c, l, c');
      DrivenOn(c, c');
    }
  }

  /** A kill strands the document exactly when the killed worker was its only driver. */
  lemma KillStrandsIff(c: Cell, t: Token, c': Cell)
    requires Core(c) && KillAndAcknowledge(c, t) == Some(c')
    ensures Stranded(c') <==> NeedsDriver(c) && forall d :: Drives(c, d) ==> d == OfWorker(t)
  {
    TakingStrandsIff(c, ByWorker(DoKillAndAcknowledge(t)), c');
  }

  /** A discard does exactly when the letter was, or was all that could revive the events that were. */
  lemma DiscardStrandsIff(c: Cell, x: LetterId, c': Cell)
    requires Core(c) && DiscardLetter(c, x) == Some(c')
    ensures Stranded(c') <==>
              NeedsDriver(c) && forall d :: Drives(c, d) ==> d == OfLetter(x) || (d.OfEvent? && OnlyLetter(c, x, d.e))
  {
    TakingStrandsIff(c, ByAdmin(DoDiscardLetter(x)), c');
  }

  /** Marking an event as sent does exactly when that dispatcher and its event were, and no open letter
      could send the event again. */
  lemma SentStrandsIff(c: Cell, p: nat, c': Cell)
    requires Core(c) && DispatchSent(c, p) == Some(c')
    ensures var e := c.dispatchers[p].event;
            Stranded(c') <==>
              NeedsDriver(c) && forall d :: Drives(c, d) ==> d == OfDispatcher(p) || (d == OfEvent(e) && !CanReplay(c, e))
  {
    TakingStrandsIff(c, ByDispatcher(DoDispatchSent(p)), c');
  }

  /** An attempt that ends without its message or letter reaching the row does exactly when it was the
      only driver. */
  lemma EndStrandsIff(c: Cell, w: Work, c': Cell)
    requires Core(c) && StepWorker(c, w) == Some(c') && TakesDrivers(c, ByWorker(w))
    ensures Stranded(c') <==> NeedsDriver(c) && forall d :: Drives(c, d) ==> d == OfWorker(w.t)
  {
    TakingStrandsIff(c, ByWorker(w), c');
  }

  /** The death of a dispatcher does exactly when it was the only driver. */
  lemma DeathStrandsIff(c: Cell, p: nat, c': Cell)
    requires Core(c) && DispatchDie(c, p) == Some(c')
    ensures Stranded(c') <==> NeedsDriver(c) && forall d :: Drives(c, d) ==> d == OfDispatcher(p)
  {
    TakingStrandsIff(c, ByDispatcher(DoDispatchDie(p)), c');
  }

  /** No step of the schedule takes every driver of its document. */
  ghost predicate MindfulRun(c: Cell, ls: seq<Label>)
    decreases |ls|
  {
    ls != [] ==>
      && !Strands(c, ls[0])
      && (Step(c, ls[0]).Some? ==> MindfulRun(Step(c, ls[0]).value, ls[1..]))
  }

  /** What schedules without such a step reach. */
  ghost predicate Reachable(c: Cell) {
    exists config, clock, ls :: Exec(Initial(config, clock), ls) == Some(c) && MindfulRun(Initial(config, clock), ls)
  }

  lemma {:induction false} RunDrives(c: Cell, ls: seq<Label>, c': Cell)
    requires DriverInv(c) && Exec(c, ls) == Some(c') && MindfulRun(c, ls)
    ensures DriverInv(c')
    decreases |ls|
  {
    if ls != [] {
      StepStrandsIff(c, ls[0], Step(c, ls[0]).value);
      RunDrives(Step(c, ls[0]).value, ls[1..], c');
    }
  }

  /** In every state reached without such a step: a claimable document has a message in the broker, a
      worker that owes it a claim or a retry or whose failure leads to one, an event that is scanned
      again or that an open letter sends again, a dispatcher that holds its event, or, when it is
      retrying, an open letter or an attempt that would leave one; a working one has a heartbeat that the
      reconciler can expire; a failed one has an open letter or such an attempt. Sent events were
      published, parked ones have a letter that is open or was discarded. */
  lemma NoDocumentIsStranded(c: Cell)
    requires Reachable(c)
    ensures RowIsClaimable(c) ==>
              || c.inbox != multiset{}
              || (exists t :: Owing(c, t) || MayRetry(c, t))
              || (exists e :: e in c.events && c.events[e].kind.IngestRequested?
                              && (c.events[e].status == Pending || c.events[e].status == Publishing
                                  || exists l :: OpenFor(c, l, e)))
              || (exists p :: IngestReader(c, p))
              || (HasStatus(c, Retrying) && ((exists l :: IngestLetter(c, l)) || (exists t :: Attempting(c, t))))
    ensures c.row.Present? && Working(c.row.doc.status) ==>
              c.row.doc.heartbeat.Some? && c.row.doc.heartbeat.value <= c.clock
    ensures HasStatus(c, Failed) ==> (exists l :: IngestLetter(c, l)) || (exists t :: Attempting(c, t))
    ensures forall e :: e in c.events ==>
              && (c.events[e].status == Sent ==> c.events[e].published)
              && (c.events[e].status == Parked ==> HasLetter(c, e))
  {
    var config, clock, ls :| Exec(Initial(config, clock), ls) == Some(c) && MindfulRun(Initial(config, clock), ls);
    RunDrives(Initial(config, clock), ls, c);
    forall e | e in c.events ensures IntentOk(c, e) {
    }
    if NeedsDriver(c) {
      var d :| Drives(c, d);
    }
  }
}
