/** What the clock protects: a lease between two heartbeats, and an outbox event between two scans. */
module IngestionTimes {
  import opened Wrappers
  import opened Ingestion
  import opened OutboxBudget

  // ---------- the heartbeat of a lease ----------

  /** The writes by which a lease holder shows that it is alive: claim, stage or batch. */
  predicate Beats(l: Label) {
    l.ByWorker? && (l.work.DoClaim? || l.work.DoToChunking? || l.work.DoToEmbedding? || l.work.DoInsertBatch? || l.work.DoToIndexing?)
  }

  /** Every write of a heartbeat, the last one of an attempt included. */
  predicate WritesHeartbeat(l: Label) {
    Beats(l) || (l.ByWorker? && (l.work.DoActivate? || l.work.DoFailAndRetry? || l.work.DoFailTerminally?))
  }

  /** There was a heartbeat at time `at`, or later. */
  predicate BeatenSince(c: Cell, at: int) {
    at <= c.clock && (c.row.Present? ==> c.row.doc.heartbeat.Some? && at <= c.row.doc.heartbeat.value) && !c.row.Unborn?
  }

  /** What one step does to the heartbeat: none can be written before the row is there. */
  predicate HeartbeatMoves(c: Cell, writes: bool, c': Cell) {
    && c.clock <= c'.clock
    && (!c.row.Unborn? ==> !c'.row.Unborn?)
    && (c'.row.Present? && !c.row.Unborn? ==>
          && c.row.Present?
          && (c'.row.doc.heartbeat == c.row.doc.heartbeat || (writes && c'.row.doc.heartbeat == Some(c.clock))))
  }

  lemma UserBeat(c: Cell, request: Request, c': Cell)
    requires StepUser(c, request) == Some(c')
    ensures HeartbeatMoves(c, false, c')
  {
  }

  lemma AdminBeat(c: Cell, triage: Triage, c': Cell)
    requires StepAdmin(c, triage) == Some(c')
    ensures HeartbeatMoves(c, false, c')
  {
  }

  lemma EarlyBeat(c: Cell, work: Work, c': Cell)
    requires StepWorker(c, work) == Some(c') && IsEarly(work)
    ensures HeartbeatMoves(c, WritesHeartbeat(ByWorker(work)), c')
  {
  }

  lemma LateBeat(c: Cell, work: Work, c': Cell)
    requires StepWorker(c, work) == Some(c') && !IsEarly(work)
    ensures HeartbeatMoves(c, WritesHeartbeat(ByWorker(work)), c')
  {
  }

  lemma DispatcherBeat(c: Cell, outbox: Outbox, c': Cell)
    requires StepDispatcher(c, outbox) == Some(c')
    ensures HeartbeatMoves(c, false, c')
  {
  }

  lemma MaintenanceBeat(c: Cell, upkeep: Upkeep, c': Cell)
    requires StepMaintenance(c, upkeep) == Some(c')
    ensures HeartbeatMoves(c, false, c')
  {
  }

  lemma DeleterBeat(c: Cell, removal: Removal, c': Cell)
    requires StepDeleter(c, removal) == Some(c')
    ensures HeartbeatMoves(c, false, c')
  {
  }

  lemma StepBeat(c: Cell, l: Label, c': Cell)
    requires Step(c, l) == Some(c')
    ensures HeartbeatMoves(c, WritesHeartbeat(l), c')
  {
    match l
    case ByUser(request) => UserBeat(c, request, c');
    case ByAdmin(triage) => AdminBeat(c, triage, c');
    case ByWorker(work) => if IsEarly(work) { EarlyBeat(c, work, c'); } else { LateBeat(c, work, c'); }
    case ByDispatcher(outbox) => DispatcherBeat(c, outbox, c');
    case ByMaintenance(upkeep) => MaintenanceBeat(c, upkeep, c');
    case ByDeleter(removal) => DeleterBeat(c, removal, c');
  }

  lemma {:induction false} RunBeat(c: Cell, ls: seq<Label>, at: int, d: Cell)
    requires BeatenSince(c, at) && Exec(c, ls) == Some(d)
    ensures BeatenSince(d, at)
    decreases |ls|
  {
    if ls != [] {
      StepBeat(c, ls[0], Step(c, ls[0]).value);
      RunBeat(Step(c, ls[0]).value, ls[1..], at, d);
    }
  }

  predicate BeatsNow(c: Cell, c': Cell) {
    c'.clock == c.clock && c'.row.Present? && c'.row.doc.heartbeat == Some(c.clock)
  }

  lemma EarlyBeatsNow(c: Cell, work: Work, c': Cell)
    requires StepWorker(c, work) == Some(c') && (work.DoClaim? || work.DoToChunking? || work.DoToEmbedding?)
    ensures BeatsNow(c, c')
  {
  }

  lemma LateBeatsNow(c: Cell, work: Work, c': Cell)
    requires StepWorker(c, work) == Some(c') && (work.DoInsertBatch? || work.DoToIndexing?)
    ensures BeatsNow(c, c')
  {
  }

  lemma BeatIsNow(c: Cell, l: Label, c': Cell)
    requires Step(c, l) == Some(c') && Beats(l)
    ensures BeatsNow(c, c')
  {
    if IsEarly(l.work) {
      EarlyBeatsNow(c, l.work, c');
    } else {
      LateBeatsNow(c, l.work, c');
    }
  }

  /** A lease holder that has just claimed, written a stage or stored a batch is not reclaimed before
      more than `staleAfter` seconds have passed, whatever happens in between. */
  lemma LiveWorkerIsNotReclaimed(c: Cell, l: Label, c': Cell, ls: seq<Label>, d: Cell, staleAfter: nat, e: EventId)
    requires Step(c, l) == Some(c') && Beats(l) && Exec(c', ls) == Some(d)
    requires Step(d, ByMaintenance(DoReclaim(staleAfter, e))).Some?
    ensures d.clock > c.clock + staleAfter
  {
    BeatIsNow(c, l, c');
    RunBeat(c', ls, c.clock, d);
  }

  lemma {:induction false} RunSilent(c: Cell, ls: seq<Label>, d: Cell)
    requires c.row.Present? && Exec(c, ls) == Some(d) && forall l :: l in ls ==> !WritesHeartbeat(l)
    ensures !d.row.Unborn? && (d.row.Present? ==> d.row.doc.heartbeat == c.row.doc.heartbeat)
    decreases |ls|
  {
    if ls != [] {
      var next := Step(c, ls[0]).value;
      StepBeat(c, ls[0], next);
      if next.row.Present? {
        RunSilent(next, ls[1..], d);
      } else {
        RunGone(next, ls[1..], d);
      }
    }
  }

  lemma {:induction false} RunGone(c: Cell, ls: seq<Label>, d: Cell)
    requires c.row.Gone? && Exec(c, ls) == Some(d)
    ensures d.row.Gone?
    decreases |ls|
  {
    if ls != [] {
      StepBeat(c, ls[0], Step(c, ls[0]).value);
      RunGone(Step(c, ls[0]).value, ls[1..], d);
    }
  }

  /** Exactly when it is: as long as nobody writes a heartbeat, the reconciler takes the document if and
      only if it still stands in a working status and more than `staleAfter` seconds have passed. */
  lemma SilentWorkerIsReclaimedIff(c: Cell, l: Label, c': Cell, ls: seq<Label>, d: Cell, staleAfter: nat, e: EventId)
    requires Step(c, l) == Some(c') && Beats(l) && Exec(c', ls) == Some(d)
    requires (forall m :: m in ls ==> !WritesHeartbeat(m)) && e !in d.events
    ensures Step(d, ByMaintenance(DoReclaim(staleAfter, e))).Some? <==>
              && (HasStatus(d, Parsing) || HasStatus(d, Chunking) || HasStatus(d, Embedding) || HasStatus(d, Indexing))
              && d.clock > c.clock + staleAfter
  {
    BeatIsNow(c, l, c');
    RunSilent(c', ls, d);
  }

  // ---------- the rest of an outbox event ----------

  /** The event is not due before `at`, unless it has been sent or parked. */
  predicate RestsUntil(c: Cell, e: EventId, at: int) {
    e in c.events && (c.events[e].status == Pending || c.events[e].status == Publishing ==> at <= c.events[e].nextRetry)
  }

  /** What a step that neither records a refusal of the event nor replays it does to its due time. */
  predicate RestKept(c: Cell, e: EventId, c': Cell)
    requires e in c.events
  {
    && e in c'.events
    && (c'.events[e].status == Pending || c'.events[e].status == Publishing ==>
          && (c.events[e].status == Pending || c.events[e].status == Publishing)
          && c.events[e].nextRetry <= c'.events[e].nextRetry)
  }

  lemma UserRest(c: Cell, request: Request, e: EventId, c': Cell)
    requires e in c.events && StepUser(c, request) == Some(c')
    ensures RestKept(c, e, c')
  {
  }

  lemma AdminRest(c: Cell, triage: Triage, e: EventId, c': Cell)
    requires e in c.events && StepAdmin(c, triage) == Some(c') && !ReplaysEvent(c, ByAdmin(triage), e)
    ensures RestKept(c, e, c')
  {
  }

  lemma WorkerRest(c: Cell, work: Work, e: EventId, c': Cell)
    requires e in c.events && StepWorker(c, work) == Some(c')
    ensures RestKept(c, e, c')
  {
    if IsEarly(work) {
      EarlyEvents(c, work, c');
    } else {
      LateEvents(c, work, c');
    }
  }

  lemma EarlyEvents(c: Cell, work: Work, c': Cell)
    requires StepWorker(c, work) == Some(c') && IsEarly(work)
    ensures c'.events == c.events
  {
  }

  lemma LateEvents(c: Cell, work: Work, c': Cell)
    requires StepWorker(c, work) == Some(c') && !IsEarly(work)
    ensures c'.events == c.events
  {
  }

  lemma DispatcherRest(c: Cell, outbox: Outbox, e: EventId, c': Cell)
    requires e in c.events && StepDispatcher(c, outbox) == Some(c') && !Refuses(c, ByDispatcher(outbox), e)
    ensures RestKept(c, e, c')
  {
  }

  lemma MaintenanceRest(c: Cell, upkeep: Upkeep, e: EventId, c': Cell)
    requires e in c.events && StepMaintenance(c, upkeep) == Some(c')
    ensures RestKept(c, e, c')
  {
  }

  lemma StepRest(c: Cell, l: Label, e: EventId, c': Cell)
    requires e in c.events && Step(c, l) == Some(c') && !Refuses(c, l, e) && !ReplaysEvent(c, l, e)
    ensures RestKept(c, e, c')
  {
    match l
    case ByUser(request) => UserRest(c, request, e, c');
    case ByAdmin(triage) => AdminRest(c, triage, e, c');
    case ByWorker(work) => WorkerRest(c, work, e, c');
    case ByDispatcher(outbox) => DispatcherRest(c, outbox, e, c');
    case ByMaintenance(upkeep) => MaintenanceRest(c, upkeep, e, c');
    case ByDeleter(removal) =>
  }

  /** No step of the schedule records a failed attempt at the event or replays it. */
  predicate LeavesEvent(c: Cell, ls: seq<Label>, e: EventId)
    decreases |ls|
  {
    ls != [] ==>
      && !Refuses(c, ls[0], e) && !ReplaysEvent(c, ls[0], e)
      && (Step(c, ls[0]).Some? ==> LeavesEvent(Step(c, ls[0]).value, ls[1..], e))
  }

  lemma {:induction false} RunRests(c: Cell, ls: seq<Label>, e: EventId, at: int, d: Cell)
    requires RestsUntil(c, e, at) && LeavesEvent(c, ls, e) && Exec(c, ls) == Some(d)
    ensures RestsUntil(d, e, at)
    decreases |ls|
  {
    if ls != [] {
      StepRest(c, ls[0], e, Step(c, ls[0]).value);
      RunRests(Step(c, ls[0]).value, ls[1..], e, at, d);
    }
  }

  /** A claimed event is claimed again only a minute later, so that its dispatcher has that long; only
      a refusal or a replay gives it back earlier. */
  lemma ClaimedEventRests(c: Cell, e: EventId, c': Cell, ls: seq<Label>, d: Cell)
    requires Step(c, ByDispatcher(DoDispatchClaim(e))) == Some(c') && LeavesEvent(c', ls, e) && Exec(c', ls) == Some(d)
    requires Step(d, ByDispatcher(DoDispatchClaim(e))).Some?
    ensures d.clock >= c.clock + 60
  {
    RunRests(c', ls, e, c.clock + 60, d);
  }

  // ---------- the delays between failed attempts ----------

  function Min(a: nat, b: nat): nat {
    if a < b then a else b
  }

  /** The first delay is the base, each further one twice the one before, none longer than 300 seconds. */
  lemma DelayDoubles(base: nat, n: nat)
    ensures Backoff(base, 0) == Backoff(base, 1) == Min(base, 300)
    ensures n > 0 ==> Backoff(base, n + 1) == Min(2 * Backoff(base, n), 300)
  {
    if n > 0 {
      assert Pow2(n) == 2 * Pow2(n - 1);
      assert base * Pow2(n) == 2 * (base * Pow2(n - 1));
    }
  }

  /** An event refused for the n-th time is left alone for the n-th delay. */
  lemma RefusedEventRests(c: Cell, l: Label, e: EventId, c': Cell, ls: seq<Label>, d: Cell)
    requires Refuses(c, l, e) && Step(c, l) == Some(c') && LeavesEvent(c', ls, e) && Exec(c', ls) == Some(d)
    requires Step(d, ByDispatcher(DoDispatchClaim(e))).Some?
    ensures e in c'.events && c'.events[e].retries == c.dispatchers[l.outbox.p].read + 1
    ensures d.clock >= c.clock + Backoff(c.config.outboxBaseRetry, c'.events[e].retries)
  {
    StepRefused(c, l, e, c');
    RunRests(c', ls, e, c'.events[e].nextRetry, d);
  }

  // ---------- a replacement during the count ----------

  /** Worker `t` is at or behind its count, and its token does not stand with the status that the switch
      asks for. */
  predicate CannotSwitch(c: Cell, t: Token) {
    && t in c.used
    && (t in c.workers ==> c.workers[t].phase.Counting? || c.workers[t].phase.MustRetry? || c.workers[t].phase.Finished?)
    && !(HoldsLease(c, t) && c.row.doc.status == Indexing)
  }

  lemma EarlyCannotSwitch(c: Cell, t: Token, work: Work, c': Cell)
    requires CannotSwitch(c, t) && StepWorker(c, work) == Some(c') && IsEarly(work)
    ensures CannotSwitch(c', t)
  {
  }

  lemma LateCannotSwitch(c: Cell, t: Token, work: Work, c': Cell)
    requires CannotSwitch(c, t) && StepWorker(c, work) == Some(c') && !IsEarly(work)
    ensures CannotSwitch(c', t)
  {
  }

  /** Nobody else writes that status or a token. */
  predicate NoNewLease(c: Cell, c': Cell) {
    && c'.workers == c.workers && c'.used == c.used
    && (c'.row.Present? && c'.row.doc.token.Some? ==> c.row.Present? && c'.row.doc.token == c.row.doc.token)
    && (c'.row.Present? && c'.row.doc.status == Indexing ==> c.row.Present? && c.row.doc.status == Indexing)
  }

  lemma UserLease(c: Cell, request: Request, c': Cell)
    requires StepUser(c, request) == Some(c')
    ensures NoNewLease(c, c')
  {
  }

  lemma AdminLease(c: Cell, triage: Triage, c': Cell)
    requires StepAdmin(c, triage) == Some(c')
    ensures NoNewLease(c, c')
  {
  }

  lemma DispatcherLease(c: Cell, outbox: Outbox, c': Cell)
    requires StepDispatcher(c, outbox) == Some(c')
    ensures NoNewLease(c, c')
  {
  }

  lemma MaintenanceLease(c: Cell, upkeep: Upkeep, c': Cell)
    requires StepMaintenance(c, upkeep) == Some(c')
    ensures NoNewLease(c, c')
  {
  }

  lemma DeleterLease(c: Cell, removal: Removal, c': Cell)
    requires StepDeleter(c, removal) == Some(c')
    ensures NoNewLease(c, c')
  {
  }

  lemma StepCannotSwitch(c: Cell, t: Token, l: Label, c': Cell)
    requires CannotSwitch(c, t) && Step(c, l) == Some(c')
    ensures CannotSwitch(c', t)
  {
    match l
    case ByUser(request) => UserLease(c, request, c');
    case ByAdmin(triage) => AdminLease(c, triage, c');
    case ByWorker(work) => if IsEarly(work) { EarlyCannotSwitch(c, t, work, c'); } else { LateCannotSwitch(c, t, work, c'); }
    case ByDispatcher(outbox) => DispatcherLease(c, outbox, c');
    case ByMaintenance(upkeep) => MaintenanceLease(c, upkeep, c');
    case ByDeleter(removal) => DeleterLease(c, removal, c');
  }

  lemma {:induction false} RunCannotSwitch(c: Cell, t: Token, ls: seq<Label>, d: Cell)
    requires CannotSwitch(c, t) && Exec(c, ls) == Some(d)
    ensures CannotSwitch(d, t)
    decreases |ls|
  {
    if ls != [] {
      StepCannotSwitch(c, t, ls[0], Step(c, ls[0]).value);
      RunCannotSwitch(Step(c, ls[0]).value, t, ls[1..], d);
    }
  }

  /** Content replaced while an attempt counts its chunks: that attempt never activates them, although
      it keeps its token. (Replaced earlier, it does: the next stage write overwrites the status.) */
  lemma ReplacedWhileCounting(c: Cell, t: Token, content: nat, key: ObjectKey, e: EventId, c': Cell, ls: seq<Label>, d: Cell)
    requires t in c.used && t in c.workers && c.workers[t].phase.Counting?
    requires Step(c, ByUser(DoReplace(content, key, e))) == Some(c') && Exec(c', ls) == Some(d)
    ensures Step(d, ByWorker(DoActivate(t))) == None
  {
    RunCannotSwitch(c', t, ls, d);
  }
}
