/** The retry budget of one outbox event: exactly when its attempts stay within it, and how long they take. */
module OutboxBudget {
  import opened Wrappers
  import opened Ingestion

  function AtLeastOne(n: int): nat {
    if n < 1 then 1 else n
  }

  /** `outbox_max_retries` attempts, one if that setting is not positive. */
  function Budget(c: Cell): nat {
    AtLeastOne(c.config.outboxMaxRetries)
  }

  // ---------- one step of anyone ----------

  predicate IsRefusal(l: Label) {
    l.ByDispatcher? && (l.outbox.DoDispatchBackOff? || l.outbox.DoDispatchPark?)
  }

  /** The step records a failed attempt at event `e`. */
  predicate Refuses(c: Cell, l: Label, e: EventId) {
    IsRefusal(l) && l.outbox.p in c.dispatchers && c.dispatchers[l.outbox.p].event == e
  }

  /** It was read before another attempt was recorded. */
  predicate Outdated(c: Cell, l: Label, e: EventId) {
    Refuses(c, l, e) && e in c.events && c.dispatchers[l.outbox.p].read != c.events[e].retries
  }

  /** It was read with its budget already spent. */
  predicate SpentRefusal(c: Cell, l: Label, e: EventId) {
    Refuses(c, l, e) && c.dispatchers[l.outbox.p].read >= Budget(c)
  }

  predicate ReplaysEvent(c: Cell, l: Label, e: EventId) {
    l.ByAdmin? && l.triage.DoReplayOutbox? && l.triage.l in c.letters && c.letters[l.triage.l].source == FromOutbox(e)
  }

  /** What any other step may do to an event: claim it, read it, publish it, mark it sent. */
  predicate Untried(c: Cell, c': Cell, e: EventId, replayed: bool) {
    && e in c.events && e in c'.events
    && c'.events[e].failures == c.events[e].failures && c'.events[e].retries == c.events[e].retries
    && (c'.events[e].status == c.events[e].status
        || c'.events[e].status == Sent
        || (c'.events[e].status == Publishing && c.events[e].status == Pending)
        || (replayed && c'.events[e].status == Pending))
  }

  /** Dispatchers hold what they have read, or have just read what is stored. */
  predicate ReadsKept(c: Cell, c': Cell, e: EventId) {
    forall p :: p in c'.dispatchers && c'.dispatchers[p].event == e ==>
      || (p in c.dispatchers && c.dispatchers[p].event == e && c.dispatchers[p].read == c'.dispatchers[p].read)
      || (e in c.events && c.events[e].status == Publishing && c'.dispatchers[p].read == c.events[e].retries)
  }

  lemma UserUntried(c: Cell, request: Request, e: EventId, c': Cell)
    requires StepUser(c, request) == Some(c') && e in c.events
    ensures Untried(c, c', e, false) && ReadsKept(c, c', e) && c'.config == c.config
  {
  }

  lemma AdminUntried(c: Cell, triage: Triage, e: EventId, c': Cell)
    requires StepAdmin(c, triage) == Some(c') && e in c.events
    ensures Untried(c, c', e, ReplaysEvent(c, ByAdmin(triage), e)) && ReadsKept(c, c', e) && c'.config == c.config
  {
  }

  lemma EarlyUntried(c: Cell, work: Work, e: EventId, c': Cell)
    requires StepWorker(c, work) == Some(c') && e in c.events && IsEarly(work)
    ensures Untried(c, c', e, false) && ReadsKept(c, c', e) && c'.config == c.config
  {
  }

  lemma LateUntried(c: Cell, work: Work, e: EventId, c': Cell)
    requires StepWorker(c, work) == Some(c') && e in c.events && !IsEarly(work)
    ensures Untried(c, c', e, false) && ReadsKept(c, c', e) && c'.config == c.config
  {
  }

  lemma DispatcherUntried(c: Cell, outbox: Outbox, e: EventId, c': Cell)
    requires StepDispatcher(c, outbox) == Some(c') && e in c.events && !Refuses(c, ByDispatcher(outbox), e)
    ensures Untried(c, c', e, false) && ReadsKept(c, c', e) && c'.config == c.config
  {
  }

  lemma MaintenanceUntried(c: Cell, upkeep: Upkeep, e: EventId, c': Cell)
    requires StepMaintenance(c, upkeep) == Some(c') && e in c.events
    ensures Untried(c, c', e, false) && ReadsKept(c, c', e) && c'.config == c.config
  {
  }

  lemma DeleterUntried(c: Cell, removal: Removal, e: EventId, c': Cell)
    requires StepDeleter(c, removal) == Some(c') && e in c.events
    ensures Untried(c, c', e, false) && ReadsKept(c, c', e) && c'.config == c.config
  {
  }

  lemma StepUntried(c: Cell, l: Label, e: EventId, c': Cell)
    requires Step(c, l) == Some(c') && e in c.events && !Refuses(c, l, e)
    ensures Untried(c, c', e, ReplaysEvent(c, l, e)) && ReadsKept(c, c', e) && c'.config == c.config
  {
    match l
    case ByUser(request) => UserUntried(c, request, e, c');
    case ByAdmin(triage) => AdminUntried(c, triage, e, c');
    case ByWorker(work) => if IsEarly(work) { EarlyUntried(c, work, e, c'); } else { LateUntried(c, work, e, c'); }
    case ByDispatcher(outbox) => DispatcherUntried(c, outbox, e, c');
    case ByMaintenance(upkeep) => MaintenanceUntried(c, upkeep, e, c');
    case ByDeleter(removal) => DeleterUntried(c, removal, e, c');
  }

  lemma StepRefused(c: Cell, l: Label, e: EventId, c': Cell)
    requires Step(c, l) == Some(c') && Refuses(c, l, e)
    ensures e in c.events && e in c'.events && ReadsKept(c, c', e) && c'.config == c.config
    ensures c'.events[e] == FailedAttempt(c.events[e], c.dispatchers[l.outbox.p].read, c.config, c.clock)
  {
  }

  // ---------- whole schedules ----------

  /** How many recorded attempts the refusals of the schedule have overwritten: each writes one more
      than it has read, whatever is stored by then. */
  function Lost(c: Cell, ls: seq<Label>, e: EventId): int
    decreases |ls|
  {
    if ls == [] then 0
    else
      var here := if Refuses(c, ls[0], e) && e in c.events then c.events[e].retries - c.dispatchers[ls[0].outbox.p].read else 0;
      here + if Step(c, ls[0]).Some? then Lost(Step(c, ls[0]).value, ls[1..], e) else 0
  }

  predicate Overlaps(c: Cell, ls: seq<Label>, e: EventId)
    decreases |ls|
  {
    ls != [] && (Outdated(c, ls[0], e) || (Step(c, ls[0]).Some? && Overlaps(Step(c, ls[0]).value, ls[1..], e)))
  }

  predicate ReadsSpent(c: Cell, ls: seq<Label>, e: EventId)
    decreases |ls|
  {
    ls != [] && (SpentRefusal(c, ls[0], e) || (Step(c, ls[0]).Some? && ReadsSpent(Step(c, ls[0]).value, ls[1..], e)))
  }

  predicate Replayed(c: Cell, ls: seq<Label>, e: EventId)
    decreases |ls|
  {
    ls != [] && (ReplaysEvent(c, ls[0], e) || (Step(c, ls[0]).Some? && Replayed(Step(c, ls[0]).value, ls[1..], e)))
  }

  lemma {:induction false} FailuresAreCounted(c: Cell, ls: seq<Label>, e: EventId, c': Cell)
    requires e in c.events && Exec(c, ls) == Some(c')
    ensures e in c'.events && c'.config == c.config
    ensures c'.events[e].failures - c'.events[e].retries == c.events[e].failures - c.events[e].retries + Lost(c, ls, e)
    ensures !Overlaps(c, ls, e) ==> Lost(c, ls, e) == 0
    decreases |ls|
  {
    if ls != [] {
      var next := Step(c, ls[0]).value;
      if Refuses(c, ls[0], e) {
        StepRefused(c, ls[0], e, next);
      } else {
        StepUntried(c, ls[0], e, next);
      }
      FailuresAreCounted(next, ls[1..], e, c');
    }
  }

  /** Whoever may still record a failure has read a count below the budget. */
  ghost predicate ReadsBelow(c: Cell, e: EventId) {
    && e in c.events && c.events[e].retries <= Budget(c)
    && (c.events[e].status == Pending || c.events[e].status == Publishing ==> c.events[e].retries < Budget(c))
    && forall p :: p in c.dispatchers && c.dispatchers[p].event == e ==> c.dispatchers[p].read < Budget(c)
  }

  lemma StepReadsBelow(c: Cell, l: Label, e: EventId, c': Cell)
    requires ReadsBelow(c, e) && Step(c, l) == Some(c') && !ReplaysEvent(c, l, e)
    ensures ReadsBelow(c', e) && !SpentRefusal(c, l, e)
  {
    if Refuses(c, l, e) {
      StepRefused(c, l, e, c');
    } else {
      StepUntried(c, l, e, c');
    }
  }

  /** Only after a replay of its letter is an event read with its budget spent. */
  lemma {:induction false} SpentNeedsReplay(c: Cell, ls: seq<Label>, e: EventId, c': Cell)
    requires ReadsBelow(c, e) && Exec(c, ls) == Some(c') && !Replayed(c, ls, e)
    ensures ReadsBelow(c', e) && !ReadsSpent(c, ls, e)
    decreases |ls|
  {
    if ls != [] {
      StepReadsBelow(c, ls[0], e, Step(c, ls[0]).value);
      SpentNeedsReplay(Step(c, ls[0]).value, ls[1..], e, c');
    }
  }

  /** An event nobody has tried yet. */
  predicate Untouched(c: Cell, e: EventId) {
    && e in c.events && c.events[e].status == Pending && c.events[e].retries == 0 && c.events[e].failures == 0
    && forall p :: p in c.dispatchers ==> c.dispatchers[p].event != e
  }

  /** Along every schedule, the attempts at an event are its stored count and the counts that overlapping
      dispatchers have overwritten. They exceed the budget only after an overlapping read or a replay. */
  lemma OverspendNeedsOverlapOrReplay(c: Cell, ls: seq<Label>, e: EventId, c': Cell)
    requires Untouched(c, e) && Exec(c, ls) == Some(c')
    ensures e in c'.events && c'.events[e].failures == c'.events[e].retries + Lost(c, ls, e)
    ensures Lost(c, ls, e) != 0 ==> Overlaps(c, ls, e)
    ensures c'.events[e].retries > Budget(c) ==> Replayed(c, ls, e)
    ensures c'.events[e].failures > Budget(c) ==> Overlaps(c, ls, e) || Replayed(c, ls, e)
  {
    FailuresAreCounted(c, ls, e, c');
    if !Replayed(c, ls, e) {
      SpentNeedsReplay(c, ls, e, c');
    }
  }

  lemma {:induction false} SequentialCounts(c: Cell, ls: seq<Label>, e: EventId, c': Cell)
    requires e in c.events && c.events[e].failures == c.events[e].retries
    requires Exec(c, ls) == Some(c') && !Overlaps(c, ls, e)
    ensures e in c'.events && c'.events[e].failures >= c.events[e].failures
    ensures c'.events[e].failures > Budget(c) <==> c.events[e].failures > Budget(c) || ReadsSpent(c, ls, e)
    decreases |ls|
  {
    if ls != [] {
      var next := Step(c, ls[0]).value;
      if Refuses(c, ls[0], e) {
        StepRefused(c, ls[0], e, next);
      } else {
        StepUntried(c, ls[0], e, next);
      }
      SequentialCounts(next, ls[1..], e, c');
    }
  }

  /** Without overlapping reads, an event is tried more often than its budget allows exactly when a
      failure is recorded by a dispatcher that has read it spent, and so only after a replay. */
  lemma SequentialOverspendIff(c: Cell, ls: seq<Label>, e: EventId, c': Cell)
    requires Untouched(c, e) && Exec(c, ls) == Some(c') && !Overlaps(c, ls, e)
    ensures e in c'.events && (c'.events[e].failures > Budget(c) <==> ReadsSpent(c, ls, e))
    ensures ReadsSpent(c, ls, e) ==> Replayed(c, ls, e)
  {
    SequentialCounts(c, ls, e, c');
    if !Replayed(c, ls, e) {
      SpentNeedsReplay(c, ls, e, c');
    }
  }

  ghost predicate BudgetInv(c: Cell, e: EventId) {
    && ReadsBelow(c, e) && c.events[e].failures == c.events[e].retries
    && (c.events[e].status == Parked ==> c.events[e].failures == Budget(c))
  }

  lemma {:induction false} RunKeepsBudget(c: Cell, ls: seq<Label>, e: EventId, c': Cell)
    requires BudgetInv(c, e) && Exec(c, ls) == Some(c') && !Overlaps(c, ls, e) && !Replayed(c, ls, e)
    ensures BudgetInv(c', e) && Budget(c') == Budget(c)
    decreases |ls|
  {
    if ls != [] {
      var next := Step(c, ls[0]).value;
      StepReadsBelow(c, ls[0], e, next);
      if Refuses(c, ls[0], e) {
        StepRefused(c, ls[0], e, next);
      } else {
        StepUntried(c, ls[0], e, next);
      }
      RunKeepsBudget(next, ls[1..], e, c');
    }
  }

  /** Along every schedule without overlapping reads and replays of the event, its stored count is the
      number of its attempts, it is scanned as long as fewer of them failed than the budget allows, and
      parked only with exactly that many. */
  lemma BudgetIsExact(c: Cell, ls: seq<Label>, e: EventId, c': Cell)
    requires Untouched(c, e) && Exec(c, ls) == Some(c') && !Overlaps(c, ls, e) && !Replayed(c, ls, e)
    ensures e in c'.events && c'.events[e].retries == c'.events[e].failures <= Budget(c)
    ensures c'.events[e].status == Parked ==> c'.events[e].failures == Budget(c)
    ensures c'.events[e].status == Pending || c'.events[e].status == Publishing ==> c'.events[e].failures < Budget(c)
  {
    RunKeepsBudget(c, ls, e, c');
  }

  // ---------- scans one after the other ----------

  /** The event after scans at these times that were all refused by the broker. A parked event is not
      scanned any more. */
  function Refused(ev: Event, config: Config, clocks: seq<int>): Event
    decreases |clocks|
  {
    if clocks == [] then ev
    else
      var before := Refused(ev, config, clocks[..|clocks| - 1]);
      if before.status == Parked then before
      else FailedAttempt(before, before.retries, config, clocks[|clocks| - 1])
  }

  ghost predicate Sequential(c: Cell, ls: seq<Label>, e: EventId, c': Cell) {
    Exec(c, ls) == Some(c') && !Overlaps(c, ls, e) && !Replayed(c, ls, e)
  }

  lemma Before(c: Cell, l: Label, next: Cell, ls: seq<Label>, e: EventId, c': Cell)
    requires Step(c, l) == Some(next) && !Outdated(c, l, e) && !ReplaysEvent(c, l, e) && Sequential(next, ls, e, c')
    ensures Sequential(c, [l] + ls, e, c')
  {
    assert ([l] + ls)[1..] == ls;
  }

  lemma {:induction false} InSequence(c: Cell, ls: seq<Label>, d: Cell, ms: seq<Label>, e: EventId, c': Cell)
    requires Sequential(c, ls, e, d) && Sequential(d, ms, e, c')
    ensures Sequential(c, ls + ms, e, c')
    decreases |ls|
  {
    if ls == [] {
      assert ls + ms == ms;
    } else {
      var next := Step(c, ls[0]).value;
      InSequence(next, ls[1..], d, ms, e, c');
      Before(c, ls[0], next, ls[1..] + ms, e, c');
      assert ls + ms == [ls[0]] + (ls[1..] + ms);
    }
  }

  lemma ReadAndRefuse(c: Cell, e: EventId, p: nat, l: LetterId) returns (ls: seq<Label>, c': Cell)
    requires e in c.events && c.events[e].status == Publishing && p !in c.dispatchers && l !in c.letters
    ensures Sequential(c, ls, e, c')
    ensures c'.config == c.config && c'.clock == c.clock && c'.dispatchers == c.dispatchers
    ensures e in c'.events && c'.events[e] == FailedAttempt(c.events[e], c.events[e].retries, c.config, c.clock)
  {
    var read := DispatchRead(c, p, e).value;
    var refuse := if LastAttempt(read, p) then DoDispatchPark(p, l) else DoDispatchBackOff(p);
    c' := StepDispatcher(read, refuse).value;
    Before(read, ByDispatcher(refuse), c', [], e, c');
    Before(c, ByDispatcher(DoDispatchRead(p, e)), read, [ByDispatcher(refuse)] + [], e, c');
    ls := [ByDispatcher(DoDispatchRead(p, e))] + ([ByDispatcher(refuse)] + []);
    assert c'.dispatchers == c.dispatchers;
  }

  lemma ClaimAndRefuse(c: Cell, e: EventId, p: nat, l: LetterId) returns (ls: seq<Label>, c': Cell)
    requires e in c.events && c.events[e].status == Pending && c.events[e].nextRetry <= c.clock
    requires p !in c.dispatchers && l !in c.letters
    ensures Sequential(c, ls, e, c')
    ensures c'.config == c.config && c'.clock == c.clock && c'.dispatchers == c.dispatchers
    ensures e in c'.events && c'.events[e] == FailedAttempt(c.events[e], c.events[e].retries, c.config, c.clock)
  {
    var claimed := DispatchClaim(c, e).value;
    ls, c' := ReadAndRefuse(claimed, e, p, l);
    Before(c, ByDispatcher(DoDispatchClaim(e)), claimed, ls, e, c');
    ls := [ByDispatcher(DoDispatchClaim(e))] + ls;
  }

  /** One refused scan at time `now` is a schedule: wait, claim, read, record the failure. */
  lemma RefusedScan(c: Cell, e: EventId, now: int, p: nat, l: LetterId) returns (ls: seq<Label>, c': Cell)
    requires e in c.events && c.events[e].status == Pending && c.events[e].nextRetry <= now && c.clock <= now
    requires p !in c.dispatchers && l !in c.letters
    ensures Sequential(c, ls, e, c')
    ensures c'.config == c.config && c'.clock == now && c'.dispatchers == c.dispatchers
    ensures e in c'.events && c'.events[e] == FailedAttempt(c.events[e], c.events[e].retries, c.config, now)
  {
    var waited := Tick(c, now).value;
    ls, c' := ClaimAndRefuse(waited, e, p, l);
    Before(c, ByMaintenance(DoTick(now)), waited, ls, e, c');
    ls := [ByMaintenance(DoTick(now))] + ls;
  }

  /** Each scan finds the event due. */
  ghost predicate WaitedForDue(ev: Event, config: Config, clocks: seq<int>) {
    forall i :: 0 <= i < |clocks| ==> Refused(ev, config, clocks[..i]).nextRetry <= clocks[i]
  }

  /** Refused scans at times that do not go back are a schedule, and leave the event of `Refused`. */
  lemma {:induction false} RefusedScans(c: Cell, e: EventId, clocks: seq<int>) returns (ls: seq<Label>, c': Cell)
    requires e in c.events && c.events[e].status == Pending && WaitedForDue(c.events[e], c.config, clocks)
    requires forall i :: 0 <= i < |clocks| ==> c.clock <= clocks[i]
    requires forall i, j :: 0 <= i < j < |clocks| ==> clocks[i] <= clocks[j]
    ensures Sequential(c, ls, e, c') && c'.config == c.config
    ensures clocks != [] ==> c'.clock <= clocks[|clocks| - 1]
    ensures clocks == [] ==> c'.clock == c.clock
    ensures e in c'.events && c'.events[e] == Refused(c.events[e], c.config, clocks)
    ensures c'.events[e].status == Pending || c'.events[e].status == Parked
    decreases |clocks|
  {
    if clocks == [] {
      ls, c' := [], c;
    } else {
      var n := |clocks| - 1;
      assert WaitedForDue(c.events[e], c.config, clocks[..n]) by {
        assert forall i :: 0 <= i < n ==> clocks[..n][..i] == clocks[..i];
      }
      var d;
      ls, d := RefusedScans(c, e, clocks[..n]);
      c' := d;
      if d.events[e].status == Pending {
        var p := FreshId(d.dispatchers.Keys);
        var l := FreshId(d.letters.Keys);
        var more;
        more, c' := RefusedScan(d, e, clocks[n], p, l);
        InSequence(c, ls, d, more, e, c');
        ls := ls + more;
      }
    }
  }

  lemma {:induction false} RefusedCounts(ev: Event, config: Config, clocks: seq<int>)
    requires ev.status == Pending && ev.retries == 0 && ev.failures == 0
    ensures var after := Refused(ev, config, clocks);
            var budget := AtLeastOne(config.outboxMaxRetries);
            && after.retries == after.failures == (if |clocks| < budget then |clocks| else budget)
            && after.status == (if |clocks| < budget then Pending else Parked)
    decreases |clocks|
  {
    if clocks != [] {
      RefusedCounts(ev, config, clocks[..|clocks| - 1]);
    }
  }

  /** The sum of the delays behind the first `n` failures. */
  function TotalBackoff(base: nat, n: nat): nat {
    if n == 0 then 0 else TotalBackoff(base, n - 1) + Backoff(base, n)
  }

  lemma {:induction false} BackoffIsBounded(base: nat, n: nat)
    ensures TotalBackoff(base, n) <= 300 * n
    ensures TotalBackoff(base, n) <= base * (Pow2(n) - 1)
  {
    if n == 0 {
      assert base * (Pow2(0) - 1) == 0;
    } else {
      BackoffIsBounded(base, n - 1);
      Doubling(base, Pow2(n - 1));
    }
  }

  lemma Doubling(base: nat, p: nat)
    ensures base * (p - 1) + base * p == base * (2 * p - 1)
  {
    calc {
      base * (p - 1) + base * p;
      base * ((p - 1) + p);
    }
  }

  /** With scans only when the event is due, the whole budget is spent no earlier than the delays
      allow: each scan is at least the previous failure's delay after it. */
  lemma {:induction false} BudgetTakesItsTime(kind: EventKind, start: int, config: Config, clocks: seq<int>)
    requires 0 < |clocks| <= AtLeastOne(config.outboxMaxRetries)
    requires WaitedForDue(NewEvent(kind, start), config, clocks)
    ensures Refused(NewEvent(kind, start), config, clocks).nextRetry >= start + TotalBackoff(config.outboxBaseRetry, |clocks|)
    decreases |clocks|
  {
    var n, ev := |clocks|, NewEvent(kind, start);
    var shorter := clocks[..n - 1];
    RefusedCounts(ev, config, shorter);
    assert forall i :: 0 <= i < |shorter| ==> shorter[..i] == clocks[..i];
    if n > 1 {
      BudgetTakesItsTime(kind, start, config, shorter);
    } else {
      assert shorter == [];
    }
    assert Refused(ev, config, shorter).nextRetry <= clocks[n - 1];
  }
}
