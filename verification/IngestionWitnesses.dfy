/** Concrete schedules on which the protocol does not keep its promises. */
module IngestionWitnesses {
  import opened Wrappers
  import opened Ingestion
  import opened IngestionSafety
  import opened IngestionFencing
  import opened IngestionDrivers
  import opened IngestionDeletion
  import opened IngestionProgress
  import opened IngestionRemoval

  const CONFIG := Config(12, 2, 8)

  lemma AndThen(ls: seq<Label>, d: Cell, ms: seq<Label>, e: Cell) returns (all: seq<Label>)
    requires Exec(Initial(CONFIG, 0), ls) == Some(d) && Exec(d, ms) == Some(e)
    ensures all == ls + ms && Exec(Initial(CONFIG, 0), all) == Some(e)
  {
    ExecAppend(Initial(CONFIG, 0), ls, ms);
    all := ls + ms;
  }

  lemma FirstUpload() returns (ls: seq<Label>, d: Cell)
    ensures Exec(Initial(CONFIG, 0), ls) == Some(d) && Core(d)
    ensures Upload(Initial(CONFIG, 0), 0, 0, 0) == Some(d)
    ensures forall l :: l in ls ==> !l.ByWorker?
  {
    d := Upload(Initial(CONFIG, 0), 0, 0, 0).value;
    ls := [ByUser(DoUpload(0, 0, 0))];
    UploadKeepsInv(Initial(CONFIG, 0), 0, 0, 0, d);
    assert Exec(Initial(CONFIG, 0), ls) == Some(d) by {
      assert ls[1..] == [];
    }
  }

  /** Its event is published and marked as sent. */
  lemma PublishUploaded(c: Cell) returns (ls: seq<Label>, d: Cell)
    requires Core(c) && Upload(Initial(CONFIG, 0), 0, 0, 0) == Some(c)
    ensures SystemRun(c, ls, d) && Core(d) && d.row == Present(NewDocument(0, 0).(status := Queued))
    ensures d.inbox == multiset{0} && d.workers == map[] && d.used == {} && d.dispatchers == map[]
    ensures d.chunks == map[] && d.letters == map[] && d.everStored == {0}
    ensures d.events.Keys == {0} && d.events[0].status == Sent
  {
    NoSteps(c);
    ls, d := GoOutbox(c, [], c, DoDispatchClaim(0));
    ls, d := GoOutbox(c, ls, d, DoDispatchRead(0, 0));
    ls, d := GoOutbox(c, ls, d, DoPublishIngest(0));
    ls, d := GoOutbox(c, ls, d, DoDispatchSent(0));
  }

  /** Worker 0 has the message. */
  lemma DeliverUploaded(c: Cell, model: nat) returns (ls: seq<Label>, d: Cell)
    requires Core(c) && Upload(Initial(CONFIG, 0), 0, 0, 0) == Some(c)
    ensures SystemRun(c, ls, d) && Core(d) && d.row == Present(NewDocument(0, 0).(status := Queued))
    ensures d.workers == map[0 := Worker(0, 0, model, 0, Started)] && d.used == {0} && d.chunks == map[]
    ensures d.inbox == multiset{} && d.dispatchers == map[] && d.letters == map[] && d.everStored == {0}
    ensures d.events.Keys == {0} && d.events[0].status == Sent
  {
    ls, d := PublishUploaded(c);
    ls, d := GoWork(c, ls, d, DoDeliver(0, 0, 0, model));
  }

  lemma FirstDelivered(model: nat) returns (ls: seq<Label>, d: Cell)
    ensures Exec(Initial(CONFIG, 0), ls) == Some(d) && Core(d)
    ensures d.row == Present(NewDocument(0, 0).(status := Queued))
    ensures d.workers == map[0 := Worker(0, 0, model, 0, Started)] && d.used == {0} && d.chunks == map[]
    ensures d.inbox == multiset{} && d.dispatchers == map[] && d.letters == map[]
    ensures d.events.Keys == {0} && d.events[0].status == Sent
  {
    var c;
    ls, c := FirstUpload();
    var more;
    more, d := DeliverUploaded(c, model);
    ls := AndThen(ls, c, more, d);
  }

  lemma FirstPlanned(model: nat) returns (ls: seq<Label>, d: Cell)
    ensures Exec(Initial(CONFIG, 0), ls) == Some(d) && Core(d) && HoldsLease(d, 0)
    ensures 0 in d.workers && d.workers[0] == Worker(0, 0, model, 0, Planned(false, Some(1)))
    ensures d.chunks == map[] && Base(d.row.doc) == 0 && d.row.doc.content == 0
    ensures d.row.doc.fingerprint == Some(Fingerprint(0, 0, model))
  {
    var c;
    ls, c := FirstDelivered(model);
    var more;
    more, d := ClaimToPlan(c, 0);
    ls := AndThen(ls, c, more, d);
    assert BuildOk(d, d.row.doc, d.workers[0].phase);
  }

  /** Worker 0, with embedding model `model`, has split the uploaded content 0 into one piece. */
  lemma FirstSplit(model: nat) returns (ls: seq<Label>, d: Cell)
    ensures Exec(Initial(CONFIG, 0), ls) == Some(d) && Core(d) && HoldsLease(d, 0)
    ensures 0 in d.workers && d.workers[0] == Worker(0, 0, model, 0, Split(false, ["a"], Some(1)))
    ensures d.chunks == map[] && Base(d.row.doc) == 0 && d.row.doc.status == Embedding && d.row.doc.content == 0
    ensures d.row.doc.fingerprint == Some(Fingerprint(0, 0, model))
  {
    var c;
    ls, c := FirstPlanned(model);
    var more;
    more, d := PlanToSplit(c, 0, ["a"]);
    ls := AndThen(ls, c, more, d);
  }

  // ---------- the unguarded discard ----------

  /** A worker loses its lease after its split, another worker builds and activates
      that version, and then the first one runs its unguarded discard: a ready document that counts
      one chunk has none. */
  lemma StaleDiscardEmptiesActiveIndex() returns (ls: seq<Label>, d: Cell)
    ensures Exec(Initial(CONFIG, 0), ls) == Some(d)
    ensures HasStatus(d, Ready) && d.row.doc.active == Some(1) && d.row.doc.split == ["a"]
    ensures KeysAt(d.chunks, 1) == {} && !WholeActive(d)
  {
    var c;
    ls, c := FirstSplit(0);
    var more;
    more, d := WorkingFinishes(c, 300, ["a"]);
    ls := AndThen(ls, c, more, d);
    c := d;
    NoSteps(c);
    more, d := GoWork(c, [], c, DoDiscardStale(0));
    ls := AndThen(ls, c, more, d);
    assert ChunkKey(1, 0) !in d.chunks;
  }

  // ---------- content replaced under a lease ----------

  /** The content is replaced while worker 0, which has split content 0, holds its lease. The worker
      keeps the lease and makes the document ready with the split of the old content. */
  lemma ReplacedContentIsNotIndexed()
    returns (before: seq<Label>, c: Cell, replace: Label, after: seq<Label>, d: Cell)
    ensures Exec(Initial(CONFIG, 0), before) == Some(c)
    ensures HoldsLease(c, 0) && 0 in c.workers && c.workers[0].phase.Split? && c.row.doc.content == 0
    ensures replace.ByUser? && replace.request.DoReplace? && replace.request.content == 1
    ensures Exec(c, [replace] + after) == Some(d)
    ensures HasStatus(d, Ready) && d.row.doc.content == 1
    ensures d.row.doc.split == ["a"] && d.row.doc.built == Some(Fingerprint(0, 0, 0))
  {
    before, c := FirstSplit(0);
    var key := FreshId(c.everStored);
    var e := FreshId(c.events.Keys);
    replace := ByUser(DoReplace(1, key, e));
    var r := Replace(c, 1, key, e).value;
    ReplaceKeepsInv(c, 1, key, e, r);
    after, d := SplitFinishes(r, 0);
    assert Step(c, replace) == Some(r);
    assert ([replace] + after)[1..] == after;
  }

  // ---------- two embedding models ----------

  lemma First(c: Cell, l: Label, next: Cell, ls: seq<Label>, d: Cell)
    requires Step(c, l) == Some(next) && Exec(next, ls) == Some(d)
    ensures Exec(c, [l] + ls) == Some(d)
  {
    assert ([l] + ls)[1..] == ls;
  }

  lemma Expire(c: Cell) returns (ls: seq<Label>, d: Cell)
    requires Core(c) && c.row.Present? && Working(c.row.doc.status)
    ensures SystemRun(c, ls, d) && Core(d) && RowIsClaimable(d) && d.inbox == c.inbox
    ensures d.chunks == c.chunks && d.used == c.used && Base(d.row.doc) == Base(c.row.doc)
    ensures d.row.doc.content == c.row.doc.content && d.row.doc.fingerprint == c.row.doc.fingerprint
  {
    var e := FreshId(c.events.Keys);
    NoSteps(c);
    ls, d := GoUpkeep(c, [], c, DoTick(c.clock + 1));
    ls, d := GoUpkeep(c, ls, d, DoReclaim(0, e));
  }

  /** Worker `t` dies with its lease; the reconciler makes the document claimable again. */
  lemma Orphan(c: Cell, t: Token) returns (ls: seq<Label>, d: Cell)
    requires Core(c) && HoldsLease(c, t) && t in c.workers && Working(c.row.doc.status)
    ensures Exec(c, ls) == Some(d) && Core(d) && RowIsClaimable(d) && c.workers[t].retries in d.inbox
    ensures d.chunks == c.chunks && d.used == c.used && Base(d.row.doc) == Base(c.row.doc)
    ensures d.row.doc.content == c.row.doc.content && d.row.doc.fingerprint == c.row.doc.fingerprint
  {
    var crashed := Crash(c, t).value;
    CrashKeepsInv(c, t, crashed);
    var more;
    more, d := Expire(crashed);
    First(c, ByWorker(DoCrash(t)), crashed, more, d);
    ls := [ByWorker(DoCrash(t))] + more;
  }

  /** The next worker, with embedding model `model`, claims it and plans whether to reuse. */
  lemma NextPlan(c: Cell, retries: nat, model: nat) returns (ls: seq<Label>, d: Cell, t: Token)
    requires Core(c) && RowIsClaimable(c) && retries in c.inbox
    ensures SystemRun(c, ls, d) && Core(d) && HoldsLease(d, t) && d.row.doc.status == Parsing
    ensures d.chunks == c.chunks && Base(d.row.doc) == Base(c.row.doc) && d.row.doc.content == c.row.doc.content
    ensures var wanted := Fingerprint(c.row.doc.content, 0, model);
            && d.row.doc.fingerprint == Some(wanted)
            && t in d.workers
            && d.workers[t] == Worker(retries, 0, model, c.row.doc.content,
                                      Planned(c.row.doc.fingerprint == Some(wanted), d.row.doc.target))
  {
    t := FreshId(c.used);
    NoSteps(c);
    ls, d := GoWork(c, [], c, DoDeliver(retries, t, 0, model));
    var e := d;
    var more;
    more, d := ClaimToPlan(e, t);
    Then(c, ls, e, more, d);
    ls := ls + more;
  }

  const OLD_CHUNK: ChunkTable := map[ChunkKey(1, 0) := Chunk("a", Encode(1, "a"))]

  lemma FirstBatch()
    ensures PendingFrom(map[], false, ["a"], 1, 0) == [0]
    ensures Kept(map[], false, ["a"], 1) == map[]
    ensures InsertChunks(map[], [0], ["a"], 1, 1) == OLD_CHUNK
  {
    assert PendingFrom(map[], false, ["a"], 1, 1) == [];
    assert BatchKeys([0], 1) == {ChunkKey(1, 0)};
  }

  /** Worker 0 has embedded the one chunk with model 1 and is still working. */
  lemma FirstChunk() returns (ls: seq<Label>, d: Cell)
    ensures Exec(Initial(CONFIG, 0), ls) == Some(d) && Core(d) && HoldsLease(d, 0)
    ensures 0 in d.workers && d.workers[0].retries == 0 && d.row.doc.status == Embedding
    ensures d.chunks == OLD_CHUNK && Base(d.row.doc) == 0 && d.row.doc.content == 0
    ensures d.row.doc.fingerprint == Some(Fingerprint(0, 0, 1))
  {
    var c;
    ls, c := FirstSplit(1);
    var more;
    more, d := SplitToBatches(c, 0);
    ls := AndThen(ls, c, more, d);
    c := d;
    FirstBatch();
    more, d := InsertRemaining(c, 0);
    ls := AndThen(ls, c, more, d);
  }

  /** The model changes; the second attempt stores the new fingerprint and dies before it discards
      the old chunk; the third finds its own fingerprint stored and reuses it. The activated chunk
      carries the vector of model 1 although the activating attempt runs model 2. */
  lemma ReuseAcrossModels() returns (ls: seq<Label>, d: Cell)
    ensures Exec(Initial(CONFIG, 0), ls) == Some(d)
    ensures HasStatus(d, Ready) && d.row.doc.active == Some(1) && d.row.doc.split == ["a"]
    ensures d.chunks == OLD_CHUNK && d.row.doc.built == Some(Fingerprint(0, 0, 2))
  {
    var c, t;
    ls, c := SecondPrint();
    var more, retries;
    retries :| retries in c.inbox;
    more, d, t := NextPlan(c, retries, 2);
    ls := AndThen(ls, c, more, d);
    c := d;
    more, d := PlanToSplit(c, t, ["a"]);
    ls := AndThen(ls, c, more, d);
    c := d;
    more, d := SplitFinishes(c, t);
    ls := AndThen(ls, c, more, d);
    ReusedOldChunk();
  }

  /** The attempt with model 2 has stored its fingerprint, left the chunk of model 1 and died. */
  lemma SecondPrint() returns (ls: seq<Label>, d: Cell)
    ensures Exec(Initial(CONFIG, 0), ls) == Some(d) && Core(d) && RowIsClaimable(d) && d.inbox != multiset{}
    ensures d.chunks == OLD_CHUNK && Base(d.row.doc) == 0 && d.row.doc.content == 0
    ensures d.row.doc.fingerprint == Some(Fingerprint(0, 0, 2))
  {
    var c, t;
    ls, c := FirstChunk();
    var more;
    more, d := Orphan(c, 0);
    ls := AndThen(ls, c, more, d);
    c := d;
    more, d, t := NextPlan(c, 0, 2);
    ls := AndThen(ls, c, more, d);
    c := d;
    more, d := Orphan(c, t);
    ls := AndThen(ls, c, more, d);
  }

  lemma ReusedOldChunk()
    ensures Resumed(OLD_CHUNK, true, ["a"], 1, 2) == OLD_CHUNK
  {
    assert Reusable(OLD_CHUNK, true, ["a"], 1, 0);
    assert PendingFrom(OLD_CHUNK, true, ["a"], 1, 1) == [];
    assert PendingFrom(OLD_CHUNK, true, ["a"], 1, 0) == [];
    assert BatchKeys([], 1) == {};
  }

  // ---------- a killed deletion ----------

  lemma Append(ls: seq<Label>, c: Cell, l: Label, d: Cell) returns (all: seq<Label>)
    requires Exec(Initial(CONFIG, 0), ls) == Some(c) && Step(c, l) == Some(d)
    ensures Exec(Initial(CONFIG, 0), all) == Some(d)
  {
    all := AppendTo(Initial(CONFIG, 0), ls, c, l, d);
  }

  lemma AppendTo(start: Cell, ls: seq<Label>, c: Cell, l: Label, d: Cell) returns (all: seq<Label>)
    requires Exec(start, ls) == Some(c) && Step(c, l) == Some(d)
    ensures Exec(start, all) == Some(d)
  {
    ExecAppend(start, ls, [l]);
    assert [l][1..] == [];
    all := ls + [l];
  }

  lemma ClaimedDeletion() returns (ls: seq<Label>, d: Cell)
    ensures Exec(Initial(CONFIG, 0), ls) == Some(d)
    ensures HasStatus(d, Deleting) && d.deleteTasks == map[] && d.letters == map[] && d.dispatchers == map[]
    ensures d.deleteInbox == multiset{} && d.events.Keys == {0, 1} && d.events[0].kind.IngestRequested?
    ensures d.events[1].status == Publishing && d.events[1].kind == DeleteRequested(Payload([0], true))
  {
    ls, d := FirstUpload();
    var c := Delete(d, 1).value;
    ls := Append(ls, d, ByUser(DoDelete(1)), c);
    d := DispatchClaim(c, 1).value;
    ls := Append(ls, c, ByDispatcher(DoDispatchClaim(1)), d);
  }

  /** Its event is published and marked as sent. */
  lemma PublishedDeletion() returns (ls: seq<Label>, d: Cell)
    ensures Exec(Initial(CONFIG, 0), ls) == Some(d)
    ensures HasStatus(d, Deleting) && d.deleteTasks == map[] && d.letters == map[] && d.dispatchers == map[]
    ensures d.deleteInbox == multiset{DeleteMessage(Payload([0], true), 0)}
    ensures d.events.Keys == {0, 1} && d.events[0].kind.IngestRequested? && d.events[1].status == Sent
  {
    var c;
    ls, c := ClaimedDeletion();
    var e := ReadAndPublishDeletion(c);
    d := DispatchRead(c, 0, 1).value;
    ls := Append(ls, c, ByDispatcher(DoDispatchRead(0, 1)), d);
    c := PublishDelete(d, 0).value;
    ls := Append(ls, d, ByDispatcher(DoPublishDelete(0)), c);
    d := e;
    ls := Append(ls, c, ByDispatcher(DoDispatchSent(0)), d);
  }

  lemma ReadAndPublishDeletion(c: Cell) returns (d: Cell)
    requires HasStatus(c, Deleting) && c.dispatchers == map[] && c.deleteInbox == multiset{} && c.events.Keys == {0, 1}
    requires c.events[1].status == Publishing && c.events[1].kind == DeleteRequested(Payload([0], true))
    ensures DispatchRead(c, 0, 1).Some? && PublishDelete(DispatchRead(c, 0, 1).value, 0).Some?
    ensures DispatchSent(PublishDelete(DispatchRead(c, 0, 1).value, 0).value, 0) == Some(d)
    ensures d.row == c.row && d.deleteTasks == c.deleteTasks && d.letters == c.letters && d.dispatchers == map[]
    ensures d.deleteInbox == multiset{DeleteMessage(Payload([0], true), 0)}
    ensures d.events.Keys == {0, 1} && d.events[0] == c.events[0] && d.events[1].status == Sent
  {
    d := DispatchSent(PublishDelete(DispatchRead(c, 0, 1).value, 0).value, 0).value;
  }

  lemma NothingRemovesIt(c: Cell)
    requires HasStatus(c, Deleting) && c.deleteInbox == multiset{} && c.deleteTasks == map[]
    requires c.letters == map[] && c.dispatchers == map[]
    requires forall e :: e in c.events ==> c.events[e].kind.IngestRequested? || c.events[e].status == Sent
    ensures Forgotten(c)
  {
    assert forall e :: !LiveDelete(c, e);
  }

  /** The hard time limit kills the only `delete_resources` task after its event was marked as sent: the
      row stays deleting, and no schedule of system steps ever removes it. */
  lemma KilledDeletionIsForgotten() returns (ls: seq<Label>, d: Cell)
    ensures Exec(Initial(CONFIG, 0), ls) == Some(d)
    ensures HasStatus(d, Deleting) && Forgotten(d) && !CanRemove(d)
  {
    var m := DeleteMessage(Payload([0], true), 0);
    var c;
    ls, c := PublishedDeletion();
    d := DeleteDeliver(c, m, 0).value;
    ls := Append(ls, c, ByDeleter(DoDeleteDeliver(m, 0)), d);
    c := DeleteKill(d, 0).value;
    ls := Append(ls, d, ByDeleter(DoDeleteKill(0)), c);
    d := c;
    NothingRemovesIt(d);
    ForgottenIffNothingRemoves(CONFIG, 0, ls, d);
  }

  // ---------- a budget of one attempt ----------

  const ONE_ATTEMPT := Config(1, 2, 8)

  lemma ReadOnce() returns (ls: seq<Label>, d: Cell)
    ensures Exec(Initial(ONE_ATTEMPT, 0), ls) == Some(d) && d.config == ONE_ATTEMPT && d.clock == 0
    ensures HasStatus(d, Uploaded) && d.inbox == multiset{} && d.workers == map[] && d.letters == map[]
    ensures d.dispatchers == map[0 := Dispatch(0, 0, false)]
    ensures d.events == map[0 := Event(IngestRequested, Publishing, 0, 60, false, 0)]
  {
    var start := Initial(ONE_ATTEMPT, 0);
    d := Upload(start, 0, 0, 0).value;
    ls := AppendTo(start, [], start, ByUser(DoUpload(0, 0, 0)), d);
    var c := DispatchClaim(d, 0).value;
    ls := AppendTo(start, ls, d, ByDispatcher(DoDispatchClaim(0)), c);
    d := DispatchRead(c, 0, 0).value;
    ls := AppendTo(start, ls, c, ByDispatcher(DoDispatchRead(0, 0)), d);
  }

  /** The broker refuses the event: with its budget spent it is parked under letter `l`. */
  lemma ParkEvent(c: Cell, p: nat, l: LetterId) returns (d: Cell)
    requires p in c.dispatchers && c.dispatchers[p].event in c.events && LastAttempt(c, p) && l !in c.letters
    ensures DispatchPark(c, p, l) == Some(d) && d.config == c.config && d.clock == c.clock
    ensures d.row == c.row && d.inbox == c.inbox && d.workers == c.workers
    ensures d.dispatchers == c.dispatchers - {p}
    ensures d.letters == c.letters[l := Letter(FromOutbox(c.dispatchers[p].event), Open)]
    ensures var e := c.dispatchers[p].event;
            d.events == c.events[e := FailedAttempt(c.events[e], c.dispatchers[p].read, c.config, c.clock)]
  {
    d := DispatchPark(c, p, l).value;
  }

  lemma FirstParked() returns (ls: seq<Label>, d: Cell)
    ensures Exec(Initial(ONE_ATTEMPT, 0), ls) == Some(d) && d.config == ONE_ATTEMPT && d.clock == 0
    ensures HasStatus(d, Uploaded) && d.inbox == multiset{} && d.workers == map[] && d.dispatchers == map[]
    ensures d.letters == map[0 := Letter(FromOutbox(0), Open)]
    ensures d.events.Keys == {0} && d.events[0].kind == IngestRequested
    ensures d.events[0].status == Parked && d.events[0].retries == 1 && d.events[0].failures == 1 && !d.events[0].published
  {
    var c;
    ls, c := ReadOnce();
    d := ParkEvent(c, 0, 0);
    ls := AppendTo(Initial(ONE_ATTEMPT, 0), ls, c, ByDispatcher(DoDispatchPark(0, 0)), d);
  }

  /** Two dispatchers that both read an event as publishing both count a failure, and both write the
      count that they have read plus one: with a budget of one attempt the event is tried twice, stores
      one, and leaves two dead letters. */
  lemma OverlappingScansOverspend() returns (ls: seq<Label>, d: Cell)
    ensures Exec(Initial(ONE_ATTEMPT, 0), ls) == Some(d)
    ensures 0 in d.events && d.events[0].failures == 2 && d.events[0].retries == 1 && !d.events[0].published
    ensures OpenFor(d, 0, 0) && OpenFor(d, 1, 0)
  {
    var start := Initial(ONE_ATTEMPT, 0);
    var c;
    ls, c := ReadOnce();
    d := DispatchRead(c, 1, 0).value;
    ls := AppendTo(start, ls, c, ByDispatcher(DoDispatchRead(1, 0)), d);
    c := ParkEvent(d, 0, 0);
    ls := AppendTo(start, ls, d, ByDispatcher(DoDispatchPark(0, 0)), c);
    d := ParkEvent(c, 1, 1);
    ls := AppendTo(start, ls, c, ByDispatcher(DoDispatchPark(1, 1)), d);
  }

  lemma ReplayedAndRead() returns (ls: seq<Label>, d: Cell)
    ensures Exec(Initial(ONE_ATTEMPT, 0), ls) == Some(d) && d.config == ONE_ATTEMPT
    ensures d.dispatchers == map[0 := Dispatch(0, 1, false)] && d.letters.Keys == {0}
    ensures d.events.Keys == {0} && d.events[0].retries == 1 && d.events[0].failures == 1
  {
    var start := Initial(ONE_ATTEMPT, 0);
    var c;
    ls, c := FirstParked();
    d := ReplayOutbox(c, 0).value;
    ls := AppendTo(start, ls, c, ByAdmin(DoReplayOutbox(0)), d);
    c := DispatchClaim(d, 0).value;
    ls := AppendTo(start, ls, d, ByDispatcher(DoDispatchClaim(0)), c);
    d := DispatchRead(c, 0, 0).value;
    ls := AppendTo(start, ls, c, ByDispatcher(DoDispatchRead(0, 0)), d);
  }

  /** One scan after the other: replaying the letter of a parked event does not reset its count, so
      that one more failure takes it beyond its budget. */
  lemma ReplayOverspends() returns (ls: seq<Label>, d: Cell)
    ensures Exec(Initial(ONE_ATTEMPT, 0), ls) == Some(d)
    ensures 0 in d.events && d.events[0].failures == 2 && d.events[0].retries == 2 && d.events[0].status == Parked
  {
    var c;
    ls, c := ReplayedAndRead();
    d := ParkEvent(c, 0, 1);
    ls := AppendTo(Initial(ONE_ATTEMPT, 0), ls, c, ByDispatcher(DoDispatchPark(0, 1)), d);
  }

  // ---------- a discarded letter ----------

  /** Discarding the letter of the document's parked event leaves an uploaded document that no schedule
      of system steps ever makes ready. */
  lemma DiscardedLetterStrands() returns (ls: seq<Label>, d: Cell)
    ensures Exec(Initial(ONE_ATTEMPT, 0), ls) == Some(d) && d.letters == map[0 := Letter(FromOutbox(0), Discarded)]
    ensures RowIsClaimable(d) && Stranded(d) && !CanFinish(d)
  {
    var c;
    ls, c := FirstParked();
    d := DiscardLetter(c, 0).value;
    ls := AppendTo(Initial(ONE_ATTEMPT, 0), ls, c, ByAdmin(DoDiscardLetter(0)), d);
    NothingDrives(d);
    StrandedIffNothingFinishes(ONE_ATTEMPT, 0, ls, d);
  }

  // ---------- a forgotten message ----------

  lemma NothingDrives(c: Cell)
    requires RowIsClaimable(c) && !AwaitsLetter(c) && c.inbox == multiset{} && c.workers == map[] && c.dispatchers == map[]
    requires forall e :: e in c.events ==> c.events[e].status == Sent || c.events[e].status == Parked
    requires forall l :: l in c.letters ==> c.letters[l].status != Open
    ensures Stranded(c)
  {
    assert forall e :: !LiveIngest(c, e);
  }

  lemma KillFirst(c: Cell) returns (d: Cell)
    requires RowIsClaimable(c) && c.row.doc.status == Queued && c.workers.Keys == {0} && c.inbox == multiset{}
    requires c.dispatchers == map[] && c.letters == map[] && forall e :: e in c.events ==> c.events[e].status == Sent
    ensures Step(c, ByWorker(DoKillAndAcknowledge(0))) == Some(d) && d.row == c.row && Stranded(d)
  {
    d := KillAndAcknowledge(c, 0).value;
    NothingDrives(d);
  }

  /** A worker that is killed before its claim, after its event was marked as sent, leaves a claimable
      document that no schedule of system steps ever makes ready. */
  lemma KilledBeforeClaimStrands() returns (ls: seq<Label>, d: Cell)
    ensures Exec(Initial(CONFIG, 0), ls) == Some(d)
    ensures RowIsClaimable(d) && Stranded(d) && !CanFinish(d)
  {
    var e;
    ls, e := FirstDelivered(0);
    d := KillFirst(e);
    ls := Append(ls, e, ByWorker(DoKillAndAcknowledge(0)), d);
    StrandedIffNothingFinishes(CONFIG, 0, ls, d);
  }

  /** Worker 0 was killed while the dispatcher had published the event and not yet marked it. */
  lemma KilledBeforeSent() returns (ls: seq<Label>, d: Cell)
    ensures Exec(Initial(CONFIG, 0), ls) == Some(d) && Core(d) && d.row == Present(NewDocument(0, 0))
    ensures d.workers == map[] && d.inbox == multiset{} && d.letters == map[]
    ensures d.dispatchers == map[0 := Dispatch(0, 0, true)]
    ensures d.events.Keys == {0} && d.events[0].kind == IngestRequested && d.events[0].status == Publishing
  {
    var c, more;
    ls, c := FirstUpload();
    more, d := DeliverBeforeSent(c);
    ls := AndThen(ls, c, more, d);
    c := d;
    d := KillAndAcknowledge(c, 0).value;
    KillAndAcknowledgeKeepsInv(c, 0, d);
    ls := Append(ls, c, ByWorker(DoKillAndAcknowledge(0)), d);
  }

  lemma DeliverBeforeSent(c: Cell) returns (ls: seq<Label>, d: Cell)
    requires Core(c) && Upload(Initial(CONFIG, 0), 0, 0, 0) == Some(c)
    ensures SystemRun(c, ls, d) && Core(d) && d.row == c.row
    ensures d.workers == map[0 := Worker(0, 0, 0, 0, Started)] && d.inbox == multiset{} && d.letters == map[]
    ensures d.dispatchers == map[0 := Dispatch(0, 0, true)]
    ensures d.events.Keys == {0} && d.events[0].kind == IngestRequested && d.events[0].status == Publishing
  {
    NoSteps(c);
    ls, d := GoOutbox(c, [], c, DoDispatchClaim(0));
    ls, d := GoOutbox(c, ls, d, DoDispatchRead(0, 0));
    ls, d := GoOutbox(c, ls, d, DoPublishIngest(0));
    ls, d := GoWork(c, ls, d, DoDeliver(0, 0, 0, 0));
  }

  /** The kill alone strands nothing, as the event would be scanned again; marking it as sent does. */
  lemma SentAfterKillStrands() returns (ls: seq<Label>, c: Cell, d: Cell)
    ensures Exec(Initial(CONFIG, 0), ls) == Some(c) && c.workers == map[] && !Stranded(c)
    ensures DispatchSent(c, 0) == Some(d) && RowIsClaimable(d) && Stranded(d)
  {
    ls, c := KilledBeforeSent();
    assert Drives(c, OfEvent(0));
    d := DispatchSent(c, 0).value;
    NothingDrives(d);
  }
}
