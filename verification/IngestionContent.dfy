/** Which content a document is indexed from, and exactly when that is the content it stores. */
module IngestionContent {
  import opened Wrappers
  import opened Ingestion
  import opened IngestionSafety

  /** Parsing and splitting, as a deterministic function of what the fingerprint identifies. */
  type Splitter = Fingerprint -> seq<string>

  predicate PastPlan(p: Phase) {
    p.Planned? || p.Splitting? || p.Split? || p.Batching? || p.Counting?
  }

  predicate SplitBy(f: Splitter, w: Worker) {
    match w.phase
    case Split(_, ps, _) => ps == f(PrintOf(w))
    case Batching(ps, _, _) => ps == f(PrintOf(w))
    case Counting(ps, _) => ps == f(PrintOf(w))
    case _ => true
  }

  /** Every attempt carries the split of the content it has loaded; the active index is the split of
      the attempt that activated it. */
  ghost predicate ContentInv(f: Splitter, c: Cell) {
    && (forall t :: t in c.workers ==> SplitBy(f, c.workers[t]))
    && (c.row.Present? && c.row.doc.active.Some? ==> c.row.doc.built.Some? && c.row.doc.split == f(c.row.doc.built.value))
  }

  /** Splits are faithful to the object that the attempt has read. */
  predicate FaithfulLabel(f: Splitter, c: Cell, l: Label) {
    l.ByWorker? && l.work.DoToEmbedding? && l.work.t in c.workers ==> l.work.pieces == f(PrintOf(c.workers[l.work.t]))
  }

  predicate FaithfulRun(f: Splitter, c: Cell, ls: seq<Label>)
    decreases |ls|
  {
    ls != [] ==> FaithfulLabel(f, c, ls[0]) && (Step(c, ls[0]).Some? ==> FaithfulRun(f, Step(c, ls[0]).value, ls[1..]))
  }

  predicate WritesContent(l: Label) {
    l.ByUser? && (l.request.DoUpload? || l.request.DoReplace?)
  }

  /** Everyone but the workers leaves workers, index columns and history alone; the row is new, the
      same, or gone. */
  predicate Bystands(c: Cell, l: Label, c': Cell) {
    && c'.workers == c.workers
    && (c'.row.Present? && WritesContent(l) ==> c'.row.doc.content == l.request.content)
    && (c'.row.Present? && !WritesContent(l) ==> c.row.Present? && c'.row.doc.content == c.row.doc.content)
    && (c'.row.Present? ==>
          if c.row.Present? then
            && c'.row.doc.active == c.row.doc.active && c'.row.doc.split == c.row.doc.split
            && c'.row.doc.built == c.row.doc.built && c'.row.doc.fingerprint == c.row.doc.fingerprint
            && (c'.row.doc.status == Ready ==> c.row.doc.status == Ready)
          else c'.row == Present(NewDocument(c'.row.doc.content, c'.row.doc.objectKey)))
  }

  lemma UserBystands(c: Cell, request: Request, c': Cell)
    requires StepUser(c, request) == Some(c')
    ensures Bystands(c, ByUser(request), c')
  {
  }

  lemma AdminBystands(c: Cell, triage: Triage, c': Cell)
    requires StepAdmin(c, triage) == Some(c')
    ensures Bystands(c, ByAdmin(triage), c')
  {
  }

  lemma DispatcherBystands(c: Cell, outbox: Outbox, c': Cell)
    requires StepDispatcher(c, outbox) == Some(c')
    ensures Bystands(c, ByDispatcher(outbox), c')
  {
  }

  lemma MaintenanceBystands(c: Cell, upkeep: Upkeep, c': Cell)
    requires StepMaintenance(c, upkeep) == Some(c')
    ensures Bystands(c, ByMaintenance(upkeep), c')
  {
  }

  lemma DeleterBystands(c: Cell, removal: Removal, c': Cell)
    requires StepDeleter(c, removal) == Some(c')
    ensures Bystands(c, ByDeleter(removal), c')
  {
  }

  lemma OthersBystand(c: Cell, l: Label, c': Cell)
    requires Step(c, l) == Some(c') && !l.ByWorker?
    ensures Bystands(c, l, c')
  {
    match l
    case ByUser(request) => UserBystands(c, request, c');
    case ByAdmin(triage) => AdminBystands(c, triage, c');
    case ByDispatcher(outbox) => DispatcherBystands(c, outbox, c');
    case ByMaintenance(upkeep) => MaintenanceBystands(c, upkeep, c');
    case ByDeleter(removal) => DeleterBystands(c, removal, c');
  }

  lemma EarlyContent(f: Splitter, c: Cell, work: Work, c': Cell)
    requires ContentInv(f, c) && FaithfulLabel(f, c, ByWorker(work)) && StepWorker(c, work) == Some(c') && IsEarly(work)
    ensures ContentInv(f, c')
  {
  }

  lemma LateContent(f: Splitter, c: Cell, work: Work, c': Cell)
    requires ContentInv(f, c) && StepWorker(c, work) == Some(c') && !IsEarly(work)
    ensures ContentInv(f, c')
  {
  }

  lemma StepContent(f: Splitter, c: Cell, l: Label, c': Cell)
    requires ContentInv(f, c) && FaithfulLabel(f, c, l) && Step(c, l) == Some(c')
    ensures ContentInv(f, c')
  {
    if !l.ByWorker? {
      OthersBystand(c, l, c');
    } else if IsEarly(l.work) {
      EarlyContent(f, c, l.work, c');
    } else {
      LateContent(f, c, l.work, c');
    }
  }

  lemma {:induction false} RunContent(f: Splitter, c: Cell, ls: seq<Label>, c': Cell)
    requires ContentInv(f, c) && FaithfulRun(f, c, ls) && Exec(c, ls) == Some(c')
    ensures ContentInv(f, c')
    decreases |ls|
  {
    if ls != [] {
      var next := Step(c, ls[0]).value;
      StepContent(f, c, ls[0], next);
      RunContent(f, next, ls[1..], c');
    }
  }

  // ---------- the same, read off the schedule ----------

  function Init(ls: seq<Label>): seq<Label>
    requires ls != []
  {
    ls[..|ls| - 1]
  }

  function Last(ls: seq<Label>): Label
    requires ls != []
  {
    ls[|ls| - 1]
  }

  /** The content of the last upload or replacement of the schedule. */
  function ContentOf(ls: seq<Label>): nat
    decreases |ls|
  {
    if ls == [] then 0
    else if WritesContent(Last(ls)) then Last(ls).request.content
    else ContentOf(Init(ls))
  }

  /** The content that the row had when worker `t` loaded it after its claim. */
  function LoadedBy(ls: seq<Label>, t: Token): nat
    decreases |ls|
  {
    if ls == [] then 0
    else if Last(ls) == ByWorker(DoPlanReuse(t)) then ContentOf(Init(ls))
    else LoadedBy(Init(ls), t)
  }

  /** The content that the worker of the last activation had loaded. */
  function IndexedContent(ls: seq<Label>): nat
    decreases |ls|
  {
    if ls == [] then 0
    else if Last(ls).ByWorker? && Last(ls).work.DoActivate? then LoadedBy(Init(ls), Last(ls).work.t)
    else IndexedContent(Init(ls))
  }

  ghost predicate HistoryInv(c: Cell, ls: seq<Label>) {
    && (c.row.Present? ==>
          && c.row.doc.content == ContentOf(ls)
          && (c.row.doc.status == Ready ==> c.row.doc.active.Some?)
          && (c.row.doc.active.Some? ==>
                c.row.doc.built.Some? && c.row.doc.built.value.content == IndexedContent(ls)))
    && (forall t :: t in c.workers && PastPlan(c.workers[t].phase) ==> c.workers[t].content == LoadedBy(ls, t))
  }

  lemma OneMore(ls: seq<Label>, l: Label, t: Token)
    ensures ContentOf(ls + [l]) == if WritesContent(l) then l.request.content else ContentOf(ls)
    ensures LoadedBy(ls + [l], t) == if l == ByWorker(DoPlanReuse(t)) then ContentOf(ls) else LoadedBy(ls, t)
    ensures IndexedContent(ls + [l]) ==
              if l.ByWorker? && l.work.DoActivate? then LoadedBy(ls, l.work.t) else IndexedContent(ls)
  {
    assert Init(ls + [l]) == ls && Last(ls + [l]) == l;
  }

  lemma EarlyHistory(c: Cell, work: Work, c': Cell)
    requires StepWorker(c, work) == Some(c') && IsEarly(work)
    ensures c'.row.Present? ==>
              && c.row.Present? && c'.row.doc.content == c.row.doc.content
              && (c'.row.doc.status == Ready ==> c.row.doc.status == Ready)
              && c'.row.doc.active == c.row.doc.active && c'.row.doc.built == c.row.doc.built
    ensures forall t :: t in c'.workers && PastPlan(c'.workers[t].phase) ==>
              if work == DoPlanReuse(t) then c.row.Present? && c'.workers[t].content == c.row.doc.content
              else t in c.workers && PastPlan(c.workers[t].phase) && c'.workers[t].content == c.workers[t].content
  {
  }

  lemma LateHistory(c: Cell, work: Work, c': Cell)
    requires StepWorker(c, work) == Some(c') && !IsEarly(work)
    ensures c'.row.Present? ==>
              && c.row.Present? && c'.row.doc.content == c.row.doc.content
              && (work.DoActivate? ==>
                    && c'.row.doc.active.Some? && work.t in c.workers && PastPlan(c.workers[work.t].phase)
                    && c'.row.doc.built == Some(PrintOf(c.workers[work.t])))
              && (!work.DoActivate? ==>
                    && (c'.row.doc.status == Ready ==> c.row.doc.status == Ready)
                    && c'.row.doc.active == c.row.doc.active && c'.row.doc.built == c.row.doc.built)
    ensures forall t :: t in c'.workers && PastPlan(c'.workers[t].phase) ==>
              t in c.workers && PastPlan(c.workers[t].phase) && c'.workers[t].content == c.workers[t].content
  {
  }

  lemma StepHistory(c: Cell, ls: seq<Label>, l: Label, c': Cell)
    requires HistoryInv(c, ls) && Step(c, l) == Some(c')
    ensures HistoryInv(c', ls + [l])
  {
    OneMore(ls, l, 0);
    if !l.ByWorker? {
      OthersBystand(c, l, c');
    } else if IsEarly(l.work) {
      EarlyHistory(c, l.work, c');
    } else {
      LateHistory(c, l.work, c');
    }
    forall t | t in c'.workers && PastPlan(c'.workers[t].phase)
      ensures c'.workers[t].content == LoadedBy(ls + [l], t)
    {
      OneMore(ls, l, t);
    }
  }

  lemma {:induction false} RunHistory(start: Cell, ls: seq<Label>, c: Cell)
    requires HistoryInv(start, []) && Exec(start, ls) == Some(c)
    ensures HistoryInv(c, ls)
    decreases |ls|
  {
    if ls != [] {
      assert ls == Init(ls) + [Last(ls)];
      ExecAppend(start, Init(ls), [Last(ls)]);
      var d := Exec(start, Init(ls)).value;
      assert [Last(ls)][1..] == [];
      RunHistory(start, Init(ls), d);
      StepHistory(d, Init(ls), Last(ls), c);
    }
  }

  /** Whatever is replaced, retried and interleaved, a ready document is indexed from the content that
      its last activating worker had loaded after its claim. It is indexed from what it stores exactly
      when the replacements since then have not changed that content, or not what it splits into. */
  lemma ReadyMatchesContent(f: Splitter, config: Config, clock: int, ls: seq<Label>, c: Cell)
    requires Exec(Initial(config, clock), ls) == Some(c) && FaithfulRun(f, Initial(config, clock), ls)
    requires HasStatus(c, Ready)
    ensures var d := c.row.doc;
            && d.built.Some? && d.content == ContentOf(ls) && d.built.value.content == IndexedContent(ls)
            && d.split == f(d.built.value)
            && (d.split == f(d.built.value.(content := d.content)) <==>
                  f(d.built.value.(content := IndexedContent(ls))) == f(d.built.value.(content := ContentOf(ls))))
  {
    RunContent(f, Initial(config, clock), ls, c);
    RunHistory(Initial(config, clock), ls, c);
    var b := c.row.doc.built.value;
    assert b.(content := IndexedContent(ls)) == b;
  }
}
