/** The storage quota of a workspace: check and write under one lock that lasts for the transaction. */
module WorkspaceQuota {
  import opened Wrappers

  type Id = nat
  type Workspace = nat
  type Tx = nat

  datatype Doc = Doc(workspace: Workspace, size: nat)

  /** One transaction. `Ready` has read the sum under the lock and found room. */
  datatype Phase =
    | Inserting(workspace: Workspace, size: nat)
    | InsertLocked(workspace: Workspace, size: nat)
    | InsertReady(workspace: Workspace, size: nat, used: nat)
    | Replacing(id: Id, size: nat)
    | ReplaceLocked(id: Id, size: nat)
    | ReplaceReady(id: Id, size: nat, used: nat)

  /** `holders` are the advisory locks, `rows` the row locks that replacements hold. */
  datatype System = System(
    quota: nat,
    docs: map<Id, Doc>,
    txs: map<Tx, Phase>,
    holders: map<Workspace, Tx>,
    rows: map<Id, Tx>)

  // ---------- the sum ----------

  function SizeIn(docs: map<Id, Doc>, id: Id, w: Workspace): nat
    requires id in docs
  {
    if docs[id].workspace == w then docs[id].size else 0
  }

  /** The bytes of workspace `w` in the documents `ids`. */
  ghost function SumOf(docs: map<Id, Doc>, ids: set<Id>, w: Workspace): nat
    requires ids <= docs.Keys
    decreases |ids|
  {
    if ids == {} then 0
    else
      var id :| id in ids;
      SizeIn(docs, id, w) + SumOf(docs, ids - {id}, w)
  }

  ghost function Used(docs: map<Id, Doc>, w: Workspace): nat {
    SumOf(docs, docs.Keys, w)
  }

  /** The sum does not depend on the order in which documents are added up. */
  lemma {:induction false} SumSplits(docs: map<Id, Doc>, ids: set<Id>, w: Workspace, id: Id)
    requires ids <= docs.Keys && id in ids
    ensures SumOf(docs, ids, w) == SizeIn(docs, id, w) + SumOf(docs, ids - {id}, w)
    decreases |ids|
  {
    var first :| first in ids && SumOf(docs, ids, w) == SizeIn(docs, first, w) + SumOf(docs, ids - {first}, w);
    if first != id {
      SumSplits(docs, ids - {first}, w, id);
      SumSplits(docs, ids - {id}, w, first);
      assert ids - {first} - {id} == ids - {id} - {first};
    }
  }

  /** Two tables that agree on `ids` have the same sum there. */
  lemma {:induction false} SumFrame(docs: map<Id, Doc>, docs': map<Id, Doc>, ids: set<Id>, w: Workspace)
    requires ids <= docs.Keys && ids <= docs'.Keys && forall i :: i in ids ==> docs[i] == docs'[i]
    ensures SumOf(docs, ids, w) == SumOf(docs', ids, w)
    decreases |ids|
  {
    if ids != {} {
      var id :| id in ids;
      SumSplits(docs, ids, w, id);
      SumSplits(docs', ids, w, id);
      SumFrame(docs, docs', ids - {id}, w);
    }
  }

  lemma UsedAfterInsert(docs: map<Id, Doc>, id: Id, d: Doc, w: Workspace)
    requires id !in docs
    ensures Used(docs[id := d], w) == Used(docs, w) + if d.workspace == w then d.size else 0
  {
    var docs' := docs[id := d];
    SumSplits(docs', docs'.Keys, w, id);
    assert docs'.Keys - {id} == docs.Keys;
    SumFrame(docs, docs', docs.Keys, w);
  }

  lemma UsedAfterDelete(docs: map<Id, Doc>, id: Id, w: Workspace)
    requires id in docs
    ensures Used(docs - {id}, w) + SizeIn(docs, id, w) == Used(docs, w)
  {
    var docs' := docs - {id};
    SumSplits(docs, docs.Keys, w, id);
    assert docs.Keys - {id} == docs'.Keys;
    SumFrame(docs, docs', docs'.Keys, w);
  }

  lemma UsedAfterReplace(docs: map<Id, Doc>, id: Id, size: nat, w: Workspace)
    requires id in docs
    ensures Used(docs[id := docs[id].(size := size)], w)
         == Used(docs, w) - SizeIn(docs, id, w) + if docs[id].workspace == w then size else 0
  {
    var d := docs[id].(size := size);
    UsedAfterDelete(docs, id, w);
    UsedAfterInsert(docs - {id}, id, d, w);
    assert (docs - {id})[id := d] == docs[id := d];
  }

  // ---------- steps ----------

  predicate Fresh(s: System, t: Tx) {
    t !in s.txs
  }

  function BeginInsert(s: System, t: Tx, w: Workspace, size: nat): Option<System> {
    if Fresh(s, t) then Some(s.(txs := s.txs[t := Inserting(w, size)])) else None
  }

  /** `SELECT ... FOR UPDATE` of the document that is replaced. */
  function BeginReplace(s: System, t: Tx, id: Id, size: nat): Option<System> {
    if Fresh(s, t) && id in s.docs && id !in s.rows
    then Some(s.(txs := s.txs[t := Replacing(id, size)], rows := s.rows[id := t]))
    else None
  }

  /** The advisory lock is granted to one transaction at a time. */
  function LockInsert(s: System, t: Tx): Option<System> {
    if t in s.txs && s.txs[t].Inserting? && s.txs[t].workspace !in s.holders then
      var p := s.txs[t];
      Some(s.(txs := s.txs[t := InsertLocked(p.workspace, p.size)], holders := s.holders[p.workspace := t]))
    else None
  }

  function LockReplace(s: System, t: Tx): Option<System> {
    if t in s.txs && s.txs[t].Replacing? && s.txs[t].id in s.docs && s.docs[s.txs[t].id].workspace !in s.holders then
      var p := s.txs[t];
      Some(s.(txs := s.txs[t := ReplaceLocked(p.id, p.size)], holders := s.holders[s.docs[p.id].workspace := t]))
    else None
  }

  ghost function CheckInsert(s: System, t: Tx): Option<System> {
    if t in s.txs && s.txs[t].InsertLocked? && Used(s.docs, s.txs[t].workspace) + s.txs[t].size <= s.quota then
      var p := s.txs[t];
      Some(s.(txs := s.txs[t := InsertReady(p.workspace, p.size, Used(s.docs, p.workspace))]))
    else None
  }

  ghost function CheckReplace(s: System, t: Tx): Option<System> {
    if t in s.txs && s.txs[t].ReplaceLocked? && s.txs[t].id in s.docs
       && Used(s.docs, s.docs[s.txs[t].id].workspace) - s.docs[s.txs[t].id].size + s.txs[t].size <= s.quota then
      var p := s.txs[t];
      Some(s.(txs := s.txs[t := ReplaceReady(p.id, p.size, Used(s.docs, s.docs[p.id].workspace))]))
    else None
  }

  /** Locks end with the transaction, committed or rolled back. */
  function Release(s: System, t: Tx): System {
    s.(txs := s.txs - {t},
       holders := map w | w in s.holders && s.holders[w] != t :: s.holders[w],
       rows := map i | i in s.rows && s.rows[i] != t :: s.rows[i])
  }

  function CommitInsert(s: System, t: Tx, id: Id): Option<System> {
    if t in s.txs && s.txs[t].InsertReady? && id !in s.docs
    then Some(Release(s.(docs := s.docs[id := Doc(s.txs[t].workspace, s.txs[t].size)]), t))
    else None
  }

  function CommitReplace(s: System, t: Tx): Option<System> {
    if t in s.txs && s.txs[t].ReplaceReady? && s.txs[t].id in s.docs
    then Some(Release(s.(docs := s.docs[s.txs[t].id := s.docs[s.txs[t].id].(size := s.txs[t].size)]), t))
    else None
  }

  function Rollback(s: System, t: Tx): Option<System> {
    if t in s.txs then Some(Release(s, t)) else None
  }

  /** A deletion takes no advisory lock, but it waits for the row. */
  function Delete(s: System, id: Id): Option<System> {
    if id in s.docs && id !in s.rows then Some(s.(docs := s.docs - {id})) else None
  }

  datatype Label =
    | DoBeginInsert(t: Tx, w: Workspace, size: nat)
    | DoBeginReplace(t: Tx, id: Id, size: nat)
    | DoLockInsert(t: Tx)
    | DoLockReplace(t: Tx)
    | DoCheckInsert(t: Tx)
    | DoCheckReplace(t: Tx)
    | DoCommitInsert(t: Tx, id: Id)
    | DoCommitReplace(t: Tx)
    | DoRollback(t: Tx)
    | DoDelete(id: Id)

  ghost function Step(s: System, l: Label): Option<System> {
    match l
    case DoBeginInsert(t, w, size) => BeginInsert(s, t, w, size)
    case DoBeginReplace(t, id, size) => BeginReplace(s, t, id, size)
    case DoLockInsert(t) => LockInsert(s, t)
    case DoLockReplace(t) => LockReplace(s, t)
    case DoCheckInsert(t) => CheckInsert(s, t)
    case DoCheckReplace(t) => CheckReplace(s, t)
    case DoCommitInsert(t, id) => CommitInsert(s, t, id)
    case DoCommitReplace(t) => CommitReplace(s, t)
    case DoRollback(t) => Rollback(s, t)
    case DoDelete(id) => Delete(s, id)
  }

  ghost function Exec(s: System, ls: seq<Label>): Option<System>
    decreases |ls|
  {
    if ls == [] then Some(s)
    else if Step(s, ls[0]).Some? then Exec(Step(s, ls[0]).value, ls[1..]) else None
  }

  // ---------- invariants ----------

  ghost predicate WithinQuota(s: System) {
    forall w :: Used(s.docs, w) <= s.quota
  }

  /** What a transaction holds, and what the sum it has read still says about the table. */
  ghost predicate PhaseOk(s: System, t: Tx)
    requires t in s.txs
  {
    match s.txs[t]
    case Inserting(_, _) => true
    case InsertLocked(w, _) => w in s.holders && s.holders[w] == t
    case InsertReady(w, size, used) =>
      w in s.holders && s.holders[w] == t && Used(s.docs, w) <= used && used + size <= s.quota
    case Replacing(id, _) => HoldsRow(s, t, id)
    case ReplaceLocked(id, _) => HoldsRow(s, t, id) && HoldsLock(s, t, s.docs[id].workspace)
    case ReplaceReady(id, size, used) =>
      HoldsRow(s, t, id) && HoldsLock(s, t, s.docs[id].workspace)
      && Used(s.docs, s.docs[id].workspace) <= used && used - s.docs[id].size + size <= s.quota
  }

  predicate HoldsRow(s: System, t: Tx, id: Id) {
    id in s.docs && id in s.rows && s.rows[id] == t
  }

  predicate HoldsLock(s: System, t: Tx, w: Workspace) {
    w in s.holders && s.holders[w] == t
  }

  ghost predicate Inv(s: System) {
    WithinQuota(s) && forall t :: t in s.txs ==> PhaseOk(s, t)
  }

  /** Other transactions and other rows; sums may only have shrunk in workspaces that others hold. */
  lemma OthersKeepPhase(s: System, s': System, t: Tx)
    requires t in s.txs && PhaseOk(s, t) && t in s'.txs && s'.txs[t] == s.txs[t] && s'.quota == s.quota
    requires forall w :: w in s.holders && s.holders[w] == t ==> HoldsLock(s', t, w) && Used(s'.docs, w) <= Used(s.docs, w)
    requires forall i :: i in s.rows && s.rows[i] == t && i in s.docs ==> HoldsRow(s', t, i) && s'.docs[i] == s.docs[i]
    ensures PhaseOk(s', t)
  {
  }

  lemma InsertKeepsInv(s: System, t: Tx, id: Id, s': System)
    requires Inv(s) && CommitInsert(s, t, id) == Some(s')
    ensures Inv(s')
  {
    var p := s.txs[t];
    var d := Doc(p.workspace, p.size);
    assert PhaseOk(s, t);
    forall w ensures Used(s'.docs, w) <= s'.quota && (w != p.workspace ==> Used(s'.docs, w) == Used(s.docs, w)) {
      UsedAfterInsert(s.docs, id, d, w);
    }
    forall u | u in s'.txs ensures PhaseOk(s', u) {
      OthersKeepPhase(s, s', u);
    }
  }

  lemma ReplaceKeepsInv(s: System, t: Tx, s': System)
    requires Inv(s) && CommitReplace(s, t) == Some(s')
    ensures Inv(s')
  {
    var p := s.txs[t];
    assert PhaseOk(s, t);
    var w0 := s.docs[p.id].workspace;
    forall w ensures Used(s'.docs, w) <= s'.quota && (w != w0 ==> Used(s'.docs, w) == Used(s.docs, w)) {
      UsedAfterReplace(s.docs, p.id, p.size, w);
    }
    forall u | u in s'.txs ensures PhaseOk(s', u) {
      OthersKeepPhase(s, s', u);
    }
  }

  lemma DeleteKeepsInv(s: System, id: Id, s': System)
    requires Inv(s) && Delete(s, id) == Some(s')
    ensures Inv(s')
  {
    forall w ensures Used(s'.docs, w) <= Used(s.docs, w) {
      UsedAfterDelete(s.docs, id, w);
    }
    forall u | u in s'.txs ensures PhaseOk(s', u) {
      OthersKeepPhase(s, s', u);
    }
  }

  lemma StepKeepsInv(s: System, l: Label, s': System)
    requires Inv(s) && Step(s, l) == Some(s')
    ensures Inv(s')
  {
    match l
    case DoCommitInsert(t, id) => InsertKeepsInv(s, t, id, s');
    case DoCommitReplace(t) => ReplaceKeepsInv(s, t, s');
    case DoDelete(id) => DeleteKeepsInv(s, id, s');
    case _ =>
      forall u | u in s'.txs ensures PhaseOk(s', u) {
        if u in s.txs && s'.txs[u] == s.txs[u] {
          OthersKeepPhase(s, s', u);
        }
      }
  }

  /** Whatever uploads, imports, replacements and unlocked deletions interleave, no workspace ever
      exceeds its quota. */
  lemma {:induction false} QuotaHolds(s: System, ls: seq<Label>, s': System)
    requires Inv(s) && Exec(s, ls) == Some(s')
    ensures Inv(s') && s'.quota == s.quota && forall w :: Used(s'.docs, w) <= s.quota
    decreases |ls|
  {
    if ls != [] {
      StepKeepsInv(s, ls[0], Step(s, ls[0]).value);
      QuotaHolds(Step(s, ls[0]).value, ls[1..], s');
    }
  }

  lemma NoWorkspaceExceedsItsQuota(quota: nat, ls: seq<Label>, s: System)
    requires Exec(System(quota, map[], map[], map[], map[]), ls) == Some(s)
    ensures forall w :: Used(s.docs, w) <= quota
  {
    QuotaHolds(System(quota, map[], map[], map[], map[]), ls, s);
  }

  // ---------- one transaction that nobody disturbs ----------

  ghost predicate Undisturbed(s: System, t: Tx, w: Workspace) {
    t !in s.txs && w !in s.holders
  }

  ghost function InsertSteps(t: Tx, w: Workspace, size: nat, id: Id): seq<Label> {
    [DoBeginInsert(t, w, size), DoLockInsert(t), DoCheckInsert(t), DoCommitInsert(t, id)]
  }

  ghost function ReplaceSteps(t: Tx, id: Id, size: nat): seq<Label> {
    [DoBeginReplace(t, id, size), DoLockReplace(t), DoCheckReplace(t), DoCommitReplace(t)]
  }

  lemma One(s: System, l: Label, ls: seq<Label>)
    ensures Exec(s, [l] + ls) == if Step(s, l).Some? then Exec(Step(s, l).value, ls) else None
  {
    assert ([l] + ls)[1..] == ls;
  }

  lemma Four(s: System, a: Label, b: Label, c: Label, d: Label)
    ensures Exec(s, [a, b, c, d]) ==
              if Step(s, a).None? then None
              else if Step(Step(s, a).value, b).None? then None
              else if Step(Step(Step(s, a).value, b).value, c).None? then None
              else Step(Step(Step(Step(s, a).value, b).value, c).value, d)
  {
    assert [a, b, c, d] == [a] + [b, c, d] && [b, c, d] == [b] + [c, d] && [c, d] == [c] + [d] && [d] == [d] + [];
    One(s, a, [b, c, d]);
    if Step(s, a).Some? {
      var s1 := Step(s, a).value;
      One(s1, b, [c, d]);
      if Step(s1, b).Some? {
        var s2 := Step(s1, b).value;
        One(s2, c, [d]);
        if Step(s2, c).Some? {
          One(Step(s2, c).value, d, []);
        }
      }
    }
  }

  /** With the lock free an insert goes through exactly when the workspace has room for it. */
  lemma InsertPassesIff(s: System, t: Tx, w: Workspace, size: nat, id: Id)
    requires Undisturbed(s, t, w) && id !in s.docs
    ensures var r := Exec(s, InsertSteps(t, w, size, id));
            && (r.Some? <==> Used(s.docs, w) + size <= s.quota)
            && (r.Some? ==> r.value.docs == s.docs[id := Doc(w, size)])
  {
    Four(s, DoBeginInsert(t, w, size), DoLockInsert(t), DoCheckInsert(t), DoCommitInsert(t, id));
  }

  /** A replacement of a row that nobody holds goes through exactly when the others leave room for it. */
  lemma ReplacePassesIff(s: System, t: Tx, id: Id, size: nat)
    requires id in s.docs && id !in s.rows && Undisturbed(s, t, s.docs[id].workspace)
    ensures var r := Exec(s, ReplaceSteps(t, id, size));
            && (r.Some? <==> SumOf(s.docs, s.docs.Keys - {id}, s.docs[id].workspace) + size <= s.quota)
            && (r.Some? ==> r.value.docs == s.docs[id := s.docs[id].(size := size)])
  {
    SumSplits(s.docs, s.docs.Keys, s.docs[id].workspace, id);
    Four(s, DoBeginReplace(t, id, size), DoLockReplace(t), DoCheckReplace(t), DoCommitReplace(t));
  }

  // ---------- one transaction under the lock ----------

  class QuotaTable {
    const quota: nat
    var docs: map<Id, Doc>

    constructor (quota: nat)
      ensures docs == map[] && this.quota == quota
    {
      this.quota, docs := quota, map[];
    }

    /** `coalesce(sum(size_bytes), 0)` over the workspace. */
    method SumBytes(w: Workspace) returns (used: nat)
      ensures used == Used(docs, w)
    {
      var todo := docs.Keys;
      used := 0;
      while todo != {}
        invariant todo <= docs.Keys && used + SumOf(docs, todo, w) == Used(docs, w)
        decreases |todo|
      {
        var id :| id in todo;
        SumSplits(docs, todo, w, id);
        used := used + if docs[id].workspace == w then docs[id].size else 0;
        todo := todo - {id};
      }
    }

    /** Upload and import: check and insert. */
    method Insert(w: Workspace, size: nat, id: Id) returns (ok: bool)
      requires id !in docs
      modifies this`docs
      ensures ok <==> Used(old(docs), w) + size <= quota
      ensures docs == if ok then old(docs)[id := Doc(w, size)] else old(docs)
      ensures forall v :: Used(docs, v) == Used(old(docs), v) + if ok && v == w then size else 0
    {
      var used := SumBytes(w);
      ok := used + size <= quota;
      if ok {
        forall v ensures Used(docs[id := Doc(w, size)], v) == Used(docs, v) + if v == w then size else 0 {
          UsedAfterInsert(docs, id, Doc(w, size), v);
        }
        docs := docs[id := Doc(w, size)];
      }
    }

    /** The old size of the replaced document does not count against its new one. */
    method Replace(id: Id, size: nat) returns (ok: bool)
      requires id in docs
      modifies this`docs
      ensures ok <==> Used(old(docs), old(docs)[id].workspace) - old(docs)[id].size + size <= quota
      ensures docs == if ok then old(docs)[id := old(docs)[id].(size := size)] else old(docs)
      ensures ok ==> Used(docs, docs[id].workspace) <= quota
    {
      var w := docs[id].workspace;
      var used := SumBytes(w);
      ok := used - docs[id].size + size <= quota;
      if ok {
        UsedAfterReplace(docs, id, size, w);
        docs := docs[id := docs[id].(size := size)];
      }
    }
  }
}
