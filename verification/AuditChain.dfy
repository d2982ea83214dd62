/** The audit log's hash chain: the insert trigger, the backfill and the verifier. */
module AuditChain {
  type Hash = string

  /** `payload` is what is hashed behind the previous hash; absent hashes read as "". */
  datatype Row = Row(prev: Hash, entry: Hash, payload: string)

  datatype Finding = PrevMismatch(at: nat) | EntryMismatch(at: nat)

  /** SHA-256 over previous hash and payload: no collisions, never empty, never the genesis value. */
  ghost predicate GoodHash(h: (Hash, string) -> Hash) {
    && (forall p, q, x, y :: h(p, x) == h(q, y) ==> p == q && x == y)
    && (forall p, x :: h(p, x) != "" && h(p, x) != Genesis())
  }

  function Genesis(): Hash {
    seq(64, _ => '0')
  }

  // ---------- the verifier ----------

  function RowFindings(h: (Hash, string) -> Hash, row: Row, i: nat, previous: Hash): seq<Finding> {
    (if row.prev != previous then [PrevMismatch(i)] else [])
    + (if row.entry != h(previous, row.payload) then [EntryMismatch(i)] else [])
  }

  /** A broken row is followed by its stored hash, one without a hash by the expected one. */
  function NextHash(h: (Hash, string) -> Hash, row: Row, previous: Hash): Hash {
    if row.entry != "" then row.entry else h(previous, row.payload)
  }

  /** The findings from row `i` on, when `previous` is the hash expected there. */
  function FindingsFrom(h: (Hash, string) -> Hash, rows: seq<Row>, i: nat, previous: Hash): seq<Finding>
    requires i <= |rows|
    decreases |rows| - i
  {
    if i == |rows| then []
    else
      RowFindings(h, rows[i], i, previous) + FindingsFrom(h, rows, i + 1, NextHash(h, rows[i], previous))
  }

  function Findings(h: (Hash, string) -> Hash, rows: seq<Row>): seq<Finding> {
    FindingsFrom(h, rows, 0, Genesis())
  }

  method VerifyRows(h: (Hash, string) -> Hash, rows: seq<Row>) returns (failures: seq<Finding>)
    ensures failures == Findings(h, rows)
  {
    failures := [];
    var previous := Genesis();
    for i := 0 to |rows|
      invariant failures + FindingsFrom(h, rows, i, previous) == Findings(h, rows)
    {
      var row := rows[i];
      VerifyStep(h, rows, i, failures, previous);
      ghost var before := failures;
      var expected := h(previous, row.payload);
      if row.prev != previous {
        failures := failures + [PrevMismatch(i)];
      }
      if row.entry != expected {
        failures := failures + [EntryMismatch(i)];
      }
      assert failures == before + RowFindings(h, row, i, previous);
      previous := if row.entry != "" then row.entry else expected;
    }
  }

  lemma VerifyStep(h: (Hash, string) -> Hash, rows: seq<Row>, i: nat, before: seq<Finding>, previous: Hash)
    requires i < |rows|
    ensures before + RowFindings(h, rows[i], i, previous) + FindingsFrom(h, rows, i + 1, NextHash(h, rows[i], previous))
         == before + FindingsFrom(h, rows, i, previous)
  {
  }

  // ---------- clean chains ----------

  function HashBefore(rows: seq<Row>, i: nat): Hash
    requires i <= |rows|
  {
    if i == 0 then Genesis() else rows[i - 1].entry
  }

  predicate LinkOk(h: (Hash, string) -> Hash, rows: seq<Row>, i: nat)
    requires i < |rows|
  {
    rows[i].prev == HashBefore(rows, i) && rows[i].entry == h(rows[i].prev, rows[i].payload)
  }

  ghost predicate Clean(h: (Hash, string) -> Hash, rows: seq<Row>) {
    forall i :: 0 <= i < |rows| ==> LinkOk(h, rows, i)
  }

  /** Behind row `i` nothing is found exactly when every later link holds. */
  lemma {:induction false} CleanFrom(h: (Hash, string) -> Hash, rows: seq<Row>, i: nat)
    requires GoodHash(h) && i <= |rows|
    ensures FindingsFrom(h, rows, i, HashBefore(rows, i)) == [] <==> forall j :: i <= j < |rows| ==> LinkOk(h, rows, j)
    decreases |rows| - i
  {
    if i < |rows| {
      CleanFrom(h, rows, i + 1);
      assert (forall j :: i <= j < |rows| ==> LinkOk(h, rows, j))
        <==> LinkOk(h, rows, i) && forall j :: i + 1 <= j < |rows| ==> LinkOk(h, rows, j);
      assert RowFindings(h, rows[i], i, HashBefore(rows, i)) == [] <==> LinkOk(h, rows, i);
    }
  }

  /** The verifier finds nothing exactly in chains whose links all hold. */
  lemma CleanIffNoFindings(h: (Hash, string) -> Hash, rows: seq<Row>)
    requires GoodHash(h)
    ensures Findings(h, rows) == [] <==> Clean(h, rows)
  {
    CleanFrom(h, rows, 0);
  }

  // ---------- the trigger and the backfill ----------

  /** The row the trigger makes when inserts arrive in the order of `chain_seq`. */
  function Appended(h: (Hash, string) -> Hash, rows: seq<Row>, payload: string): seq<Row> {
    rows + [Row(HashBefore(rows, |rows|), h(HashBefore(rows, |rows|), payload), payload)]
  }

  function Chain(h: (Hash, string) -> Hash, payloads: seq<string>): (rows: seq<Row>)
    ensures |rows| == |payloads|
  {
    if payloads == [] then []
    else Appended(h, Chain(h, payloads[..|payloads| - 1]), payloads[|payloads| - 1])
  }

  lemma AppendKeepsClean(h: (Hash, string) -> Hash, rows: seq<Row>, payload: string)
    requires Clean(h, rows)
    ensures Clean(h, Appended(h, rows, payload))
  {
    var more := Appended(h, rows, payload);
    forall i | 0 <= i < |more| ensures LinkOk(h, more, i) {
      assert i < |rows| ==> LinkOk(h, rows, i);
    }
  }

  /** Rows appended by the trigger always verify clean, and carry their payloads. */
  lemma {:induction false} ChainIsClean(h: (Hash, string) -> Hash, payloads: seq<string>)
    ensures Clean(h, Chain(h, payloads))
    ensures forall i :: 0 <= i < |payloads| ==> Chain(h, payloads)[i].payload == payloads[i]
  {
    if payloads != [] {
      var before := payloads[..|payloads| - 1];
      ChainIsClean(h, before);
      AppendKeepsClean(h, Chain(h, before), payloads[|payloads| - 1]);
    }
  }

  function Payloads(rows: seq<Row>): (payloads: seq<string>)
    ensures |payloads| == |rows|
  {
    seq(|rows|, i requires 0 <= i < |rows| => rows[i].payload)
  }

  /** The backfill rewrites the hashes of every row in order, whatever they were. */
  method Backfill(h: (Hash, string) -> Hash, table: array<Row>)
    modifies table
    ensures table[..] == Chain(h, old(Payloads(table[..])))
    ensures Clean(h, table[..])
  {
    ghost var payloads := Payloads(table[..]);
    var previous := Genesis();
    for i := 0 to table.Length
      invariant table[..i] == Chain(h, payloads[..i])
      invariant previous == HashBefore(table[..i], i)
      invariant forall j :: 0 <= j < table.Length ==> table[j].payload == payloads[j]
    {
      assert payloads[..i + 1][..i] == payloads[..i];
      table[i] := Row(previous, h(previous, table[i].payload), table[i].payload);
      previous := table[i].entry;
      assert table[..i + 1] == table[..i] + [table[i]];
    }
    assert table[..table.Length] == table[..] && payloads[..table.Length] == payloads;
    ChainIsClean(h, payloads);
  }

  // ---------- what a clean chain commits to ----------

  /** Two clean chains with the same last hash are the same chain, of the same length. */
  lemma {:induction false} LastHashFixesHistory(h: (Hash, string) -> Hash, a: seq<Row>, b: seq<Row>)
    requires GoodHash(h) && Clean(h, a) && Clean(h, b)
    requires HashBefore(a, |a|) == HashBefore(b, |b|)
    ensures a == b
    decreases |a|
  {
    if a != [] {
      assert LinkOk(h, a, |a| - 1);
    }
    if b != [] {
      assert LinkOk(h, b, |b| - 1);
    }
    if a != [] && b != [] {
      var m, n := |a| - 1, |b| - 1;
      assert LinkOk(h, a, m) && LinkOk(h, b, n);
      CleanPrefix(h, a, m);
      CleanPrefix(h, b, n);
      LastHashFixesHistory(h, a[..m], b[..n]);
      assert a == a[..m] + [a[m]] && b == b[..n] + [b[n]];
    }
  }

  lemma CleanPrefix(h: (Hash, string) -> Hash, rows: seq<Row>, n: nat)
    requires Clean(h, rows) && n <= |rows|
    ensures Clean(h, rows[..n]) && HashBefore(rows[..n], n) == HashBefore(rows, n)
  {
    forall i | 0 <= i < n ensures LinkOk(h, rows[..n], i) {
      assert LinkOk(h, rows, i);
    }
  }

  // ---------- tampering ----------

  /** Rows from `from` on that still follow a chain are found clean. */
  lemma {:induction false} RestIsClean(h: (Hash, string) -> Hash, rows: seq<Row>, from: nat)
    requires GoodHash(h) && from <= |rows| && forall j :: from <= j < |rows| ==> LinkOk(h, rows, j)
    ensures FindingsFrom(h, rows, from, HashBefore(rows, from)) == []
  {
    CleanFrom(h, rows, from);
  }

  lemma SkipOne(h: (Hash, string) -> Hash, rows: seq<Row>, i: nat)
    requires GoodHash(h) && i < |rows| && LinkOk(h, rows, i)
    ensures FindingsFrom(h, rows, i, HashBefore(rows, i)) == FindingsFrom(h, rows, i + 1, HashBefore(rows, i + 1))
  {
    assert RowFindings(h, rows[i], i, HashBefore(rows, i)) == [];
    assert NextHash(h, rows[i], HashBefore(rows, i)) == HashBefore(rows, i + 1);
  }

  /** The verifier gets to row `k` without a finding if the links up to it hold. */
  lemma {:induction false} SkipClean(h: (Hash, string) -> Hash, rows: seq<Row>, i: nat, k: nat)
    requires GoodHash(h) && i <= k <= |rows| && forall j :: i <= j < k ==> LinkOk(h, rows, j)
    ensures FindingsFrom(h, rows, i, HashBefore(rows, i)) == FindingsFrom(h, rows, k, HashBefore(rows, k))
    decreases k - i
  {
    if i < k {
      SkipOne(h, rows, i);
      SkipClean(h, rows, i + 1, k);
    }
  }

  /** Editing one payload is reported at that row, and nowhere else. */
  lemma EditIsReportedThere(h: (Hash, string) -> Hash, rows: seq<Row>, k: nat, payload: string)
    requires GoodHash(h) && Clean(h, rows) && k < |rows|
    ensures Findings(h, rows[k := rows[k].(payload := payload)])
         == if payload == rows[k].payload then [] else [EntryMismatch(k)]
  {
    var edited := rows[k := rows[k].(payload := payload)];
    forall j | 0 <= j < |rows| && j != k ensures LinkOk(h, edited, j) {
      assert LinkOk(h, rows, j);
    }
    assert LinkOk(h, rows, k);
    SkipClean(h, edited, 0, k);
    RestIsClean(h, edited, k + 1);
  }

  /** Editing a payload and recomputing that row's hash is reported at the next row only, and not at
      all for the last row. */
  lemma RehashIsReportedBehind(h: (Hash, string) -> Hash, rows: seq<Row>, k: nat, payload: string)
    requires GoodHash(h) && Clean(h, rows) && k < |rows| && payload != rows[k].payload
    ensures Findings(h, rows[k := Row(rows[k].prev, h(rows[k].prev, payload), payload)])
         == if k + 1 < |rows| then [PrevMismatch(k + 1), EntryMismatch(k + 1)] else []
  {
    var edited := rows[k := Row(rows[k].prev, h(rows[k].prev, payload), payload)];
    assert LinkOk(h, rows, k);
    forall j | 0 <= j < |rows| && j != k + 1 ensures LinkOk(h, edited, j) {
      assert LinkOk(h, rows, j);
    }
    if k + 1 < |rows| {
      assert LinkOk(h, rows, k + 1);
      SkipClean(h, edited, 0, k + 1);
      RestIsClean(h, edited, k + 2);
      assert RowFindings(h, edited[k + 1], k + 1, edited[k].entry) == [PrevMismatch(k + 1), EntryMismatch(k + 1)];
    } else {
      SkipClean(h, edited, 0, k + 1);
    }
  }

  lemma {:induction false} SameRest(h: (Hash, string) -> Hash, a: seq<Row>, b: seq<Row>, i: nat, previous: Hash)
    requires i <= |a| == |b| && forall j :: i <= j < |a| ==> a[j] == b[j]
    ensures FindingsFrom(h, a, i, previous) == FindingsFrom(h, b, i, previous)
    decreases |a| - i
  {
    if i < |a| {
      SameRest(h, a, b, i + 1, NextHash(h, a[i], previous));
    }
  }

  /** A hash that is erased is reported at that row, and nowhere else: the verifier goes on with the hash
      that it has computed. */
  lemma ErasedHashIsReportedThere(h: (Hash, string) -> Hash, rows: seq<Row>, k: nat)
    requires GoodHash(h) && Clean(h, rows) && k < |rows|
    ensures Findings(h, rows[k := rows[k].(entry := "")]) == [EntryMismatch(k)]
  {
    var erased := rows[k := rows[k].(entry := "")];
    assert LinkOk(h, rows, k);
    forall j | 0 <= j < k ensures LinkOk(h, erased, j) {
      assert LinkOk(h, rows, j);
    }
    SkipClean(h, erased, 0, k);
    assert RowFindings(h, erased[k], k, HashBefore(erased, k)) == [EntryMismatch(k)];
    assert NextHash(h, erased[k], HashBefore(erased, k)) == rows[k].entry == HashBefore(rows, k + 1);
    SameRest(h, erased, rows, k + 1, rows[k].entry);
    RestIsClean(h, rows, k + 1);
  }

  /** No row of a clean chain has the hash of its predecessor: that would make two chains of different
      lengths equal. */
  lemma HashesMoveOn(h: (Hash, string) -> Hash, rows: seq<Row>, k: nat)
    requires GoodHash(h) && Clean(h, rows) && k < |rows|
    ensures rows[k].entry != rows[k].prev
  {
    assert LinkOk(h, rows, k);
    if rows[k].entry == rows[k].prev {
      CleanPrefix(h, rows, k);
      CleanPrefix(h, rows, k + 1);
      LastHashFixesHistory(h, rows[..k], rows[..k + 1]);
    }
  }

  /** Removing an interior row is always reported at its successor, and nowhere else. */
  lemma RemovalIsReportedBehind(h: (Hash, string) -> Hash, rows: seq<Row>, k: nat)
    requires GoodHash(h) && Clean(h, rows) && k + 1 < |rows|
    ensures Findings(h, rows[..k] + rows[k + 1..]) == [PrevMismatch(k), EntryMismatch(k)]
  {
    var left := rows[..k] + rows[k + 1..];
    assert LinkOk(h, rows, k) && LinkOk(h, rows, k + 1);
    forall j | 0 <= j < |left| && j != k ensures LinkOk(h, left, j) {
      assert LinkOk(h, rows, if j < k then j else j + 1);
    }
    SkipClean(h, left, 0, k);
    RestIsClean(h, left, k + 1);
    HashesMoveOn(h, rows, k);
    assert left[k] == rows[k + 1] && HashBefore(left, k) == rows[k].prev;
    assert RowFindings(h, left[k], k, rows[k].prev) == [PrevMismatch(k), EntryMismatch(k)];
  }

  /** Removing rows from the end is never reported. */
  lemma TruncationIsNotReported(h: (Hash, string) -> Hash, rows: seq<Row>, n: nat)
    requires GoodHash(h) && Clean(h, rows) && n <= |rows|
    ensures Findings(h, rows[..n]) == []
  {
    CleanPrefix(h, rows, n);
    CleanIffNoFindings(h, rows[..n]);
  }

  // ---------- lock order and sequence order ----------

  /** `chain_seq` is drawn before the trigger takes its lock: a transaction that drew a smaller number
      may link to rows with larger ones. The new row is then read at position `i`, linked to the last. */
  function InsertedAt(h: (Hash, string) -> Hash, rows: seq<Row>, i: nat, payload: string): seq<Row>
    requires i <= |rows|
  {
    var last := HashBefore(rows, |rows|);
    rows[..i] + [Row(last, h(last, payload), payload)] + rows[i..]
  }

  /** The chain stays clean exactly when the lock was taken in the order of `chain_seq`. */
  lemma InsertIsCleanIffInOrder(h: (Hash, string) -> Hash, rows: seq<Row>, i: nat, payload: string)
    requires GoodHash(h) && Clean(h, rows) && i <= |rows|
    ensures Findings(h, InsertedAt(h, rows, i, payload)) == [] <==> i == |rows|
  {
    var table := InsertedAt(h, rows, i, payload);
    CleanIffNoFindings(h, table);
    if i == |rows| {
      AppendKeepsClean(h, rows, payload);
      assert table == Appended(h, rows, payload);
    } else if Clean(h, table) {
      assert LinkOk(h, table, i) && LinkOk(h, table, i + 1) && LinkOk(h, rows, i);
      assert HashBefore(table, i) == HashBefore(rows, i);
      assert table[i + 1] == rows[i];
      CleanPrefix(h, rows, i);
      CleanPrefix(h, rows, |rows|);
      LastHashFixesHistory(h, rows[..i], rows);
    }
  }

  // ---------- the payload ----------

  /** The fields of a row, joined by '|'. */
  function JoinFields(fields: seq<string>): string {
    if fields == [] then "" else if |fields| == 1 then fields[0] else fields[0] + "|" + JoinFields(fields[1..])
  }

  predicate NoBar(s: string) {
    forall i :: 0 <= i < |s| ==> s[i] != '|'
  }

  /** Without a '|' inside a field the payload determines the fields. */
  lemma {:induction false} JoinIsInjective(a: seq<string>, b: seq<string>)
    requires |a| == |b| && (forall f :: f in a ==> NoBar(f)) && (forall f :: f in b ==> NoBar(f))
    requires JoinFields(a) == JoinFields(b)
    ensures a == b
    decreases |a|
  {
    if |a| == 1 {
      assert a == [a[0]] && b == [b[0]];
    } else if |a| > 1 {
      var x, y := a[0], b[0];
      var s := JoinFields(a);
      assert NoBar(x) && NoBar(y);
      assert s == x + "|" + JoinFields(a[1..]) == y + "|" + JoinFields(b[1..]);
      assert s[|x|] == '|' && s[|y|] == '|';
      assert |x| == |y|;
      assert x == s[..|x|] && y == s[..|y|];
      assert JoinFields(a[1..]) == s[|x| + 1..] && JoinFields(b[1..]) == s[|y| + 1..];
      JoinIsInjective(a[1..], b[1..]);
      assert a == [x] + a[1..] && b == [y] + b[1..];
    }
  }

  lemma {:induction false} JoinAppend(a: seq<string>, b: seq<string>)
    requires a != [] && b != []
    ensures JoinFields(a + b) == JoinFields(a) + "|" + JoinFields(b)
    decreases |a|
  {
    if |a| == 1 {
      assert (a + b)[1..] == b;
    } else {
      assert (a + b)[1..] == a[1..] + b;
      JoinAppend(a[1..], b);
      assert JoinFields(a + b) == a[0] + "|" + (JoinFields(a[1..]) + "|" + JoinFields(b));
      JoinAssoc(a[0], JoinFields(a[1..]), JoinFields(b));
    }
  }

  lemma JoinAssoc(x: string, y: string, z: string)
    ensures x + "|" + (y + "|" + z) == (x + "|" + y) + "|" + z
  {
  }

  lemma MovedBarJoins(x: string, y: string, z: string)
    ensures JoinFields([x + "|" + y, z]) == JoinFields([x, y + "|" + z])
  {
    assert [x + "|" + y, z][1..] == [z] && [x, y + "|" + z][1..] == [y + "|" + z];
    JoinAssoc(x, y, z);
  }

  lemma SameBefore(a: seq<string>, b: seq<string>, post: seq<string>)
    requires a != [] && b != [] && JoinFields(a) == JoinFields(b)
    ensures JoinFields(a + post) == JoinFields(b + post)
  {
    if post == [] {
      assert a + post == a && b + post == b;
    } else {
      JoinAppend(a, post);
      JoinAppend(b, post);
    }
  }

  lemma SameBehind(pre: seq<string>, a: seq<string>, b: seq<string>)
    requires a != [] && b != [] && JoinFields(a) == JoinFields(b)
    ensures JoinFields(pre + a) == JoinFields(pre + b)
  {
    if pre == [] {
      assert pre + a == a && pre + b == b;
    } else {
      JoinAppend(pre, a);
      JoinAppend(pre, b);
    }
  }

  lemma MovedBarInFields(pre: seq<string>, x: string, y: string, z: string, post: seq<string>)
    ensures JoinFields(pre + [x + "|" + y, z] + post) == JoinFields(pre + [x, y + "|" + z] + post)
  {
    MovedBarJoins(x, y, z);
    SameBehind(pre, [x + "|" + y, z], [x, y + "|" + z]);
    SameBefore(pre + [x + "|" + y, z], pre + [x, y + "|" + z], post);
  }

  /** With one, text can move from any field into its neighbour, whatever the other fields are, and the
      edit is not reported. */
  lemma MovedBarIsNotReported(h: (Hash, string) -> Hash, rows: seq<Row>, k: nat, pre: seq<string>,
                              x: string, y: string, z: string, post: seq<string>)
    requires GoodHash(h) && Clean(h, rows) && k < |rows|
    requires rows[k].payload == JoinFields(pre + [x + "|" + y, z] + post)
    ensures pre + [x + "|" + y, z] + post != pre + [x, y + "|" + z] + post
    ensures Findings(h, rows[k := rows[k].(payload := JoinFields(pre + [x, y + "|" + z] + post))]) == []
  {
    MovedBarInFields(pre, x, y, z, post);
    EditIsReportedThere(h, rows, k, JoinFields(pre + [x, y + "|" + z] + post));
    assert (pre + [x + "|" + y, z] + post)[|pre|] == x + "|" + y && (pre + [x, y + "|" + z] + post)[|pre|] == x;
    assert |x + "|" + y| != |x|;
  }
}
