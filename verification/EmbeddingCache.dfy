/** The embedder's LRU cache: transparent, and exactly the most recently touched keys. */
module EmbeddingCache {
  import opened Wrappers

  type Vector = seq<real>

  datatype Kind = DocumentKind | QueryKind

  /** The cache is shared by documents and queries; the model is fixed for the process. */
  datatype Key = Key(kind: Kind, text: string)
  datatype Entry = Entry(key: Key, value: Vector)

  /** The dictionary key as the program spells it. */
  function Spelled(model: string, k: Key): string {
    (match k.kind
     case DocumentKind => "document:"
     case QueryKind => "query:") + model + ":" + k.text
  }

  /** Different keys are spelled differently, whatever the texts contain. */
  lemma SpellingIsInjective(model: string, a: Key, b: Key)
    requires Spelled(model, a) == Spelled(model, b)
    ensures a == b
  {
    var s := Spelled(model, a);
    assert s[0] == if a.kind == DocumentKind then 'd' else 'q';
    assert s[0] == if b.kind == DocumentKind then 'd' else 'q';
    var n := (if a.kind == DocumentKind then 9 else 6) + |model| + 1;
    assert a.text == s[n..] && b.text == s[n..];
  }

  // ---------- what the cache stands for ----------

  function Keys(entries: seq<Entry>): (keys: seq<Key>)
    ensures |keys| == |entries| && forall i :: 0 <= i < |entries| ==> keys[i] == entries[i].key
  {
    seq(|entries|, i requires 0 <= i < |entries| => entries[i].key)
  }

  predicate Distinct<T(==)>(s: seq<T>) {
    forall i, j :: 0 <= i < j < |s| ==> s[i] != s[j]
  }

  function Without(s: seq<Key>, k: Key): (r: seq<Key>)
    ensures forall x :: x in r <==> x in s && x != k
  {
    if s == [] then []
    else if s[0] == k then Without(s[1..], k)
    else [s[0]] + Without(s[1..], k)
  }

  /** The distinct keys of a history, by their last touch, the oldest first. */
  function Recent(touched: seq<Key>): seq<Key> {
    if touched == [] then []
    else Without(Recent(touched[..|touched| - 1]), touched[|touched| - 1]) + [touched[|touched| - 1]]
  }

  function Last(s: seq<Key>, n: int): seq<Key> {
    if n <= 0 then [] else if |s| <= n then s else s[|s| - n..]
  }

  lemma {:induction false} WithoutAbsent(s: seq<Key>, k: Key)
    requires k !in s
    ensures Without(s, k) == s
  {
    if s != [] {
      WithoutAbsent(s[1..], k);
    }
  }

  lemma {:induction false} WithoutConcat(a: seq<Key>, b: seq<Key>, k: Key)
    ensures Without(a + b, k) == Without(a, k) + Without(b, k)
  {
    if a == [] {
      assert a + b == b;
    } else {
      assert (a + b)[1..] == a[1..] + b;
      WithoutConcat(a[1..], b, k);
    }
  }

  lemma WithoutAt(s: seq<Key>, i: nat)
    requires i < |s| && Distinct(s)
    ensures Without(s, s[i]) == s[..i] + s[i + 1..]
  {
    var k, a, c := s[i], s[..i], s[i + 1..];
    assert s == a + ([k] + c);
    WithoutConcat(a, [k] + c, k);
    WithoutConcat([k], c, k);
    WithoutAbsent(a, k);
    WithoutAbsent(c, k);
  }

  lemma {:induction false} RecentIsDistinct(touched: seq<Key>)
    ensures Distinct(Recent(touched)) && forall k :: k in Recent(touched) <==> k in touched
  {
    if touched != [] {
      var before, k := touched[..|touched| - 1], touched[|touched| - 1];
      RecentIsDistinct(before);
      WithoutIsDistinct(Recent(before), k);
      DistinctAppend(Without(Recent(before), k), [k]);
      assert touched == before + [k];
    }
  }

  lemma {:induction false} WithoutIsDistinct(s: seq<Key>, k: Key)
    requires Distinct(s)
    ensures Distinct(Without(s, k))
  {
    if s != [] {
      var first, rest := s[0], s[1..];
      assert forall j :: 0 <= j < |rest| ==> rest[j] == s[j + 1];
      WithoutIsDistinct(rest, k);
      DistinctAppend([first], Without(rest, k));
    }
  }

  lemma DistinctAppend(a: seq<Key>, b: seq<Key>)
    requires Distinct(a) && Distinct(b) && forall x :: x in a ==> x !in b
    ensures Distinct(a + b)
  {
    forall i, j | 0 <= i < j < |a + b| ensures (a + b)[i] != (a + b)[j] {
      if i < |a| <= j {
        assert a[i] in a && b[j - |a|] in b;
      }
    }
  }

  /** The last `n` of a concatenation only depend on its end, if that is long enough. */
  lemma LastOfConcat(a: seq<Key>, c: seq<Key>, n: int)
    requires n > 0 && (|c| >= n || a == [])
    ensures Last(a + c, n) == Last(c, n)
  {
    if a == [] {
      assert a + c == c;
    }
  }

  lemma TouchPresent(a: seq<Key>, b: seq<Key>, i: nat, n: int)
    requires i < |b| && forall j :: 0 <= j < |b| && j != i ==> b[j] != b[i]
    requires b[i] !in a && n > 0 && (|b| == n || a == [])
    ensures |Without(b, b[i])| == |b| - 1
    ensures Last(Without(a + b, b[i]) + [b[i]], n) == Last(Without(b, b[i]) + [b[i]], n)
  {
    var k := b[i];
    WithoutConcat(a, b, k);
    WithoutAbsent(a, k);
    WithoutOne(b, i);
    var c := Without(b, k) + [k];
    assert Without(a + b, k) + [k] == a + c;
    LastOfConcat(a, c, n);
  }

  lemma TouchAbsent(a: seq<Key>, b: seq<Key>, k: Key, n: int)
    requires k !in b && n > 0 && (|b| == n || a == [])
    ensures Last(Without(a + b, k) + [k], n) == Last(Without(b, k) + [k], n)
  {
    WithoutConcat(a, b, k);
    WithoutAbsent(b, k);
    var c := b + [k];
    assert Without(a + b, k) + [k] == Without(a, k) + c;
    LastOfConcat(Without(a, k), c, n);
  }

  lemma LastIsDistinct(s: seq<Key>, a: seq<Key>, b: seq<Key>, i: nat)
    requires Distinct(s) && s == a + b && i < |b|
    ensures b[i] !in a && forall j :: 0 <= j < |b| && j != i ==> b[j] != b[i]
  {
    assert s[|a| + i] == b[i];
    forall j | 0 <= j < |a| ensures a[j] != b[i] {
      assert s[j] == a[j];
    }
    forall j | 0 <= j < |b| && j != i ensures b[j] != b[i] {
      assert s[|a| + j] == b[j];
    }
  }

  /** Moving a key to the end and evicting the oldest keeps exactly the last `n` touched ones. */
  lemma LastAfterTouch(s: seq<Key>, k: Key, n: int)
    requires Distinct(s) && n > 0
    ensures Last(Without(s, k) + [k], n) == Last(Without(Last(s, n), k) + [k], n)
    ensures k in Last(s, n) ==> |Without(Last(s, n), k)| + 1 <= n
  {
    var b := Last(s, n);
    var a := s[..|s| - |b|];
    assert s == a + b;
    if k in b {
      var i :| 0 <= i < |b| && b[i] == k;
      LastIsDistinct(s, a, b, i);
      TouchPresent(a, b, i, n);
    } else {
      TouchAbsent(a, b, k, n);
    }
  }

  lemma WithoutOne(s: seq<Key>, i: nat)
    requires i < |s| && forall j :: 0 <= j < |s| && j != i ==> s[j] != s[i]
    ensures |Without(s, s[i])| == |s| - 1
  {
    var k, a, c := s[i], s[..i], s[i + 1..];
    assert s == a + ([k] + c);
    WithoutConcat(a, [k] + c, k);
    WithoutConcat([k], c, k);
    WithoutAbsent(a, k);
    WithoutAbsent(c, k);
  }

  // ---------- the embedder ----------

  /** `encode` is the deterministic model. */
  function Encoded(encode: string -> Vector, texts: seq<string>): (vectors: seq<Vector>)
    ensures |vectors| == |texts|
  {
    seq(|texts|, i requires 0 <= i < |texts| => encode(texts[i]))
  }

  class Embedder {
    const capacity: int
    const instruction: string
    const encode: string -> Vector
    var entries: seq<Entry>
    ghost var touched: seq<Key>

    /** The last `capacity` distinct keys that were found or stored, each with its own vector. */
    ghost predicate Valid()
      reads this
    {
      && Keys(entries) == Last(Recent(touched), capacity)
      && forall i :: 0 <= i < |entries| ==> entries[i].value == encode(entries[i].key.text)
    }

    constructor (capacity: int, instruction: string, encode: string -> Vector)
      ensures Valid() && entries == [] && touched == []
      ensures this.capacity == capacity && this.instruction == instruction && this.encode == encode
    {
      this.capacity, this.instruction, this.encode := capacity, instruction, encode;
      entries, touched := [], [];
    }

    method Find(key: Key) returns (at: Option<nat>)
      ensures at.Some? ==> at.value < |entries| && entries[at.value].key == key
      ensures at.None? ==> forall i :: 0 <= i < |entries| ==> entries[i].key != key
    {
      for i := 0 to |entries|
        invariant forall j :: 0 <= j < i ==> entries[j].key != key
      {
        if entries[i].key == key {
          return Some(i);
        }
      }
      at := None;
    }

    /** `_cache[key] = value`, then `move_to_end`. */
    method MoveToEnd(key: Key, value: Vector)
      requires Distinct(Keys(entries)) && value == encode(key.text)
      requires forall i :: 0 <= i < |entries| ==> entries[i].value == encode(entries[i].key.text)
      modifies this`entries
      ensures Keys(entries) == Without(old(Keys(entries)), key) + [key]
      ensures forall i :: 0 <= i < |entries| ==> entries[i].value == encode(entries[i].key.text)
    {
      var at := Find(key);
      ghost var keys := Keys(entries);
      if at.Some? {
        WithoutAt(keys, at.value);
        entries := entries[..at.value] + entries[at.value + 1..];
        assert Keys(entries) == keys[..at.value] + keys[at.value + 1..];
      } else {
        WithoutAbsent(keys, key);
      }
      entries := entries + [Entry(key, value)];
    }

    /** `popitem(last=False)` while the cache is too large. */
    method EvictOldest()
      requires capacity > 0
      requires forall i :: 0 <= i < |entries| ==> entries[i].value == encode(entries[i].key.text)
      modifies this`entries
      ensures Keys(entries) == Last(old(Keys(entries)), capacity)
      ensures forall i :: 0 <= i < |entries| ==> entries[i].value == encode(entries[i].key.text)
    {
      ghost var before := Keys(entries);
      while |entries| > capacity
        invariant |entries| <= |before| && Keys(entries) == before[|before| - |entries|..]
        invariant |entries| == |before| || |entries| >= capacity
        invariant forall i :: 0 <= i < |entries| ==> entries[i].value == encode(entries[i].key.text)
      {
        assert Keys(entries[1..]) == Keys(entries)[1..];
        entries := entries[1..];
      }
    }

    /** A hit is a touch, and answers with what the model would. */
    method CacheGet(key: Key) returns (value: Option<Vector>)
      requires Valid()
      modifies this`entries, this`touched
      ensures Valid()
      ensures value.Some? <==> key in old(Keys(entries))
      ensures value.Some? ==> value.value == encode(key.text) && touched == old(touched) + [key]
      ensures value.None? ==> entries == old(entries) && touched == old(touched)
    {
      var at := Find(key);
      if at.None? {
        return None;
      }
      value := Some(entries[at.value].value);
      RecentIsDistinct(touched);
      assert key == Keys(entries)[at.value];
      LastAfterTouch(Recent(touched), key, capacity);
      MoveToEnd(key, value.value);
      assert (touched + [key])[..|touched|] == touched;
      touched := touched + [key];
    }

    /** Stores and evicts from the front; with no capacity nothing is stored. */
    method CachePut(key: Key, value: Vector)
      requires Valid() && value == encode(key.text)
      modifies this`entries, this`touched
      ensures Valid()
      ensures touched == old(touched) + if capacity <= 0 then [] else [key]
    {
      if capacity <= 0 {
        return;
      }
      RecentIsDistinct(touched);
      LastAfterTouch(Recent(touched), key, capacity);
      MoveToEnd(key, value);
      EvictOldest();
      assert (touched + [key])[..|touched|] == touched;
      touched := touched + [key];
    }

    /** The first pass: what is cached, and which texts are not. */
    method LookUp(texts: seq<string>) returns (results: seq<Option<Vector>>, missing: seq<nat>)
      requires Valid()
      modifies this`entries, this`touched
      ensures Valid() && Partial(results, texts, encode) && MissingFrom(results, missing, |texts|)
      ensures |touched| + |missing| == |old(touched)| + |texts| && old(touched) <= touched
      ensures forall i :: 0 <= i < |texts| ==> i in missing || TouchedSince(texts[i], |old(touched)|, touched)
    {
      results := seq(|texts|, _ => None);
      missing := [];
      for i := 0 to |texts|
        invariant Valid() && Partial(results, texts, encode) && MissingFrom(results, missing, i)
        invariant |touched| + |missing| == |old(touched)| + i && old(touched) <= touched
        invariant forall j :: 0 <= j < i ==> j in missing || TouchedSince(texts[j], |old(touched)|, touched)
      {
        ghost var before := touched;
        var cached := CacheGet(Key(DocumentKind, texts[i]));
        if cached.None? {
          missing := missing + [i];
        } else {
          results := results[i := cached];
          assert touched[|before|] == Key(DocumentKind, texts[i]);
        }
      }
    }

    /** The second pass: one encoding of all missing texts, each result stored in turn. */
    method FillIn(texts: seq<string>, before: seq<Option<Vector>>, missing: seq<nat>) returns (results: seq<Option<Vector>>)
      requires Valid() && Partial(before, texts, encode) && MissingFrom(before, missing, |texts|)
      modifies this`entries, this`touched
      ensures Valid() && Partial(results, texts, encode) && forall i :: 0 <= i < |results| ==> results[i].Some?
      ensures capacity > 0 ==> touched == old(touched) + KeysAt(texts, missing)
    {
      var missingTexts := seq(|missing|, j requires 0 <= j < |missing| => texts[missing[j]]);
      var encoded := Encoded(encode, missingTexts);
      results := before;
      for j := 0 to |missing|
        invariant Valid() && Partial(results, texts, encode)
        invariant forall i :: 0 <= i < |results| && results[i].None? ==> i in missing[j..]
        invariant capacity > 0 ==> touched == old(touched) + KeysAt(texts, missing[..j])
      {
        KeysAtNext(texts, missing, j);
        results := results[missing[j] := Some(encoded[j])];
        CachePut(Key(DocumentKind, missingTexts[j]), encoded[j]);
      }
      assert missing[..|missing|] == missing;
    }

    /** From any valid cache: the vectors of all texts, in order, duplicates and evictions included,
        with one touch for each text. */
    method EmbedDocuments(texts: seq<string>) returns (vectors: seq<Vector>)
      requires Valid()
      modifies this`entries, this`touched
      ensures Valid()
      ensures vectors == Encoded(encode, texts)
      ensures capacity > 0 ==> |touched| == |old(touched)| + |texts| && old(touched) <= touched
      ensures capacity > 0 ==> forall i :: 0 <= i < |texts| ==> TouchedSince(texts[i], |old(touched)|, touched)
    {
      var results, missing := LookUp(texts);
      ghost var since := touched;
      if missing != [] {
        results := FillIn(texts, results, missing);
        if capacity > 0 {
          TouchedLater(texts, missing, |old(touched)|, since, touched);
        }
      }
      vectors := Present(results);
      AllPresent(results, texts, encode);
    }

    method EmbedQuery(query: string) returns (vector: Vector)
      requires Valid()
      modifies this`entries, this`touched
      ensures Valid() && vector == encode(instruction + query)
      ensures capacity > 0 ==> touched == old(touched) + [Key(QueryKind, instruction + query)]
    {
      var key := Key(QueryKind, instruction + query);
      var cached := CacheGet(key);
      if cached.Some? {
        return cached.value;
      }
      vector := encode(key.text);
      CachePut(key, vector);
    }
  }

  // ---------- the two passes of embed_documents ----------

  /** The history behind its first `n` entries touches the document key of `text`. */
  predicate TouchedSince(text: string, n: nat, touched: seq<Key>) {
    exists k :: n <= k < |touched| && touched[k] == Key(DocumentKind, text)
  }

  /** The keys of the listed texts, in order. */
  function KeysAt(texts: seq<string>, at: seq<nat>): (keys: seq<Key>)
    requires forall j :: 0 <= j < |at| ==> at[j] < |texts|
    ensures |keys| == |at|
  {
    seq(|at|, j requires 0 <= j < |at| => Key(DocumentKind, texts[at[j]]))
  }

  lemma KeysAtNext(texts: seq<string>, at: seq<nat>, j: nat)
    requires j < |at| && forall i :: 0 <= i < |at| ==> at[i] < |texts|
    ensures KeysAt(texts, at[..j + 1]) == KeysAt(texts, at[..j]) + [Key(DocumentKind, texts[at[j]])]
  {
  }

  lemma TouchedLater(texts: seq<string>, missing: seq<nat>, n: nat, since: seq<Key>, touched: seq<Key>)
    requires n <= |since| && (forall j :: 0 <= j < |missing| ==> missing[j] < |texts|)
    requires touched == since + KeysAt(texts, missing)
    requires forall i :: 0 <= i < |texts| ==> i in missing || TouchedSince(texts[i], n, since)
    ensures forall i :: 0 <= i < |texts| ==> TouchedSince(texts[i], n, touched)
  {
    forall i | 0 <= i < |texts| ensures TouchedSince(texts[i], n, touched) {
      if i in missing {
        var j :| 0 <= j < |missing| && missing[j] == i;
        assert touched[|since| + j] == Key(DocumentKind, texts[i]);
      } else {
        var k :| n <= k < |since| && since[k] == Key(DocumentKind, texts[i]);
        assert touched[k] == since[k];
      }
    }
  }

  ghost predicate Partial(results: seq<Option<Vector>>, texts: seq<string>, encode: string -> Vector) {
    |results| == |texts| && forall i :: 0 <= i < |results| && results[i].Some? ==> results[i].value == encode(texts[i])
  }

  /** The first pass has seen `i` texts and listed those that were not cached. */
  ghost predicate MissingFrom(results: seq<Option<Vector>>, missing: seq<nat>, i: nat) {
    && (forall j :: 0 <= j < |missing| ==> missing[j] < |results|)
    && (forall k :: 0 <= k < |results| && results[k].None? ==> k in missing || k >= i)
  }

  function Single(value: Option<Vector>): seq<Vector> {
    if value.Some? then [value.value] else []
  }

  /** The final comprehension: the values that are not None. */
  function Present(results: seq<Option<Vector>>): seq<Vector> {
    if results == [] then []
    else Present(results[..|results| - 1]) + Single(results[|results| - 1])
  }

  lemma {:induction false} AllPresent(results: seq<Option<Vector>>, texts: seq<string>, encode: string -> Vector)
    requires Partial(results, texts, encode) && forall i :: 0 <= i < |results| ==> results[i].Some?
    ensures Present(results) == Encoded(encode, texts)
  {
    if results != [] {
      var n := |results| - 1;
      AllPresent(results[..n], texts[..n], encode);
      assert Encoded(encode, texts) == Encoded(encode, texts[..n]) + [encode(texts[n])];
    }
  }
}
