/** Chat capacity leases: all-or-nothing semaphores with deadlines over several keys at once. */
module Capacity {
  import opened Wrappers

  type Token = nat

  datatype Key = Global | OfUser(user: nat) | OfConversation(user: nat, conversation: nat)

  datatype Settings = Settings(globalConcurrency: int, userConcurrency: int, leaseSeconds: int)

  /** Token to deadline, in milliseconds: a sorted set, or a local dictionary. */
  type Members = map<Token, int>
  type Table = map<Key, Members>

  function AtLeastOne(n: int): nat {
    if n < 1 then 1 else n
  }

  function Limit(s: Settings, k: Key): nat {
    match k
    case Global => AtLeastOne(s.globalConcurrency)
    case OfUser(_) => AtLeastOne(s.userConcurrency)
    case OfConversation(_, _) => 1
  }

  function Keys(user: nat, conversation: Option<nat>): seq<Key> {
    [Global, OfUser(user)] + if conversation.Some? then [OfConversation(user, conversation.value)] else []
  }

  function Limits(s: Settings, keys: seq<Key>): seq<nat> {
    seq(|keys|, i requires 0 <= i < |keys| => Limit(s, keys[i]))
  }

  function LeaseMs(s: Settings): nat {
    AtLeastOne(s.leaseSeconds) * 1000
  }

  // ---------- members ----------

  function MembersOf(table: Table, k: Key): Members {
    if k in table then table[k] else map[]
  }

  function Unexpired(m: Members, now: int): Members {
    map t | t in m && m[t] > now :: m[t]
  }

  function Live(table: Table, k: Key, now: int): Members {
    Unexpired(MembersOf(table, k), now)
  }

  /** A key without members is no key. */
  function Put(table: Table, k: Key, m: Members): Table {
    if m == map[] then table - {k} else table[k := m]
  }

  /** Drops the expired members of the listed keys. */
  function Purge(table: Table, keys: seq<Key>, now: int): Table {
    if keys == [] then table
    else
      var before, k := Purge(table, keys[..|keys| - 1], now), keys[|keys| - 1];
      Put(before, k, Live(before, k, now))
  }

  function AddAll(table: Table, keys: seq<Key>, token: Token, deadline: int): Table {
    if keys == [] then table
    else
      var before, k := AddAll(table, keys[..|keys| - 1], token, deadline), keys[|keys| - 1];
      before[k := MembersOf(before, k)[token := deadline]]
  }

  function RemoveAll(table: Table, keys: seq<Key>, token: Token): Table {
    if keys == [] then table
    else
      var before, k := RemoveAll(table, keys[..|keys| - 1], token), keys[|keys| - 1];
      Put(before, k, MembersOf(before, k) - {token})
  }

  predicate InAll(table: Table, keys: seq<Key>, token: Token) {
    forall k :: k in keys ==> token in MembersOf(table, k)
  }

  lemma {:induction false} PurgeAt(table: Table, keys: seq<Key>, now: int, k: Key)
    ensures MembersOf(Purge(table, keys, now), k) == if k in keys then Live(table, k, now) else MembersOf(table, k)
  {
    if keys != [] {
      PurgeAt(table, keys[..|keys| - 1], now, k);
      assert keys == keys[..|keys| - 1] + [keys[|keys| - 1]];
      assert Unexpired(Live(table, k, now), now) == Live(table, k, now);
    }
  }

  lemma {:induction false} AddAllAt(table: Table, keys: seq<Key>, token: Token, deadline: int, k: Key)
    ensures MembersOf(AddAll(table, keys, token, deadline), k)
         == if k in keys then MembersOf(table, k)[token := deadline] else MembersOf(table, k)
  {
    if keys != [] {
      AddAllAt(table, keys[..|keys| - 1], token, deadline, k);
      assert keys == keys[..|keys| - 1] + [keys[|keys| - 1]];
    }
  }

  lemma {:induction false} RemoveAllAt(table: Table, keys: seq<Key>, token: Token, k: Key)
    ensures MembersOf(RemoveAll(table, keys, token), k)
         == if k in keys then MembersOf(table, k) - {token} else MembersOf(table, k)
  {
    if keys != [] {
      RemoveAllAt(table, keys[..|keys| - 1], token, k);
      assert keys == keys[..|keys| - 1] + [keys[|keys| - 1]];
    }
  }

  // ---------- the semaphore both implementations stand for ----------

  /** How many members of each key have a deadline that has not passed. */
  function Counts(table: Table, keys: seq<Key>, now: int): (counts: seq<nat>)
    ensures |counts| == |keys|
  {
    seq(|keys|, i requires 0 <= i < |keys| => |Live(table, keys[i], now)|)
  }

  /** The 1-based position of the first full key from `i` on, 0 if there is none. */
  function FirstFull(counts: seq<nat>, limits: seq<nat>, i: nat): (code: nat)
    requires i <= |counts| == |limits|
    ensures code <= |counts|
    ensures code == 0 <==> forall j :: i <= j < |counts| ==> counts[j] < limits[j]
    ensures code != 0 ==> i < code && counts[code - 1] >= limits[code - 1]
    ensures code != 0 ==> forall j :: i <= j < code - 1 ==> counts[j] < limits[j]
    decreases |counts| - i
  {
    if i == |counts| then 0
    else if counts[i] >= limits[i] then i + 1
    else FirstFull(counts, limits, i + 1)
  }

  // ---------- runs ----------

  /** `held` is a history: every lease ever granted, with its keys. `ttl` is Redis' own expiry of a
      whole key. */
  datatype Store = Store(settings: Settings, now: int, table: Table, ttl: map<Key, int>, held: map<Token, seq<Key>>)

  datatype Action =
    | Acquiring(user: nat, conversation: Option<nat>, token: Token)
    | Renewing(token: Token)
    | Releasing(token: Token)
    | Waiting(to: int)

  /** Tokens are never reused, a lease is renewed and released by its holder, time does not go back. */
  predicate Enabled(s: Store, a: Action) {
    match a
    case Acquiring(_, _, token) => token !in s.held
    case Renewing(token) => token in s.held
    case Releasing(token) => token in s.held
    case Waiting(to) => s.now <= to
  }

  function WithTtl(ttl: map<Key, int>, keys: seq<Key>, at: int): map<Key, int> {
    if keys == [] then ttl else WithTtl(ttl, keys[..|keys| - 1], at)[keys[|keys| - 1] := at]
  }

  lemma {:induction false} WithTtlAt(ttl: map<Key, int>, keys: seq<Key>, at: int, k: Key)
    ensures if k in keys then k in WithTtl(ttl, keys, at) && WithTtl(ttl, keys, at)[k] == at
            else (k in ttl <==> k in WithTtl(ttl, keys, at)) && (k in ttl ==> WithTtl(ttl, keys, at)[k] == ttl[k])
  {
    if keys != [] {
      WithTtlAt(ttl, keys[..|keys| - 1], at, k);
      assert keys == keys[..|keys| - 1] + [keys[|keys| - 1]];
    }
  }

  /** `PEXPIRE key max(expires - now, 1000) * 2` */
  function AcquireTtl(s: Settings): int {
    (if LeaseMs(s) < 1000 then 1000 else LeaseMs(s)) * 2
  }

  /** `max(2, chat_slot_lease_seconds * 2) * 1000` */
  function RenewTtl(s: Settings): int {
    (if s.leaseSeconds * 2 < 2 then 2 else s.leaseSeconds * 2) * 1000
  }

  function Purged(s: Store, keys: seq<Key>): Store {
    s.(table := Purge(s.table, keys, s.now))
  }

  /** One deadline for `token` in all the keys. */
  function Stamped(s: Store, keys: seq<Key>, token: Token): Store {
    s.(table := AddAll(s.table, keys, token, s.now + LeaseMs(s.settings)))
  }

  function Granted(s: Store, keys: seq<Key>, token: Token): Store {
    Stamped(Purged(s, keys), keys, token).(held := s.held[token := keys])
  }

  /** The position of the key that blocks an acquire, 0 if none does. */
  function Blocked(s: Store, keys: seq<Key>): (code: nat)
    ensures code <= |keys|
  {
    FirstFull(Counts(s.table, keys, s.now), Limits(s.settings, keys), 0)
  }

  /** The acquire script. A refusal has purged the keys up to the full one. */
  function GrantRedis(s: Store, keys: seq<Key>, token: Token): (r: (Store, bool)) {
    if Blocked(s, keys) == 0
    then (Granted(s, keys, token).(ttl := WithTtl(s.ttl, keys, s.now + AcquireTtl(s.settings))), true)
    else (Purged(s, keys[..Blocked(s, keys)]), false)
  }

  /** The local fallback purges all keys first. */
  function GrantLocal(s: Store, keys: seq<Key>, token: Token): (r: (Store, bool)) {
    if Blocked(s, keys) == 0 then (Granted(s, keys, token), true) else (Purged(s, keys), false)
  }

  /** Both renew whatever is still in every key, expired or not. */
  function RenewRedis(s: Store, keys: seq<Key>, token: Token): (r: (Store, bool)) {
    if InAll(s.table, keys, token)
    then (Stamped(s, keys, token).(ttl := WithTtl(s.ttl, keys, s.now + RenewTtl(s.settings))), true)
    else (s, false)
  }

  function RenewLocal(s: Store, keys: seq<Key>, token: Token): (r: (Store, bool)) {
    if InAll(s.table, keys, token) then (Stamped(s, keys, token), true) else (s, false)
  }

  /** Redis drops a whole key once its own expiry is reached. */
  function WaitRedis(s: Store, to: int): Store {
    s.(now := to, table := map k | k in s.table && !(k in s.ttl && s.ttl[k] <= to) :: s.table[k])
  }

  function StepRedis(s: Store, a: Action): (r: (Store, bool))
    requires Enabled(s, a)
  {
    match a
    case Acquiring(user, conversation, token) => GrantRedis(s, Keys(user, conversation), token)
    case Renewing(token) => RenewRedis(s, s.held[token], token)
    case Releasing(token) => (s.(table := RemoveAll(s.table, s.held[token], token)), true)
    case Waiting(to) => (WaitRedis(s, to), true)
  }

  function StepLocal(s: Store, a: Action): (r: (Store, bool))
    requires Enabled(s, a)
  {
    match a
    case Acquiring(user, conversation, token) => GrantLocal(s, Keys(user, conversation), token)
    case Renewing(token) => RenewLocal(s, s.held[token], token)
    case Releasing(token) => (s.(table := RemoveAll(s.table, s.held[token], token)), true)
    case Waiting(to) => (s.(now := to), true)
  }

  // ---------- invariants ----------

  /** Every member belongs to a granted lease on that key and cannot outlive a fresh lease. */
  ghost predicate MembersOk(s: Store) {
    forall k, t {:trigger t in MembersOf(s.table, k)} :: t in MembersOf(s.table, k) ==>
      t in s.held && k in s.held[t] && MembersOf(s.table, k)[t] <= s.now + LeaseMs(s.settings)
  }

  ghost predicate WithinLimits(s: Store) {
    forall k :: |MembersOf(s.table, k)| <= Limit(s.settings, k)
  }

  /** Key `k2` holds the unexpired entry that `k1` holds. */
  predicate SameEntry(s: Store, t: Token, k1: Key, k2: Key) {
    t in Live(s.table, k1, s.now) ==>
      t in MembersOf(s.table, k2) && MembersOf(s.table, k2)[t] == MembersOf(s.table, k1)[t]
  }

  /** An unexpired lease is in all of its keys with one deadline, or in none. */
  ghost predicate AllOrNothing(s: Store) {
    forall t, k1, k2 :: t in s.held && k1 in s.held[t] && k2 in s.held[t] ==> SameEntry(s, t, k1, k2)
  }

  /** The expiry of a key lies a full lease behind each of its deadlines. */
  ghost predicate TtlOk(s: Store) {
    forall k, t {:trigger t in MembersOf(s.table, k)} :: t in MembersOf(s.table, k) ==>
      k in s.ttl && MembersOf(s.table, k)[t] + LeaseMs(s.settings) <= s.ttl[k]
  }

  ghost predicate Inv(s: Store) {
    MembersOk(s) && WithinLimits(s) && AllOrNothing(s)
  }

  lemma SubsetSize<T>(a: set<T>, b: set<T>)
    requires a <= b
    ensures |a| <= |b|
  {
    assert b == a + (b - a);
  }

  /** Each key of `table` holds some of the entries that it holds in `s`. */
  ghost predicate Fewer(s: Store, table: Table) {
    forall k :: MembersOf(table, k).Keys <= MembersOf(s.table, k).Keys
             && forall t :: t in MembersOf(table, k) ==> MembersOf(table, k)[t] == MembersOf(s.table, k)[t]
  }

  /** The unexpired entries of `t` are all kept, or all gone. */
  ghost predicate KeptOrDropped(s: Store, table: Table, t: Token)
    requires t in s.held
  {
    || (forall k :: k in s.held[t] && t in Live(s.table, k, s.now) ==> t in MembersOf(table, k))
    || (forall k :: k in s.held[t] ==> t !in MembersOf(table, k))
  }

  lemma FewerKeepsInv(s: Store, table: Table)
    requires Inv(s) && Fewer(s, table) && forall t :: t in s.held ==> KeptOrDropped(s, table, t)
    ensures Inv(s.(table := table))
  {
    var p := s.(table := table);
    forall k ensures |MembersOf(table, k)| <= Limit(s.settings, k) {
      SubsetSize(MembersOf(table, k).Keys, MembersOf(s.table, k).Keys);
    }
    forall t, k1, k2 | t in p.held && k1 in p.held[t] && k2 in p.held[t] ensures SameEntry(p, t, k1, k2) {
      assert SameEntry(s, t, k1, k2) && KeptOrDropped(s, table, t);
    }
  }

  lemma PurgeKeepsInv(s: Store, keys: seq<Key>)
    requires Inv(s)
    ensures Inv(Purged(s, keys))
  {
    forall k ensures MembersOf(Purge(s.table, keys, s.now), k)
                  == if k in keys then Live(s.table, k, s.now) else MembersOf(s.table, k) {
      PurgeAt(s.table, keys, s.now, k);
    }
    FewerKeepsInv(s, Purge(s.table, keys, s.now));
  }

  lemma ReleaseKeepsInv(s: Store, token: Token)
    requires Inv(s) && token in s.held
    ensures Inv(s.(table := RemoveAll(s.table, s.held[token], token)))
  {
    forall k ensures MembersOf(RemoveAll(s.table, s.held[token], token), k)
                  == if k in s.held[token] then MembersOf(s.table, k) - {token} else MembersOf(s.table, k) {
      RemoveAllAt(s.table, s.held[token], token, k);
    }
    FewerKeepsInv(s, RemoveAll(s.table, s.held[token], token));
  }

  /** Time passes: what is unexpired at the later time was unexpired before. */
  lemma LaterKeepsInv(s: Store, to: int)
    requires Inv(s) && s.now <= to
    ensures Inv(s.(now := to))
  {
    var p := s.(now := to);
    forall t, k1, k2 | t in p.held && k1 in p.held[t] && k2 in p.held[t] ensures SameEntry(p, t, k1, k2) {
      assert SameEntry(s, t, k1, k2);
    }
  }

  /** The expiry of a key never drops an unexpired member. */
  lemma TtlDropsOnlyExpired(s: Store, to: int, k: Key)
    requires TtlOk(s) && s.now <= to
    ensures Live(WaitRedis(s, to).table, k, to) == Live(s.table, k, to)
  {
  }

  lemma WaitKeepsInv(s: Store, to: int)
    requires Inv(s) && TtlOk(s) && s.now <= to
    ensures Inv(WaitRedis(s, to)) && TtlOk(WaitRedis(s, to))
  {
    var p := s.(now := to);
    LaterKeepsInv(s, to);
    forall t | t in p.held ensures KeptOrDropped(p, WaitRedis(s, to).table, t) {
      forall k | k in p.held[t] && t in Live(p.table, k, to) ensures t in MembersOf(WaitRedis(s, to).table, k) {
        TtlDropsOnlyExpired(s, to, k);
      }
    }
    FewerKeepsInv(p, WaitRedis(s, to).table);
  }

  /** A new token in keys that have room, or a lease that is still in all of its keys. */
  predicate MayWrite(s: Store, keys: seq<Key>, token: Token) {
    && (forall k :: k in keys ==> token in MembersOf(s.table, k) || |MembersOf(s.table, k)| < Limit(s.settings, k))
    && (token in s.held ==> s.held[token] == keys && InAll(s.table, keys, token))
  }

  /** After a grant or a renewal: one new deadline in all keys of the lease. */
  ghost predicate Written(s: Store, keys: seq<Key>, token: Token, p: Store) {
    && p.settings == s.settings && p.now == s.now && p.held == s.held[token := keys]
    && forall k :: MembersOf(p.table, k) ==
         if k in keys then MembersOf(s.table, k)[token := s.now + LeaseMs(s.settings)] else MembersOf(s.table, k)
  }

  lemma AddAllWrites(s: Store, keys: seq<Key>, token: Token, p: Store)
    requires p.settings == s.settings && p.now == s.now && p.held == s.held[token := keys]
    requires p.table == AddAll(s.table, keys, token, s.now + LeaseMs(s.settings))
    ensures Written(s, keys, token, p)
  {
    forall k ensures MembersOf(p.table, k) ==
         if k in keys then MembersOf(s.table, k)[token := s.now + LeaseMs(s.settings)] else MembersOf(s.table, k) {
      AddAllAt(s.table, keys, token, s.now + LeaseMs(s.settings), k);
    }
  }

  lemma WriteKeepsMembers(s: Store, keys: seq<Key>, token: Token, p: Store)
    requires MembersOk(s) && MayWrite(s, keys, token) && Written(s, keys, token, p)
    ensures MembersOk(p)
  {
  }

  lemma SizeAfterWrite(m: Members, token: Token, deadline: int)
    ensures |m[token := deadline]| == |m| + if token in m then 0 else 1
  {
    assert m[token := deadline].Keys == m.Keys + {token};
    if token in m {
      assert m.Keys + {token} == m.Keys;
    }
  }

  lemma WriteKeepsLimits(s: Store, keys: seq<Key>, token: Token, p: Store)
    requires WithinLimits(s) && MayWrite(s, keys, token) && Written(s, keys, token, p)
    ensures WithinLimits(p)
  {
    forall k ensures |MembersOf(p.table, k)| <= Limit(s.settings, k) {
      SizeAfterWrite(MembersOf(s.table, k), token, s.now + LeaseMs(s.settings));
    }
  }

  lemma WriteKeepsAllOrNothing(s: Store, keys: seq<Key>, token: Token, p: Store)
    requires AllOrNothing(s) && MayWrite(s, keys, token) && Written(s, keys, token, p)
    ensures AllOrNothing(p)
  {
    forall t, k1, k2 | t in p.held && k1 in p.held[t] && k2 in p.held[t] ensures SameEntry(p, t, k1, k2) {
      assert t != token ==> SameEntry(s, t, k1, k2);
    }
  }

  lemma WriteKeepsInv(s: Store, keys: seq<Key>, token: Token, p: Store)
    requires Inv(s) && MayWrite(s, keys, token) && Written(s, keys, token, p)
    ensures Inv(p)
  {
    WriteKeepsMembers(s, keys, token, p);
    WriteKeepsLimits(s, keys, token, p);
    WriteKeepsAllOrNothing(s, keys, token, p);
  }

  /** Rewriting the deadlines and the expiry of the keys together. */
  lemma WriteKeepsTtl(s: Store, keys: seq<Key>, token: Token, at: int, p: Store)
    requires TtlOk(s) && MembersOk(s) && at >= s.now + 2 * LeaseMs(s.settings)
    requires Written(s, keys, token, p) && p.ttl == WithTtl(s.ttl, keys, at)
    ensures TtlOk(p)
  {
    forall k, t | t in MembersOf(p.table, k)
      ensures k in p.ttl && MembersOf(p.table, k)[t] + LeaseMs(p.settings) <= p.ttl[k]
    {
      WithTtlAt(s.ttl, keys, at, k);
      if k !in keys || t != token {
        assert t in MembersOf(s.table, k) && MembersOf(p.table, k)[t] == MembersOf(s.table, k)[t];
      }
    }
  }

  // ---------- every step keeps them ----------

  /** No key of the lease is full. */
  ghost predicate Roomy(s: Store, keys: seq<Key>) {
    forall k :: k in keys ==> |Live(s.table, k, s.now)| < Limit(s.settings, k)
  }

  lemma FreeIsRoomy(s: Store, keys: seq<Key>)
    ensures Blocked(s, keys) == 0 <==> Roomy(s, keys)
  {
    var counts, limits := Counts(s.table, keys, s.now), Limits(s.settings, keys);
    if Blocked(s, keys) == 0 {
      forall k | k in keys ensures |Live(s.table, k, s.now)| < Limit(s.settings, k) {
        var i :| 0 <= i < |keys| && keys[i] == k;
        assert counts[i] < limits[i];
      }
    } else {
      var i := Blocked(s, keys) - 1;
      assert keys[i] in keys && counts[i] >= limits[i];
    }
  }

  /** After the purge, every key of a free acquire has room. */
  lemma RoomyMayWrite(s: Store, keys: seq<Key>, token: Token)
    requires token !in s.held && Roomy(s, keys)
    ensures MayWrite(Purged(s, keys), keys, token)
  {
    forall k | k in keys ensures |MembersOf(Purge(s.table, keys, s.now), k)| < Limit(s.settings, k) {
      PurgeAt(s.table, keys, s.now, k);
    }
  }

  /** What Redis keeps. */
  ghost predicate RedisInv(s: Store) {
    Inv(s) && TtlOk(s)
  }

  lemma PurgeKeepsRedisInv(s: Store, keys: seq<Key>)
    requires RedisInv(s)
    ensures RedisInv(Purged(s, keys))
  {
    PurgeKeepsInv(s, keys);
    PurgeKeepsTtl(s, keys);
  }

  lemma FreeMayWrite(s: Store, keys: seq<Key>, token: Token)
    requires token !in s.held && Blocked(s, keys) == 0
    ensures MayWrite(Purged(s, keys), keys, token)
  {
    FreeIsRoomy(s, keys);
    RoomyMayWrite(s, keys, token);
  }

  lemma FreeGrantKeepsInv(s: Store, keys: seq<Key>, token: Token)
    requires RedisInv(s) && token !in s.held && MayWrite(Purged(s, keys), keys, token)
    ensures RedisInv(Granted(s, keys, token).(ttl := WithTtl(s.ttl, keys, s.now + AcquireTtl(s.settings))))
  {
    var p, r := Purged(s, keys), Granted(s, keys, token).(ttl := WithTtl(s.ttl, keys, s.now + AcquireTtl(s.settings)));
    PurgeKeepsRedisInv(s, keys);
    AddAllWrites(p, keys, token, r);
    WriteKeepsInv(p, keys, token, r);
    WriteKeepsTtl(p, keys, token, s.now + AcquireTtl(s.settings), r);
  }

  lemma GrantRedisKeepsInv(s: Store, keys: seq<Key>, token: Token)
    requires RedisInv(s) && token !in s.held
    ensures RedisInv(GrantRedis(s, keys, token).0)
  {
    if Blocked(s, keys) == 0 {
      FreeMayWrite(s, keys, token);
      FreeGrantKeepsInv(s, keys, token);
      assert GrantRedis(s, keys, token).0 == Granted(s, keys, token).(ttl := WithTtl(s.ttl, keys, s.now + AcquireTtl(s.settings)));
    } else {
      PurgeKeepsRedisInv(s, keys[..Blocked(s, keys)]);
      assert GrantRedis(s, keys, token).0 == Purged(s, keys[..Blocked(s, keys)]);
    }
  }

  lemma PurgeKeepsTtl(s: Store, keys: seq<Key>)
    requires TtlOk(s)
    ensures TtlOk(Purged(s, keys))
  {
    forall k ensures MembersOf(Purge(s.table, keys, s.now), k)
                  == if k in keys then Live(s.table, k, s.now) else MembersOf(s.table, k) {
      PurgeAt(s.table, keys, s.now, k);
    }
  }

  lemma GrantLocalKeepsInv(s: Store, keys: seq<Key>, token: Token)
    requires Inv(s) && token !in s.held
    ensures Inv(GrantLocal(s, keys, token).0)
  {
    FreeIsRoomy(s, keys);
    PurgeKeepsInv(s, keys);
    if Roomy(s, keys) {
      RoomyMayWrite(s, keys, token);
      var p := Purged(s, keys);
      AddAllWrites(p, keys, token, GrantLocal(s, keys, token).0);
      WriteKeepsInv(p, keys, token, GrantLocal(s, keys, token).0);
    }
  }

  lemma RenewLocalKeepsInv(s: Store, token: Token)
    requires Inv(s) && token in s.held
    ensures Inv(RenewLocal(s, s.held[token], token).0)
  {
    var keys := s.held[token];
    assert s.held[token := keys] == s.held;
    if InAll(s.table, keys, token) {
      AddAllWrites(s, keys, token, RenewLocal(s, keys, token).0);
      WriteKeepsInv(s, keys, token, RenewLocal(s, keys, token).0);
    }
  }

  lemma RenewRedisKeepsInv(s: Store, token: Token)
    requires Inv(s) && TtlOk(s) && token in s.held
    ensures Inv(RenewRedis(s, s.held[token], token).0) && TtlOk(RenewRedis(s, s.held[token], token).0)
  {
    var keys := s.held[token];
    assert s.held[token := keys] == s.held;
    if InAll(s.table, keys, token) {
      var r := RenewRedis(s, keys, token).0;
      AddAllWrites(s, keys, token, r);
      WriteKeepsInv(s, keys, token, r);
      WriteKeepsTtl(s, keys, token, s.now + RenewTtl(s.settings), r);
    }
  }

  lemma ReleaseKeepsTtl(s: Store, token: Token)
    requires TtlOk(s) && token in s.held
    ensures TtlOk(s.(table := RemoveAll(s.table, s.held[token], token)))
  {
    forall k ensures MembersOf(RemoveAll(s.table, s.held[token], token), k)
                  == if k in s.held[token] then MembersOf(s.table, k) - {token} else MembersOf(s.table, k) {
      RemoveAllAt(s.table, s.held[token], token, k);
    }
  }

  lemma StepRedisKeepsInv(s: Store, a: Action)
    requires RedisInv(s) && Enabled(s, a)
    ensures RedisInv(StepRedis(s, a).0)
  {
    match a
    case Acquiring(user, conversation, token) => GrantRedisKeepsInv(s, Keys(user, conversation), token);
    case Renewing(token) => RenewRedisKeepsInv(s, token);
    case Releasing(token) =>
      ReleaseKeepsInv(s, token);
      ReleaseKeepsTtl(s, token);
    case Waiting(to) => WaitKeepsInv(s, to);
  }

  lemma StepLocalKeepsInv(s: Store, a: Action)
    requires Inv(s) && Enabled(s, a)
    ensures Inv(StepLocal(s, a).0)
  {
    match a
    case Acquiring(user, conversation, token) => GrantLocalKeepsInv(s, Keys(user, conversation), token);
    case Renewing(token) => RenewLocalKeepsInv(s, token);
    case Releasing(token) => ReleaseKeepsInv(s, token);
    case Waiting(to) => LaterKeepsInv(s, to);
  }

  // ---------- whole runs ----------

  function NoLeases(settings: Settings, now: int): Store {
    Store(settings, now, map[], map[], map[])
  }

  /** The final store and the answers, if every action was possible when its turn came. */
  function RunRedis(s: Store, actions: seq<Action>): Option<(Store, seq<bool>)>
    decreases |actions|
  {
    if actions == [] then Some((s, []))
    else if !Enabled(s, actions[0]) then None
    else
      var (next, answer) := StepRedis(s, actions[0]);
      match RunRedis(next, actions[1..])
      case Some((last, answers)) => Some((last, [answer] + answers))
      case None => None
  }

  function RunLocal(s: Store, actions: seq<Action>): Option<(Store, seq<bool>)>
    decreases |actions|
  {
    if actions == [] then Some((s, []))
    else if !Enabled(s, actions[0]) then None
    else
      var (next, answer) := StepLocal(s, actions[0]);
      match RunLocal(next, actions[1..])
      case Some((last, answers)) => Some((last, [answer] + answers))
      case None => None
  }

  lemma {:induction false} RedisRunKeepsInv(s: Store, actions: seq<Action>)
    requires RedisInv(s) && RunRedis(s, actions).Some?
    ensures RedisInv(RunRedis(s, actions).value.0)
    decreases |actions|
  {
    if actions != [] {
      StepRedisKeepsInv(s, actions[0]);
      RedisRunKeepsInv(StepRedis(s, actions[0]).0, actions[1..]);
    }
  }

  /** After any interleaving of acquires, renewals, releases, purges and key expiries: no key holds
      more than its limit, expired members included; an unexpired lease is in all of its keys with one
      deadline or in none; the expiry of a key lies behind every deadline in it. */
  lemma CapacityHolds(settings: Settings, start: int, actions: seq<Action>, s: Store)
    requires RunRedis(NoLeases(settings, start), actions).Some? && s == RunRedis(NoLeases(settings, start), actions).value.0
    ensures forall k :: |MembersOf(s.table, k)| <= Limit(s.settings, k)
    ensures forall t, k1, k2 :: t in s.held && k1 in s.held[t] && k2 in s.held[t] ==> SameEntry(s, t, k1, k2)
    ensures forall k, t {:trigger t in MembersOf(s.table, k)} ::
              t in MembersOf(s.table, k) ==> k in s.ttl && MembersOf(s.table, k)[t] < s.ttl[k]
  {
    RedisRunKeepsInv(NoLeases(settings, start), actions);
  }

  lemma {:induction false} LocalRunKeepsInv(s: Store, actions: seq<Action>)
    requires Inv(s) && RunLocal(s, actions).Some?
    ensures Inv(RunLocal(s, actions).value.0)
    decreases |actions|
  {
    if actions != [] {
      StepLocalKeepsInv(s, actions[0]);
      LocalRunKeepsInv(StepLocal(s, actions[0]).0, actions[1..]);
    }
  }

  /** The same for the dictionary, late renewals included: no key holds more than its limit, and an
      unexpired lease is in all of its keys with one deadline or in none. */
  lemma LocalCapacityHolds(settings: Settings, start: int, actions: seq<Action>, s: Store)
    requires RunLocal(NoLeases(settings, start), actions).Some? && s == RunLocal(NoLeases(settings, start), actions).value.0
    ensures forall k :: |MembersOf(s.table, k)| <= Limit(s.settings, k)
    ensures forall t, k1, k2 :: t in s.held && k1 in s.held[t] && k2 in s.held[t] ==> SameEntry(s, t, k1, k2)
  {
    LocalRunKeepsInv(NoLeases(settings, start), actions);
  }

  // ---------- the local fallback is the same semaphore ----------

  /** The same unexpired members in every key. */
  ghost predicate Agree(r: Store, l: Store) {
    && r.settings == l.settings && r.now == l.now && r.held == l.held
    && forall k :: Live(r.table, k, r.now) == Live(l.table, k, l.now)
  }

  lemma PurgeLeavesLive(s: Store, keys: seq<Key>, k: Key)
    ensures Live(Purged(s, keys).table, k, s.now) == Live(s.table, k, s.now)
  {
    PurgeAt(s.table, keys, s.now, k);
  }

  lemma StampAddsLive(s: Store, keys: seq<Key>, token: Token, k: Key)
    ensures Live(Stamped(s, keys, token).table, k, s.now)
         == if k in keys then Live(s.table, k, s.now)[token := s.now + LeaseMs(s.settings)] else Live(s.table, k, s.now)
  {
    AddAllAt(s.table, keys, token, s.now + LeaseMs(s.settings), k);
  }

  lemma AgreeOnBlocked(r: Store, l: Store, keys: seq<Key>)
    requires Agree(r, l)
    ensures Blocked(r, keys) == Blocked(l, keys)
  {
    assert Counts(r.table, keys, r.now) == Counts(l.table, keys, l.now);
  }

  lemma GrantedAgree(r: Store, l: Store, keys: seq<Key>, token: Token)
    requires Agree(r, l)
    ensures Agree(Granted(r, keys, token), Granted(l, keys, token))
  {
    forall k ensures Live(Granted(r, keys, token).table, k, r.now) == Live(Granted(l, keys, token).table, k, l.now) {
      PurgeLeavesLive(r, keys, k);
      PurgeLeavesLive(l, keys, k);
      StampAddsLive(Purged(r, keys), keys, token, k);
      StampAddsLive(Purged(l, keys), keys, token, k);
    }
  }

  lemma PurgedAgree(r: Store, l: Store, some: seq<Key>, all: seq<Key>)
    requires Agree(r, l)
    ensures Agree(Purged(r, some), Purged(l, all))
  {
    forall k ensures Live(Purged(r, some).table, k, r.now) == Live(Purged(l, all).table, k, l.now) {
      PurgeLeavesLive(r, some, k);
      PurgeLeavesLive(l, all, k);
    }
  }

  /** The fallback grants exactly when the script answers 0, and both agree afterwards, also after a
      refusal, where they have purged different keys. */
  lemma AcquireAgrees(r: Store, l: Store, keys: seq<Key>, token: Token)
    requires Agree(r, l)
    ensures GrantRedis(r, keys, token).1 == GrantLocal(l, keys, token).1 == (Blocked(r, keys) == 0)
    ensures Agree(GrantRedis(r, keys, token).0, GrantLocal(l, keys, token).0)
  {
    AgreeOnBlocked(r, l, keys);
    if Blocked(r, keys) == 0 {
      GrantedAgree(r, l, keys, token);
    } else {
      PurgedAgree(r, l, keys[..Blocked(r, keys)], keys);
    }
  }

  /** Some key still holds the lease before its deadline. */
  predicate Unlapsed(s: Store, token: Token)
    requires token in s.held
  {
    exists k :: k in s.held[token] && token in Live(s.table, k, s.now)
  }

  lemma UnlapsedInAll(s: Store, token: Token)
    requires AllOrNothing(s) && token in s.held && Unlapsed(s, token)
    ensures InAll(s.table, s.held[token], token)
  {
    var k1 :| k1 in s.held[token] && token in Live(s.table, k1, s.now);
    forall k2 | k2 in s.held[token] ensures token in MembersOf(s.table, k2) {
      assert SameEntry(s, token, k1, k2);
    }
  }

  /** Redis has dropped the whole key by its own expiry, and nobody has written to it since. */
  predicate Dropped(r: Store, k: Key) {
    k in r.ttl && r.ttl[k] <= r.now && k !in r.table
  }

  /** The backends differ on a lapsed lease only where Redis has dropped one of its keys. Every lease
      and every acquire begins with the global key, so that both purge it there together. */
  ghost predicate Shared(r: Store, l: Store, t: Token)
    requires t in r.held && r.held == l.held
  {
    && r.held[t] != [] && r.held[t][0] == Global
    && (t in MembersOf(r.table, Global) ==> InAll(l.table, l.held[t], t))
    && (InAll(l.table, l.held[t], t) ==> forall k :: k in r.held[t] ==> t in MembersOf(r.table, k) || Dropped(r, k))
  }

  /** What two backends that have answered alike have in common. */
  ghost predicate Alike(r: Store, l: Store) {
    && Agree(r, l) && RedisInv(r) && Inv(l)
    && forall t :: t in r.held ==> Shared(r, l, t)
  }

  /** Redis has dropped a key of the lease, and the dictionary still holds it in all of its keys. */
  predicate Diverges(r: Store, l: Store, token: Token)
    requires token in r.held
  {
    InAll(l.table, r.held[token], token) && exists k :: k in r.held[token] && Dropped(r, k)
  }

  /** Exactly then the two answers to a renewal differ: the script refuses, the dictionary renews. */
  lemma RenewDiffersIff(r: Store, l: Store, token: Token)
    requires Alike(r, l) && token in r.held
    ensures RenewRedis(r, r.held[token], token).1 != RenewLocal(l, l.held[token], token).1 <==> Diverges(r, l, token)
    ensures Diverges(r, l, token) ==> !RenewRedis(r, r.held[token], token).1 && RenewLocal(l, l.held[token], token).1
  {
    assert Shared(r, l, token) && Global in r.held[token];
    if Diverges(r, l, token) {
      var k :| k in r.held[token] && Dropped(r, k);
      assert token !in MembersOf(r.table, k);
    }
  }

  /** A lease that is renewed before it lapses never diverges. */
  lemma UnlapsedConverges(r: Store, l: Store, token: Token)
    requires Alike(r, l) && token in r.held && Unlapsed(r, token)
    ensures !Diverges(r, l, token) && RenewRedis(r, r.held[token], token).1
  {
    UnlapsedInAll(r, token);
    assert forall k :: k in r.held[token] ==> token in MembersOf(r.table, k);
  }

  lemma RenewAgrees(r: Store, l: Store, token: Token)
    requires Agree(r, l) && token in r.held
    requires RenewRedis(r, r.held[token], token).1 == RenewLocal(l, l.held[token], token).1
    ensures Agree(RenewRedis(r, r.held[token], token).0, RenewLocal(l, l.held[token], token).0)
  {
    var r', l' := RenewRedis(r, r.held[token], token).0, RenewLocal(l, l.held[token], token).0;
    forall k ensures Live(r'.table, k, r.now) == Live(l'.table, k, l.now) {
      StampAddsLive(r, r.held[token], token, k);
      StampAddsLive(l, l.held[token], token, k);
    }
  }

  lemma ReleaseAgrees(r: Store, l: Store, token: Token)
    requires Agree(r, l) && token in r.held
    ensures Agree(r.(table := RemoveAll(r.table, r.held[token], token)), l.(table := RemoveAll(l.table, l.held[token], token)))
  {
    forall k ensures Live(RemoveAll(r.table, r.held[token], token), k, r.now)
                  == Live(RemoveAll(l.table, l.held[token], token), k, l.now) {
      RemoveAllAt(r.table, r.held[token], token, k);
      RemoveAllAt(l.table, l.held[token], token, k);
      assert Live(r.table, k, r.now) == Live(l.table, k, l.now);
      assert Unexpired(MembersOf(r.table, k) - {token}, r.now) == Live(r.table, k, r.now) - {token};
      assert Unexpired(MembersOf(l.table, k) - {token}, l.now) == Live(l.table, k, l.now) - {token};
    }
  }

  lemma WaitAgrees(r: Store, l: Store, to: int)
    requires Agree(r, l) && TtlOk(r) && r.now <= to
    ensures Agree(WaitRedis(r, to), l.(now := to))
  {
    forall k ensures Live(WaitRedis(r, to).table, k, to) == Live(l.table, k, to) {
      TtlDropsOnlyExpired(r, to, k);
      assert Live(r.table, k, r.now) == Live(l.table, k, l.now);
      assert Unexpired(MembersOf(r.table, k), to) == Unexpired(Live(r.table, k, r.now), to);
      assert Unexpired(MembersOf(l.table, k), to) == Unexpired(Live(l.table, k, l.now), to);
    }
  }

  // ---------- what is shared stays shared ----------

  /** All members of the global key are unexpired, as after every acquire. */
  predicate GlobalIsPurged(s: Store) {
    MembersOf(s.table, Global) == Live(s.table, Global, s.now)
  }

  lemma PurgedIsShared(r: Store, l: Store, t: Token)
    requires Agree(r, l) && AllOrNothing(r) && AllOrNothing(l) && GlobalIsPurged(r) && GlobalIsPurged(l)
    requires t in r.held && r.held[t] != [] && r.held[t][0] == Global
    ensures Shared(r, l, t)
  {
    assert Live(r.table, Global, r.now) == Live(l.table, Global, l.now) && Global in r.held[t];
    if t in Live(r.table, Global, r.now) {
      UnlapsedInAll(r, t);
      UnlapsedInAll(l, t);
    }
  }

  lemma PurgePurgesGlobal(s: Store, keys: seq<Key>)
    requires Global in keys
    ensures GlobalIsPurged(Purged(s, keys))
  {
    PurgeAt(s.table, keys, s.now, Global);
    assert Unexpired(Live(s.table, Global, s.now), s.now) == Live(s.table, Global, s.now);
  }

  lemma StampKeepsPurged(s: Store, keys: seq<Key>, token: Token)
    requires Global in keys && GlobalIsPurged(s)
    ensures GlobalIsPurged(Stamped(s, keys, token))
  {
    AddAllAt(s.table, keys, token, s.now + LeaseMs(s.settings), Global);
    StampAddsLive(s, keys, token, Global);
  }

  lemma GrantedPurgesGlobal(s: Store, keys: seq<Key>, token: Token)
    requires Global in keys
    ensures GlobalIsPurged(Granted(s, keys, token))
  {
    PurgePurgesGlobal(s, keys);
    StampKeepsPurged(Purged(s, keys), keys, token);
  }

  lemma GrantPurgesGlobal(s: Store, keys: seq<Key>, token: Token)
    requires keys != [] && keys[0] == Global
    ensures GlobalIsPurged(GrantRedis(s, keys, token).0) && GlobalIsPurged(GrantLocal(s, keys, token).0)
  {
    if Blocked(s, keys) == 0 {
      GrantedPurgesGlobal(s, keys, token);
    } else {
      assert keys[..Blocked(s, keys)][0] == Global;
      PurgePurgesGlobal(s, keys[..Blocked(s, keys)]);
      PurgePurgesGlobal(s, keys);
    }
  }

  lemma AcquireShares(r: Store, l: Store, keys: seq<Key>, token: Token)
    requires Alike(r, l) && token !in r.held && keys != [] && keys[0] == Global
    ensures Alike(GrantRedis(r, keys, token).0, GrantLocal(l, keys, token).0)
  {
    var r', l' := GrantRedis(r, keys, token).0, GrantLocal(l, keys, token).0;
    AcquireAgrees(r, l, keys, token);
    GrantRedisKeepsInv(r, keys, token);
    GrantLocalKeepsInv(l, keys, token);
    GrantPurgesGlobal(r, keys, token);
    GrantPurgesGlobal(l, keys, token);
    forall t | t in r'.held ensures Shared(r', l', t) {
      assert t in r.held ==> Shared(r, l, t);
      PurgedIsShared(r', l', t);
    }
  }

  lemma {:induction false} AddAllCreates(table: Table, keys: seq<Key>, token: Token, deadline: int, k: Key)
    requires k !in table && k !in keys
    ensures k !in AddAll(table, keys, token, deadline)
  {
    if keys != [] {
      assert keys == keys[..|keys| - 1] + [keys[|keys| - 1]];
      AddAllCreates(table, keys[..|keys| - 1], token, deadline, k);
    }
  }

  /** Renewing one lease leaves the keys that Redis has dropped as they are. */
  lemma DroppedStays(r: Store, token: Token, k: Key)
    requires token in r.held && InAll(r.table, r.held[token], token) && Dropped(r, k)
    ensures Dropped(RenewRedis(r, r.held[token], token).0, k)
  {
    var keys := r.held[token];
    assert k !in keys;
    WithTtlAt(r.ttl, keys, r.now + RenewTtl(r.settings), k);
    AddAllCreates(r.table, keys, token, r.now + LeaseMs(r.settings), k);
  }

  /** Both have rewritten the deadlines of `token`, which was in all of its keys. */
  lemma RenewedShares(r: Store, l: Store, token: Token, r': Store, l': Store, t: Token)
    requires token in r.held && r.held == l.held && t in r.held && Shared(r, l, t)
    requires InAll(r.table, r.held[token], token) && InAll(l.table, l.held[token], token)
    requires Written(r, r.held[token], token, r') && Written(l, l.held[token], token, l')
    requires forall k :: Dropped(r, k) ==> Dropped(r', k)
    ensures r'.held == r.held && l'.held == l.held && Shared(r', l', t)
  {
    assert r'.held == r.held && l'.held == l.held;
    forall k ensures t in MembersOf(r'.table, k) <==> t in MembersOf(r.table, k) {
    }
    forall k ensures t in MembersOf(l'.table, k) <==> t in MembersOf(l.table, k) {
    }
  }

  lemma RenewedAlike(r: Store, l: Store, token: Token, t: Token)
    requires token in r.held && r.held == l.held && t in r.held && Shared(r, l, t)
    requires InAll(r.table, r.held[token], token) && InAll(l.table, l.held[token], token)
    ensures var r', l' := RenewRedis(r, r.held[token], token).0, RenewLocal(l, l.held[token], token).0;
            r'.held == r.held && l'.held == l.held && Shared(r', l', t)
  {
    var keys := r.held[token];
    assert r.held[token := keys] == r.held;
    var r', l' := RenewRedis(r, keys, token).0, RenewLocal(l, keys, token).0;
    AddAllWrites(r, keys, token, r');
    AddAllWrites(l, keys, token, l');
    forall k | Dropped(r, k) ensures Dropped(r', k) {
      DroppedStays(r, token, k);
    }
    RenewedShares(r, l, token, r', l', t);
  }

  lemma RenewShares(r: Store, l: Store, token: Token)
    requires Alike(r, l) && token in r.held && !Diverges(r, l, token)
    ensures Alike(RenewRedis(r, r.held[token], token).0, RenewLocal(l, l.held[token], token).0)
  {
    RenewDiffersIff(r, l, token);
    RenewAgrees(r, l, token);
    RenewRedisKeepsInv(r, token);
    RenewLocalKeepsInv(l, token);
    if InAll(r.table, r.held[token], token) {
      forall t | t in r.held
        ensures Shared(RenewRedis(r, r.held[token], token).0, RenewLocal(l, l.held[token], token).0, t)
      {
        RenewedAlike(r, l, token, t);
      }
    }
  }

  lemma {:induction false} RemoveAllCreatesNone(table: Table, keys: seq<Key>, token: Token, k: Key)
    requires k !in table
    ensures k !in RemoveAll(table, keys, token)
  {
    if keys != [] {
      RemoveAllCreatesNone(table, keys[..|keys| - 1], token, k);
    }
  }

  lemma ReleasedShares(r: Store, l: Store, token: Token, t: Token)
    requires token in r.held && r.held == l.held && t in r.held && Shared(r, l, t)
    ensures Shared(r.(table := RemoveAll(r.table, r.held[token], token)),
                   l.(table := RemoveAll(l.table, l.held[token], token)), t)
  {
    var r' := r.(table := RemoveAll(r.table, r.held[token], token));
    forall k | k in r.held[t]
      ensures t in MembersOf(r'.table, k) <==> t in MembersOf(r.table, k) && (t != token || k !in r.held[token])
      ensures Dropped(r, k) ==> Dropped(r', k)
    {
      RemoveAllAt(r.table, r.held[token], token, k);
      if k !in r.table {
        RemoveAllCreatesNone(r.table, r.held[token], token, k);
      }
    }
    forall k ensures MembersOf(RemoveAll(l.table, l.held[token], token), k)
                  == if k in l.held[token] then MembersOf(l.table, k) - {token} else MembersOf(l.table, k) {
      RemoveAllAt(l.table, l.held[token], token, k);
    }
    assert Global in r.held[t];
  }

  lemma ReleaseShares(r: Store, l: Store, token: Token)
    requires Alike(r, l) && token in r.held
    ensures Alike(r.(table := RemoveAll(r.table, r.held[token], token)), l.(table := RemoveAll(l.table, l.held[token], token)))
  {
    ReleaseAgrees(r, l, token);
    ReleaseKeepsInv(r, token);
    ReleaseKeepsTtl(r, token);
    ReleaseKeepsInv(l, token);
    forall t | t in r.held
      ensures Shared(r.(table := RemoveAll(r.table, r.held[token], token)),
                     l.(table := RemoveAll(l.table, l.held[token], token)), t)
    {
      ReleasedShares(r, l, token, t);
    }
  }

  lemma WaitShares(r: Store, l: Store, to: int)
    requires Alike(r, l) && r.now <= to
    ensures Alike(WaitRedis(r, to), l.(now := to))
  {
    WaitAgrees(r, l, to);
    WaitKeepsInv(r, to);
    LaterKeepsInv(l, to);
    forall t | t in r.held ensures Shared(WaitRedis(r, to), l.(now := to), t) {
      assert Shared(r, l, t);
    }
  }

  /** One action of both backends: they answer alike, and stay alike, exactly when it is no diverging
      renewal. */
  lemma StepAgrees(r: Store, l: Store, a: Action)
    requires Alike(r, l) && Enabled(r, a)
    ensures Enabled(l, a)
    ensures StepRedis(r, a).1 == StepLocal(l, a).1 <==> !(a.Renewing? && Diverges(r, l, a.token))
    ensures StepRedis(r, a).1 == StepLocal(l, a).1 ==> Alike(StepRedis(r, a).0, StepLocal(l, a).0)
  {
    match a
    case Acquiring(user, conversation, token) =>
      AcquireAgrees(r, l, Keys(user, conversation), token);
      AcquireShares(r, l, Keys(user, conversation), token);
    case Renewing(token) =>
      RenewDiffersIff(r, l, token);
      if !Diverges(r, l, token) {
        RenewShares(r, l, token);
      }
    case Releasing(token) => ReleaseShares(r, l, token);
    case Waiting(to) => WaitShares(r, l, to);
  }

  /** No renewal of the run diverges. */
  predicate Converges(r: Store, l: Store, actions: seq<Action>)
    decreases |actions|
  {
    actions != [] ==>
      && Enabled(r, actions[0]) && Enabled(l, actions[0])
      && !(actions[0].Renewing? && Diverges(r, l, actions[0].token))
      && Converges(StepRedis(r, actions[0]).0, StepLocal(l, actions[0]).0, actions[1..])
  }

  /** Along every run of Redis, the fallback gives the same answers exactly when no renewal diverges. */
  lemma {:induction false} FallbackRefinesScript(r: Store, l: Store, actions: seq<Action>)
    requires Alike(r, l) && RunRedis(r, actions).Some?
    ensures RunLocal(l, actions).Some? && RunLocal(l, actions).value.1 == RunRedis(r, actions).value.1
       <==> Converges(r, l, actions)
    ensures Converges(r, l, actions) ==> Agree(RunRedis(r, actions).value.0, RunLocal(l, actions).value.0)
    decreases |actions|
  {
    if actions != [] {
      var a := actions[0];
      StepAgrees(r, l, a);
      if StepRedis(r, a).1 == StepLocal(l, a).1 {
        FallbackRefinesScript(StepRedis(r, a).0, StepLocal(l, a).0, actions[1..]);
        SameTail(r, l, actions);
      } else if RunLocal(l, actions).Some? {
        assert RunLocal(l, actions).value.1[0] != RunRedis(r, actions).value.1[0];
      }
    }
  }

  /** From no leases at all, the two backends answer alike exactly as long as no renewal diverges. */
  lemma BackendsAgreeIff(settings: Settings, start: int, actions: seq<Action>)
    requires RunRedis(NoLeases(settings, start), actions).Some?
    ensures var r, l := RunRedis(NoLeases(settings, start), actions), RunLocal(NoLeases(settings, start), actions);
            l.Some? && l.value.1 == r.value.1 <==> Converges(NoLeases(settings, start), NoLeases(settings, start), actions)
  {
    FallbackRefinesScript(NoLeases(settings, start), NoLeases(settings, start), actions);
  }

  /** With equal first answers, the runs answer alike exactly when the rest does. */
  lemma SameTail(r: Store, l: Store, actions: seq<Action>)
    requires actions != [] && RunRedis(r, actions).Some? && Enabled(l, actions[0])
    requires StepRedis(r, actions[0]).1 == StepLocal(l, actions[0]).1
    ensures var r', l' := RunRedis(StepRedis(r, actions[0]).0, actions[1..]), RunLocal(StepLocal(l, actions[0]).0, actions[1..]);
            && (RunLocal(l, actions).Some? <==> l'.Some?) && r'.Some?
            && RunRedis(r, actions).value.0 == r'.value.0
            && (l'.Some? ==>
                  && RunLocal(l, actions).value.0 == l'.value.0
                  && (RunLocal(l, actions).value.1 == RunRedis(r, actions).value.1 <==> l'.value.1 == r'.value.1))
  {
    var r', l' := RunRedis(StepRedis(r, actions[0]).0, actions[1..]), RunLocal(StepLocal(l, actions[0]).0, actions[1..]);
    if l'.Some? {
      var answer := StepRedis(r, actions[0]).1;
      assert RunRedis(r, actions).value.1 == [answer] + r'.value.1 && RunLocal(l, actions).value.1 == [answer] + l'.value.1;
      assert ([answer] + r'.value.1)[1..] == r'.value.1 && ([answer] + l'.value.1)[1..] == l'.value.1;
    }
  }

  lemma EmptyIsUnblocked(s: Store, keys: seq<Key>)
    requires s.table == map[]
    ensures Blocked(s, keys) == 0
  {
    assert forall k :: Live(s.table, k, s.now) == map[];
    FreeIsRoomy(s, keys);
  }

  lemma FirstGrantAt(s: Store, keys: seq<Key>, token: Token, k: Key)
    requires s.table == map[] && k in keys
    ensures token in MembersOf(Granted(s, keys, token).table, k)
  {
    AddAllAt(Purged(s, keys).table, keys, token, s.now + LeaseMs(s.settings), k);
  }

  /** A late renewal is where they differ: once the keys' own expiry has passed Redis has dropped the
      lease, while the fallback revives it. */
  lemma LateRenewalDiffers(s: Store, keys: seq<Key>, token: Token, to: int)
    requires s == NoLeases(s.settings, s.now) && keys != [] && to >= s.now + AcquireTtl(s.settings)
    ensures GrantRedis(s, keys, token).1 && GrantLocal(s, keys, token).1
    ensures !RenewRedis(WaitRedis(GrantRedis(s, keys, token).0, to), keys, token).1
    ensures RenewLocal(GrantLocal(s, keys, token).0.(now := to), keys, token).1
  {
    EmptyIsUnblocked(s, keys);
    forall k | k in keys ensures token in MembersOf(Granted(s, keys, token).table, k) {
      FirstGrantAt(s, keys, token, k);
    }
    var r := GrantRedis(s, keys, token).0;
    WithTtlAt(s.ttl, keys, s.now + AcquireTtl(s.settings), keys[0]);
    assert keys[0] !in WaitRedis(r, to).table;
    assert keys[0] in keys && token !in MembersOf(WaitRedis(r, to).table, keys[0]);
  }
}
