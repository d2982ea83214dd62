/** The two backends of the chat capacity: scripts over sorted sets, and a guarded dictionary. */
module CapacityBackends {
  import opened Wrappers
  import opened Capacity

  /** The keys of a lease and their limits, in the order in which they are checked. */
  method KeysAndLimits(s: Settings, user: nat, conversation: Option<nat>) returns (keys: seq<Key>, limits: seq<nat>)
    ensures keys == Keys(user, conversation) && limits == Limits(s, keys)
    ensures |keys| == |limits| == if conversation.Some? then 3 else 2
    ensures keys[0] == Global && limits[0] == if s.globalConcurrency > 1 then s.globalConcurrency else 1
    ensures keys[1] == OfUser(user) && limits[1] == if s.userConcurrency > 1 then s.userConcurrency else 1
    ensures conversation.Some? ==> keys[2] == OfConversation(user, conversation.value) && limits[2] == 1
  {
    keys := [Global, OfUser(user)];
    limits := [AtLeastOne(s.globalConcurrency), AtLeastOne(s.userConcurrency)];
    if conversation.Some? {
      keys := keys + [OfConversation(user, conversation.value)];
      limits := limits + [1];
    }
  }

  class RedisCapacity {
    const settings: Settings
    var now: int
    var table: Table
    var ttl: map<Key, int>
    ghost var held: map<Token, seq<Key>>

    ghost function View(): Store
      reads this
    {
      Store(settings, now, table, ttl, held)
    }

    constructor (settings: Settings, now: int)
      ensures View() == NoLeases(settings, now)
    {
      this.settings, this.now, table, ttl, held := settings, now, map[], map[], map[];
    }

    /** `ZREMRANGEBYSCORE key -inf now`: what is left of the key are its unexpired members. */
    method PurgeKey(ghost before: Store, keys: seq<Key>, i: nat)
      requires i < |keys| && View() == Purged(before, keys[..i])
      modifies this`table
      ensures View() == Purged(before, keys[..i + 1])
      ensures MembersOf(table, keys[i]) == Live(before.table, keys[i], now)
    {
      PurgeNext(before, keys, i);
      table := Put(table, keys[i], Live(table, keys[i], now));
    }

    /** Purges and counts key by key and stops behind the first full one. */
    method PurgeAndCount(keys: seq<Key>, limits: seq<nat>) returns (code: nat)
      requires limits == Limits(settings, keys)
      modifies this`table
      ensures code == Blocked(old(View()), keys)
      ensures View() == Purged(old(View()), if code == 0 then keys else keys[..code])
    {
      ghost var before := View();
      for i := 0 to |keys|
        invariant View() == Purged(before, keys[..i]) && RoomUpTo(before, keys, i)
      {
        PurgeKey(before, keys, i);
        if |MembersOf(table, keys[i])| >= limits[i] {
          FirstFullAt(before, keys, i);
          return i + 1;
        }
      }
      assert keys[..|keys|] == keys;
      FirstFullNone(before, keys);
      code := 0;
    }

    /** `ZADD` and `PEXPIRE` for every key. */
    method AddToAll(keys: seq<Key>, token: Token, expires: int, ttlAt: int)
      requires expires == now + LeaseMs(settings)
      modifies this`table, this`ttl
      ensures View() == Stamped(old(View()), keys, token).(ttl := WithTtl(old(ttl), keys, ttlAt))
    {
      for i := 0 to |keys|
        invariant table == AddAll(old(table), keys[..i], token, expires)
        invariant ttl == WithTtl(old(ttl), keys[..i], ttlAt)
      {
        assert keys[..i + 1][..i] == keys[..i];
        table := table[keys[i] := MembersOf(table, keys[i])[token := expires]];
        ttl := ttl[keys[i] := ttlAt];
      }
      assert keys[..|keys|] == keys;
    }

    /** The acquire script: nothing is added unless every key has room. */
    method AcquireScript(keys: seq<Key>, limits: seq<nat>, expires: int, token: Token) returns (code: nat)
      requires limits == Limits(settings, keys) && expires == now + LeaseMs(settings)
      modifies this`table, this`ttl
      ensures code == Blocked(old(View()), keys)
      ensures code == 0 ==> forall i :: 0 <= i < |keys| ==> |Live(old(table), keys[i], now)| < limits[i]
      ensures code != 0 ==>
                && code <= |keys| && |Live(old(table), keys[code - 1], now)| >= limits[code - 1]
                && forall i :: 0 <= i < code - 1 ==> |Live(old(table), keys[i], now)| < limits[i]
      ensures View() == GrantRedis(old(View()), keys, token).0.(held := held)
    {
      code := PurgeAndCount(keys, limits);
      BlockedAt(old(View()), keys, limits, code);
      if code == 0 {
        AddToAll(keys, token, expires, now + (if expires - now < 1000 then 1000 else expires - now) * 2);
      }
    }

    method AcquireChatSlot(user: nat, conversation: Option<nat>, token: Token) returns (granted: bool)
      requires token !in held
      modifies this
      ensures (View(), granted) == StepRedis(old(View()), Acquiring(user, conversation, token))
    {
      var keys, limits := KeysAndLimits(settings, user, conversation);
      var code := AcquireScript(keys, limits, now + LeaseMs(settings), token);
      granted := code == 0;
      if granted {
        held := held[token := keys];
      }
    }

    /** The renew script: first look whether every key still has the token, then rewrite all scores. */
    method RenewChatSlot(keys: seq<Key>, token: Token) returns (renewed: bool)
      requires token in held && held[token] == keys
      modifies this`table, this`ttl
      ensures (View(), renewed) == StepRedis(old(View()), Renewing(token))
    {
      for i := 0 to |keys|
        invariant InAll(table, keys[..i], token)
      {
        if token !in MembersOf(table, keys[i]) {
          return false;
        }
      }
      assert keys[..|keys|] == keys;
      AddToAll(keys, token, now + LeaseMs(settings), now + RenewTtl(settings));
      renewed := true;
    }

    method ReleaseChatSlot(keys: seq<Key>, token: Token)
      requires token in held && held[token] == keys
      modifies this`table
      ensures (View(), true) == StepRedis(old(View()), Releasing(token))
    {
      for i := 0 to |keys|
        invariant table == RemoveAll(old(table), keys[..i], token)
      {
        assert keys[..i + 1][..i] == keys[..i];
        table := Put(table, keys[i], MembersOf(table, keys[i]) - {token});
      }
      assert keys[..|keys|] == keys;
    }
  }

  ghost predicate RoomUpTo(s: Store, keys: seq<Key>, i: nat)
    requires i <= |keys|
  {
    forall j :: 0 <= j < i ==> |Live(s.table, keys[j], s.now)| < Limit(s.settings, keys[j])
  }

  lemma PurgeNext(s: Store, keys: seq<Key>, i: nat)
    requires i < |keys|
    ensures var t := Purge(s.table, keys[..i], s.now);
            Purge(s.table, keys[..i + 1], s.now) == Put(t, keys[i], Live(t, keys[i], s.now))
    ensures MembersOf(Purge(s.table, keys[..i + 1], s.now), keys[i]) == Live(s.table, keys[i], s.now)
  {
    assert keys[..i + 1][..i] == keys[..i] && keys[i] in keys[..i + 1];
    PurgeAt(s.table, keys[..i + 1], s.now, keys[i]);
  }

  lemma FirstFullAt(s: Store, keys: seq<Key>, i: nat)
    requires i < |keys| && |Live(s.table, keys[i], s.now)| >= Limit(s.settings, keys[i]) && RoomUpTo(s, keys, i)
    ensures Blocked(s, keys) == i + 1
  {
    var counts, limits := Counts(s.table, keys, s.now), Limits(s.settings, keys);
    assert counts[i] >= limits[i];
    var code := Blocked(s, keys);
    assert code != 0;
    assert counts[code - 1] >= limits[code - 1];
  }

  /** What the answer says about the unexpired members. */
  lemma BlockedAt(s: Store, keys: seq<Key>, limits: seq<nat>, code: nat)
    requires limits == Limits(s.settings, keys) && code == Blocked(s, keys)
    ensures code == 0 ==> forall i :: 0 <= i < |keys| ==> |Live(s.table, keys[i], s.now)| < limits[i]
    ensures code != 0 ==>
              && code <= |keys| && |Live(s.table, keys[code - 1], s.now)| >= limits[code - 1]
              && forall i :: 0 <= i < code - 1 ==> |Live(s.table, keys[i], s.now)| < limits[i]
  {
    var counts := Counts(s.table, keys, s.now);
    assert forall i :: 0 <= i < |keys| ==> counts[i] == |Live(s.table, keys[i], s.now)|;
  }

  lemma FirstFullNone(s: Store, keys: seq<Key>)
    requires RoomUpTo(s, keys, |keys|)
    ensures Blocked(s, keys) == 0
  {
    FreeIsRoomy(s, keys);
  }

  /** The dictionary of the fallback keeps keys without members until somebody releases a lease there. */
  class LocalSlots {
    const settings: Settings
    var now: int
    var slots: map<Key, Members>
    ghost var held: map<Token, seq<Key>>

    ghost function View(): Store
      reads this
    {
      Store(settings, now, NonEmpty(slots), map[], held)
    }

    constructor (settings: Settings, now: int)
      ensures View() == NoLeases(settings, now)
    {
      this.settings, this.now, slots, held := settings, now, map[], map[];
    }

    /** Purges every key of the lease, whether it is granted or not. */
    method PurgeStale(keys: seq<Key>)
      modifies this`slots
      ensures NonEmpty(slots) == Purge(old(NonEmpty(slots)), keys, now)
      ensures forall k :: k in keys ==> k in slots
    {
      for i := 0 to |keys|
        invariant NonEmpty(slots) == Purge(old(NonEmpty(slots)), keys[..i], now)
        invariant forall j :: 0 <= j < i ==> keys[j] in slots
      {
        assert keys[..i + 1][..i] == keys[..i];
        PutNonEmpty(slots, keys[i], Unexpired(MembersOf(slots, keys[i]), now));
        slots := slots[keys[i] := Unexpired(MembersOf(slots, keys[i]), now)];
      }
      assert keys[..|keys|] == keys;
    }

    method HasRoom(keys: seq<Key>, limits: seq<nat>) returns (room: bool)
      requires |limits| == |keys| && forall k :: k in keys ==> k in slots
      ensures room <==> forall i :: 0 <= i < |keys| ==> |slots[keys[i]]| < limits[i]
    {
      room := true;
      for i := 0 to |keys|
        invariant forall j :: 0 <= j < i ==> |slots[keys[j]]| < limits[j]
      {
        if |slots[keys[i]]| >= limits[i] {
          return false;
        }
      }
    }

    method AddToAll(keys: seq<Key>, token: Token, deadline: int)
      requires deadline == now + LeaseMs(settings) && forall k :: k in keys ==> k in slots
      modifies this`slots
      ensures View() == Stamped(old(View()), keys, token)
    {
      for i := 0 to |keys|
        invariant NonEmpty(slots) == AddAll(old(NonEmpty(slots)), keys[..i], token, deadline)
        invariant forall k :: k in keys ==> k in slots
      {
        assert keys[..i + 1][..i] == keys[..i];
        var members: Members := slots[keys[i]][token := deadline];
        assert token in members;
        PutNonEmpty(slots, keys[i], members);
        slots := slots[keys[i] := members];
      }
      assert keys[..|keys|] == keys;
    }

    /** Purge all, then look for a full key. */
    method PurgedRoom(keys: seq<Key>, limits: seq<nat>) returns (room: bool)
      requires limits == Limits(settings, keys)
      modifies this`slots
      ensures View() == Purged(old(View()), keys) && forall k :: k in keys ==> k in slots
      ensures room <==> Blocked(old(View()), keys) == 0
    {
      ghost var before := View();
      PurgeStale(keys);
      room := HasRoom(keys, limits);
      RoomAfterPurge(before, keys, slots);
    }

    method AcquireLocal(keys: seq<Key>, limits: seq<nat>, token: Token) returns (granted: bool)
      requires limits == Limits(settings, keys)
      modifies this`slots
      ensures granted <==> Blocked(old(View()), keys) == 0
      ensures granted <==> forall i :: 0 <= i < |keys| ==> |Live(NonEmpty(old(slots)), keys[i], now)| < limits[i]
      ensures View() == GrantLocal(old(View()), keys, token).0.(held := held)
    {
      var expires := now + LeaseMs(settings);
      granted := PurgedRoom(keys, limits);
      if granted {
        AddToAll(keys, token, expires);
      }
    }

    method AcquireChatSlot(user: nat, conversation: Option<nat>, token: Token) returns (granted: bool)
      requires token !in held
      modifies this
      ensures (View(), granted) == StepLocal(old(View()), Acquiring(user, conversation, token))
    {
      var keys, limits := KeysAndLimits(settings, user, conversation);
      granted := AcquireLocal(keys, limits, token);
      if granted {
        held := held[token := keys];
      }
    }

    method RenewChatSlot(keys: seq<Key>, token: Token) returns (renewed: bool)
      requires token in held && held[token] == keys
      modifies this`slots
      ensures (View(), renewed) == StepLocal(old(View()), Renewing(token))
    {
      for i := 0 to |keys|
        invariant forall j :: 0 <= j < i ==> keys[j] in slots && token in slots[keys[j]]
      {
        if token !in MembersOf(slots, keys[i]) {
          assert token !in MembersOf(NonEmpty(slots), keys[i]);
          return false;
        }
      }
      assert InAll(NonEmpty(slots), keys, token);
      AddToAll(keys, token, now + LeaseMs(settings));
      renewed := true;
    }

    method ReleaseChatSlot(keys: seq<Key>, token: Token)
      requires token in held && held[token] == keys
      modifies this`slots
      ensures (View(), true) == StepLocal(old(View()), Releasing(token))
    {
      for i := 0 to |keys|
        invariant NonEmpty(slots) == RemoveAll(old(NonEmpty(slots)), keys[..i], token)
      {
        assert keys[..i + 1][..i] == keys[..i];
        PutNonEmpty(slots, keys[i], MembersOf(slots, keys[i]) - {token});
        if keys[i] in slots {
          slots := slots[keys[i] := slots[keys[i]] - {token}];
          if slots[keys[i]] == map[] {
            slots := slots - {keys[i]};
          }
        }
      }
      assert keys[..|keys|] == keys;
    }
  }

  function NonEmpty(slots: map<Key, Members>): Table {
    map k | k in slots && slots[k] != map[] :: slots[k]
  }

  lemma PutNonEmpty(slots: map<Key, Members>, k: Key, m: Members)
    ensures NonEmpty(slots[k := m]) == Put(NonEmpty(slots), k, m)
    ensures m == map[] ==> NonEmpty(slots - {k}) == Put(NonEmpty(slots), k, m)
    ensures MembersOf(NonEmpty(slots), k) == MembersOf(slots, k)
  {
  }

  lemma RoomAfterPurge(s: Store, keys: seq<Key>, slots: map<Key, Members>)
    requires NonEmpty(slots) == Purge(s.table, keys, s.now) && forall k :: k in keys ==> k in slots
    ensures Blocked(s, keys) == 0 <==> forall i :: 0 <= i < |keys| ==> |slots[keys[i]]| < Limits(s.settings, keys)[i]
  {
    FreeIsRoomy(s, keys);
    forall i | 0 <= i < |keys| ensures slots[keys[i]] == Live(s.table, keys[i], s.now) && keys[i] in keys {
      PurgeAt(s.table, keys, s.now, keys[i]);
      PutNonEmpty(slots, keys[i], map[]);
    }
    if Blocked(s, keys) != 0 {
      var k :| k in keys && |Live(s.table, k, s.now)| >= Limit(s.settings, k);
      var i :| 0 <= i < |keys| && keys[i] == k;
      assert |slots[keys[i]]| >= Limits(s.settings, keys)[i];
    }
  }
}
