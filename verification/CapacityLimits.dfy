/** What the capacity leases are for: how many chats run at once, and for how long a lease counts. */
module CapacityLimits {
  import opened Wrappers
  import opened Capacity

  // ---------- how many leases count ----------

  /** Every lease begins with the global key and the key of its user. */
  ghost predicate HeldOk(s: Store) {
    forall t :: t in s.held ==> exists user, conversation :: s.held[t] == Keys(user, conversation)
  }

  /** The leases that still count in some key. */
  ghost function Counting(s: Store): set<Token> {
    set t | t in s.held && Unlapsed(s, t)
  }

  ghost function CountingIn(s: Store, k: Key): set<Token> {
    set t | t in s.held && Unlapsed(s, t) && k in s.held[t]
  }

  lemma CountingIsLive(s: Store, t: Token, k: Key)
    requires Inv(s) && t in s.held && Unlapsed(s, t) && k in s.held[t]
    ensures t in MembersOf(s.table, k)
  {
    UnlapsedInAll(s, t);
  }

  lemma CountingFits(s: Store, k: Key)
    requires Inv(s)
    ensures |CountingIn(s, k)| <= Limit(s.settings, k)
  {
    forall t | t in CountingIn(s, k) ensures t in MembersOf(s.table, k) {
      CountingIsLive(s, t, k);
    }
    SubsetSize(CountingIn(s, k), MembersOf(s.table, k).Keys);
  }

  lemma AllCountGlobally(s: Store)
    requires HeldOk(s)
    ensures Counting(s) == CountingIn(s, Global)
  {
    forall t | t in Counting(s) ensures Global in s.held[t] {
      var user, conversation :| s.held[t] == Keys(user, conversation);
      assert s.held[t][0] == Global;
    }
  }

  /** At most `max(1, chat_global_concurrency)` leases in all, `max(1, chat_user_concurrency)` of one user,
      and one of a conversation. */
  ghost predicate ChatsAreLimited(s: Store, settings: Settings) {
    && |Counting(s)| <= (if settings.globalConcurrency > 1 then settings.globalConcurrency else 1)
    && (forall user :: |CountingIn(s, OfUser(user))| <= if settings.userConcurrency > 1 then settings.userConcurrency else 1)
    && (forall user, conversation :: |CountingIn(s, OfConversation(user, conversation))| <= 1)
  }

  lemma InvLimitsChats(s: Store)
    requires Inv(s) && HeldOk(s)
    ensures ChatsAreLimited(s, s.settings)
  {
    AllCountGlobally(s);
    CountingFits(s, Global);
    forall user ensures |CountingIn(s, OfUser(user))| <= Limit(s.settings, OfUser(user)) {
      CountingFits(s, OfUser(user));
    }
    forall user, conversation ensures |CountingIn(s, OfConversation(user, conversation))| <= 1 {
      CountingFits(s, OfConversation(user, conversation));
    }
  }

  lemma StepKeepsHeld(s: Store, a: Action)
    requires HeldOk(s) && Enabled(s, a)
    ensures HeldOk(StepRedis(s, a).0) && StepRedis(s, a).0.settings == s.settings
    ensures HeldOk(StepLocal(s, a).0) && StepLocal(s, a).0.settings == s.settings
  {
  }

  lemma {:induction false} RedisRunIsLimited(s: Store, actions: seq<Action>)
    requires RedisInv(s) && HeldOk(s) && RunRedis(s, actions).Some?
    ensures ChatsAreLimited(RunRedis(s, actions).value.0, s.settings)
    decreases |actions|
  {
    if actions == [] {
      InvLimitsChats(s);
    } else {
      StepKeepsHeld(s, actions[0]);
      StepRedisKeepsInv(s, actions[0]);
      RedisRunIsLimited(StepRedis(s, actions[0]).0, actions[1..]);
    }
  }

  lemma {:induction false} LocalRunIsLimited(s: Store, actions: seq<Action>)
    requires Inv(s) && HeldOk(s) && RunLocal(s, actions).Some?
    ensures ChatsAreLimited(RunLocal(s, actions).value.0, s.settings)
    decreases |actions|
  {
    if actions == [] {
      InvLimitsChats(s);
    } else {
      StepKeepsHeld(s, actions[0]);
      StepLocalKeepsInv(s, actions[0]);
      LocalRunIsLimited(StepLocal(s, actions[0]).0, actions[1..]);
    }
  }

  /** After every interleaving, on Redis as on the dictionary. */
  lemma ConcurrencyIsLimited(settings: Settings, start: int, actions: seq<Action>)
    ensures var r := RunRedis(NoLeases(settings, start), actions);
            r.Some? ==> ChatsAreLimited(r.value.0, settings)
    ensures var l := RunLocal(NoLeases(settings, start), actions);
            l.Some? ==> ChatsAreLimited(l.value.0, settings)
  {
    if RunRedis(NoLeases(settings, start), actions).Some? {
      RedisRunIsLimited(NoLeases(settings, start), actions);
    }
    if RunLocal(NoLeases(settings, start), actions).Some? {
      LocalRunIsLimited(NoLeases(settings, start), actions);
    }
  }

  // ---------- how long a lease counts ----------

  /** The lease stands in all of its keys with this deadline, at least until then. */
  ghost predicate Standing(s: Store, keys: seq<Key>, token: Token, deadline: int) {
    && token in s.held && s.held[token] == keys
    && forall k :: k in keys ==>
         && (s.now < deadline ==> token in MembersOf(s.table, k))
         && (token in MembersOf(s.table, k) ==> MembersOf(s.table, k)[token] == deadline)
  }

  /** Neither renewed nor released. */
  predicate LeftAlone(actions: seq<Action>, token: Token) {
    forall i :: 0 <= i < |actions| ==> actions[i] != Renewing(token) && actions[i] != Releasing(token)
  }

  /** Every key of the lease holds what it held, but for expired members and other leases. */
  ghost predicate Untouched(s: Store, token: Token, s': Store)
    requires token in s.held
  {
    && token in s'.held && s'.held[token] == s.held[token] && s.now <= s'.now
    && forall k :: k in s.held[token] ==>
         && (token in Live(s.table, k, s'.now) ==> token in MembersOf(s'.table, k))
         && (token in MembersOf(s'.table, k) ==>
               token in MembersOf(s.table, k) && MembersOf(s'.table, k)[token] == MembersOf(s.table, k)[token])
  }

  lemma UntouchedStands(s: Store, keys: seq<Key>, token: Token, deadline: int, s': Store)
    requires Standing(s, keys, token, deadline) && Untouched(s, token, s')
    ensures Standing(s', keys, token, deadline)
  {
  }

  lemma PurgeLeavesAlone(s: Store, keys: seq<Key>, token: Token)
    requires token in s.held
    ensures Untouched(s, token, Purged(s, keys))
  {
    forall k ensures MembersOf(Purge(s.table, keys, s.now), k)
                  == if k in keys then Live(s.table, k, s.now) else MembersOf(s.table, k) {
      PurgeAt(s.table, keys, s.now, k);
    }
  }

  lemma StampLeavesAlone(s: Store, keys: seq<Key>, other: Token, token: Token)
    requires token in s.held && other != token
    ensures Untouched(s, token, Stamped(s, keys, other))
  {
    forall k ensures MembersOf(Stamped(s, keys, other).table, k)
         == if k in keys then MembersOf(s.table, k)[other := s.now + LeaseMs(s.settings)] else MembersOf(s.table, k) {
      AddAllAt(s.table, keys, other, s.now + LeaseMs(s.settings), k);
    }
  }

  lemma GrantLeavesAlone(s: Store, keys: seq<Key>, other: Token, token: Token)
    requires token in s.held && other != token
    ensures Untouched(s, token, Granted(s, keys, other))
  {
    PurgeLeavesAlone(s, keys, token);
    StampLeavesAlone(Purged(s, keys), keys, other, token);
    forall k | k in s.held[token] && token in Live(s.table, k, s.now)
      ensures token in MembersOf(Granted(s, keys, other).table, k)
    {
      assert token in MembersOf(Purged(s, keys).table, k);
      assert MembersOf(Purged(s, keys).table, k)[token] == MembersOf(s.table, k)[token];
      assert token in Live(Purged(s, keys).table, k, s.now);
    }
  }

  lemma ReleaseLeavesAlone(s: Store, other: Token, token: Token)
    requires token in s.held && other in s.held && other != token
    ensures Untouched(s, token, s.(table := RemoveAll(s.table, s.held[other], other)))
  {
    forall k ensures MembersOf(RemoveAll(s.table, s.held[other], other), k)
                  == if k in s.held[other] then MembersOf(s.table, k) - {other} else MembersOf(s.table, k) {
      RemoveAllAt(s.table, s.held[other], other, k);
    }
  }

  lemma WaitLeavesAlone(s: Store, to: int, token: Token)
    requires TtlOk(s) && s.now <= to && token in s.held
    ensures Untouched(s, token, WaitRedis(s, to))
  {
    forall k | k in s.held[token] && token in Live(s.table, k, to) ensures token in MembersOf(WaitRedis(s, to).table, k) {
      TtlDropsOnlyExpired(s, to, k);
    }
  }

  lemma StepRedisLeavesAlone(s: Store, a: Action, token: Token)
    requires RedisInv(s) && Enabled(s, a) && token in s.held && a != Renewing(token) && a != Releasing(token)
    ensures Untouched(s, token, StepRedis(s, a).0)
  {
    match a
    case Acquiring(user, conversation, other) =>
      var keys := Keys(user, conversation);
      GrantLeavesAlone(s, keys, other, token);
      PurgeLeavesAlone(s, keys[..Blocked(s, keys)], token);
    case Renewing(other) => StampLeavesAlone(s, s.held[other], other, token);
    case Releasing(other) => ReleaseLeavesAlone(s, other, token);
    case Waiting(to) => WaitLeavesAlone(s, to, token);
  }

  lemma StepLocalLeavesAlone(s: Store, a: Action, token: Token)
    requires Enabled(s, a) && token in s.held && a != Renewing(token) && a != Releasing(token)
    ensures Untouched(s, token, StepLocal(s, a).0)
  {
    match a
    case Acquiring(user, conversation, other) =>
      GrantLeavesAlone(s, Keys(user, conversation), other, token);
      PurgeLeavesAlone(s, Keys(user, conversation), token);
    case Renewing(other) => StampLeavesAlone(s, s.held[other], other, token);
    case Releasing(other) => ReleaseLeavesAlone(s, other, token);
    case Waiting(_) =>
  }

  lemma {:induction false} RedisRunLeavesAlone(s: Store, actions: seq<Action>, keys: seq<Key>, token: Token, deadline: int)
    requires RedisInv(s) && Standing(s, keys, token, deadline) && LeftAlone(actions, token) && RunRedis(s, actions).Some?
    ensures Standing(RunRedis(s, actions).value.0, keys, token, deadline)
    decreases |actions|
  {
    if actions != [] {
      var next := StepRedis(s, actions[0]).0;
      StepRedisLeavesAlone(s, actions[0], token);
      UntouchedStands(s, keys, token, deadline, next);
      StepRedisKeepsInv(s, actions[0]);
      RedisRunLeavesAlone(next, actions[1..], keys, token, deadline);
    }
  }

  lemma {:induction false} LocalRunLeavesAlone(s: Store, actions: seq<Action>, keys: seq<Key>, token: Token, deadline: int)
    requires Standing(s, keys, token, deadline) && LeftAlone(actions, token) && RunLocal(s, actions).Some?
    ensures Standing(RunLocal(s, actions).value.0, keys, token, deadline)
    decreases |actions|
  {
    if actions != [] {
      var next := StepLocal(s, actions[0]).0;
      StepLocalLeavesAlone(s, actions[0], token);
      UntouchedStands(s, keys, token, deadline, next);
      LocalRunLeavesAlone(next, actions[1..], keys, token, deadline);
    }
  }

  /** The moment up to which a lease granted or renewed now counts: `max(1, chat_slot_lease_seconds)`. */
  function Deadline(s: Store): int {
    s.now + (if s.settings.leaseSeconds > 1 then s.settings.leaseSeconds * 1000 else 1000)
  }

  lemma StampStands(s: Store, keys: seq<Key>, token: Token, s': Store)
    requires token in s'.held && s'.held[token] == keys && s'.now == s.now
    requires s'.table == AddAll(s.table, keys, token, s.now + LeaseMs(s.settings))
    ensures Standing(s', keys, token, Deadline(s))
  {
    forall k | k in keys ensures MembersOf(s'.table, k) == MembersOf(s.table, k)[token := Deadline(s)] {
      AddAllAt(s.table, keys, token, Deadline(s), k);
    }
  }

  /** The lease that the action asks for or renews. */
  predicate AsksFor(a: Action, token: Token) {
    (a.Acquiring? || a.Renewing?) && a.token == token
  }

  lemma GrantStands(s: Store, keys: seq<Key>, token: Token, s': Store)
    requires s' == Granted(s, keys, token).(ttl := s'.ttl)
    ensures token in s'.held && s'.held[token] == keys && Standing(s', keys, token, Deadline(s))
  {
    StampStands(Purged(s, keys), keys, token, s');
  }

  lemma RenewalStands(s: Store, token: Token, s': Store)
    requires token in s.held && s' == Stamped(s, s.held[token], token).(ttl := s'.ttl)
    ensures token in s'.held && s'.held[token] == s.held[token] && Standing(s', s.held[token], token, Deadline(s))
  {
    StampStands(s, s.held[token], token, s');
  }

  lemma RedisStands(s: Store, a: Action, token: Token)
    requires Enabled(s, a) && AsksFor(a, token) && StepRedis(s, a).1
    ensures token in StepRedis(s, a).0.held
    ensures Standing(StepRedis(s, a).0, StepRedis(s, a).0.held[token], token, Deadline(s))
  {
    var r := StepRedis(s, a).0;
    if a.Acquiring? {
      GrantStands(s, Keys(a.user, a.conversation), token, r);
    } else {
      RenewalStands(s, token, r);
    }
  }

  lemma LocalStands(s: Store, a: Action, token: Token)
    requires Enabled(s, a) && AsksFor(a, token) && StepLocal(s, a).1
    ensures token in StepLocal(s, a).0.held
    ensures Standing(StepLocal(s, a).0, StepLocal(s, a).0.held[token], token, Deadline(s))
  {
    var l := StepLocal(s, a).0;
    if a.Acquiring? {
      GrantStands(s, Keys(a.user, a.conversation), token, l);
    } else {
      RenewalStands(s, token, l);
    }
  }

  /** A grant and a renewal let each key of the lease expire as long behind its deadline again. */
  lemma KeysOutliveLease(s: Store, a: Action, token: Token)
    requires Enabled(s, a) && AsksFor(a, token) && StepRedis(s, a).1
    ensures token in StepRedis(s, a).0.held
    ensures forall k :: k in StepRedis(s, a).0.held[token] ==>
              k in StepRedis(s, a).0.ttl && StepRedis(s, a).0.ttl[k] - Deadline(s) == Deadline(s) - s.now
  {
    var r := StepRedis(s, a).0;
    forall k | k in r.held[token] ensures k in r.ttl && r.ttl[k] - Deadline(s) == Deadline(s) - s.now {
      WithTtlAt(s.ttl, r.held[token], s.now + if a.Acquiring? then AcquireTtl(s.settings) else RenewTtl(s.settings), k);
    }
  }

  /** A lease that Redis has granted or renewed, and that is then neither renewed nor released, counts in
      all of its keys until its deadline and in none of them afterwards, whatever others do. */
  lemma LeaseLastsOnRedis(s: Store, a: Action, token: Token, actions: seq<Action>, d: Store)
    requires RedisInv(s) && Enabled(s, a) && AsksFor(a, token) && StepRedis(s, a).1 && LeftAlone(actions, token)
    requires RunRedis(StepRedis(s, a).0, actions).Some? && d == RunRedis(StepRedis(s, a).0, actions).value.0
    ensures token in d.held && forall k :: k in d.held[token] ==> (token in Live(d.table, k, d.now) <==> d.now < Deadline(s))
  {
    RedisStands(s, a, token);
    StepRedisKeepsInv(s, a);
    var next := StepRedis(s, a).0;
    RedisRunLeavesAlone(next, actions, next.held[token], token, Deadline(s));
  }

  /** The same on the dictionary, with no assumption on its state. */
  lemma LeaseLastsLocally(s: Store, a: Action, token: Token, actions: seq<Action>, d: Store)
    requires Enabled(s, a) && AsksFor(a, token) && StepLocal(s, a).1 && LeftAlone(actions, token)
    requires RunLocal(StepLocal(s, a).0, actions).Some? && d == RunLocal(StepLocal(s, a).0, actions).value.0
    ensures token in d.held && forall k :: k in d.held[token] ==> (token in Live(d.table, k, d.now) <==> d.now < Deadline(s))
  {
    LocalStands(s, a, token);
    var next := StepLocal(s, a).0;
    LocalRunLeavesAlone(next, actions, next.held[token], token, Deadline(s));
  }
}
