/** Refresh-token families: one-time records in Redis, rotation and revocation in several commands.

    Every function from `System` to `Option<System>` is one Redis command, or one pipeline (which
    redis-py sends as a transaction), or the signing of a token, by one of many processes. */
module RefreshTokens {
  import opened Wrappers

  type User = nat
  type Family = nat
  type Jti = nat
  type Pid = nat

  datatype Record = Record(user: User, family: Family, expireAt: int)
  datatype Index = Index(members: set<Jti>, expireAt: int)
  datatype Owner = Owner(user: User, expireAt: int)
  datatype Families = Families(families: set<Family>, expireAt: int)

  /** A signed token; nobody else can make one. */
  datatype Token = Token(jti: Jti, user: User, family: Family, expireAt: int)

  datatype Redis = Redis(
    now: int,
    records: map<Jti, Record>,
    index: map<Family, Index>,
    marks: map<Family, int>,
    owners: map<Family, Owner>,
    byUser: map<User, Families>)

  /** Where one call stands between its commands. */
  datatype Phase =
    | Checking(token: Token)
    | Checked(token: Token)
    | Consumed(token: Token)
    | Unindexed(token: Token)
    | Minting(jti: Jti, user: User, family: Family)
    | Revoking(family: Family)
    | Collected(family: Family, members: set<Jti>)
    | Located(family: Family, members: set<Jti>, owner: Option<User>)

  /** `consumed` is a history: the records that some rotation took, in order. */
  datatype System = System(
    ttl: nat,
    redis: Redis,
    tokens: set<Token>,
    procs: map<Pid, Phase>,
    usedJtis: set<Jti>,
    usedFamilies: set<Family>,
    consumed: seq<Jti>)

  function Start(ttl: nat, now: int): System {
    System(ttl, Redis(now, map[], map[], map[], map[], map[]), {}, map[], {}, {}, [])
  }

  // ---------- Redis ----------

  function MembersOf(r: Redis, f: Family): set<Jti> {
    if f in r.index then r.index[f].members else {}
  }

  function FamiliesOf(r: Redis, user: User): set<Family> {
    if user in r.byUser then r.byUser[user].families else {}
  }

  /** The pipeline of `issue_token_pair`. */
  function IssueIn(r: Redis, ttl: nat, user: User, f: Family, jti: Jti): Redis {
    r.(records := r.records[jti := Record(user, f, r.now + ttl)],
       index := r.index[f := Index(MembersOf(r, f) + {jti}, r.now + ttl)],
       owners := r.owners[f := Owner(user, r.now + ttl)],
       byUser := r.byUser[user := Families(FamiliesOf(r, user) + {f}, r.now + ttl)])
  }

  function WithoutFamily(r: Redis, user: Option<User>, f: Family): map<User, Families> {
    if user.Some? && user.value in r.byUser
    then r.byUser[user.value := r.byUser[user.value].(families := r.byUser[user.value].families - {f})]
    else r.byUser
  }

  /** The pipeline of `revoke_token_family`, with the members that were read before. */
  function RevokeIn(r: Redis, ttl: nat, f: Family, members: set<Jti>, user: Option<User>): Redis {
    r.(records := r.records - members, index := r.index - {f}, owners := r.owners - {f},
       byUser := WithoutFamily(r, user, f), marks := r.marks[f := r.now + ttl])
  }

  function OwnerOf(r: Redis, f: Family): Option<User> {
    if f in r.owners then Some(r.owners[f].user) else None
  }

  /** `SREM`: the members without `jti`; the expiry of the key stays. */
  function Unindex(r: Redis, f: Family, jti: Jti): Redis {
    if f in r.index then r.(index := r.index[f := r.index[f].(members := r.index[f].members - {jti})]) else r
  }

  /** Keys whose expiry has passed are gone. */
  function Expire(r: Redis, to: int): Redis {
    Redis(to,
          map j | j in r.records && r.records[j].expireAt > to :: r.records[j],
          map f | f in r.index && r.index[f].expireAt > to :: r.index[f],
          map f | f in r.marks && r.marks[f] > to :: r.marks[f],
          map f | f in r.owners && r.owners[f].expireAt > to :: r.owners[f],
          map u | u in r.byUser && r.byUser[u].expireAt > to :: r.byUser[u])
  }

  // ---------- steps ----------

  function To(s: System, p: Pid, phase: Phase): System {
    s.(procs := s.procs[p := phase])
  }

  function Leave(s: System, p: Pid): System {
    s.(procs := s.procs - {p})
  }

  function Issue(s: System, p: Pid, user: User, f: Family, jti: Jti): System {
    To(s.(redis := IssueIn(s.redis, s.ttl, user, f, jti), usedJtis := s.usedJtis + {jti},
          usedFamilies := s.usedFamilies + {f}), p, Minting(jti, user, f))
  }

  /** A login issues into a family of its own. */
  function Login(s: System, p: Pid, user: User, f: Family, jti: Jti): Option<System> {
    if p !in s.procs && f !in s.usedFamilies && jti !in s.usedJtis then Some(Issue(s, p, user, f, jti)) else None
  }

  /** The token is signed after the pipeline. */
  function Mint(s: System, p: Pid): Option<System> {
    if p in s.procs && s.procs[p].Minting? then
      var m := s.procs[p];
      Some(Leave(s.(tokens := s.tokens + {Token(m.jti, m.user, m.family, s.redis.now + s.ttl)}), p))
    else None
  }

  /** A rotation starts with a token whose signature and expiry hold. */
  function Present(s: System, p: Pid, token: Token): Option<System> {
    if p !in s.procs && token in s.tokens && s.redis.now < token.expireAt then Some(To(s, p, Checking(token))) else None
  }

  function FindRevoked(s: System, p: Pid): Option<System> {
    if p in s.procs && s.procs[p].Checking? && s.procs[p].token.family in s.redis.marks then Some(Leave(s, p)) else None
  }

  function PassCheck(s: System, p: Pid): Option<System> {
    if p in s.procs && s.procs[p].Checking? && s.procs[p].token.family !in s.redis.marks
    then Some(To(s, p, Checked(s.procs[p].token)))
    else None
  }

  predicate Matches(token: Token, record: Record) {
    record.user == token.user && record.family == token.family
  }

  /** `GETDEL` finds the record, and it is the token's. */
  function Consume(s: System, p: Pid): Option<System> {
    if p in s.procs && s.procs[p].Checked? && s.procs[p].token.jti in s.redis.records
       && Matches(s.procs[p].token, s.redis.records[s.procs[p].token.jti]) then
      var token := s.procs[p].token;
      Some(To(s.(redis := s.redis.(records := s.redis.records - {token.jti}), consumed := s.consumed + [token.jti]),
              p, Consumed(token)))
    else None
  }

  /** `GETDEL` finds nothing, or the record of somebody else: a replay. */
  function DetectReplay(s: System, p: Pid): Option<System> {
    if p in s.procs && s.procs[p].Checked?
       && !(s.procs[p].token.jti in s.redis.records && Matches(s.procs[p].token, s.redis.records[s.procs[p].token.jti])) then
      var token := s.procs[p].token;
      Some(To(s.(redis := s.redis.(records := s.redis.records - {token.jti})), p, Revoking(token.family)))
    else None
  }

  function Remove(s: System, p: Pid): Option<System> {
    if p in s.procs && s.procs[p].Consumed? then
      var token := s.procs[p].token;
      Some(To(s.(redis := Unindex(s.redis, token.family, token.jti)), p, Unindexed(token)))
    else None
  }

  function Reissue(s: System, p: Pid, jti: Jti): Option<System> {
    if p in s.procs && s.procs[p].Unindexed? && jti !in s.usedJtis
    then Some(Issue(s, p, s.procs[p].token.user, s.procs[p].token.family, jti))
    else None
  }

  /** A logout, or one family of `revoke_all_user_families`. */
  function StartRevoke(s: System, p: Pid, f: Family): Option<System> {
    if p !in s.procs then Some(To(s, p, Revoking(f))) else None
  }

  function Collect(s: System, p: Pid): Option<System> {
    if p in s.procs && s.procs[p].Revoking?
    then Some(To(s, p, Collected(s.procs[p].family, MembersOf(s.redis, s.procs[p].family))))
    else None
  }

  function Locate(s: System, p: Pid): Option<System> {
    if p in s.procs && s.procs[p].Collected?
    then Some(To(s, p, Located(s.procs[p].family, s.procs[p].members, OwnerOf(s.redis, s.procs[p].family))))
    else None
  }

  function FinishRevoke(s: System, p: Pid): Option<System> {
    if p in s.procs && s.procs[p].Located? then
      var l := s.procs[p];
      Some(Leave(s.(redis := RevokeIn(s.redis, s.ttl, l.family, l.members, l.owner)), p))
    else None
  }

  /** The last command of `revoke_all_user_families`, at whatever time. */
  function DropUserIndex(s: System, user: User): Option<System> {
    Some(s.(redis := s.redis.(byUser := s.redis.byUser - {user})))
  }

  function Die(s: System, p: Pid): Option<System> {
    if p in s.procs then Some(Leave(s, p)) else None
  }

  function Tick(s: System, to: int): Option<System> {
    if s.redis.now <= to then Some(s.(redis := Expire(s.redis, to))) else None
  }

  datatype Label =
    | DoLogin(p: Pid, user: User, f: Family, jti: Jti)
    | DoMint(p: Pid)
    | DoPresent(p: Pid, token: Token)
    | DoFindRevoked(p: Pid)
    | DoPassCheck(p: Pid)
    | DoConsume(p: Pid)
    | DoDetectReplay(p: Pid)
    | DoRemove(p: Pid)
    | DoReissue(p: Pid, jti: Jti)
    | DoStartRevoke(p: Pid, f: Family)
    | DoCollect(p: Pid)
    | DoLocate(p: Pid)
    | DoFinishRevoke(p: Pid)
    | DoDropUserIndex(user: User)
    | DoDie(p: Pid)
    | DoTick(to: int)

  function Step(s: System, l: Label): Option<System> {
    match l
    case DoLogin(p, user, f, jti) => Login(s, p, user, f, jti)
    case DoMint(p) => Mint(s, p)
    case DoPresent(p, token) => Present(s, p, token)
    case DoFindRevoked(p) => FindRevoked(s, p)
    case DoPassCheck(p) => PassCheck(s, p)
    case DoConsume(p) => Consume(s, p)
    case DoDetectReplay(p) => DetectReplay(s, p)
    case DoRemove(p) => Remove(s, p)
    case DoReissue(p, jti) => Reissue(s, p, jti)
    case DoStartRevoke(p, f) => StartRevoke(s, p, f)
    case DoCollect(p) => Collect(s, p)
    case DoLocate(p) => Locate(s, p)
    case DoFinishRevoke(p) => FinishRevoke(s, p)
    case DoDropUserIndex(user) => DropUserIndex(s, user)
    case DoDie(p) => Die(s, p)
    case DoTick(to) => Tick(s, to)
  }

  function Exec(s: System, ls: seq<Label>): Option<System>
    decreases |ls|
  {
    if ls == [] then Some(s)
    else if Step(s, ls[0]).Some? then Exec(Step(s, ls[0]).value, ls[1..]) else None
  }

  // ---------- invariants ----------

  predicate InFlight(s: System, p: Pid, f: Family) {
    p in s.procs && (s.procs[p].Consumed? || s.procs[p].Unindexed?) && s.procs[p].token.family == f
  }

  predicate LiveIn(s: System, j: Jti, f: Family) {
    j in s.redis.records && s.redis.records[j].family == f
  }

  /** Per family at most one live record or rotation between `GETDEL` and re-issue. */
  ghost predicate OneHolder(s: System) {
    && (forall f, i, j :: LiveIn(s, i, f) && LiveIn(s, j, f) ==> i == j)
    && (forall f, p, q :: InFlight(s, p, f) && InFlight(s, q, f) ==> p == q)
    && (forall f, i, p :: LiveIn(s, i, f) ==> !InFlight(s, p, f))
  }

  /** What a token that exists, or is about to be signed, says about its record. */
  predicate RecordFits(s: System, jti: Jti, user: User, f: Family) {
    jti in s.usedJtis && f in s.usedFamilies
    && (jti in s.redis.records ==> s.redis.records[jti].user == user && s.redis.records[jti].family == f)
  }

  /** `j` was issued in family `f`, if its record is still there. */
  predicate IssuedIn(s: System, j: Jti, f: Family) {
    j in s.usedJtis && (j in s.redis.records ==> s.redis.records[j].family == f)
  }

  predicate PhaseOk(s: System, phase: Phase) {
    match phase
    case Checking(token) => token in s.tokens
    case Checked(token) => token in s.tokens
    case Consumed(token) => token in s.tokens && token.jti in s.consumed
    case Unindexed(token) => token in s.tokens && token.jti in s.consumed
    case Minting(jti, user, f) => RecordFits(s, jti, user, f)
    case Revoking(_) => true
    case Collected(f, members) => forall j :: j in members ==> IssuedIn(s, j, f)
    case Located(f, members, _) => forall j :: j in members ==> IssuedIn(s, j, f)
  }

  ghost predicate IndexOk(s: System) {
    forall f, j :: f in s.redis.index && j in s.redis.index[f].members ==> IssuedIn(s, j, f)
  }

  ghost predicate TokensOk(s: System) {
    && (forall t :: t in s.tokens ==> RecordFits(s, t.jti, t.user, t.family))
    && (forall p :: p in s.procs ==> PhaseOk(s, s.procs[p]))
    && (forall j :: j in s.redis.records ==> j in s.usedJtis && s.redis.records[j].family in s.usedFamilies)
  }

  /** A record is consumed at most once, and is gone from then on. */
  ghost predicate OneTime(s: System) {
    && (forall i, j :: 0 <= i < j < |s.consumed| ==> s.consumed[i] != s.consumed[j])
    && (forall j :: j in s.consumed ==> j in s.usedJtis && j !in s.redis.records)
  }

  predicate Indexed(r: Redis, j: Jti)
    requires j in r.records
  {
    var f := r.records[j].family;
    f in r.index && j in r.index[f].members && r.records[j].expireAt <= r.index[f].expireAt
  }

  predicate Marked(r: Redis, j: Jti)
    requires j in r.records
  {
    var f := r.records[j].family;
    f in r.marks && r.records[j].expireAt <= r.marks[f]
  }

  /** A live record can be found through its family, or its family is marked for as long as it lives. */
  ghost predicate Findable(s: System) {
    && (forall j :: j in s.redis.records ==> Indexed(s.redis, j) || Marked(s.redis, j))
    && (forall j :: j in s.redis.records ==> s.redis.records[j].expireAt <= s.redis.now + s.ttl)
    && (forall f :: f in s.redis.index ==> s.redis.index[f].expireAt <= s.redis.now + s.ttl)
  }

  ghost predicate Inv(s: System) {
    OneHolder(s) && TokensOk(s) && IndexOk(s) && OneTime(s) && Findable(s)
  }

  lemma IssueKeepsIndex(s: System, p: Pid, user: User, f: Family, jti: Jti, s': System)
    requires Inv(s) && s' == Issue(s, p, user, f, jti) && jti !in s.usedJtis
    ensures IndexOk(s')
  {
  }

  lemma StepKeepsIndex(s: System, l: Label, s': System)
    requires Inv(s) && Step(s, l) == Some(s')
    ensures IndexOk(s')
  {
    match l
    case DoLogin(p, user, f, jti) => IssueKeepsIndex(s, p, user, f, jti, s');
    case DoReissue(p, jti) => IssueKeepsIndex(s, p, s.procs[p].token.user, s.procs[p].token.family, jti, s');
    case _ =>
  }

  lemma IssueKeepsTokens(s: System, p: Pid, user: User, f: Family, jti: Jti, s': System)
    requires Inv(s) && s' == Issue(s, p, user, f, jti) && jti !in s.usedJtis
    ensures TokensOk(s')
  {
  }

  lemma MintKeepsTokens(s: System, p: Pid, s': System)
    requires Inv(s) && Mint(s, p) == Some(s')
    ensures TokensOk(s')
  {
  }

  lemma ConsumeKeepsTokens(s: System, p: Pid, s': System)
    requires Inv(s) && Consume(s, p) == Some(s')
    ensures TokensOk(s')
  {
  }

  /** Steps that add neither records nor tokens. */
  lemma FewerRecordsKeepTokens(s: System, s': System)
    requires TokensOk(s)
    requires s'.tokens == s.tokens && s'.usedJtis == s.usedJtis && s'.usedFamilies == s.usedFamilies && s'.consumed == s.consumed
    requires forall j :: j in s'.redis.records ==> j in s.redis.records && s'.redis.records[j] == s.redis.records[j]
    requires forall p :: p in s'.procs ==> (p in s.procs && s'.procs[p] == s.procs[p]) || PhaseOk(s, s'.procs[p])
    ensures TokensOk(s')
  {
    assert forall phase :: PhaseOk(s, phase) ==> PhaseOk(s', phase);
  }

  lemma StepKeepsTokens(s: System, l: Label, s': System)
    requires Inv(s) && Step(s, l) == Some(s')
    ensures TokensOk(s')
  {
    match l
    case DoLogin(p, user, f, jti) => IssueKeepsTokens(s, p, user, f, jti, s');
    case DoReissue(p, jti) => IssueKeepsTokens(s, p, s.procs[p].token.user, s.procs[p].token.family, jti, s');
    case DoMint(p) => MintKeepsTokens(s, p, s');
    case DoConsume(p) => ConsumeKeepsTokens(s, p, s');
    case _ => FewerRecordsKeepTokens(s, s');
  }

  /** Steps that add no holder. */
  lemma FewerHolders(s: System, s': System)
    requires OneHolder(s)
    requires forall f, j :: LiveIn(s', j, f) ==> LiveIn(s, j, f)
    requires forall f, p :: InFlight(s', p, f) ==> InFlight(s, p, f)
    ensures OneHolder(s')
  {
  }

  /** The record of the token becomes the rotation in flight. */
  lemma ConsumeKeepsOneHolder(s: System, p: Pid, s': System)
    requires Inv(s) && Consume(s, p) == Some(s')
    ensures OneHolder(s')
  {
    var token := s.procs[p].token;
    assert LiveIn(s, token.jti, token.family);
    assert forall f, j :: LiveIn(s', j, f) ==> LiveIn(s, j, f);
    assert forall f, q :: InFlight(s', q, f) ==> InFlight(s, q, f) || (q == p && f == token.family);
  }

  /** The new record takes the place of `p`, or is the first of its family. */
  lemma IssueKeepsOneHolder(s: System, p: Pid, user: User, f: Family, jti: Jti, s': System)
    requires Inv(s) && s' == Issue(s, p, user, f, jti) && jti !in s.usedJtis
    requires f !in s.usedFamilies || InFlight(s, p, f)
    ensures OneHolder(s')
  {
    assert forall q :: InFlight(s, q, f) ==> q == p;
    assert forall g, j :: LiveIn(s', j, g) ==> LiveIn(s, j, g) || (j == jti && g == f);
    assert forall g, q :: InFlight(s', q, g) ==> InFlight(s, q, g) && q != p;
    assert forall j :: LiveIn(s, j, f) ==> f in s.usedFamilies && !InFlight(s, p, f);
  }

  /** Steps that delete records, or none. */
  lemma DeletingKeepsOneHolder(s: System, l: Label, s': System)
    requires OneHolder(s) && Step(s, l) == Some(s') && (l.DoDetectReplay? || l.DoFinishRevoke? || l.DoTick?)
    ensures OneHolder(s')
  {
    FewerHolders(s, s');
  }

  lemma StepKeepsOneHolder(s: System, l: Label, s': System)
    requires Inv(s) && Step(s, l) == Some(s')
    ensures OneHolder(s')
  {
    match l
    case DoLogin(p, user, f, jti) => IssueKeepsOneHolder(s, p, user, f, jti, s');
    case DoReissue(p, jti) => IssueKeepsOneHolder(s, p, s.procs[p].token.user, s.procs[p].token.family, jti, s');
    case DoConsume(p) => ConsumeKeepsOneHolder(s, p, s');
    case DoDetectReplay(_) => DeletingKeepsOneHolder(s, l, s');
    case DoFinishRevoke(_) => DeletingKeepsOneHolder(s, l, s');
    case DoTick(_) => DeletingKeepsOneHolder(s, l, s');
    case _ => FewerHolders(s, s');
  }

  lemma StepKeepsOneTime(s: System, l: Label, s': System)
    requires Inv(s) && Step(s, l) == Some(s')
    ensures OneTime(s')
  {
  }

  lemma IssueKeepsFindable(s: System, p: Pid, user: User, f: Family, jti: Jti, s': System)
    requires Inv(s) && s' == Issue(s, p, user, f, jti)
    ensures Findable(s')
  {
  }

  /** Records that the pipeline has not read die before the mark does. */
  lemma RevokeKeepsFindable(s: System, p: Pid, s': System)
    requires Inv(s) && FinishRevoke(s, p) == Some(s')
    ensures Findable(s')
  {
  }

  lemma TickKeepsFindable(s: System, to: int, s': System)
    requires Inv(s) && Tick(s, to) == Some(s')
    ensures Findable(s')
  {
  }

  lemma StepKeepsFindable(s: System, l: Label, s': System)
    requires Inv(s) && Step(s, l) == Some(s')
    ensures Findable(s')
  {
    match l
    case DoLogin(p, user, f, jti) => IssueKeepsFindable(s, p, user, f, jti, s');
    case DoReissue(p, jti) => IssueKeepsFindable(s, p, s.procs[p].token.user, s.procs[p].token.family, jti, s');
    case DoFinishRevoke(p) => RevokeKeepsFindable(s, p, s');
    case DoTick(to) => TickKeepsFindable(s, to, s');
    case _ =>
  }

  lemma StepKeepsInv(s: System, l: Label, s': System)
    requires Inv(s) && Step(s, l) == Some(s')
    ensures Inv(s')
  {
    StepKeepsTokens(s, l, s');
    StepKeepsIndex(s, l, s');
    StepKeepsOneHolder(s, l, s');
    StepKeepsOneTime(s, l, s');
    StepKeepsFindable(s, l, s');
  }

  lemma {:induction false} RunKeepsInv(s: System, ls: seq<Label>, s': System)
    requires Inv(s) && Exec(s, ls) == Some(s')
    ensures Inv(s')
    decreases |ls|
  {
    if ls != [] {
      StepKeepsInv(s, ls[0], Step(s, ls[0]).value);
      RunKeepsInv(Step(s, ls[0]).value, ls[1..], s');
    }
  }

  /** In every interleaving: a record is consumed at most once; a family has at most one live record or
      rotation in flight; a live record is in its family's index, or the family is marked for as long
      as the record lives. */
  lemma RotationIsSafe(ttl: nat, now: int, ls: seq<Label>, s: System)
    requires Exec(Start(ttl, now), ls) == Some(s)
    ensures forall i, j :: 0 <= i < j < |s.consumed| ==> s.consumed[i] != s.consumed[j]
    ensures forall f, i, j :: LiveIn(s, i, f) && LiveIn(s, j, f) ==> i == j
    ensures forall f, p, q :: InFlight(s, p, f) && InFlight(s, q, f) ==> p == q
    ensures forall f, i, p :: LiveIn(s, i, f) ==> !InFlight(s, p, f)
    ensures forall j :: j in s.redis.records ==> Indexed(s.redis, j) || Marked(s.redis, j)
  {
    RunKeepsInv(Start(ttl, now), ls, s);
  }

  /** A revocation deletes records of its own family only, and leaves none that is not marked. */
  lemma RevocationIsLocal(s: System, p: Pid, s': System)
    requires Inv(s) && FinishRevoke(s, p) == Some(s')
    ensures var f := s.procs[p].family;
            && (forall j :: j in s.redis.records && s.redis.records[j].family != f ==> j in s'.redis.records)
            && (forall j :: LiveIn(s', j, f) ==> Marked(s'.redis, j))
  {
    assert PhaseOk(s, s.procs[p]);
  }

  // ---------- the index of a user's families ----------

  /** A revocation of everything that its user has would reach the record's family. */
  predicate Listed(r: Redis, j: Jti)
    requires j in r.records
  {
    var rec := r.records[j];
    rec.user in r.byUser && rec.family in r.byUser[rec.user].families && rec.expireAt <= r.byUser[rec.user].expireAt
  }

  ghost predicate AllListed(s: System) {
    && (forall j :: j in s.redis.records ==> Listed(s.redis, j) || Marked(s.redis, j))
    && (forall u :: u in s.redis.byUser ==> s.redis.byUser[u].expireAt <= s.redis.now + s.ttl)
  }

  /** The last command of a revocation drops an index that a login has added to since it was read. */
  ghost predicate DropsListing(s: System, l: Label) {
    l.DoDropUserIndex? && exists j :: j in s.redis.records && s.redis.records[j].user == l.user && !Marked(s.redis, j)
  }

  lemma IssueLists(s: System, p: Pid, user: User, f: Family, jti: Jti, s': System)
    requires AllListed(s) && Findable(s) && s' == Issue(s, p, user, f, jti)
    ensures AllListed(s')
  {
  }

  lemma RevokeLists(s: System, p: Pid, s': System)
    requires Inv(s) && AllListed(s) && FinishRevoke(s, p) == Some(s')
    ensures AllListed(s')
  {
    RevocationIsLocal(s, p, s');
    forall j | j in s'.redis.records ensures Listed(s'.redis, j) || Marked(s'.redis, j) {
      assert s'.redis.records[j] == s.redis.records[j];
      if s.redis.records[j].family == s.procs[p].family {
        assert LiveIn(s', j, s.procs[p].family);
      }
    }
  }

  lemma DropListsIff(s: System, user: User, s': System)
    requires AllListed(s) && DropUserIndex(s, user) == Some(s')
    ensures AllListed(s') <==> !DropsListing(s, DoDropUserIndex(user))
  {
    if AllListed(s') {
      forall j | j in s.redis.records && s.redis.records[j].user == user ensures Marked(s.redis, j) {
        assert !Listed(s'.redis, j);
      }
    }
  }

  lemma OthersList(s: System, l: Label, s': System)
    requires AllListed(s) && Step(s, l) == Some(s') && !l.DoLogin? && !l.DoReissue? && !l.DoFinishRevoke? && !l.DoDropUserIndex?
    ensures AllListed(s')
  {
  }

  /** In every interleaving every record is listed with its user or its family is marked for as long as
      it lives, up to the first step that drops the listing of an unmarked record; no other step
      unlists one. */
  lemma StepListsIff(s: System, l: Label, s': System)
    requires Inv(s) && AllListed(s) && Step(s, l) == Some(s')
    ensures AllListed(s') <==> !DropsListing(s, l)
  {
    match l
    case DoLogin(p, user, f, jti) => IssueLists(s, p, user, f, jti, s');
    case DoReissue(p, jti) => IssueLists(s, p, s.procs[p].token.user, s.procs[p].token.family, jti, s');
    case DoFinishRevoke(p) => RevokeLists(s, p, s');
    case DoDropUserIndex(user) => DropListsIff(s, user, s');
    case _ => OthersList(s, l, s');
  }

  ghost predicate Drops(s: System, ls: seq<Label>)
    decreases |ls|
  {
    ls != [] && (DropsListing(s, ls[0]) || (Step(s, ls[0]).Some? && Drops(Step(s, ls[0]).value, ls[1..])))
  }

  lemma {:induction false} RunLists(s: System, ls: seq<Label>, s': System)
    requires Inv(s) && AllListed(s) && Exec(s, ls) == Some(s') && !Drops(s, ls)
    ensures AllListed(s')
    decreases |ls|
  {
    if ls != [] {
      StepKeepsInv(s, ls[0], Step(s, ls[0]).value);
      StepListsIff(s, ls[0], Step(s, ls[0]).value);
      RunLists(Step(s, ls[0]).value, ls[1..], s');
    }
  }

  /** Such a step exists: a login after the index was read and before it is dropped is in no index that a
      revocation of everything would read, and its family is not marked. */
  lemma LoginDuringRevokeAllIsUnlisted(ttl: nat) returns (ls: seq<Label>, s: System)
    requires ttl > 0
    ensures Exec(Start(ttl, 0), ls) == Some(s)
    ensures LiveIn(s, 0, 0) && FamiliesOf(s.redis, s.redis.records[0].user) == {} && !Marked(s.redis, 0)
  {
    var start := Start(ttl, 0);
    var a := Login(start, 0, 0, 0, 0).value;
    s := DropUserIndex(a, 0).value;
    ls := [DoLogin(0, 0, 0, 0), DoDropUserIndex(0)];
    assert ls[1..] == [DoDropUserIndex(0)] && ls[1..][1..] == [];
    assert Exec(a, ls[1..]) == Some(s);
  }

  /** Whatever logins, rotations and revocations interleave: the families that a revocation of all of a
      user's sessions reads are all that the user still has, unless their family is marked for as long as
      they live or such a step has come before. */
  lemma EverySessionIsListed(ttl: nat, now: int, ls: seq<Label>, s: System, user: User)
    requires Exec(Start(ttl, now), ls) == Some(s) && !Drops(Start(ttl, now), ls)
    ensures forall j :: j in s.redis.records && s.redis.records[j].user == user ==>
              s.redis.records[j].family in FamiliesOf(s.redis, user) || Marked(s.redis, j)
  {
    RunLists(Start(ttl, now), ls, s);
  }

  // ---------- after a family is marked ----------

  /** Stored records have not expired. */
  ghost predicate Alive(s: System) {
    forall j :: j in s.redis.records ==> s.redis.records[j].expireAt > s.redis.now
  }

  ghost predicate FullInv(s: System) {
    Inv(s) && Alive(s) && s.ttl > 0
  }

  lemma StepKeepsFullInv(s: System, l: Label, s': System)
    requires FullInv(s) && Step(s, l) == Some(s')
    ensures FullInv(s') && s'.ttl == s.ttl
  {
    StepKeepsInv(s, l, s');
    StepKeepsAlive(s, l, s');
  }

  lemma StepKeepsAlive(s: System, l: Label, s': System)
    requires Alive(s) && s.ttl > 0 && Step(s, l) == Some(s')
    ensures Alive(s') && s'.ttl == s.ttl
  {
  }

  lemma {:induction false} RunKeepsFullInv(s: System, ls: seq<Label>, s': System)
    requires FullInv(s) && Exec(s, ls) == Some(s')
    ensures FullInv(s')
    decreases |ls|
  {
    if ls != [] {
      StepKeepsFullInv(s, ls[0], Step(s, ls[0]).value);
      RunKeepsFullInv(Step(s, ls[0]).value, ls[1..], s');
    }
  }

  /** Family `f` is marked at least until `until`. */
  predicate MarkHolds(s: System, f: Family, until: int) {
    && until <= s.redis.now + s.ttl
    && (s.redis.now < until ==> f in s.redis.marks && s.redis.marks[f] >= until)
  }

  lemma StepKeepsMark(s: System, l: Label, f: Family, until: int, s': System)
    requires Step(s, l) == Some(s') && MarkHolds(s, f, until)
    ensures MarkHolds(s', f, until)
  {
  }

  /** The calls that are past their check for the mark: one that comes afterwards sees it. */
  function PastCheck(s: System): set<Pid> {
    set p | p in s.procs && (s.procs[p].Checked? || s.procs[p].Consumed? || s.procs[p].Unindexed?)
  }

  /** Since family `f` was marked: the records of `f` among `issued` expire with the mark, and nobody but
      the calls in `past` has taken one of them or is about to. */
  ghost predicate Closed(s: System, f: Family, until: int, past: set<Pid>, issued: set<Jti>) {
    && MarkHolds(s, f, until) && issued <= s.usedJtis
    && (forall j :: j in issued && LiveIn(s, j, f) ==> s.redis.records[j].expireAt <= until)
    && (forall p :: p in s.procs && p !in past ==> LateOk(s, s.procs[p], f, issued))
  }

  predicate LateOk(s: System, phase: Phase, f: Family, issued: set<Jti>) {
    match phase
    case Checked(token) => token.family == f && token.jti in issued ==> token.jti !in s.redis.records
    case Consumed(token) => token.family == f ==> token.jti !in issued
    case Unindexed(token) => token.family == f ==> token.jti !in issued
    case _ => true
  }

  /** The one phase change that matters: a late call passes its check only when the record is gone. */
  lemma LatePhaseOk(s: System, l: Label, f: Family, until: int, past: set<Pid>, issued: set<Jti>, s': System, p: Pid)
    requires FullInv(s) && Closed(s, f, until, past, issued) && Step(s, l) == Some(s')
    requires p in s'.procs && p !in past
    ensures LateOk(s', s'.procs[p], f, issued)
  {
  }

  lemma RecordsStayOld(s: System, l: Label, f: Family, until: int, past: set<Pid>, issued: set<Jti>, s': System)
    requires Closed(s, f, until, past, issued) && Step(s, l) == Some(s')
    ensures issued <= s'.usedJtis
    ensures forall j :: j in issued && LiveIn(s', j, f) ==> s'.redis.records[j].expireAt <= until
  {
  }

  lemma {:induction false} RunKeepsClosed(s: System, ls: seq<Label>, f: Family, until: int, past: set<Pid>,
                                          issued: set<Jti>, s': System)
    requires FullInv(s) && Closed(s, f, until, past, issued) && Exec(s, ls) == Some(s')
    ensures Closed(s', f, until, past, issued)
    decreases |ls|
  {
    if ls != [] {
      var l, next := ls[0], Step(s, ls[0]).value;
      StepKeepsFullInv(s, l, next);
      StepKeepsMark(s, l, f, until, next);
      RecordsStayOld(s, l, f, until, past, issued, next);
      forall p | p in next.procs && p !in past ensures LateOk(next, next.procs[p], f, issued) {
        LatePhaseOk(s, l, f, until, past, issued, next, p);
      }
      RunKeepsClosed(next, ls[1..], f, until, past, issued, s');
    }
  }

  /** The state that a revocation of family `f` leaves when its pipeline runs. */
  ghost predicate JustMarked(ttl: nat, now: int, before: seq<Label>, s: System, q: Pid, f: Family, marked: System) {
    && ttl > 0 && Exec(Start(ttl, now), before) == Some(s)
    && q in s.procs && s.procs[q].Located? && s.procs[q].family == f && FinishRevoke(s, q) == Some(marked)
  }

  lemma MarkIsSet(ttl: nat, now: int, before: seq<Label>, s: System, q: Pid, f: Family, marked: System)
    requires JustMarked(ttl, now, before, s, q, f, marked)
    ensures FullInv(marked) && f in marked.redis.marks && MarkHolds(marked, f, marked.redis.marks[f])
    ensures forall j :: LiveIn(marked, j, f) ==> marked.redis.records[j].expireAt <= marked.redis.marks[f]
  {
    RunKeepsFullInv(Start(ttl, now), before, s);
    StepKeepsFullInv(s, DoFinishRevoke(q), marked);
    RevocationIsLocal(s, q, marked);
  }

  /** Once a revocation has marked family `f`, no call but those that are already past their check
      ever consumes a record that was issued before the mark, whenever its token was signed: the check
      finds the mark, and when the mark is gone so is the record. */
  lemma RevokedTokensStayDead(ttl: nat, now: int, before: seq<Label>, s: System, q: Pid, f: Family, marked: System,
                              after: seq<Label>, s': System, p: Pid)
    requires JustMarked(ttl, now, before, s, q, f, marked) && Exec(marked, after) == Some(s')
    requires p !in PastCheck(marked) && InFlight(s', p, f)
    ensures s'.procs[p].token.jti !in marked.usedJtis
  {
    MarkIsSet(ttl, now, before, s, q, f, marked);
    RunKeepsClosed(marked, after, f, marked.redis.marks[f], PastCheck(marked), marked.usedJtis, s');
    assert LateOk(s', s'.procs[p], f, marked.usedJtis);
  }

  // ---------- exactly when a marked family lives on ----------

  /** A call past its check has the family's turn, or will get it: its record is still there. */
  predicate HoldsTurn(s: System, p: Pid, f: Family) {
    || InFlight(s, p, f)
    || (p in s.procs && s.procs[p].Checked? && s.procs[p].token.family == f && s.procs[p].token.jti in s.redis.records)
  }

  ghost predicate CanReissue(s: System, f: Family) {
    exists p :: HoldsTurn(s, p, f)
  }

  /** Some schedule stores a record of `f` that has not been issued yet. */
  ghost predicate IssuesLater(s: System, f: Family) {
    exists ls: seq<Label>, j :: Exec(s, ls).Some? && LiveIn(Exec(s, ls).value, j, f) && j !in s.usedJtis
  }

  /** Nobody has the turn, and nobody can get it while a record of `f` is left. */
  ghost predicate Sealed(s: System, f: Family, until: int, issued: set<Jti>) {
    && f in s.usedFamilies && MarkHolds(s, f, until) && !CanReissue(s, f)
    && forall j :: LiveIn(s, j, f) ==> j in issued && s.redis.records[j].expireAt <= until
  }

  lemma SealedRecords(s: System, l: Label, f: Family, until: int, issued: set<Jti>, s': System)
    requires FullInv(s) && Sealed(s, f, until, issued) && Step(s, l) == Some(s')
    ensures f in s'.usedFamilies
    ensures forall j :: LiveIn(s', j, f) ==> LiveIn(s, j, f) && s'.redis.records[j] == s.redis.records[j]
  {
    match l
    case DoReissue(p, jti) => assert !HoldsTurn(s, p, f);
    case _ =>
  }

  lemma SealedTurn(s: System, l: Label, f: Family, until: int, issued: set<Jti>, s': System, p: Pid)
    requires FullInv(s) && Sealed(s, f, until, issued) && Step(s, l) == Some(s')
    requires forall j :: LiveIn(s', j, f) ==> LiveIn(s, j, f)
    ensures !HoldsTurn(s', p, f)
  {
    assert !HoldsTurn(s, p, f);
  }

  lemma {:induction false} SealedForever(s: System, ls: seq<Label>, f: Family, until: int, issued: set<Jti>, s': System)
    requires FullInv(s) && Sealed(s, f, until, issued) && Exec(s, ls) == Some(s')
    ensures Sealed(s', f, until, issued)
    decreases |ls|
  {
    if ls != [] {
      var l, next := ls[0], Step(s, ls[0]).value;
      StepKeepsFullInv(s, l, next);
      StepKeepsMark(s, l, f, until, next);
      SealedRecords(s, l, f, until, issued, next);
      forall p ensures !HoldsTurn(next, p, f) {
        SealedTurn(s, l, f, until, issued, next, p);
      }
      SealedForever(next, ls[1..], f, until, issued, s');
    }
  }

  lemma ExecOne(s: System, l: Label, next: System, ls: seq<Label>, s': System)
    requires Step(s, l) == Some(next) && Exec(next, ls) == Some(s')
    ensures Exec(s, [l] + ls) == Some(s')
  {
    assert ([l] + ls)[1..] == ls;
  }

  lemma {:induction false} Unused(used: set<Jti>) returns (j: Jti)
    ensures forall i :: i in used ==> i < j
    decreases |used|
  {
    j := 0;
    if used != {} {
      var i :| i in used;
      var m := Unused(used - {i});
      j := if i < m then m else i + 1;
      assert forall k :: k in used ==> k == i || k in used - {i};
    }
  }

  lemma UnindexedReissues(s: System, p: Pid, f: Family, j: Jti) returns (ls: seq<Label>, s': System)
    requires p in s.procs && s.procs[p].Unindexed? && s.procs[p].token.family == f && j !in s.usedJtis
    ensures Exec(s, ls) == Some(s') && LiveIn(s', j, f)
  {
    s' := Reissue(s, p, j).value;
    ExecOne(s, DoReissue(p, j), s', [], s');
    ls := [DoReissue(p, j)] + [];
  }

  lemma ConsumedReissues(s: System, p: Pid, f: Family, j: Jti) returns (ls: seq<Label>, s': System)
    requires InFlight(s, p, f) && j !in s.usedJtis
    ensures Exec(s, ls) == Some(s') && LiveIn(s', j, f)
  {
    if s.procs[p].Consumed? {
      var next := Remove(s, p).value;
      ls, s' := UnindexedReissues(next, p, f, j);
      ExecOne(s, DoRemove(p), next, ls, s');
      ls := [DoRemove(p)] + ls;
    } else {
      ls, s' := UnindexedReissues(s, p, f, j);
    }
  }

  lemma HolderReissues(s: System, p: Pid, f: Family) returns (ls: seq<Label>, j: Jti, s': System)
    requires Inv(s) && HoldsTurn(s, p, f)
    ensures Exec(s, ls) == Some(s') && LiveIn(s', j, f) && j !in s.usedJtis
  {
    j := Unused(s.usedJtis);
    if InFlight(s, p, f) {
      ls, s' := ConsumedReissues(s, p, f, j);
    } else {
      assert PhaseOk(s, s.procs[p]);
      var next := Consume(s, p).value;
      ls, s' := ConsumedReissues(next, p, f, j);
      ExecOne(s, DoConsume(p), next, ls, s');
      ls := [DoConsume(p)] + ls;
    }
  }

  /** After the mark of a family that some login has used, a record of it can be issued again exactly
      when a call past its check has the family's turn, or finds a record that the revocation missed. */
  lemma ReissueAfterMarkIff(ttl: nat, now: int, before: seq<Label>, s: System, q: Pid, f: Family, marked: System)
    requires JustMarked(ttl, now, before, s, q, f, marked) && f in marked.usedFamilies
    ensures IssuesLater(marked, f) <==> CanReissue(marked, f)
  {
    MarkIsSet(ttl, now, before, s, q, f, marked);
    if CanReissue(marked, f) {
      var p :| HoldsTurn(marked, p, f);
      var ls, j, s' := HolderReissues(marked, p, f);
      assert Exec(marked, ls).Some? && LiveIn(Exec(marked, ls).value, j, f);
    } else {
      assert Sealed(marked, f, marked.redis.marks[f], marked.usedJtis);
      if IssuesLater(marked, f) {
        var ls: seq<Label>, j :| Exec(marked, ls).Some? && LiveIn(Exec(marked, ls).value, j, f) && j !in marked.usedJtis;
        SealedForever(marked, ls, f, marked.redis.marks[f], marked.usedJtis, Exec(marked, ls).value);
        assert false;
      }
    }
  }

  // ---------- a rotation that outruns the mark ----------

  lemma {:induction false} ExecAppend(s: System, ls: seq<Label>, ms: seq<Label>)
    ensures Exec(s, ls + ms) == if Exec(s, ls).Some? then Exec(Exec(s, ls).value, ms) else None
    decreases |ls|
  {
    if ls == [] {
      assert ls + ms == ms;
    } else {
      assert (ls + ms)[1..] == ls[1..] + ms;
      if Step(s, ls[0]).Some? {
        ExecAppend(Step(s, ls[0]).value, ls[1..], ms);
      }
    }
  }

  ghost predicate Reaches(ttl: nat, s: System) {
    exists ls :: Exec(Start(ttl, 0), ls) == Some(s)
  }

  lemma Next(ttl: nat, s: System, l: Label, s': System)
    requires Reaches(ttl, s) && Step(s, l) == Some(s')
    ensures Reaches(ttl, s')
  {
    var ls :| Exec(Start(ttl, 0), ls) == Some(s);
    ExecAppend(Start(ttl, 0), ls, [l]);
    assert [l][1..] == [];
    assert Exec(Start(ttl, 0), ls + [l]) == Some(s');
  }

  /** User 0 has logged in, and token 0 is signed. */
  lemma FirstToken(ttl: nat) returns (s: System)
    requires ttl > 1
    ensures Reaches(ttl, s) && s.ttl == ttl && s.tokens == {Token(0, 0, 0, ttl)} && s.procs == map[]
    ensures s.usedJtis == {0} && s.redis.now == 0 && s.redis.marks == map[] && s.redis.records == map[0 := Record(0, 0, ttl)]
  {
    var start := Start(ttl, 0);
    assert Exec(start, []) == Some(start);
    var a := Login(start, 0, 0, 0, 0).value;
    Next(ttl, start, DoLogin(0, 0, 0, 0), a);
    s := Mint(a, 0).value;
    Next(ttl, a, DoMint(0), s);
  }

  lemma CheckSteps(a: System, token: Token) returns (b: System, c: System)
    requires a.procs == map[] && token in a.tokens && a.redis.now < token.expireAt && a.redis.marks == map[]
    ensures Step(a, DoPresent(0, token)) == Some(b) && Step(b, DoPassCheck(0)) == Some(c)
    ensures c == a.(procs := map[0 := Checked(token)])
  {
    b := Present(a, 0, token).value;
    c := PassCheck(b, 0).value;
  }

  /** A rotation has presented it and passed the check. */
  lemma FirstChecked(ttl: nat) returns (s: System)
    requires ttl > 1
    ensures Reaches(ttl, s) && s.ttl == ttl && s.procs == map[0 := Checked(Token(0, 0, 0, ttl))]
    ensures s.usedJtis == {0} && s.redis.now == 0 && s.redis.marks == map[] && s.redis.records == map[0 := Record(0, 0, ttl)]
  {
    var a := FirstToken(ttl);
    var b;
    b, s := CheckSteps(a, Token(0, 0, 0, ttl));
    Next(ttl, a, DoPresent(0, Token(0, 0, 0, ttl)), b);
    Next(ttl, b, DoPassCheck(0), s);
  }

  lemma TakeSteps(a: System, token: Token) returns (b: System, c: System)
    requires a.procs == map[0 := Checked(token)] && token.jti in a.redis.records
    requires Matches(token, a.redis.records[token.jti])
    ensures Step(a, DoConsume(0)) == Some(b) && Step(b, DoRemove(0)) == Some(c)
    ensures c.ttl == a.ttl && c.usedJtis == a.usedJtis && c.redis.now == a.redis.now
    ensures c.procs == map[0 := Unindexed(token)]
  {
    b := Consume(a, 0).value;
    c := Remove(b, 0).value;
  }

  /** It has taken its record. */
  lemma FirstInFlight(ttl: nat) returns (s: System)
    requires ttl > 1
    ensures Reaches(ttl, s) && s.ttl == ttl && s.usedJtis == {0} && s.redis.now == 0
    ensures s.procs == map[0 := Unindexed(Token(0, 0, 0, ttl))]
  {
    var a := FirstChecked(ttl);
    var b;
    b, s := TakeSteps(a, Token(0, 0, 0, ttl));
    Next(ttl, a, DoConsume(0), b);
    Next(ttl, b, DoRemove(0), s);
  }

  lemma LogoutSteps(a: System) returns (b: System, c: System)
    requires a.procs.Keys == {0}
    ensures Step(a, DoStartRevoke(1, 0)) == Some(b) && Step(b, DoCollect(1)) == Some(c)
    ensures c == a.(procs := c.procs) && c.procs.Keys == {0, 1} && c.procs[0] == a.procs[0]
    ensures c.procs[1].Collected? && c.procs[1].family == 0
  {
    b := StartRevoke(a, 1, 0).value;
    c := Collect(b, 1).value;
  }

  /** A logout begins and has read the family's members. */
  lemma LogoutBegins(ttl: nat) returns (s: System)
    requires ttl > 1
    ensures Reaches(ttl, s) && s.ttl == ttl && s.usedJtis == {0} && s.redis.now == 0
    ensures s.procs.Keys == {0, 1} && s.procs[0] == Unindexed(Token(0, 0, 0, ttl))
    ensures s.procs[1].Collected? && s.procs[1].family == 0
  {
    var a := FirstInFlight(ttl);
    var b;
    b, s := LogoutSteps(a);
    Next(ttl, a, DoStartRevoke(1, 0), b);
    Next(ttl, b, DoCollect(1), s);
  }

  lemma MarkSteps(a: System) returns (b: System, c: System)
    requires 0 in a.procs && 1 in a.procs && a.procs[1].Collected? && a.procs[1].family == 0
    ensures Step(a, DoLocate(1)) == Some(b) && Step(b, DoFinishRevoke(1)) == Some(c)
    ensures c.ttl == a.ttl && c.usedJtis == a.usedJtis && c.redis.now == a.redis.now
    ensures 0 in c.procs && c.procs[0] == a.procs[0] && 0 in c.redis.marks && c.redis.marks[0] == a.redis.now + a.ttl
  {
    b := Locate(a, 1).value;
    c := FinishRevoke(b, 1).value;
  }

  /** Its pipeline has marked the family. */
  lemma MarkedInFlight(ttl: nat) returns (s: System)
    requires ttl > 1
    ensures Reaches(ttl, s) && s.ttl == ttl && s.usedJtis == {0} && s.redis.now == 0
    ensures 0 in s.procs && s.procs[0] == Unindexed(Token(0, 0, 0, ttl))
    ensures 0 in s.redis.marks && s.redis.marks[0] == ttl
  {
    var a := LogoutBegins(ttl);
    var b;
    b, s := MarkSteps(a);
    Next(ttl, a, DoLocate(1), b);
    Next(ttl, b, DoFinishRevoke(1), s);
  }

  lemma OutrunningSteps(a: System) returns (b: System, c: System)
    requires 0 in a.procs && a.procs[0].Unindexed? && a.procs[0].token.family == 0 && a.usedJtis == {0}
    requires a.redis.now == 0 && a.ttl > 1 && 0 in a.redis.marks && a.redis.marks[0] == a.ttl
    ensures Step(a, DoTick(1)) == Some(b) && Step(b, DoReissue(0, 1)) == Some(c)
    ensures LiveIn(c, 1, 0) && 0 in c.redis.marks && c.redis.records[1].expireAt > c.redis.marks[0] > c.redis.now
  {
    b := Tick(a, 1).value;
    c := Reissue(b, 0, 1).value;
  }

  /** A schedule from the start, for every lifetime: a rotation that passed its check before the mark
      still issues, and its new record outlives the mark. */
  lemma InFlightRotationOutrunsMark(ttl: nat) returns (ls: seq<Label>, s: System)
    requires ttl > 1
    ensures Exec(Start(ttl, 0), ls) == Some(s)
    ensures LiveIn(s, 1, 0) && 0 in s.redis.marks && s.redis.records[1].expireAt > s.redis.marks[0] > s.redis.now
  {
    var a := MarkedInFlight(ttl);
    var b;
    b, s := OutrunningSteps(a);
    Next(ttl, a, DoTick(1), b);
    Next(ttl, b, DoReissue(0, 1), s);
    ls :| Exec(Start(ttl, 0), ls) == Some(s);
  }

  // ---------- the calls, one at a time ----------

  /** Every record can be found, and indexes name only records of their family. */
  ghost predicate Findables(r: Redis) {
    && (forall j :: j in r.records ==> Indexed(r, j) || Marked(r, j))
    && (forall f, j :: f in r.index && j in r.index[f].members && j in r.records ==> r.records[j].family == f)
  }

  // ---------- an undisturbed call is a schedule of its commands ----------

  lemma Done(s: System)
    ensures Exec(s, []) == Some(s)
  {
  }

  /** A login: the pipeline and the signature. */
  lemma LoginRuns(s: System, p: Pid, user: User, f: Family, jti: Jti) returns (ls: seq<Label>, d: System)
    requires p !in s.procs && f !in s.usedFamilies && jti !in s.usedJtis
    ensures Exec(s, ls) == Some(d) && d.procs == s.procs && d.redis == IssueIn(s.redis, s.ttl, user, f, jti)
    ensures d.tokens == s.tokens + {Token(jti, user, f, s.redis.now + s.ttl)}
  {
    var a := Login(s, p, user, f, jti).value;
    d := Mint(a, p).value;
    Done(d);
    ExecOne(a, DoMint(p), d, [], d);
    ls := [DoLogin(p, user, f, jti)] + ([DoMint(p)] + []);
    ExecOne(s, DoLogin(p, user, f, jti), a, [DoMint(p)] + [], d);
    assert d.procs == s.procs;
  }

  lemma RevokingRuns(s: System, p: Pid, f: Family) returns (ls: seq<Label>, d: System)
    requires p in s.procs && s.procs[p] == Revoking(f)
    ensures Exec(s, ls) == Some(d) && d.procs == s.procs - {p} && d.tokens == s.tokens
    ensures d.redis == RevokeIn(s.redis, s.ttl, f, MembersOf(s.redis, f), OwnerOf(s.redis, f))
  {
    var a := Collect(s, p).value;
    var b := Locate(a, p).value;
    d := FinishRevoke(b, p).value;
    Done(d);
    ExecOne(b, DoFinishRevoke(p), d, [], d);
    ExecOne(a, DoLocate(p), b, [DoFinishRevoke(p)] + [], d);
    ls := [DoCollect(p)] + ([DoLocate(p)] + ([DoFinishRevoke(p)] + []));
    ExecOne(s, DoCollect(p), a, [DoLocate(p)] + ([DoFinishRevoke(p)] + []), d);
  }

  /** A revocation of one family. */
  lemma RevocationRuns(s: System, p: Pid, f: Family) returns (ls: seq<Label>, d: System)
    requires p !in s.procs
    ensures Exec(s, ls) == Some(d) && d.procs == s.procs && d.tokens == s.tokens
    ensures d.redis == RevokeIn(s.redis, s.ttl, f, MembersOf(s.redis, f), OwnerOf(s.redis, f))
  {
    var a := StartRevoke(s, p, f).value;
    var more;
    more, d := RevokingRuns(a, p, f);
    ls := [DoStartRevoke(p, f)] + more;
    ExecOne(s, DoStartRevoke(p, f), a, more, d);
    assert d.procs == s.procs;
  }

  /** The presented token has passed the check for the mark; nothing else has changed. */
  predicate AtCheck(s: System, p: Pid, token: Token, b: System) {
    && b.ttl == s.ttl && b.redis == s.redis && b.tokens == s.tokens && b.usedJtis == s.usedJtis
    && p in b.procs && b.procs[p] == Checked(token) && b.procs - {p} == s.procs
  }

  lemma PresentAndPass(s: System, p: Pid, token: Token) returns (a: System, b: System)
    requires MayRotate(s, p, token)
    ensures Step(s, DoPresent(p, token)) == Some(a) && Step(a, DoPassCheck(p)) == Some(b) && AtCheck(s, p, token, b)
  {
    a := Present(s, p, token).value;
    b := PassCheck(a, p).value;
    assert b.procs - {p} == s.procs;
  }

  lemma ExecTwo(s: System, l: Label, a: System, m: Label, b: System, more: seq<Label>, d: System)
    requires Step(s, l) == Some(a) && Step(a, m) == Some(b) && Exec(b, more) == Some(d)
    ensures Exec(s, [l] + ([m] + more)) == Some(d)
  {
    ExecOne(a, m, b, more, d);
    ExecOne(s, l, a, [m] + more, d);
  }

  lemma TakenReissues(s: System, p: Pid, token: Token, jti: Jti) returns (ls: seq<Label>, d: System)
    requires p in s.procs && s.procs[p] == Consumed(token) && jti !in s.usedJtis
    ensures Exec(s, ls) == Some(d) && d.procs == s.procs - {p}
    ensures d.tokens == s.tokens + {Token(jti, token.user, token.family, s.redis.now + s.ttl)}
    ensures d.redis == IssueIn(Unindex(s.redis, token.family, token.jti), s.ttl, token.user, token.family, jti)
  {
    var a := Remove(s, p).value;
    var b := Reissue(a, p, jti).value;
    d := Mint(b, p).value;
    Done(d);
    ExecOne(b, DoMint(p), d, [], d);
    ExecOne(a, DoReissue(p, jti), b, [DoMint(p)] + [], d);
    ls := [DoRemove(p)] + ([DoReissue(p, jti)] + ([DoMint(p)] + []));
    ExecOne(s, DoRemove(p), a, [DoReissue(p, jti)] + ([DoMint(p)] + []), d);
  }

  lemma ConsumeTakes(s: System, p: Pid, token: Token) returns (a: System)
    requires p in s.procs && s.procs[p] == Checked(token)
    requires token.jti in s.redis.records && Matches(token, s.redis.records[token.jti])
    ensures Step(s, DoConsume(p)) == Some(a)
    ensures a == s.(redis := Taken(s.redis, token), consumed := a.consumed, procs := s.procs[p := Consumed(token)])
  {
    a := Consume(s, p).value;
  }

  lemma MatchingRuns(s: System, p: Pid, token: Token, jti: Jti, r: Redis, ttl: nat) returns (ls: seq<Label>, d: System)
    requires p in s.procs && s.procs[p] == Checked(token) && jti !in s.usedJtis && s.redis == r && s.ttl == ttl
    requires token.jti in r.records && Matches(token, r.records[token.jti])
    ensures Exec(s, ls) == Some(d) && d.procs == s.procs - {p}
    ensures d.tokens == s.tokens + {Token(jti, token.user, token.family, r.now + ttl)}
    ensures d.redis == Rotated(r, ttl, token, jti)
  {
    var a := ConsumeTakes(s, p, token);
    var more;
    more, d := TakenReissues(a, p, token, jti);
    ExecOne(s, DoConsume(p), a, more, d);
    ls := [DoConsume(p)] + more;
  }

  lemma ReplayRuns(s: System, p: Pid, token: Token) returns (ls: seq<Label>, d: System)
    requires p in s.procs && s.procs[p] == Checked(token)
    requires !(token.jti in s.redis.records && Matches(token, s.redis.records[token.jti]))
    ensures Exec(s, ls) == Some(d) && d.procs == s.procs - {p} && d.tokens == s.tokens
    ensures d.redis == Replayed(s.redis, s.ttl, token)
  {
    var a := DetectReplay(s, p).value;
    var more;
    more, d := RevokingRuns(a, p, token.family);
    ExecOne(s, DoDetectReplay(p), a, more, d);
    ls := [DoDetectReplay(p)] + more;
  }

  function Taken(r: Redis, token: Token): Redis {
    r.(records := r.records - {token.jti})
  }

  /** A new pair in place of the record. */
  function Rotated(r: Redis, ttl: nat, token: Token, jti: Jti): Redis {
    IssueIn(Unindex(Taken(r, token), token.family, token.jti), ttl, token.user, token.family, jti)
  }

  /** The whole family is revoked. */
  function Replayed(r: Redis, ttl: nat, token: Token): Redis {
    var taken := Taken(r, token);
    RevokeIn(taken, ttl, token.family, MembersOf(taken, token.family), OwnerOf(taken, token.family))
  }

  /** A presented token whose family is not marked. */
  predicate MayRotate(s: System, p: Pid, token: Token) {
    p !in s.procs && token in s.tokens && s.redis.now < token.expireAt && token.family !in s.redis.marks
  }

  lemma PairRuns(s: System, p: Pid, token: Token, jti: Jti) returns (ls: seq<Label>, d: System)
    requires MayRotate(s, p, token) && jti !in s.usedJtis
    requires token.jti in s.redis.records && Matches(token, s.redis.records[token.jti])
    ensures Exec(s, ls) == Some(d) && d.procs == s.procs && d.redis == Rotated(s.redis, s.ttl, token, jti)
    ensures d.tokens == s.tokens + {Token(jti, token.user, token.family, s.redis.now + s.ttl)}
  {
    var a, b := PresentAndPass(s, p, token);
    var more;
    more, d := MatchingRuns(b, p, token, jti, s.redis, s.ttl);
    ExecTwo(s, DoPresent(p, token), a, DoPassCheck(p), b, more, d);
    ls := [DoPresent(p, token)] + ([DoPassCheck(p)] + more);
  }

  lemma RefusalRuns(s: System, p: Pid, token: Token) returns (ls: seq<Label>, d: System)
    requires MayRotate(s, p, token)
    requires !(token.jti in s.redis.records && Matches(token, s.redis.records[token.jti]))
    ensures Exec(s, ls) == Some(d) && d.procs == s.procs && d.redis == Replayed(s.redis, s.ttl, token) && d.tokens == s.tokens
  {
    var a, b := PresentAndPass(s, p, token);
    var more;
    more, d := ReplayRuns(b, p, token);
    ExecTwo(s, DoPresent(p, token), a, DoPassCheck(p), b, more, d);
    ls := [DoPresent(p, token)] + ([DoPassCheck(p)] + more);
  }

  /** A rotation of an unmarked family: with its record it ends in a new pair, without it, which is a
      replay, or with somebody else's, in the revocation of the whole family. */
  lemma RotationRuns(s: System, p: Pid, token: Token, jti: Jti) returns (ls: seq<Label>, d: System)
    requires MayRotate(s, p, token) && jti !in s.usedJtis
    ensures Exec(s, ls) == Some(d) && d.procs == s.procs
    ensures if token.jti in s.redis.records && Matches(token, s.redis.records[token.jti])
            then
              && d.tokens == s.tokens + {Token(jti, token.user, token.family, s.redis.now + s.ttl)}
              && d.redis == Rotated(s.redis, s.ttl, token, jti)
            else d.tokens == s.tokens && d.redis == Replayed(s.redis, s.ttl, token)
  {
    if token.jti in s.redis.records && Matches(token, s.redis.records[token.jti]) {
      ls, d := PairRuns(s, p, token, jti);
    } else {
      ls, d := RefusalRuns(s, p, token);
    }
  }

  /** Between two calls: every record can be found through its family and through its user, or its
      family is marked for the rest of its life. */
  ghost predicate Whole(r: Redis, ttl: nat) {
    && Findables(r)
    && (forall j :: j in r.records ==> Listed(r, j) || Marked(r, j))
    && (forall j :: j in r.records ==> r.records[j].expireAt <= r.now + ttl)
    && (forall u :: u in r.byUser ==> r.byUser[u].expireAt <= r.now + ttl)
  }

  /** A new identifier is in no index. */
  ghost predicate NewTo(r: Redis, jti: Jti) {
    forall f :: f in r.index ==> jti !in r.index[f].members
  }

  lemma IssueKeepsFindables(r: Redis, ttl: nat, user: User, f: Family, jti: Jti)
    requires Whole(r, ttl) && NewTo(r, jti)
    ensures Findables(IssueIn(r, ttl, user, f, jti))
  {
  }

  lemma IssueKeepsListed(r: Redis, ttl: nat, user: User, f: Family, jti: Jti, j: Jti)
    requires Whole(r, ttl) && j in IssueIn(r, ttl, user, f, jti).records
    ensures var r' := IssueIn(r, ttl, user, f, jti);
            && (Listed(r', j) || Marked(r', j)) && r'.records[j].expireAt <= r.now + ttl
  {
  }

  lemma IssueKeepsWhole(r: Redis, ttl: nat, user: User, f: Family, jti: Jti, r': Redis)
    requires r' == IssueIn(r, ttl, user, f, jti)
    ensures Whole(r, ttl) && NewTo(r, jti) ==> Whole(r', ttl)
  {
    if Whole(r, ttl) && NewTo(r, jti) {
      IssueKeepsFindables(r, ttl, user, f, jti);
      forall j | j in r'.records ensures (Listed(r', j) || Marked(r', j)) && r'.records[j].expireAt <= r.now + ttl {
        IssueKeepsListed(r, ttl, user, f, jti, j);
      }
    }
  }

  lemma IssueAddsFamily(r: Redis, ttl: nat, user: User, f: Family, jti: Jti, r': Redis)
    requires r' == IssueIn(r, ttl, user, f, jti)
    ensures FamiliesOf(r', user) == FamiliesOf(r, user) + {f} && MembersOf(r', f) == MembersOf(r, f) + {jti}
    ensures forall u :: u != user ==> FamiliesOf(r', u) == FamiliesOf(r, u)
  {
  }

  /** A consumed record, or somebody else's, is gone from the records and from the family's index. */
  lemma TakenKeepsWhole(r: Redis, ttl: nat, f: Family, jti: Jti)
    requires Whole(r, ttl)
    ensures Whole(r.(records := r.records - {jti}), ttl)
  {
  }

  lemma UnindexKeepsWhole(r: Redis, ttl: nat, f: Family, jti: Jti)
    requires Whole(r, ttl) && jti !in r.records
    ensures Whole(Unindex(r, f, jti), ttl)
  {
  }

  lemma RevokeKeepsWhole(r: Redis, ttl: nat, f: Family, r': Redis)
    requires r' == RevokeIn(r, ttl, f, MembersOf(r, f), OwnerOf(r, f))
    ensures Whole(r, ttl) ==> Whole(r', ttl)
    ensures forall u: User :: OwnerOf(r, f) != Some(u) ==> FamiliesOf(r', u) == FamiliesOf(r, u)
    ensures forall u: User :: OwnerOf(r, f) == Some(u) ==> FamiliesOf(r', u) == FamiliesOf(r, u) - {f}
  {
    if Whole(r, ttl) {
      RevokedWhole(r, ttl, f, r');
    }
  }

  /** What an undisturbed revocation of `f` leaves. */
  lemma RevokedWhole(r: Redis, ttl: nat, f: Family, r': Redis)
    requires Findables(r) && forall j :: j in r.records ==> r.records[j].expireAt <= r.now + ttl
    requires r' == RevokeIn(r, ttl, f, MembersOf(r, f), OwnerOf(r, f))
    ensures Findables(r') && f in r'.marks && r'.marks[f] == r.now + ttl && f !in r'.index
    ensures forall j :: j in r'.records ==> j in r.records && r'.records[j] == r.records[j]
    ensures forall j :: j in r.records && r.records[j].family != f ==> j in r'.records
    ensures forall g :: g != f ==> (g in r'.marks <==> g in r.marks) && (g in r'.index <==> g in r.index)
    ensures forall g :: g != f && g in r.marks ==> r'.marks[g] == r.marks[g]
  {
  }

  /** What a revocation of all `families` has done before it gets to those in `todo`. */
  ghost predicate RevokedUpTo(start: Redis, ttl: nat, families: set<Family>, todo: set<Family>, r: Redis) {
    && Whole(r, ttl) && todo <= families && r.now == start.now
    && (forall f :: f in families - todo ==> f in r.marks && r.marks[f] == r.now + ttl && f !in r.index)
    && (forall j :: j in r.records ==> j in start.records && r.records[j] == start.records[j])
    && (forall j :: j in start.records && start.records[j].family !in families ==> j in r.records)
    && (forall f :: f !in families ==> (f in r.marks <==> f in start.marks) && (f in r.index <==> f in start.index))
    && (forall f :: f !in families && f in start.marks ==> r.marks[f] == start.marks[f])
  }

  lemma RevokedNext(start: Redis, ttl: nat, families: set<Family>, todo: set<Family>, f: Family, r: Redis, r': Redis)
    requires RevokedUpTo(start, ttl, families, todo, r) && f in todo
    requires r' == RevokeIn(r, ttl, f, MembersOf(r, f), OwnerOf(r, f))
    ensures RevokedUpTo(start, ttl, families, todo - {f}, r')
  {
    RevokeKeepsWhole(r, ttl, f, r');
    RevokedWhole(r, ttl, f, r');
  }

  /** The families that the user's index named are all revoked, and no unmarked record is left. */
  lemma RevokedAll(start: Redis, ttl: nat, user: User, r: Redis)
    requires Whole(start, ttl) && RevokedUpTo(start, ttl, FamiliesOf(start, user), {}, r)
    ensures forall j :: j in r.records && r.records[j].user == user ==> Marked(r, j)
  {
    forall j | j in r.records && r.records[j].user == user ensures Marked(r, j) {
      assert Listed(start, j) || Marked(start, j);
    }
  }

  lemma DropKeepsWhole(r: Redis, ttl: nat, user: User)
    requires Whole(r, ttl) && forall j :: j in r.records && r.records[j].user == user ==> Marked(r, j)
    ensures Whole(r.(byUser := r.byUser - {user}), ttl)
  {
  }

  class TokenStore {
    const ttl: nat
    var now: int
    var records: map<Jti, Record>
    var index: map<Family, Index>
    var marks: map<Family, int>
    var owners: map<Family, Owner>
    var byUser: map<User, Families>

    ghost function View(): Redis
      reads this
    {
      Redis(now, records, index, marks, owners, byUser)
    }

    method IssueTokenPair(user: User, f: Family, jti: Jti) returns (token: Token)
      modifies this`records, this`index, this`owners, this`byUser
      ensures View() == IssueIn(old(View()), ttl, user, f, jti)
      ensures token == Token(jti, user, f, now + ttl)
      ensures records == old(records)[jti := Record(user, f, now + ttl)]
      ensures MembersOf(View(), f) == MembersOf(old(View()), f) + {jti} && owners == old(owners)[f := Owner(user, now + ttl)]
      ensures FamiliesOf(View(), user) == FamiliesOf(old(View()), user) + {f}
      ensures forall u :: u != user ==> FamiliesOf(View(), u) == FamiliesOf(old(View()), u)
      ensures old(Whole(View(), ttl) && NewTo(View(), jti)) ==> Whole(View(), ttl)
    {
      ghost var before := View();
      records := records[jti := Record(user, f, now + ttl)];
      var members := if f in index then index[f].members else {};
      index := index[f := Index(members + {jti}, now + ttl)];
      owners := owners[f := Owner(user, now + ttl)];
      var families := if user in byUser then byUser[user].families else {};
      byUser := byUser[user := Families(families + {f}, now + ttl)];
      token := Token(jti, user, f, now + ttl);
      IssueKeepsWhole(before, ttl, user, f, jti, View());
      IssueAddsFamily(before, ttl, user, f, jti, View());
    }

    method DeleteRecords(members: set<Jti>)
      modifies this`records
      ensures records == old(records) - members
    {
      var todo := members;
      while todo != {}
        invariant todo <= members && records == old(records) - (members - todo)
        decreases |todo|
      {
        var jti :| jti in todo;
        records := records - {jti};
        todo := todo - {jti};
      }
      assert members - todo == members;
    }

    /** Deletes the record of every member, then the family's keys, and leaves the mark. */
    method RevokeTokenFamily(f: Family)
      modifies this`records, this`index, this`owners, this`byUser, this`marks
      ensures View() == RevokeIn(old(View()), ttl, f, MembersOf(old(View()), f), OwnerOf(old(View()), f))
      ensures records == old(records) - MembersOf(old(View()), f) && marks == old(marks)[f := now + ttl]
      ensures index == old(index) - {f} && owners == old(owners) - {f}
      ensures forall u: User :: OwnerOf(old(View()), f) != Some(u) ==> FamiliesOf(View(), u) == FamiliesOf(old(View()), u)
      ensures forall u: User :: OwnerOf(old(View()), f) == Some(u) ==> FamiliesOf(View(), u) == FamiliesOf(old(View()), u) - {f}
      ensures old(Whole(View(), ttl)) ==> Whole(View(), ttl)
    {
      ghost var before := View();
      var members := if f in index then index[f].members else {};
      var user := if f in owners then Some(owners[f].user) else None;
      DeleteRecords(members);
      index := index - {f};
      owners := owners - {f};
      if user.Some? && user.value in byUser {
        byUser := byUser[user.value := byUser[user.value].(families := byUser[user.value].families - {f})];
      }
      marks := marks[f := now + ttl];
      RevokeKeepsWhole(before, ttl, f, View());
    }

    /** `payload` is the decoded token: its signature and expiry hold. */
    method RotateRefreshToken(payload: Token, jti: Jti) returns (pair: Option<Token>)
      modifies this`records, this`index, this`owners, this`byUser, this`marks
      ensures pair.Some? <==>
                payload.family !in old(marks) && payload.jti in old(records) && Matches(payload, old(records)[payload.jti])
      ensures pair.Some? ==>
                && pair.value == Token(jti, payload.user, payload.family, now + ttl)
                && View() == Rotated(old(View()), ttl, payload, jti)
      ensures pair.Some? && jti != payload.jti ==> payload.jti !in records && payload.jti !in MembersOf(View(), payload.family)
      ensures old(Whole(View(), ttl) && NewTo(View(), jti)) ==> Whole(View(), ttl)
      ensures payload.family in old(marks) ==> View() == old(View())
      ensures pair.None? && payload.family !in old(marks) ==> View() == Replayed(old(View()), ttl, payload)
    {
      var f := payload.family;
      if f in marks {
        return None;
      }
      ghost var before := View();
      if Whole(before, ttl) {
        TakenKeepsWhole(before, ttl, f, payload.jti);
        UnindexKeepsWhole(Taken(before, payload), ttl, f, payload.jti);
      }
      var stored := if payload.jti in records then Some(records[payload.jti]) else None;
      records := records - {payload.jti};
      if stored.None? || stored.value.user != payload.user || stored.value.family != f {
        RevokeTokenFamily(f);
        return None;
      }
      if f in index {
        index := index[f := index[f].(members := index[f].members - {payload.jti})];
      }
      var token := IssueTokenPair(payload.user, f, jti);
      pair := Some(token);
    }

    /** Undisturbed, it leaves no record of the user that is not marked for the rest of its life. */
    method RevokeAllUserFamilies(user: User)
      requires Whole(View(), ttl)
      modifies this`records, this`index, this`owners, this`byUser, this`marks
      ensures user !in byUser && Whole(View(), ttl)
      ensures forall j :: j in records && records[j].user == user ==> Marked(View(), j)
      ensures forall f :: f in FamiliesOf(old(View()), user) ==> f in marks && marks[f] == now + ttl && f !in index
      ensures forall j :: j in records ==> j in old(records) && records[j] == old(records)[j]
      ensures forall j :: j in records && records[j].family in FamiliesOf(old(View()), user) ==> Marked(View(), j)
      ensures forall j :: j in old(records) && old(records)[j].family !in FamiliesOf(old(View()), user) ==> j in records
      ensures forall f :: f !in FamiliesOf(old(View()), user) ==>
                (f in marks <==> f in old(marks)) && (f in index <==> f in old(index))
    {
      ghost var start := View();
      var families := if user in byUser then byUser[user].families else {};
      var todo := families;
      while todo != {}
        invariant RevokedUpTo(start, ttl, families, todo, View())
        decreases |todo|
      {
        var f :| f in todo;
        ghost var before := View();
        RevokeTokenFamily(f);
        RevokedNext(start, ttl, families, todo, f, before, View());
        todo := todo - {f};
      }
      RevokedAll(start, ttl, user, View());
      DropKeepsWhole(View(), ttl, user);
      byUser := byUser - {user};
    }
  }
}
