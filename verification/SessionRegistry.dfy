/** Browser sessions (`browser-session-registry.ts`): who holds one, how many
    there may be, and the revisions that end them. Times are in milliseconds,
    and `now` is the clock's as a method runs. */
module SessionRegistry {
  import opened Options

  type Socket = nat
  type TransferId = nat

  const READ_LEASE_MAX_MS := 60_000
  const WRITE_LEASE_MAX_MS := 30_000
  const ISSUED_AT_SKEW_MS := 5_000
  const FLOOR_RETENTION_MS := 5 * READ_LEASE_MAX_MS + ISSUED_AT_SKEW_MS
  const FLOOR_PRUNE_INTERVAL_MS := 30_000

  datatype Limits = Limits(
    pendingHandshakes: nat, pendingHandshakesPerIp: nat, sessions: nat, sublimitsEnforced: bool,
    sessionsPerInstance: nat, sessionsPerUser: nat, sessionsPerUserInstance: nat)

  datatype Authority = Authority(
    expiresAt: int, instanceId: string, issuer: string, issuerGeneration: nat, keyThumbprint: string,
    loginSessionId: Option<string>, operation: Option<string>, origin: string, resourceKind: string,
    revision: nat, subject: string, version: nat)

  // `serial` tells sessions apart, whatever sockets they are of.
  datatype Session = Session(serial: nat, active: bool, authority: Authority)

  datatype Transfer = Transfer(active: bool, authority: Authority)

  // What a revision is of: a person across the Relay, one server of theirs, or
  // one login.
  datatype Scope = SubjectRelay | Instance(id: string) | LoginSession(id: string)

  datatype FloorKey = FloorKey(issuer: string, subject: string, scope: Scope)

  datatype Floor = Floor(minimum: nat, receivedAt: int)

  // A revision as it came.
  datatype Receipt = Receipt(key: FloorKey, minimum: nat, at: int)

  predicate SameResource(a: Authority, b: Authority) {
    a.resourceKind == b.resourceKind && a.instanceId == b.instanceId
  }

  predicate SameOwner(a: Authority, b: Authority) {
    && a.issuer == b.issuer && a.subject == b.subject && a.loginSessionId == b.loginSessionId
    && a.origin == b.origin && a.keyThumbprint == b.keyThumbprint && SameResource(a, b) && a.operation == b.operation
  }

  function ScopesOf(authority: Authority): seq<Scope> {
    [SubjectRelay]
    + (if authority.resourceKind == "instance" then [Instance(authority.instanceId)] else [])
    + (if authority.loginSessionId.Some? && authority.loginSessionId.value != ""
       then [LoginSession(authority.loginSessionId.value)] else [])
  }

  // Whether a revision of `key` is one of a capability's: of its person, and
  // of that person across the Relay, or its server, or its login.
  ghost predicate Covers(key: FloorKey, authority: Authority) {
    && key.issuer == authority.issuer && key.subject == authority.subject
    && match key.scope
       case SubjectRelay => true
       case Instance(id) => authority.resourceKind == "instance" && id == authority.instanceId
       case LoginSession(id) => id != "" && authority.loginSessionId == Some(id)
  }

  lemma ScopesCover(authority: Authority, key: FloorKey)
    ensures Covers(key, authority) <==>
              exists scope ::
                scope in ScopesOf(authority) && key == FloorKey(authority.issuer, authority.subject, scope)
  {
    if Covers(key, authority) { assert key.scope in ScopesOf(authority); }
  }

  // Two authorities have the same owner exactly if they differ only in their
  // version, expiry, generation and revision.
  lemma SameOwnerMeans(a: Authority, b: Authority)
    ensures SameOwner(a, b) <==>
              b == a.(version := b.version, expiresAt := b.expiresAt, issuerGeneration := b.issuerGeneration,
                      revision := b.revision)
  {
  }

  // ---- Revision floors.

  function Pruned(floors: map<FloorKey, Floor>, nextPruneAt: int, now: int): map<FloorKey, Floor> {
    if now < nextPruneAt then floors
    else map k | k in floors && floors[k].receivedAt > now - FLOOR_RETENTION_MS :: floors[k]
  }

  function FloorOf(floors: map<FloorKey, Floor>, key: FloorKey): nat {
    if key in floors then floors[key].minimum else 0
  }

  function Highest(floors: map<FloorKey, Floor>, authority: Authority, scopes: seq<Scope>): (minimum: nat)
    ensures forall scope | scope in scopes ::
              FloorOf(floors, FloorKey(authority.issuer, authority.subject, scope)) <= minimum
  {
    if scopes == [] then 0
    else
      var last := |scopes| - 1;
      var rest := Highest(floors, authority, scopes[..last]);
      var floor := FloorOf(floors, FloorKey(authority.issuer, authority.subject, scopes[last]));
      assert forall scope | scope in scopes :: scope == scopes[last] || scope in scopes[..last];
      if floor > rest then floor else rest
  }

  function Minimum(floors: map<FloorKey, Floor>, authority: Authority): nat {
    Highest(floors, authority, ScopesOf(authority))
  }

  // The highest floor of those that are of a capability.
  ghost predicate IsMinimum(floors: map<FloorKey, Floor>, authority: Authority, minimum: nat) {
    && (forall key | key in floors && Covers(key, authority) :: floors[key].minimum <= minimum)
    && (minimum > 0 ==> exists key :: key in floors && Covers(key, authority) && floors[key].minimum == minimum)
  }

  lemma {:induction false} HighestIsOne(floors: map<FloorKey, Floor>, authority: Authority, scopes: seq<Scope>)
    ensures Highest(floors, authority, scopes) > 0 ==>
              exists scope :: scope in scopes && var key := FloorKey(authority.issuer, authority.subject, scope);
                key in floors && floors[key].minimum == Highest(floors, authority, scopes)
  {
    if scopes != [] {
      var last := |scopes| - 1;
      HighestIsOne(floors, authority, scopes[..last]);
      var key := FloorKey(authority.issuer, authority.subject, scopes[last]);
      if Highest(floors, authority, scopes) == FloorOf(floors, key) {
        assert scopes[last] in scopes;
      }
    }
  }

  lemma MinimumIsHighest(floors: map<FloorKey, Floor>, authority: Authority)
    ensures IsMinimum(floors, authority, Minimum(floors, authority))
  {
    hide ScopesOf, Highest, Covers;
    var scopes := ScopesOf(authority);
    forall key | key in floors && Covers(key, authority) ensures floors[key].minimum <= Minimum(floors, authority) {
      ScopesCover(authority, key);
    }
    if Minimum(floors, authority) > 0 {
      HighestIsOne(floors, authority, scopes);
      var scope :| scope in scopes && var key := FloorKey(authority.issuer, authority.subject, scope);
        key in floors && floors[key].minimum == Highest(floors, authority, scopes);
      ScopesCover(authority, FloorKey(authority.issuer, authority.subject, scope));
    }
  }

  function GenerationOf(generations: map<string, nat>, issuer: string): nat {
    if issuer in generations then generations[issuer] else 0
  }

  predicate Current(floors: map<FloorKey, Floor>, generations: map<string, nat>, authority: Authority) {
    authority.version == 2 ==>
      authority.issuerGeneration == GenerationOf(generations, authority.issuer)
      && authority.revision >= Minimum(floors, authority)
  }

  // An issuer's generation, once it is known to have reached `generation`.
  function Reached(generations: map<string, nat>, issuer: string, generation: nat): map<string, nat> {
    generations[issuer := if GenerationOf(generations, issuer) > generation then GenerationOf(generations, issuer)
                          else generation]
  }

  ghost predicate SessionsCurrent(
    established: map<Socket, Session>, floors: map<FloorKey, Floor>, generations: map<string, nat>)
  {
    forall s | s in established && established[s].active :: Current(floors, generations, established[s].authority)
  }

  ghost predicate TransfersCurrent(
    transfers: map<TransferId, Transfer>, floors: map<FloorKey, Floor>, generations: map<string, nat>)
  {
    forall t | t in transfers && transfers[t].active :: Current(floors, generations, transfers[t].authority)
  }

  // What a generation's rise makes outdated without ending it.
  predicate Bound(active: bool, authority: Authority, issuer: string) {
    active && authority.version == 2 && authority.issuer == issuer
  }

  lemma {:induction false} HighestPruned(
    floors: map<FloorKey, Floor>, nextPruneAt: int, now: int, authority: Authority, scopes: seq<Scope>)
    ensures Highest(Pruned(floors, nextPruneAt, now), authority, scopes) <= Highest(floors, authority, scopes)
  {
    if scopes != [] { HighestPruned(floors, nextPruneAt, now, authority, scopes[..|scopes| - 1]); }
  }

  // What was current stays so as floors are pruned and a generation is
  // reached, exactly if it is no rise or the authority isn't bound to it.
  lemma ReachedKeeps(
    floors: map<FloorKey, Floor>, nextPruneAt: int, now: int, generations: map<string, nat>, issuer: string,
    generation: nat, authority: Authority)
    requires Current(floors, generations, authority)
    ensures forall later | later == floors || later == Pruned(floors, nextPruneAt, now) ::
              Current(later, Reached(generations, issuer, generation), authority) <==>
                generation <= GenerationOf(generations, issuer) || !Bound(true, authority, issuer)
  {
    hide Pruned;
    HighestPruned(floors, nextPruneAt, now, authority, ScopesOf(authority));
  }

  // A generation's rise leaves what is active current exactly if it is no
  // rise, or nothing active is bound to the issuer's last one.
  lemma SessionsKeep(
    before: map<Socket, Session>, floors: map<FloorKey, Floor>, nextPruneAt: int, now: int,
    generations: map<string, nat>, issuer: string, generation: nat,
    after: map<Socket, Session>, later: map<FloorKey, Floor>, serial: nat)
    requires SessionsCurrent(before, floors, generations)
    requires later == floors || later == Pruned(floors, nextPruneAt, now)
    requires forall s | s in after && after[s].serial < serial :: s in before && after[s] == before[s]
    requires forall s | s in after && after[s].serial >= serial ::
               Current(later, Reached(generations, issuer, generation), after[s].authority)
    ensures SessionsCurrent(after, later, Reached(generations, issuer, generation)) <==>
              || generation <= GenerationOf(generations, issuer)
              || forall s | s in after && after[s].serial < serial ::
                 !Bound(after[s].active, after[s].authority, issuer)
  {
    hide Current, Pruned, Reached, GenerationOf;
    forall s | s in after && after[s].serial < serial && after[s].active
      ensures Current(later, Reached(generations, issuer, generation), after[s].authority) <==>
                generation <= GenerationOf(generations, issuer) || !Bound(true, after[s].authority, issuer)
    {
      ReachedKeeps(floors, nextPruneAt, now, generations, issuer, generation, after[s].authority);
    }
  }

  lemma TransfersKeep(
    before: map<TransferId, Transfer>, floors: map<FloorKey, Floor>, nextPruneAt: int, now: int,
    generations: map<string, nat>, issuer: string, generation: nat,
    after: map<TransferId, Transfer>, later: map<FloorKey, Floor>)
    requires TransfersCurrent(before, floors, generations)
    requires later == floors || later == Pruned(floors, nextPruneAt, now)
    requires forall t | t in before :: t in after && after[t] == before[t]
    requires forall t | t in after && t !in before ::
               Current(later, Reached(generations, issuer, generation), after[t].authority)
    ensures TransfersCurrent(after, later, Reached(generations, issuer, generation)) <==>
              || generation <= GenerationOf(generations, issuer)
              || forall t | t in before :: !Bound(before[t].active, before[t].authority, issuer)
  {
    hide Current, Pruned, Reached, GenerationOf;
    forall t | t in before && before[t].active
      ensures Current(later, Reached(generations, issuer, generation), before[t].authority) <==>
                generation <= GenerationOf(generations, issuer) || !Bound(true, before[t].authority, issuer)
    {
      ReachedKeeps(floors, nextPruneAt, now, generations, issuer, generation, before[t].authority);
    }
  }

  // A floor stands for every revision received, until all it could exclude
  // has long expired.
  ghost predicate FloorsFit(floors: map<FloorKey, Floor>, receipts: set<Receipt>, clock: int) {
    forall r | r in receipts ::
      || r.at <= clock - FLOOR_RETENTION_MS
      || (r.key in floors && floors[r.key].minimum >= r.minimum && floors[r.key].receivedAt >= r.at)
  }

  // And no floor is higher than what was received of it.
  ghost predicate FloorsReceived(floors: map<FloorKey, Floor>, receipts: set<Receipt>) {
    forall key | key in floors :: exists at :: Receipt(key, floors[key].minimum, at) in receipts
  }

  // At its issuer's generation, and at or above every revision of it received,
  // unless it is of a version that has neither.
  ghost predicate UpToDate(receipts: set<Receipt>, generations: map<string, nat>, authority: Authority) {
    authority.version == 2 ==>
      && authority.issuerGeneration == (if authority.issuer in generations then generations[authority.issuer] else 0)
      && forall r | r in receipts && Covers(r.key, authority) :: authority.revision >= r.minimum
  }

  // At another generation than its issuer's, or below a revision of it that
  // was received since `since`.
  ghost predicate OutOfDate(receipts: set<Receipt>, generations: map<string, nat>, authority: Authority, since: int) {
    && authority.version == 2
    && (|| authority.issuerGeneration != (if authority.issuer in generations then generations[authority.issuer] else 0)
        || exists r :: r in receipts && Covers(r.key, authority) && r.at > since && authority.revision < r.minimum)
  }

  // A revision of an issuer's, as it comes: whose, of what, and the least that
  // is still good.
  type Item = (string, Scope, nat)

  ghost predicate Excludes(issuer: string, item: Item, authority: Authority) {
    authority.version == 2 && Covers(FloorKey(issuer, item.0, item.1), authority) && authority.revision < item.2
  }

  ghost function Received(issuer: string, items: seq<Item>, now: int): set<Receipt> {
    set item | item in items :: Receipt(FloorKey(issuer, item.0, item.1), item.2, now)
  }

  lemma NoneReceived(issuer: string, now: int, items: seq<Item>)
    ensures Received(issuer, items[..0], now) == {}
  {
  }

  lemma ReceivedMore(issuer: string, items: seq<Item>, i: nat, now: int)
    requires i < |items|
    ensures Received(issuer, items[..i + 1], now) ==
            Received(issuer, items[..i], now) + {Receipt(FloorKey(issuer, items[i].0, items[i].1), items[i].2, now)}
  {
    assert items[..i + 1] == items[..i] + [items[i]];
  }

  lemma ExcludedIsOutOfDate(
    receipts: set<Receipt>, generations: map<string, nat>, issuer: string, items: seq<Item>, now: int, item: Item,
    authority: Authority)
    requires Received(issuer, items, now) <= receipts && item in items && Excludes(issuer, item, authority)
    ensures OutOfDate(receipts, generations, authority, now - FLOOR_RETENTION_MS)
  {
    hide Covers;
    assert Receipt(FloorKey(issuer, item.0, item.1), item.2, now) in Received(issuer, items, now);
  }

  // What ends as revisions come, and what stays.
  lemma RevisionEnds(
    before: map<Socket, Session>, after: map<Socket, Session>, floors: map<FloorKey, Floor>,
    generations: map<string, nat>, receipts: set<Receipt>, clock: int, issuer: string, items: seq<Item>, now: int)
    requires FloorsFit(floors, receipts, clock) && FloorsReceived(floors, receipts) && clock <= now
    requires Outdated(before, after, floors, generations) && Received(issuer, items, now) <= receipts
    ensures forall s | s in after && after[s].active ::
              !OutOfDate(receipts, generations, after[s].authority, now - FLOOR_RETENTION_MS)
    ensures forall s, item | s in after && after[s].active && item in items ::
              !Excludes(issuer, item, after[s].authority)
    ensures forall s | s in before && UpToDate(receipts, generations, before[s].authority) ::
              s in after && after[s] == before[s]
  {
    hide FloorsFit, FloorsReceived, Current, UpToDate, Received, Excludes;
    forall s | s in before
      ensures UpToDate(receipts, generations, before[s].authority) ==> after[s] == before[s]
      ensures after[s].active ==> !OutOfDate(receipts, generations, after[s].authority, now - FLOOR_RETENTION_MS)
    {
      CurrentMeans(floors, generations, receipts, clock, before[s].authority);
    }
    forall s, item | s in after && after[s].active && item in items
      ensures !Excludes(issuer, item, after[s].authority)
    {
      if Excludes(issuer, item, after[s].authority) {
        ExcludedIsOutOfDate(receipts, generations, issuer, items, now, item, after[s].authority);
      }
    }
  }

  lemma RevisionEndsTransfers(
    before: map<TransferId, Transfer>, after: map<TransferId, Transfer>, floors: map<FloorKey, Floor>,
    generations: map<string, nat>, receipts: set<Receipt>, clock: int, issuer: string, items: seq<Item>, now: int)
    requires FloorsFit(floors, receipts, clock) && FloorsReceived(floors, receipts) && clock <= now
    requires forall t | t in before :: t in after <==> Current(floors, generations, before[t].authority)
    requires after.Keys <= before.Keys && forall t | t in after :: after[t] == before[t]
    requires Received(issuer, items, now) <= receipts
    ensures forall t | t in after :: !OutOfDate(receipts, generations, after[t].authority, now - FLOOR_RETENTION_MS)
    ensures forall t, item | t in after && item in items :: !Excludes(issuer, item, after[t].authority)
    ensures forall t | t in before && UpToDate(receipts, generations, before[t].authority) :: t in after
  {
    hide FloorsFit, FloorsReceived, Current, UpToDate, Received, Excludes;
    forall t | t in before
      ensures UpToDate(receipts, generations, before[t].authority) ==> t in after
      ensures t in after ==> !OutOfDate(receipts, generations, after[t].authority, now - FLOOR_RETENTION_MS)
    {
      CurrentMeans(floors, generations, receipts, clock, before[t].authority);
    }
    forall t, item | t in after && item in items ensures !Excludes(issuer, item, after[t].authority) {
      if Excludes(issuer, item, after[t].authority) {
        ExcludedIsOutOfDate(receipts, generations, issuer, items, now, item, after[t].authority);
      }
    }
  }

  // A generation only rises, and no other issuer's does.
  lemma ReachedRises(generations: map<string, nat>, issuer: string, generation: nat)
    ensures var later := Reached(generations, issuer, generation);
            && later.Keys == generations.Keys + {issuer} && later[issuer] >= generation
            && (issuer in generations ==> later[issuer] >= generations[issuer])
            && (later[issuer] == generation || (issuer in generations && later[issuer] == generations[issuer]))
            && forall other | other in generations && other != issuer :: later[other] == generations[other]
  {
  }

  // What is up to date is current, and what is out of date isn't.
  lemma CurrentMeans(
    floors: map<FloorKey, Floor>, generations: map<string, nat>, receipts: set<Receipt>, clock: int,
    authority: Authority)
    requires FloorsFit(floors, receipts, clock) && FloorsReceived(floors, receipts)
    ensures UpToDate(receipts, generations, authority) ==> Current(floors, generations, authority)
    ensures OutOfDate(receipts, generations, authority, clock - FLOOR_RETENTION_MS) ==>
              !Current(floors, generations, authority)
  {
    hide Minimum, Covers;
    MinimumIsHighest(floors, authority);
  }

  // A capability's lease, as its validation bounds it.
  predicate LeaseFits(issuedAt: int, expiresAt: int, writes: bool) {
    issuedAt < expiresAt <= issuedAt + if writes then WRITE_LEASE_MAX_MS else READ_LEASE_MAX_MS
  }

  lemma PruneKeeps(floors: map<FloorKey, Floor>, nextPruneAt: int, receipts: set<Receipt>, clock: int, now: int)
    requires FloorsFit(floors, receipts, clock) && clock <= now
    ensures FloorsFit(Pruned(floors, nextPruneAt, now), receipts, now)
    ensures FloorsReceived(floors, receipts) ==> FloorsReceived(Pruned(floors, nextPruneAt, now), receipts)
  {
  }

  // Pruning never readmits what a floor excluded. A capability whose revision
  // is below one received, and which was issued by then, is current at no
  // later time it hasn't expired by.
  lemma FloorsExclude(
    floors: map<FloorKey, Floor>, nextPruneAt: int, generations: map<string, nat>, receipts: set<Receipt>, clock: int,
    now: int, authority: Authority, issuedAt: int, writes: bool, r: Receipt)
    requires FloorsFit(floors, receipts, clock) && clock <= now
    requires authority.version == 2 && LeaseFits(issuedAt, authority.expiresAt, writes) && authority.expiresAt > now
    requires r in receipts && Covers(r.key, authority)
    requires issuedAt <= r.at + ISSUED_AT_SKEW_MS && authority.revision < r.minimum
    ensures !Current(Pruned(floors, nextPruneAt, now), generations, authority)
  {
    PruneKeeps(floors, nextPruneAt, receipts, clock, now);
    assert r.at > now - FLOOR_RETENTION_MS;
    MinimumIsHighest(Pruned(floors, nextPruneAt, now), authority);
  }

  function Raised(floors: map<FloorKey, Floor>, key: FloorKey, minimum: nat, now: int): map<FloorKey, Floor> {
    floors[key := if key !in floors || minimum > floors[key].minimum then Floor(minimum, now)
                  else floors[key].(receivedAt := now)]
  }

  lemma RaiseKeeps(floors: map<FloorKey, Floor>, receipts: set<Receipt>, clock: int, key: FloorKey, minimum: nat)
    requires FloorsFit(floors, receipts, clock) && forall r | r in receipts :: r.at <= clock
    ensures FloorsFit(Raised(floors, key, minimum, clock), receipts + {Receipt(key, minimum, clock)}, clock)
    ensures FloorsReceived(floors, receipts) ==>
              FloorsReceived(Raised(floors, key, minimum, clock), receipts + {Receipt(key, minimum, clock)})
  {
    var raised, more := Raised(floors, key, minimum, clock), receipts + {Receipt(key, minimum, clock)};
    if FloorsReceived(floors, receipts) {
      forall k | k in raised ensures exists at :: Receipt(k, raised[k].minimum, at) in more {
        if k == key && raised[k].minimum == minimum {
          assert Receipt(key, minimum, clock) in more;
        } else {
          var at :| Receipt(k, floors[k].minimum, at) in receipts;
          assert Receipt(k, raised[k].minimum, at) in more;
        }
      }
    }
  }

  // ---- Sessions and their limits.

  // Whom a session counts with: those of its resource, its person, or both.
  datatype Group = OfResource | OfUser | OfUserResource

  predicate Together(group: Group, a: Authority, b: Authority) {
    && a.issuer == b.issuer
    && (group != OfUser ==> SameResource(a, b))
    && (group != OfResource ==> a.subject == b.subject)
  }

  function Members(established: map<Socket, Session>, group: Group, authority: Authority): set<Socket> {
    set s | s in established && Together(group, established[s].authority, authority)
  }

  function LimitOf(limits: Limits, group: Group): nat {
    match group
    case OfResource => limits.sessionsPerInstance
    case OfUser => limits.sessionsPerUser
    case OfUserResource => limits.sessionsPerUserInstance
  }

  ghost predicate Within(limits: Limits, established: map<Socket, Session>) {
    && |established| <= limits.sessions
    && (limits.sublimitsEnforced ==> forall s, group | s in established ::
          |Members(established, group, established[s].authority)| <= LimitOf(limits, group))
  }

  ghost predicate Unshared(established: map<Socket, Session>) {
    forall a, b | a in established && b in established && a != b ::
      !SameOwner(established[a].authority, established[b].authority)
  }

  // A session ends, and nothing else changes.
  function Deactivated(established: map<Socket, Session>, socket: Socket): map<Socket, Session> {
    if socket in established then established[socket := established[socket].(active := false)] else established
  }

  lemma SameMembers(a: map<Socket, Session>, b: map<Socket, Session>, group: Group, authority: Authority)
    requires a.Keys == b.Keys
    requires forall s | s in a :: Together(group, a[s].authority, authority) <==>
             Together(group, b[s].authority, authority)
    ensures Members(a, group, authority) == Members(b, group, authority)
  {
  }

  lemma FewerMembers(some: set<Socket>, all: set<Socket>)
    requires some <= all
    ensures |some| <= |all|
  {
    assert all == some + (all - some);
  }

  // Sessions whose owners are the same as they were leave limits as they were.
  lemma OwnersKeep(limits: Limits, a: map<Socket, Session>, b: map<Socket, Session>)
    requires Within(limits, a) && Unshared(a) && b.Keys == a.Keys
    requires forall s | s in a :: SameOwner(a[s].authority, b[s].authority)
    ensures Within(limits, b) && Unshared(b)
  {
    assert |a| == |a.Keys| && |b| == |b.Keys|;
    forall s, group | s in b && limits.sublimitsEnforced
      ensures |Members(b, group, b[s].authority)| <= LimitOf(limits, group)
    {
      SameMembers(a, b, group, b[s].authority);
      assert Members(a, group, b[s].authority) == Members(a, group, a[s].authority);
    }
  }

  lemma ReleaseKeeps(limits: Limits, established: map<Socket, Session>, socket: Socket)
    requires Within(limits, established) && Unshared(established)
    ensures Within(limits, established - {socket}) && Unshared(established - {socket})
  {
    var less := established - {socket};
    assert less.Keys == established.Keys - {socket};
    FewerMembers(less.Keys, established.Keys);
    forall s, group | s in less && limits.sublimitsEnforced
      ensures |Members(less, group, less[s].authority)| <= LimitOf(limits, group)
    {
      FewerMembers(Members(less, group, less[s].authority), Members(established, group, less[s].authority));
    }
  }

  // Room for one more.
  ghost predicate Admits(limits: Limits, established: map<Socket, Session>, authority: Authority) {
    && |established| < limits.sessions
    && (limits.sublimitsEnforced ==> forall group: Group ::
          |Members(established, group, authority)| < LimitOf(limits, group))
  }

  lemma AdmitKeeps(limits: Limits, established: map<Socket, Session>, socket: Socket, session: Session)
    requires Within(limits, established) && Unshared(established) && Admits(limits, established, session.authority)
    requires forall s | s in established && s != socket :: !SameOwner(established[s].authority, session.authority)
    ensures Within(limits, established[socket := session]) && Unshared(established[socket := session])
  {
    var more := established[socket := session];
    hide Members, Together, LimitOf, Unshared, SameOwner;
    assert more.Keys == established.Keys + {socket};
    UnsharedStill(established, socket, session);
    forall s, group | s in more && limits.sublimitsEnforced
      ensures |Members(more, group, more[s].authority)| <= LimitOf(limits, group)
    {
      AdmitKeepsGroup(limits, established, socket, session, group, s);
    }
  }

  lemma UnsharedStill(established: map<Socket, Session>, socket: Socket, session: Session)
    requires Unshared(established)
    requires forall s | s in established && s != socket :: !SameOwner(established[s].authority, session.authority)
    ensures Unshared(established[socket := session])
  {
  }

  lemma AdmitKeepsGroup(
      limits: Limits, established: map<Socket, Session>, socket: Socket, session: Session, group: Group, s: Socket)
    requires Within(limits, established) && Admits(limits, established, session.authority) && limits.sublimitsEnforced
    requires s == socket || s in established
    ensures var more := established[socket := session];
            |Members(more, group, more[s].authority)| <= LimitOf(limits, group)
  {
    var more := established[socket := session];
    var authority := more[s].authority;
    if Together(group, session.authority, authority) {
      FewerMembers(Members(more, group, authority), Members(established, group, session.authority) + {socket});
    } else {
      FewerMembers(Members(more, group, authority), Members(established, group, authority));
    }
  }

  // ---- Handshakes under way.

  function PendingOf(pending: map<Socket, string>, ip: string): set<Socket> {
    set s | s in pending && pending[s] == ip
  }

  function CountOf(byIp: map<string, nat>, ip: string): nat {
    if ip in byIp then byIp[ip] else 0
  }

  // Each address's count is that of its handshakes, kept while it has any.
  ghost predicate Counted(pending: map<Socket, string>, byIp: map<string, nat>) {
    (forall ip :: CountOf(byIp, ip) == |PendingOf(pending, ip)|) && forall ip | ip in byIp :: byIp[ip] > 0
  }

  // A handshake counted again isn't counted truly: one must be new.
  lemma CountsNew(pending: map<Socket, string>, byIp: map<string, nat>, socket: Socket, ip: string)
    requires Counted(pending, byIp)
    ensures Counted(pending[socket := ip], byIp[ip := CountOf(byIp, ip) + 1]) <==> socket !in pending
  {
    var more, counts := pending[socket := ip], byIp[ip := CountOf(byIp, ip) + 1];
    assert PendingOf(more, ip) == PendingOf(pending, ip) + {socket};
    if socket !in pending {
      forall other ensures CountOf(counts, other) == |PendingOf(more, other)| {
        if other != ip { assert PendingOf(more, other) == PendingOf(pending, other); }
      }
    } else if pending[socket] == ip {
      assert socket in PendingOf(pending, ip);
      assert PendingOf(more, ip) == PendingOf(pending, ip);
      assert CountOf(counts, ip) != |PendingOf(more, ip)|;
    } else {
      var was := pending[socket];
      assert PendingOf(more, was) == PendingOf(pending, was) - {socket};
      assert socket in PendingOf(pending, was);
      assert CountOf(counts, was) != |PendingOf(more, was)|;
    }
  }

  lemma CountsReleased(pending: map<Socket, string>, byIp: map<string, nat>, socket: Socket)
    requires Counted(pending, byIp) && socket in pending
    ensures var ip := pending[socket];
            var next := CountOf(byIp, ip) - 1;
            && next >= 0
            && Counted(pending - {socket}, if next > 0 then byIp[ip := next] else byIp - {ip})
  {
    var ip := pending[socket];
    assert socket in PendingOf(pending, ip);
    var less := pending - {socket};
    assert PendingOf(less, ip) == PendingOf(pending, ip) - {socket};
    var next := CountOf(byIp, ip) - 1;
    var counts := if next > 0 then byIp[ip := next] else byIp - {ip};
    forall other ensures CountOf(counts, other) == |PendingOf(less, other)| {
      if other != ip { assert PendingOf(less, other) == PendingOf(pending, other); }
    }
  }

  datatype Answer = Accepted | Unauthorized | AtCapacity

  // A session once ended stays ended.
  ghost predicate NoneRevived(before: map<Socket, Session>, after: map<Socket, Session>) {
    forall s | s in before && s in after && after[s].serial == before[s].serial :: after[s].active ==> before[s].active
  }

  lemma NoneRevivedYet(established: map<Socket, Session>)
    ensures NoneRevived(established, established)
  {
  }

  // Exactly the sessions no longer current ended.
  ghost predicate Outdated(
    before: map<Socket, Session>, after: map<Socket, Session>, floors: map<FloorKey, Floor>,
    generations: map<string, nat>)
  {
    && after.Keys == before.Keys
    && forall s | s in after ::
         after[s] == if Current(floors, generations, before[s].authority) then before[s]
           else before[s].(active := false)
  }

  lemma OutdatedEnd(
    before: map<Socket, Session>, after: map<Socket, Session>, floors: map<FloorKey, Floor>,
    generations: map<string, nat>)
    requires Outdated(before, after, floors, generations)
    ensures NoneRevived(before, after) && after.Keys == before.Keys
    ensures forall s | s in after && after[s].active :: Current(floors, generations, after[s].authority)
  {
    hide Current;
  }

  // No revision received by the time a capability was issued is above it.
  ghost predicate NoneAbove(receipts: set<Receipt>, authority: Authority, issuedAt: int) {
    forall r | r in receipts && Covers(r.key, authority) && issuedAt <= r.at + ISSUED_AT_SKEW_MS ::
      authority.revision >= r.minimum
  }

  function Without(established: map<Socket, Session>, replaced: Option<Socket>): map<Socket, Session> {
    if replaced.Some? then established - {replaced.value} else established
  }

  // Sessions once one is replaced and, if `accepted`, a new one begun.
  function Begun(established: map<Socket, Session>, replaced: Option<Socket>, accepted: bool, socket: Socket,
                 serial: nat, authority: Authority): map<Socket, Session>
  {
    if accepted then Without(established, replaced)[socket := Session(serial, true, authority)]
    else Without(established, replaced)
  }

  lemma NothingBegun(established: map<Socket, Session>, socket: Socket, serial: nat, authority: Authority)
    ensures Begun(established, None, false, socket, serial, authority) == established
    ensures NoneRevived(established, established)
  {
  }

  lemma BegunKeep(
    before: map<Socket, Session>, floors: map<FloorKey, Floor>, nextPruneAt: int, now: int,
    generations: map<string, nat>, generation: nat, replaced: Option<Socket>, accepted: bool, socket: Socket,
    serial: nat, authority: Authority, later: map<FloorKey, Floor>)
    requires SessionsCurrent(before, floors, generations)
    requires later == floors || later == Pruned(floors, nextPruneAt, now)
    requires forall s | s in before :: before[s].serial < serial
    requires accepted ==> Current(later, Reached(generations, authority.issuer, generation), authority)
    ensures var after := Begun(before, replaced, accepted, socket, serial, authority);
            SessionsCurrent(after, later, Reached(generations, authority.issuer, generation)) <==>
              || generation <= GenerationOf(generations, authority.issuer)
              || forall s | s in after && after[s].serial < serial ::
                   !Bound(after[s].active, after[s].authority, authority.issuer)
  {
    hide Current, Pruned, Reached, GenerationOf, SessionsCurrent, Bound;
    SessionsKeep(before, floors, nextPruneAt, now, generations, authority.issuer, generation,
                 Begun(before, replaced, accepted, socket, serial, authority), later, serial);
  }

  class Registry {
    const limits: Limits
    var established: map<Socket, Session>
    var transfers: map<TransferId, Transfer>
    var floors: map<FloorKey, Floor>
    var nextFloorPruneAt: int
    var generations: map<string, nat>
    var pending: map<Socket, string>
    var pendingByIp: map<string, nat>
    var serials: nat                  // sessions there have been
    ghost var receipts: set<Receipt>  // revisions there have been
    ghost var clock: int              // no later than now

    ghost predicate Valid()
      reads this
    {
      && Within(limits, established) && Unshared(established)
      && (forall s | s in established :: established[s].serial < serials)
      && |pending| <= limits.pendingHandshakes && Counted(pending, pendingByIp)
      && (forall s | s in pending :: pending[s] != "")
      && FloorsFit(floors, receipts, clock) && (forall r | r in receipts :: r.at <= clock)
      && FloorsReceived(floors, receipts)
    }

    constructor (limits: Limits)
      ensures Valid() && this.limits == limits && established == map[] && pending == map[] && receipts == {}
      ensures floors == map[] && generations == map[] && serials == 0 && clock == 0
    {
      this.limits := limits;
      established, transfers, floors, nextFloorPruneAt, generations := map[], map[], map[], 0, map[];
      pending, pendingByIp := map[], map[];
      serials, receipts, clock := 0, {}, 0;
    }

    // A handshake begins, on a new socket. Its address is text, "unknown" if
    // it isn't known.
    method AcquirePending(socket: Socket, peerIp: string, enforceIp: bool) returns (admitted: bool)
      requires Valid() && socket !in pending && peerIp != ""
      modifies this`pending, this`pendingByIp
      ensures Valid()
      ensures admitted <==>
                |old(pending)| < limits.pendingHandshakes &&
                (enforceIp ==> |PendingOf(old(pending), peerIp)| < limits.pendingHandshakesPerIp)
      ensures pending == if admitted then old(pending)[socket := peerIp] else old(pending)
    {
      hide Within, Unshared, FloorsFit, FloorsReceived;
      if |pending| >= limits.pendingHandshakes { return false; }
      var current := CountOf(pendingByIp, peerIp);
      assert current == |PendingOf(pending, peerIp)|;
      if enforceIp && current >= limits.pendingHandshakesPerIp { return false; }
      CountsNew(pending, pendingByIp, socket, peerIp);
      assert pending[socket := peerIp].Keys == pending.Keys + {socket};
      pending := pending[socket := peerIp];
      pendingByIp := pendingByIp[peerIp := current + 1];
      admitted := true;
    }

    // A handshake ends, however it went.
    method ReleasePending(socket: Socket)
      requires Valid()
      modifies this`pending, this`pendingByIp
      ensures Valid() && pending == old(pending) - {socket}
    {
      hide Within, Unshared, FloorsFit, FloorsReceived, Counted, PendingOf;
      if socket !in pending {
        assert pending - {socket} == pending;
        return;
      }
      CountsReleased(pending, pendingByIp, socket);
      var peerIp := pending[socket];
      assert (pending - {socket}).Keys == pending.Keys - {socket};
      pending := pending - {socket};
      var next := CountOf(pendingByIp, peerIp) - 1;
      if next > 0 { pendingByIp := pendingByIp[peerIp := next]; } else { pendingByIp := pendingByIp - {peerIp}; }
    }

    method PruneFloors(now: int)
      requires Valid() && clock <= now
      modifies this`floors, this`nextFloorPruneAt, this`clock
      ensures Valid() && clock == now && floors == Pruned(old(floors), old(nextFloorPruneAt), now)
      ensures now < nextFloorPruneAt && (now < old(nextFloorPruneAt) ==> nextFloorPruneAt == old(nextFloorPruneAt))
    {
      hide Within, Unshared, Counted, FloorsReceived;
      PruneKeeps(floors, nextFloorPruneAt, receipts, clock, now);
      clock := now;
      if now < nextFloorPruneAt { return; }
      nextFloorPruneAt := now + FLOOR_PRUNE_INTERVAL_MS;
      floors := map k | k in floors && floors[k].receivedAt > now - FLOOR_RETENTION_MS :: floors[k];
    }

    method MinimumRevision(authority: Authority, now: int) returns (minimum: nat)
      requires Valid() && clock <= now
      modifies this`floors, this`nextFloorPruneAt, this`clock
      ensures Valid() && clock == now && floors == Pruned(old(floors), old(nextFloorPruneAt), now)
      ensures now < nextFloorPruneAt && (now < old(nextFloorPruneAt) ==> nextFloorPruneAt == old(nextFloorPruneAt))
      ensures minimum == Minimum(floors, authority) && IsMinimum(floors, authority, minimum)
    {
      hide Within, Unshared, Counted, FloorsFit, FloorsReceived;
      PruneFloors(now);
      MinimumIsHighest(floors, authority);
      minimum := 0;
      var scopes := ScopesOf(authority);
      for i := 0 to |scopes|
        invariant minimum == Highest(floors, authority, scopes[..i])
      {
        assert scopes[..i + 1][..i] == scopes[..i];
        var floor := FloorOf(floors, FloorKey(authority.issuer, authority.subject, scopes[i]));
        if floor > minimum { minimum := floor; }
      }
      assert scopes[..|scopes|] == scopes;
    }

    method AuthorityIsCurrent(authority: Authority, now: int) returns (current: bool)
      requires Valid() && clock <= now
      modifies this`floors, this`nextFloorPruneAt, this`clock
      ensures Valid() && clock >= old(clock) && clock <= now
      ensures floors == old(floors) || floors == Pruned(old(floors), old(nextFloorPruneAt), now)
      ensures now < old(nextFloorPruneAt) ==> floors == old(floors) && nextFloorPruneAt == old(nextFloorPruneAt)
      ensures current == Current(floors, generations, authority)
    {
      hide Within, Unshared, Counted, FloorsFit, FloorsReceived;
      if authority.version != 2 { return true; }
      if authority.issuerGeneration != GenerationOf(generations, authority.issuer) { return false; }
      var minimum := MinimumRevision(authority, now);
      current := authority.revision >= minimum;
    }

    method RaiseGeneration(issuer: string, generation: nat)
      requires Valid()
      modifies this`generations
      ensures Valid() && generations == Reached(old(generations), issuer, generation)
    {
      hide Within, Unshared, Counted, FloorsFit, FloorsReceived;
      var known := GenerationOf(generations, issuer);
      generations := generations[issuer := if known > generation then known else generation];
    }

    method WithinLimits(authority: Authority) returns (admits: bool)
      requires Valid()
      ensures admits <==> Admits(limits, established, authority)
    {
      hide Within, Unshared, Counted, FloorsFit, FloorsReceived, Members, Together, Tallied, SameResource;
      if |established| >= limits.sessions { return false; }
      if !limits.sublimitsEnforced { return true; }
      NoneSeen(established, authority);
      var instance, user, userInstance := 0, 0, 0;
      var rest := established.Keys;
      assert established.Keys - rest == {};
      while rest != {}
        invariant rest <= established.Keys
        invariant Tallied(established, authority, established.Keys - rest, instance, user, userInstance)
        decreases |rest|
      {
        var socket :| socket in rest;
        var existing := established[socket].authority;
        OneTallied(established, authority, established.Keys - rest, socket, instance, user, userInstance);
        assert established.Keys - (rest - {socket}) == established.Keys - rest + {socket};
        if existing.issuer == authority.issuer {
          var sameResource := SameResource(existing, authority);
          if sameResource { instance := instance + 1; }
          if existing.subject == authority.subject { user := user + 1; }
          if existing.subject == authority.subject && sameResource { userInstance := userInstance + 1; }
        }
        rest := rest - {socket};
      }
      assert established.Keys - rest == established.Keys;
      AllSeen(established, authority, established.Keys, instance, user, userInstance);
      GroupsAll(limits, established, authority);
      admits :=
        instance < limits.sessionsPerInstance && user < limits.sessionsPerUser
          && userInstance < limits.sessionsPerUserInstance;
    }

    method FindOwner(socket: Socket, authority: Authority) returns (owner: Option<Socket>)
      ensures owner.Some? ==>
                owner.value != socket && owner.value in established
                  && SameOwner(established[owner.value].authority, authority)
      ensures owner.None? ==> forall s | s in established && s != socket ::
              !SameOwner(established[s].authority, authority)
    {
      hide SameOwner;
      var rest := established.Keys;
      while rest != {}
        invariant rest <= established.Keys
        invariant forall s | s in established && s !in rest && s != socket ::
                  !SameOwner(established[s].authority, authority)
        decreases |rest|
      {
        var candidate :| candidate in rest;
        if candidate != socket && SameOwner(established[candidate].authority, authority) { return Some(candidate); }
        rest := rest - {candidate};
      }
      owner := None;
    }

    // A socket closed: its session, if it had one, is gone.
    method Release(socket: Socket)
      requires Valid()
      modifies this`established, this`pending, this`pendingByIp
      ensures Valid() && established == old(established) - {socket}
      ensures pending == old(pending) - {socket}
    {
      hide Within, Unshared, Counted, FloorsFit, FloorsReceived;
      ReleasePending(socket);
      ReleaseKeeps(limits, established, socket);
      established := established - {socket};
    }

    method Establish(socket: Socket, authority: Authority)
      requires Valid() && Admits(limits, established, authority)
      requires forall s | s in established && s != socket :: !SameOwner(established[s].authority, authority)
      modifies this`established, this`serials
      ensures Valid() && established == old(established)[socket := Session(old(serials), true, authority)]
      ensures serials == old(serials) + 1
    {
      hide Within, Unshared, Counted, FloorsFit, FloorsReceived, SameOwner, Admits;
      AdmitKeeps(limits, established, socket, Session(serials, true, authority));
      established := established[socket := Session(serials, true, authority)];
      serials := serials + 1;
    }

    // Whether a capability is good now, for one that began its handshake when
    // these were its issuer's generation and least revision.
    method Authorized(authority: Authority, generation: nat, minimum: nat, now: int) returns (authorized: bool)
      requires Valid() && clock <= now
      modifies this`floors, this`nextFloorPruneAt, this`clock
      ensures Valid() && clock <= now
      ensures floors == old(floors) || floors == Pruned(old(floors), old(nextFloorPruneAt), now)
      ensures authorized <==>
                && authority.expiresAt > now && Current(floors, generations, authority)
                && (authority.version == 2 ==>
                      authority.issuerGeneration == generation && authority.revision >= minimum)
      ensures authorized && authority.version == 2 ==> FloorsFit(floors, receipts, now)
    {
      hide Within, Unshared, Counted, FloorsFit, FloorsReceived;
      if authority.expiresAt <= now { return false; }
      if authority.version != 2 { return true; }
      if authority.issuerGeneration != generation
         || authority.issuerGeneration != GenerationOf(generations, authority.issuer)
         || authority.revision < minimum {
        return false;
      }
      var least := MinimumRevision(authority, now);
      authorized := authority.revision >= least;
    }

    // A session begins, in place of any its owner has.
    method Admit(socket: Socket, authority: Authority) returns (admitted: bool, replaced: Option<Socket>)
      requires Valid()
      modifies this`established, this`serials, this`pending, this`pendingByIp
      ensures Valid() && NoneRevived(old(established), established)
      ensures replaced.Some? <==>
                exists s | s in old(established) && s != socket :: SameOwner(old(established)[s].authority, authority)
      ensures replaced.Some? ==>
                && replaced.value in old(established) && replaced.value != socket
                && SameOwner(old(established)[replaced.value].authority, authority)
      ensures established == Begun(old(established), replaced, admitted, socket, old(serials), authority)
      ensures admitted <==> Admits(limits, Without(old(established), replaced), authority)
      ensures pending == if replaced.Some? then old(pending) - {replaced.value} else old(pending)
      ensures serials == old(serials) + if admitted then 1 else 0
    {
      hide Within, Unshared, Counted, FloorsFit, FloorsReceived, SameOwner, Admits;
      replaced := FindOwner(socket, authority);
      if replaced.Some? {
        OneOwner(limits, established, replaced.value, authority);
        Release(replaced.value);
      }
      admitted := WithinLimits(authority);
      if admitted { Establish(socket, authority); }
    }

    // Whether its capability is good, and there is room for its session.
    method Decide(
      socket: Socket, authority: Authority, generation: nat, minimum: nat, now: int, ghost issuedAt: int,
      ghost writes: bool)
      returns (answer: Answer, replaced: Option<Socket>)
      requires Valid() && clock <= now
      modifies this`established, this`serials, this`pending, this`pendingByIp, this`floors, this`nextFloorPruneAt,
        this`clock
      ensures Valid() && clock <= now && NoneRevived(old(established), established)
      ensures answer != Unauthorized <==>
                && authority.expiresAt > now && Current(floors, generations, authority)
                && (authority.version == 2 ==>
                      authority.issuerGeneration == generation && authority.revision >= minimum)
      ensures replaced.Some? <==>
                answer != Unauthorized &&
                exists s | s in old(established) && s != socket :: SameOwner(old(established)[s].authority, authority)
      ensures replaced.Some? ==>
                && replaced.value in old(established) && replaced.value != socket
                && SameOwner(old(established)[replaced.value].authority, authority)
      ensures established == Begun(old(established), replaced, answer == Accepted, socket, old(serials), authority)
      ensures answer == Accepted <==>
                answer != Unauthorized && Admits(limits, Without(old(established), replaced), authority)
      ensures pending == old(pending) - if replaced.Some? then {replaced.value} else {}
      ensures serials == old(serials) + if answer == Accepted then 1 else 0
      ensures floors == old(floors) || floors == Pruned(old(floors), old(nextFloorPruneAt), now)
      ensures answer == Accepted && authority.version == 2 && LeaseFits(issuedAt, authority.expiresAt, writes) ==>
                NoneAbove(receipts, authority, issuedAt)
      ensures forall s | s in old(established) :: old(established)[s].serial < old(serials)
    {
      hide Within, Unshared, Counted, FloorsFit, FloorsReceived, SameOwner, Admits, LeaseFits, Current, Pruned,
        NoneAbove, Begun, NoneRevived;
      answer, replaced := Unauthorized, None;
      NothingBegun(established, socket, serials, authority);
      var authorized := Authorized(authority, generation, minimum, now);
      if !authorized { return; }
      if authority.version == 2 && LeaseFits(issuedAt, authority.expiresAt, writes) {
        NoneExcluded(floors, generations, receipts, now, authority, issuedAt, writes);
      }
      var admitted;
      admitted, replaced := Admit(socket, authority);
      answer := if admitted then Accepted else AtCapacity;
    }

    // A handshake done: its session begins.
    method Activate(
      socket: Socket, open: bool, authority: Authority, generation: nat, minimum: nat, now: int,
      ghost issuedAt: int, ghost writes: bool)
      returns (answer: Answer, replaced: Option<Socket>)
      requires Valid() && clock <= now
      modifies this
      ensures Valid() && clock <= now && NoneRevived(old(established), established)
      ensures serials == old(serials) + if answer == Accepted then 1 else 0
      ensures answer != Unauthorized <==>
                && open && socket in old(pending) && authority.expiresAt > now
                && Current(floors, generations, authority)
                && (authority.version == 2 ==>
                      authority.issuerGeneration == generation && authority.revision >= minimum)
      ensures replaced.Some? <==>
                answer != Unauthorized &&
                exists s | s in old(established) && s != socket :: SameOwner(old(established)[s].authority, authority)
      ensures replaced.Some? ==>
                && replaced.value in old(established) && replaced.value != socket
                && SameOwner(old(established)[replaced.value].authority, authority)
      ensures established == Begun(old(established), replaced, answer == Accepted, socket, old(serials), authority)
      ensures answer == Accepted <==>
                answer != Unauthorized && Admits(limits, Without(old(established), replaced), authority)
      ensures pending == (if open then old(pending) - {socket} else old(pending))
                         - (if replaced.Some? then {replaced.value} else {})
      ensures transfers == old(transfers)
      ensures generations == if open && socket in old(pending) then
                               Reached(old(generations), authority.issuer, generation)
                             else old(generations)
      ensures floors == old(floors) || floors == Pruned(old(floors), old(nextFloorPruneAt), now)
      // Older sessions stay current exactly if the generation doesn't rise, or
      // none left active is bound to the last one.
      ensures open && socket in old(pending) && SessionsCurrent(old(established), old(floors), old(generations)) ==>
                (SessionsCurrent(established, floors, generations) <==>
                  || generation <= GenerationOf(old(generations), authority.issuer)
                  || forall s | s in established && established[s].serial < old(serials) ::
                       !Bound(established[s].active, established[s].authority, authority.issuer))
      // However long ago a floor was pruned.
      ensures answer == Accepted && authority.version == 2 && LeaseFits(issuedAt, authority.expiresAt, writes) ==>
                NoneAbove(receipts, authority, issuedAt)
    {
      hide Within, Unshared, Counted, FloorsFit, FloorsReceived, SameOwner, Admits, LeaseFits, Current, Minimum,
        GenerationOf, Reached, Pruned, SessionsCurrent, Bound, NoneAbove, Begun, NoneRevived, Registry.Valid;
      answer, replaced := Unauthorized, None;
      NothingBegun(established, socket, serials, authority);
      if socket !in pending || !open { return; }
      ReleasePending(socket);
      RaiseGeneration(authority.issuer, generation);
      answer, replaced := Decide(socket, authority, generation, minimum, now, issuedAt, writes);
      if SessionsCurrent(old(established), old(floors), old(generations)) {
        BegunKeep(old(established), old(floors), old(nextFloorPruneAt), now, old(generations), generation,
                  replaced, answer == Accepted, socket, old(serials), authority, floors);
      }
    }

    // A session goes on under a newer capability of the same owner.
    method Renew(socket: Socket, open: bool, authority: Authority, now: int, ghost issuedAt: int, ghost writes: bool)
      returns (renewed: bool)
      requires Valid() && clock <= now
      modifies this
      ensures Valid() && NoneRevived(old(established), established)
      ensures !renewed ==> established == old(established)
      ensures renewed <==>
                && open && socket in old(established) && old(established)[socket].active
                && old(established)[socket].authority.expiresAt > now && authority.expiresAt > now
                && authority.version == 2
                && SameOwner(old(established)[socket].authority, authority) && Current(floors, generations, authority)
      ensures renewed ==>
                && socket in old(established)
                && established == old(established)[socket := old(established)[socket].(authority := authority)]
      ensures renewed && LeaseFits(issuedAt, authority.expiresAt, writes) ==>
                NoneAbove(receipts, authority, issuedAt)
    {
      hide Within, Unshared, Counted, FloorsFit, FloorsReceived, SameOwner, LeaseFits, Minimum, GenerationOf,
        NoneAbove, NoneRevived;
      NoneRevivedYet(established);
      if socket !in established { return false; }
      var session := established[socket];
      if !session.active || !open || session.authority.expiresAt <= now || authority.expiresAt <= now
         || !SameOwner(session.authority, authority) || authority.version != 2
         || authority.issuerGeneration != GenerationOf(generations, authority.issuer) {
        return false;
      }
      var least := MinimumRevision(authority, now);
      if authority.revision < least { return false; }
      if LeaseFits(issuedAt, authority.expiresAt, writes) {
        NoneExcluded(floors, generations, receipts, now, authority, issuedAt, writes);
      }
      Extend(socket, authority);
      renewed := true;
    }

    // A session goes on under its owner's new capability.
    method Extend(socket: Socket, authority: Authority)
      requires Valid() && socket in established && SameOwner(established[socket].authority, authority)
      modifies this`established
      ensures Valid() && NoneRevived(old(established), established)
      ensures established == old(established)[socket := old(established)[socket].(authority := authority)]
    {
      hide Within, Unshared, Counted, FloorsFit, FloorsReceived, SameOwner;
      OwnersSame(established, socket, authority);
      OwnersKeep(limits, established, established[socket := established[socket].(authority := authority)]);
      established := established[socket := established[socket].(authority := authority)];
    }

    method Deactivate(socket: Socket)
      requires Valid()
      modifies this`established
      ensures Valid() && established == Deactivated(old(established), socket)
    {
      hide Within, Unshared, Counted, FloorsFit, FloorsReceived;
      if socket !in established { return; }
      var ended := established[socket].(active := false);
      OwnersSame(established, socket, ended.authority);
      OwnersKeep(limits, established, established[socket := ended]);
      established := established[socket := ended];
    }

    method IsActive(socket: Socket, now: int) returns (active: bool)
      requires Valid()
      modifies this`established
      ensures Valid() && NoneRevived(old(established), established)
      ensures active <==>
                && socket in old(established) && old(established)[socket].active
                && old(established)[socket].authority.expiresAt > now
      ensures established == if active || socket !in old(established) || !old(established)[socket].active then
                               old(established)
                             else Deactivated(old(established), socket)
    {
      hide Within, Unshared, Counted, FloorsFit, FloorsReceived;
      if socket !in established || !established[socket].active { return false; }
      if established[socket].authority.expiresAt <= now {
        Deactivate(socket);
        return false;
      }
      active := true;
    }

    // The timer of session `serial` runs out, if it is still its socket's.
    method Expire(socket: Socket, serial: nat)
      requires Valid()
      modifies this`established
      ensures Valid() && NoneRevived(old(established), established)
      ensures established == if socket in old(established) && old(established)[socket].serial == serial then
                               Deactivated(old(established), socket)
                             else
                               old(established)
    {
      hide Within, Unshared, Counted, FloorsFit, FloorsReceived;
      if socket in established && established[socket].serial == serial { Deactivate(socket); }
    }

    // A transfer begins, under a capability checked against its issuer's
    // generation and least revision.
    method RegisterTransfer(id: TransferId, authority: Authority, generation: nat, minimum: nat, now: int)
      returns (active: bool)
      requires Valid() && clock <= now && id !in transfers
      modifies this
      ensures Valid() && established == old(established)
      ensures transfers == if active then old(transfers)[id := Transfer(true, authority)] else old(transfers)
      ensures active <==>
                && authority.expiresAt > now && Current(floors, generations, authority)
                && (authority.version != 1 ==>
                      authority.issuerGeneration == generation && authority.revision >= minimum)
      ensures generations == Reached(old(generations), authority.issuer, generation)
      ensures floors == old(floors) || floors == Pruned(old(floors), old(nextFloorPruneAt), now)
      ensures SessionsCurrent(established, old(floors), old(generations)) ==>
                (SessionsCurrent(established, floors, generations) <==>
                  || generation <= GenerationOf(old(generations), authority.issuer)
                  || forall s | s in established ::
                       !Bound(established[s].active, established[s].authority, authority.issuer))
      ensures TransfersCurrent(old(transfers), old(floors), old(generations)) ==>
                (TransfersCurrent(transfers, floors, generations) <==>
                  || generation <= GenerationOf(old(generations), authority.issuer)
                  || forall t | t in old(transfers) ::
                       !Bound(old(transfers)[t].active, old(transfers)[t].authority, authority.issuer))
    {
      hide Within, Unshared, Counted, FloorsFit, FloorsReceived, Current, Reached, Pruned, GenerationOf,
        SessionsCurrent, TransfersCurrent, Bound;
      RaiseGeneration(authority.issuer, generation);
      active := false;
      if authority.expiresAt > now {
        var current := AuthorityIsCurrent(authority, now);
        active := current && (authority.version == 1
                              || (authority.issuerGeneration == generation && authority.revision >= minimum));
      }
      if active { transfers := transfers[id := Transfer(true, authority)]; }
      if SessionsCurrent(established, old(floors), old(generations)) {
        SessionsKeep(established, old(floors), old(nextFloorPruneAt), now, old(generations), authority.issuer,
                     generation, established, floors, serials);
      }
      if TransfersCurrent(old(transfers), old(floors), old(generations)) {
        TransfersKeep(old(transfers), old(floors), old(nextFloorPruneAt), now, old(generations), authority.issuer,
                      generation, transfers, floors);
      }
    }

    method TransferActive(id: TransferId, now: int) returns (active: bool)
      requires Valid() && clock <= now
      modifies this`floors, this`nextFloorPruneAt, this`clock
      ensures Valid()
      ensures active <==>
                id in transfers && transfers[id].active && Current(floors, generations, transfers[id].authority)
    {
      hide Within, Unshared, Counted, FloorsFit, FloorsReceived, Current;
      if id !in transfers || !transfers[id].active { return false; }
      active := AuthorityIsCurrent(transfers[id].authority, now);
    }

    method ReleaseTransfer(id: TransferId)
      requires Valid()
      modifies this`transfers
      ensures Valid() && transfers == old(transfers) - {id}
    {
      hide Within, Unshared, Counted, FloorsFit, FloorsReceived;
      transfers := transfers - {id};
    }

    // One revision: its floor rises, or stands for longer.
    method RaiseFloor(key: FloorKey, minimum: nat, now: int)
      requires Valid() && clock == now
      modifies this`floors, this`receipts
      ensures Valid() && floors == Raised(old(floors), key, minimum, now)
      ensures receipts == old(receipts) + {Receipt(key, minimum, now)}
    {
      hide Within, Unshared, Counted, FloorsFit, FloorsReceived;
      RaiseKeeps(floors, receipts, clock, key, minimum);
      if key !in floors || minimum > floors[key].minimum {
        floors := floors[key := Floor(minimum, now)];
      } else {
        floors := floors[key := floors[key].(receivedAt := now)];
      }
      receipts := receipts + {Receipt(key, minimum, now)};
    }

    // An issuer's revisions: what they exclude ends at once.
    method Revise(issuer: string, items: seq<Item>, generation: nat, now: int)
      requires Valid() && clock <= now
      modifies this
      ensures Valid() && NoneRevived(old(established), established) && established.Keys == old(established).Keys
      ensures forall s | s in established && established[s].active ::
              Current(floors, generations, established[s].authority)
      ensures forall t | t in old(transfers) ::
                t in transfers <==> Current(floors, generations, old(transfers)[t].authority)
      ensures transfers.Keys <= old(transfers).Keys && forall t | t in transfers :: transfers[t] == old(transfers)[t]
      ensures generations == Reached(old(generations), issuer, generation)
      ensures Outdated(old(established), established, floors, generations)
      ensures receipts == old(receipts) + Received(issuer, items, now)
      // Nothing left active is below a revision of it, of these or of any
      // received since a floor is kept, or of another generation.
      ensures forall s, item | s in established && established[s].active && item in items ::
                !Excludes(issuer, item, established[s].authority)
      ensures forall t, item | t in transfers && item in items :: !Excludes(issuer, item, transfers[t].authority)
      ensures forall s | s in established && established[s].active ::
                !OutOfDate(receipts, generations, established[s].authority, now - FLOOR_RETENTION_MS)
      ensures forall t | t in transfers ::
                !OutOfDate(receipts, generations, transfers[t].authority, now - FLOOR_RETENTION_MS)
      // What is up to date is as it was.
      ensures forall s | s in old(established) && UpToDate(receipts, generations, old(established)[s].authority) ::
                s in established && established[s] == old(established)[s]
      ensures forall t | t in old(transfers) && UpToDate(receipts, generations, old(transfers)[t].authority) ::
                t in transfers
    {
      hide Within, Unshared, Counted, FloorsFit, FloorsReceived, Current, Raised, Pruned, Outdated, NoneRevived,
        Received, OutOfDate, UpToDate, Excludes, Reached;
      PruneFloors(now);
      NoneReceived(issuer, now, items);
      RaiseGeneration(issuer, generation);
      for i := 0 to |items|
        invariant Valid() && clock == now && now < nextFloorPruneAt
        invariant receipts == old(receipts) + Received(issuer, items[..i], now)
        invariant established == old(established) && transfers == old(transfers)
        invariant generations == Reached(old(generations), issuer, generation)
      {
        ReceivedMore(issuer, items, i, now);
        RaiseFloor(FloorKey(issuer, items[i].0, items[i].1), items[i].2, now);
      }
      assert items[..|items|] == items;
      EndSessions(now);
      EndTransfers(now);
      OutdatedEnd(old(established), established, floors, generations);
      RevisionEnds(old(established), established, floors, generations, receipts, clock, issuer, items, now);
      RevisionEndsTransfers(old(transfers), transfers, floors, generations, receipts, clock, issuer, items, now);
    }

    // Ends the sessions that are no longer current.
    method EndSessions(now: int)
      requires Valid() && clock <= now < nextFloorPruneAt
      modifies this`established, this`floors, this`nextFloorPruneAt, this`clock
      ensures Valid() && clock <= now < nextFloorPruneAt
      ensures Outdated(old(established), established, floors, generations)
    {
      hide Registry.Valid, Current, Pruned;
      ghost var kept := floors;
      var sockets := established.Keys;
      while sockets != {}
        invariant Valid() && clock <= now < nextFloorPruneAt && floors == kept
        invariant sockets <= established.Keys == old(established).Keys
        invariant forall s | s in established ::
                    established[s] == if s in sockets || Current(kept, generations, old(established)[s].authority)
                                      then old(established)[s] else old(established)[s].(active := false)
        decreases |sockets|
      {
        var socket :| socket in sockets;
        sockets := sockets - {socket};
        var current := AuthorityIsCurrent(established[socket].authority, now);
        if !current { Deactivate(socket); }
      }
    }

    // And the transfers.
    method EndTransfers(now: int)
      requires Valid() && clock <= now < nextFloorPruneAt
      modifies this`transfers, this`floors, this`nextFloorPruneAt, this`clock
      ensures Valid() && clock <= now && floors == old(floors)
      ensures forall t | t in old(transfers) ::
                t in transfers <==> Current(floors, generations, old(transfers)[t].authority)
      ensures transfers.Keys <= old(transfers).Keys && forall t | t in transfers :: transfers[t] == old(transfers)[t]
    {
      hide Within, Unshared, Counted, FloorsFit, FloorsReceived, Current, Pruned;
      ghost var kept := floors;
      var ids := transfers.Keys;
      while ids != {}
        invariant Valid() && clock <= now < nextFloorPruneAt && floors == kept
        invariant ids <= transfers.Keys <= old(transfers).Keys
        invariant forall t | t in transfers :: transfers[t] == old(transfers)[t]
        invariant forall t | t in old(transfers) && t !in ids ::
                    t in transfers <==> Current(kept, generations, old(transfers)[t].authority)
        decreases |ids|
      {
        var id :| id in ids;
        ids := ids - {id};
        var current := AuthorityIsCurrent(transfers[id].authority, now);
        if !current { transfers := transfers - {id}; }
      }
    }

    method EndSessionsOf(issuer: string)
      requires Valid()
      modifies this`established
      ensures Valid() && established.Keys == old(established).Keys
      ensures forall s | s in established ::
                established[s] == if old(established)[s].authority.issuer != issuer then old(established)[s]
                                  else old(established)[s].(active := false)
    {
      hide Within, Unshared, Counted, FloorsFit, FloorsReceived;
      var sockets := established.Keys;
      while sockets != {}
        invariant Valid() && sockets <= established.Keys == old(established).Keys
        invariant forall s | s in established ::
                    established[s] == if s in sockets || old(established)[s].authority.issuer != issuer
                                      then old(established)[s] else old(established)[s].(active := false)
        decreases |sockets|
      {
        var socket :| socket in sockets;
        sockets := sockets - {socket};
        if established[socket].authority.issuer == issuer { Deactivate(socket); }
      }
    }

    // An issuer's grant is gone, and everything under it.
    method RevokeIssuer(issuer: string)
      requires Valid()
      modifies this`established, this`transfers
      ensures Valid() && NoneRevived(old(established), established) && established.Keys == old(established).Keys
      ensures forall s | s in established && established[s].authority.issuer == issuer :: !established[s].active
      ensures forall s | s in established && established[s].authority.issuer != issuer ::
              established[s] == old(established)[s]
      ensures transfers == map t | t in old(transfers) && old(transfers)[t].authority.issuer != issuer ::
              old(transfers)[t]
    {
      hide Within, Unshared, Counted, FloorsFit, FloorsReceived;
      EndSessionsOf(issuer);
      transfers := map t | t in transfers && transfers[t].authority.issuer != issuer :: transfers[t];
    }
  }

  lemma OwnersSame(established: map<Socket, Session>, socket: Socket, authority: Authority)
    requires socket in established && SameOwner(established[socket].authority, authority)
    ensures var after := established[socket := established[socket].(authority := authority)];
            && after.Keys == established.Keys
            && forall s | s in established :: SameOwner(established[s].authority, after[s].authority)
    ensures var after := established[socket := established[socket].(active := false)];
            && after.Keys == established.Keys
            && forall s | s in established :: SameOwner(established[s].authority, after[s].authority)
  {
  }

  // Only one session has an owner.
  lemma OneOwner(limits: Limits, established: map<Socket, Session>, owner: Socket, authority: Authority)
    requires Unshared(established) && owner in established && SameOwner(established[owner].authority, authority)
    ensures forall s | s in established && s != owner :: !SameOwner(established[s].authority, authority)
  {
    forall s | s in established && s != owner ensures !SameOwner(established[s].authority, authority) {
      assert !SameOwner(established[s].authority, established[owner].authority);
    }
  }

  lemma NoneExcluded(
    floors: map<FloorKey, Floor>, generations: map<string, nat>, receipts: set<Receipt>, now: int,
    authority: Authority, issuedAt: int, writes: bool)
    requires FloorsFit(floors, receipts, now) && Current(floors, generations, authority)
    requires authority.version == 2 && LeaseFits(issuedAt, authority.expiresAt, writes) && authority.expiresAt > now
    ensures NoneAbove(receipts, authority, issuedAt)
  {
    hide FloorsFit, Current, LeaseFits, Covers;
    forall r | r in receipts && Covers(r.key, authority) && issuedAt <= r.at + ISSUED_AT_SKEW_MS
      ensures authority.revision >= r.minimum
    {
      if authority.revision < r.minimum {
        FloorsExclude(floors, now + 1, generations, receipts, now, now, authority, issuedAt, writes, r);
        assert false;
      }
    }
  }

  lemma OneSeen(
    established: map<Socket, Session>, group: Group, authority: Authority, seen: set<Socket>, socket: Socket)
    requires socket in established && socket !in seen
    ensures |Members(established, group, authority) * (seen + {socket})| ==
            |Members(established, group, authority) * seen| +
            if Together(group, established[socket].authority, authority) then 1 else 0
  {
    var members := Members(established, group, authority);
    if socket in members {
      assert members * (seen + {socket}) == members * seen + {socket};
    } else {
      assert members * (seen + {socket}) == members * seen;
    }
  }

  // The sessions seen so far that count with one under `authority`.
  ghost predicate Tallied(
    established: map<Socket, Session>, authority: Authority, seen: set<Socket>, instance: nat, user: nat,
    userInstance: nat)
  {
    && instance == |Members(established, OfResource, authority) * seen|
    && user == |Members(established, OfUser, authority) * seen|
    && userInstance == |Members(established, OfUserResource, authority) * seen|
  }

  lemma OneTallied(
    established: map<Socket, Session>, authority: Authority, seen: set<Socket>, socket: Socket,
    instance: nat, user: nat, userInstance: nat)
    requires socket in established && socket !in seen
    requires Tallied(established, authority, seen, instance, user, userInstance)
    ensures var existing := established[socket].authority;
            var sameResource, sameUser := SameResource(existing, authority), existing.subject == authority.subject;
            if existing.issuer != authority.issuer then
              Tallied(established, authority, seen + {socket}, instance, user, userInstance)
            else
              Tallied(established, authority, seen + {socket}, instance + (if sameResource then 1 else 0),
                      user + (if sameUser then 1 else 0), userInstance + if sameUser && sameResource then 1 else 0)
  {
    hide Members, Together;
    TogetherMeans(established[socket].authority, authority);
    OneSeen(established, OfResource, authority, seen, socket);
    OneSeen(established, OfUser, authority, seen, socket);
    OneSeen(established, OfUserResource, authority, seen, socket);
  }

  lemma NoneSeen(established: map<Socket, Session>, authority: Authority)
    ensures Tallied(established, authority, {}, 0, 0, 0)
  {
  }

  lemma AllSeen(
    established: map<Socket, Session>, authority: Authority, seen: set<Socket>, instance: nat, user: nat,
    userInstance: nat)
    requires seen == established.Keys && Tallied(established, authority, seen, instance, user, userInstance)
    ensures instance == |Members(established, OfResource, authority)|
    ensures user == |Members(established, OfUser, authority)|
    ensures userInstance == |Members(established, OfUserResource, authority)|
  {
    assert Members(established, OfResource, authority) * seen == Members(established, OfResource, authority);
    assert Members(established, OfUser, authority) * seen == Members(established, OfUser, authority);
    assert Members(established, OfUserResource, authority) * seen == Members(established, OfUserResource, authority);
  }

  lemma TogetherMeans(a: Authority, b: Authority)
    ensures Together(OfResource, a, b) <==> a.issuer == b.issuer && SameResource(a, b)
    ensures Together(OfUser, a, b) <==> a.issuer == b.issuer && a.subject == b.subject
    ensures Together(OfUserResource, a, b) <==> a.issuer == b.issuer && a.subject == b.subject && SameResource(a, b)
  {
  }

  lemma GroupsAll(limits: Limits, established: map<Socket, Session>, authority: Authority)
    ensures (forall group: Group :: |Members(established, group, authority)| < LimitOf(limits, group)) <==>
            (&& |Members(established, OfResource, authority)| < limits.sessionsPerInstance
             && |Members(established, OfUser, authority)| < limits.sessionsPerUser
             && |Members(established, OfUserResource, authority)| < limits.sessionsPerUserInstance)
  {
    hide Members;
    assert LimitOf(limits, OfResource) == limits.sessionsPerInstance
           && LimitOf(limits, OfUser) == limits.sessionsPerUser
           && LimitOf(limits, OfUserResource) == limits.sessionsPerUserInstance;
  }

  lemma {:induction false} NoFloors(authority: Authority, scopes: seq<Scope>)
    ensures Highest(map[], authority, scopes) == 0
  {
    if scopes != [] { NoFloors(authority, scopes[..|scopes| - 1]); }
  }

  // A handshake from beginning to end, while no floor is known.
  method Handshake(registry: Registry, socket: Socket, authority: Authority, now: int)
    requires registry.Valid() && registry.clock <= now && registry.pending == map[] && registry.floors == map[]
    requires registry.limits.pendingHandshakes > 0 && registry.limits.sessions > |registry.established|
    requires !registry.limits.sublimitsEnforced && authority.expiresAt > now
    requires GenerationOf(registry.generations, authority.issuer) <= authority.issuerGeneration
    requires forall s | s in registry.established && s != socket ::
               !SameOwner(registry.established[s].authority, authority)
    modifies registry
    ensures registry.Valid() && registry.clock <= now && registry.pending == map[] && registry.floors == map[]
    ensures registry.established ==
            old(registry.established)[socket := Session(old(registry.serials), true, authority)]
    ensures registry.serials == old(registry.serials) + 1
    ensures registry.generations == old(registry.generations)[authority.issuer := authority.issuerGeneration]
  {
    NoFloors(authority, ScopesOf(authority));
    hide Registry.Valid, Highest, ScopesOf, NoneAbove, NoneRevived, SameOwner, LeaseFits, SessionsCurrent, Bound;
    var admitted := registry.AcquirePending(socket, "192.0.2.1", false);
    var answer, replaced :=
      registry.Activate(socket, true, authority, authority.issuerGeneration, 0, now, now, false);
  }

  // A handshake under a newer generation, and the session begun before it
  // goes on, though its capability is no longer current.
  method LeftBehind(limits: Limits, first: Authority, second: Authority, now: int) returns (registry: Registry)
    requires limits.pendingHandshakes > 0 && limits.sessions > 1 && !limits.sublimitsEnforced && 0 <= now
    requires first.version == 2 && second.version == 2 && first.issuer == second.issuer && !SameOwner(first, second)
    requires first.expiresAt > now && second.expiresAt > now && first.issuerGeneration < second.issuerGeneration
    ensures registry.Valid()
    ensures registry.established == map[0 := Session(0, true, first), 1 := Session(1, true, second)]
    ensures !Current(registry.floors, registry.generations, first)
  {
    registry := new Registry(limits);
    hide Registry.Valid, Minimum, SameOwner;
    Handshake(registry, 0, first, now);
    Handshake(registry, 1, second, now);
  }
}
