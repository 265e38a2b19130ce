/** The security-epoch protocol of the data layer. */
module EpochProtocol {
  import opened Wrappers
  import opened Accounts
  import opened OidcRecords

  // Any number of `upsert` calls, each cut at its awaits, are interleaved with account
  // mutations whose version bump and whose revocation are separate steps.
  //
  // A run is a sequence of events from the empty world. An event that is not enabled changes
  // nothing but the step count, so a theorem about `Run(events)` for all `events` is a theorem
  // about every interleaving.

  /** Where an account's only running mutation or deletion stands; no entry means none runs. */
  datatype Phase =
    | Mutating(snapshot: User, logins: set<string>)
    | Bumped
    | Deleting(snapshot: User, logins: set<string>)

  /**
   `logins` holds the username and the email address of every user. The rest is history:
   `bumpedAt` is the step of an account's last version bump, `known` holds every account ever
   created, and `lost` the version of each whose deletion failed and could not be rolled back.
   */
  datatype Registry = Registry(
    users: Users,
    logins: map<Account, set<string>>,
    phase: map<Account, Phase>,
    bumpedAt: map<Account, nat>,
    known: set<Account>,
    lost: map<Account, int>)

  /** `next` numbers the `upsert` calls and thereby the objects they store. */
  datatype World = World(
    records: Records,
    accounts: Registry,
    pending: map<nat, Pending>,
    next: nat,
    now: nat,
    tick: nat)

  datatype Event =
    | BeginSaving(save: Save)
    | ContinueSaving(call: nat)
    | FinishSaving(call: nat)
    | Consume(key: Key)
    | Destroy(key: Key)
    | RevokeByGrant(realm: string, model: string, grantId: string)
    | CreateUser(account: Account, user: User, logins: set<string>)
    | ChangeLogins(account: Account, logins: set<string>)
    | SetEnabled(account: Account, enabled: bool)
    | BeginMutation(account: Account)
    | FailMutation(account: Account)
    | SkipMutation(account: Account)
    | Bump(account: Account)
    | Revoke(account: Account)
    | BeginDelete(account: Account)
    | FailDelete(account: Account)
    | FinishDelete(account: Account)
    | Advance(milliseconds: nat)

  const Nobody := Registry(map[], map[], map[], map[], {}, map[])

  const Initial := World(map[], Nobody, map[], 0, 0, 0)

  function Settle(w: World, call: nat, key: Key, outcome: Outcome): World {
    match outcome
    case Rejected(_) => w.(pending := w.pending - {call})
    case Suspended(p) => w.(pending := w.pending[call := p])
    case Stored(r) => w.(pending := w.pending - {call}, records := w.records[key := r])
  }

  function Begin(w: World, save: Save): World {
    var outcome := BeginSave(w.records, w.accounts.users, w.now, w.tick, w.next, save);
    Settle(w.(next := w.next + 1), w.next, save.key, outcome)
  }

  function Continue(w: World, n: nat): World
    requires n in w.pending && w.pending[n].AwaitParent?
  {
    Settle(w, n, w.pending[n].save.key, ContinueSave(w.accounts.users, w.tick, w.pending[n]))
  }

  function Finish(w: World, n: nat): World
    requires n in w.pending && w.pending[n].AwaitVersion?
  {
    Settle(w, n, w.pending[n].save.key, FinishSave(w.records, w.now, n, w.pending[n]))
  }

  // ---------- account events ----------

  function LoginsOf(s: Registry, a: Account): set<string> {
    if a in s.logins then s.logins[a] else {}
  }

  /** Another account of the realm holds one of these logins: `createUser` would throw. */
  predicate LoginTaken(s: Registry, a: Account, logins: set<string>) {
    exists b :: b in s.logins && b != a && b.realm == a.realm && !(s.logins[b] !! logins)
  }

  predicate AccountEvent(e: Event) {
    || e.CreateUser? || e.ChangeLogins? || e.SetEnabled? || e.BeginMutation? || e.FailMutation? || e.SkipMutation?
    || e.Bump? || e.BeginDelete? || e.FailDelete?
  }

  predicate AccountEnabled(s: Registry, e: Event)
    requires AccountEvent(e)
  {
    match e
    case CreateUser(a, _, logins) => a !in s.known && !LoginTaken(s, a, logins)
    case ChangeLogins(a, logins) => a in s.users && !LoginTaken(s, a, logins)
    case SetEnabled(a, _) => a in s.users
    case BeginMutation(a) => a in s.users && a !in s.phase
    case FailMutation(a) => a in s.phase && s.phase[a].Mutating?
    case SkipMutation(a) => a in s.phase && s.phase[a].Mutating?
    case Bump(a) => a in s.phase && s.phase[a].Mutating? && a in s.users
    case BeginDelete(a) => a in s.users && a !in s.phase
    case FailDelete(a) => a in s.phase && s.phase[a].Deleting?
  }

  /** The rollback of a deletion creates the user anew, and so throws when a login was taken meanwhile. */
  function UndoDelete(s: Registry, a: Account): Registry
    requires a in s.phase && s.phase[a].Deleting?
  {
    var gone := s.phase[a];
    if LoginTaken(s, a, gone.logins) then
      s.(lost := s.lost[a := gone.snapshot.securityVersion], phase := s.phase - {a})
    else
      s.(users := s.users[a := gone.snapshot], logins := s.logins[a := gone.logins], phase := s.phase - {a})
  }

  function AccountEffect(s: Registry, e: Event, tick: nat): Registry
    requires AccountEvent(e) && AccountEnabled(s, e)
  {
    match e
    case CreateUser(a, u, logins) =>
      s.(users := s.users[a := u], logins := s.logins[a := logins], known := s.known + {a})
    case ChangeLogins(a, logins) => s.(logins := s.logins[a := logins])
    case SetEnabled(a, b) => s.(users := s.users[a := s.users[a].(enabled := b)])
    case BeginMutation(a) => s.(phase := s.phase[a := Mutating(s.users[a], LoginsOf(s, a))])
    case FailMutation(a) =>
      s.(users := s.users[a := s.phase[a].snapshot], logins := s.logins[a := s.phase[a].logins], phase := s.phase - {a})
    case SkipMutation(a) => s.(phase := s.phase - {a})
    case Bump(a) =>
      s.(users := s.users[a := s.users[a].(securityVersion := s.users[a].securityVersion + 1)],
         phase := s.phase[a := Bumped],
         bumpedAt := s.bumpedAt[a := tick])
    case BeginDelete(a) =>
      s.(users := s.users - {a}, logins := s.logins - {a}, phase := s.phase[a := Deleting(s.users[a], LoginsOf(s, a))])
    case FailDelete(a) => UndoDelete(s, a)
  }

  // ---------- steps ----------

  predicate Enabled(w: World, e: Event) {
    match e
    case BeginSaving(_) => true
    case ContinueSaving(n) => n in w.pending && w.pending[n].AwaitParent?
    case FinishSaving(n) => n in w.pending && w.pending[n].AwaitVersion?
    case Consume(k) => Consumable(w.records, k, w.now)
    case Destroy(_) => true
    case RevokeByGrant(_, _, _) => true
    case Revoke(a) => a in w.accounts.phase && w.accounts.phase[a].Bumped?
    case FinishDelete(a) => a in w.accounts.phase && w.accounts.phase[a].Deleting?
    case Advance(_) => true
    case _ => AccountEnabled(w.accounts, e)
  }

  /** The revocation of an account, which ends its mutation or deletion. */
  function RevokeNow(w: World, a: Account): World {
    w.(records := RevokeAccount(w.records, a), accounts := w.accounts.(phase := w.accounts.phase - {a}))
  }

  function Effect(w: World, e: Event): World
    requires Enabled(w, e)
  {
    match e
    case BeginSaving(save) => Begin(w, save)
    case ContinueSaving(n) => Continue(w, n)
    case FinishSaving(n) => Finish(w, n)
    case Consume(k) => w.(records := w.records[k := MarkConsumed(w.records[k], w.now)])
    case Destroy(k) => w.(records := w.records - {k})
    case RevokeByGrant(realm, model, g) => w.(records := RevokeGrant(w.records, realm, model, g))
    case Revoke(a) => RevokeNow(w, a)
    case FinishDelete(a) => RevokeNow(w, a)
    case Advance(d) => w.(now := w.now + d)
    case _ => w.(accounts := AccountEffect(w.accounts, e, w.tick))
  }

  function Apply(w: World, e: Event): World {
    if Enabled(w, e) then Effect(w, e) else w
  }

  function Tick(w: World): World {
    w.(tick := w.tick + 1)
  }

  function Step(w: World, e: Event): World {
    Tick(Apply(w, e))
  }

  function RunFrom(w: World, events: seq<Event>): World {
    if events == [] then w else Step(RunFrom(w, events[..|events| - 1]), events[|events| - 1])
  }

  function Run(events: seq<Event>): World {
    RunFrom(Initial, events)
  }

  // ---------- the invariant ----------

  /**
   The account's version, or the one it had just before a bump or deletion still to be followed by
   its revocation, or the one it was lost with.
   */
  predicate Honoured(s: Registry, a: Account, v: int) {
    || (a in s.users && s.users[a].securityVersion == v)
    || (a in s.phase && s.phase[a].Bumped? && a in s.users && s.users[a].securityVersion == v + 1)
    || (a in s.phase && s.phase[a].Deleting? && s.phase[a].snapshot.securityVersion == v)
    || (a in s.lost && s.lost[a] == v)
  }

  predicate GrantLinkedIsHonoured(w: World, k: Key, r: Record) {
    r.payload.grantId.Some? ==>
      r.payload.accountId.Some? && r.securityVersion.Some? &&
      Honoured(w.accounts, Account(k.realm, r.payload.accountId.value), r.securityVersion.value)
  }

  function ParentOf(p: Pending): Option<Record> {
    if p.AwaitParent? then Some(p.grant) else p.parent
  }

  /** The grant a suspended save looked up is still the object stored under that grant's key. */
  predicate ParentStored(w: World, p: Pending) {
    && ParentOf(p).Some?
    && p.save.payload.grantId.Some?
    && var g := GrantKey(p.save.key.realm, p.save.payload.grantId.value);
       g in w.records && w.records[g].ref == ParentOf(p).value.ref
  }

  predicate PendingShape(w: World, p: Pending) {
    && ParentOf(p).Some? == p.save.payload.grantId.Some?
    && (ParentOf(p).Some? ==>
          && ParentOf(p).value.ref < w.next
          && ParentOf(p).value.ref !in w.pending
          && ParentOf(p).value.payload.accountId.Some?)
    && (p.AwaitVersion? ==> p.save.payload.accountId.Some?)
    && (p.AwaitVersion? && p.parent.Some? ==>
          && p.save.payload.accountId == p.parent.value.payload.accountId
          && p.parent.value.securityVersion.Some?)
  }

  /** While the looked-up grant is stored it is unchanged, and the version matched against it is honoured. */
  predicate ParentFresh(w: World, p: Pending)
    requires ParentStored(w, p)
  {
    var parent := ParentOf(p).value;
    var stored := w.records[GrantKey(p.save.key.realm, p.save.payload.grantId.value)];
    && stored.payload.accountId == parent.payload.accountId
    && stored.securityVersion == parent.securityVersion
    && (parent.payload.accountId.Some? && parent.securityVersion.Some? &&
        (p.AwaitParent? ==> p.read == parent.securityVersion) ==>
          Honoured(w.accounts, Account(p.save.key.realm, parent.payload.accountId.value), parent.securityVersion.value))
  }

  /** A version read for an account is never ahead of it and, when level, was read after the last bump. */
  predicate ReadInTime(s: Registry, a: Account, v: int, at: nat) {
    && a in s.known
    && (a in s.users ==> v <= s.users[a].securityVersion)
    && (a in s.users && v == s.users[a].securityVersion && a in s.bumpedAt ==> s.bumpedAt[a] <= at)
    && (a in s.phase && s.phase[a].Deleting? ==> v <= s.phase[a].snapshot.securityVersion)
    && (a in s.phase && s.phase[a].Deleting? && v == s.phase[a].snapshot.securityVersion && a in s.bumpedAt
        ==> s.bumpedAt[a] <= at)
  }

  predicate AccountsInv(s: Registry, tick: nat) {
    && (forall a :: a in s.users ==> a in s.known)
    && (forall a :: a in s.phase ==> a in s.known && (a in s.users) == !s.phase[a].Deleting?)
    && (forall a :: a in s.phase && s.phase[a].Mutating? ==>
          s.users[a].securityVersion == s.phase[a].snapshot.securityVersion)
    && (forall a :: a in s.bumpedAt ==> s.bumpedAt[a] <= tick && a in s.known)
    && (forall a :: a in s.lost ==> a in s.known && a !in s.users && a !in s.phase)
  }

  predicate RecordInv(w: World, k: Key, r: Record) {
    && r.ref < w.next
    && r.ref !in w.pending
    && GrantLinkedIsHonoured(w, k, r)
    && (r.securityVersion.Some? ==>
          r.payload.accountId.Some? &&
          ReadInTime(w.accounts, Account(k.realm, r.payload.accountId.value), r.securityVersion.value, r.versionReadAt))
  }

  predicate PendingInv(w: World, n: nat, p: Pending) {
    && n < w.next
    && PendingShape(w, p)
    && (ParentStored(w, p) ==> ParentFresh(w, p))
    && (p.AwaitVersion? && p.read.Some? ==>
          ReadInTime(w.accounts, Account(p.save.key.realm, p.save.payload.accountId.value), p.read.value, p.readAt))
  }

  predicate Inv(w: World) {
    && AccountsInv(w.accounts, w.tick)
    && (forall k {:trigger RecordInv(w, k, w.records[k])} :: k in w.records ==> RecordInv(w, k, w.records[k]))
    && (forall n {:trigger PendingInv(w, n, w.pending[n])} :: n in w.pending ==> PendingInv(w, n, w.pending[n]))
  }

  // ---------- preservation: saves ----------

  lemma RecordStays(w: World, w': World, k: Key, r: Record, r': Record)
    requires RecordInv(w, k, r) && w'.accounts == w.accounts && SameButConsumed(r, r')
    requires w.next <= w'.next && r.ref !in w'.pending
    ensures RecordInv(w', k, r')
  {
  }

  predicate SameButConsumed(r: Record, r': Record) {
    r' == r.(payload := r.payload.(consumed := r'.payload.consumed))
  }

  /** A suspended save stays good while its grant, if still stored, is unchanged but for consumption. */
  lemma PendingStays(w: World, w': World, n: nat, p: Pending)
    requires PendingInv(w, n, p) && w'.accounts == w.accounts
    requires w.next <= w'.next
    requires ParentOf(p).Some? ==> ParentOf(p).value.ref !in w'.pending
    requires ParentStored(w', p) ==>
      ParentStored(w, p) &&
      (var g := GrantKey(p.save.key.realm, p.save.payload.grantId.value); SameButConsumed(w.records[g], w'.records[g]))
    ensures PendingInv(w', n, p)
  {
  }

  /** No stored record and no looked-up grant is the object that `call` would store. */
  predicate Unused(w: World, call: nat) {
    && call < w.next
    && (forall k :: k in w.records ==> w.records[k].ref != call)
    && (forall n :: n in w.pending && ParentOf(w.pending[n]).Some? ==> ParentOf(w.pending[n]).value.ref != call)
  }

  predicate OutcomeInv(w: World, call: nat, key: Key, outcome: Outcome) {
    match outcome
    case Rejected(_) => true
    case Stored(r) => r.ref == call && RecordInv(w.(pending := w.pending - {call}), key, r)
    case Suspended(p) => PendingInv(w.(pending := w.pending[call := p]), call, p)
  }

  /** What a segment may add: nothing, a suspended call or one record; every other entry stays good. */
  lemma SettleKeepsInv(w: World, call: nat, key: Key, outcome: Outcome)
    requires Inv(w) && Unused(w, call) && OutcomeInv(w, call, key, outcome)
    ensures Inv(Settle(w, call, key, outcome))
  {
    var w' := Settle(w, call, key, outcome);
    forall k | k in w'.records ensures RecordInv(w', k, w'.records[k]) {
      if outcome.Stored? && k == key {
        RecordStays(w.(pending := w.pending - {call}), w', k, outcome.record, outcome.record);
      } else {
        RecordStays(w, w', k, w.records[k], w'.records[k]);
      }
    }
    forall n | n in w'.pending ensures PendingInv(w', n, w'.pending[n]) {
      if n != call { PendingStays(w, w', n, w.pending[n]); }
    }
  }

  lemma NumberingKeepsInv(w: World)
    requires Inv(w)
    ensures Inv(w.(next := w.next + 1))
  {
    var w' := w.(next := w.next + 1);
    forall k | k in w'.records ensures RecordInv(w', k, w'.records[k]) {
      RecordStays(w, w', k, w.records[k], w.records[k]);
    }
    forall n | n in w'.pending ensures PendingInv(w', n, w'.pending[n]) { PendingStays(w, w', n, w.pending[n]); }
  }

  /** The first segment of a grant-linked save: the version it reads is honoured now if it is the grant's. */
  lemma LookupIsFresh(w: World, n: nat, p: Pending)
    requires AccountsInv(w.accounts, w.tick) && n < w.next && n !in w.pending
    requires p.AwaitParent? && p.save.payload.grantId.Some?
    requires p.grant.ref < n && p.grant.ref !in w.pending && p.grant.payload.accountId.Some?
    requires var g := GrantKey(p.save.key.realm, p.save.payload.grantId.value);
      g in w.records && w.records[g] == p.grant
    requires p.read == VersionFor(w.accounts.users, Account(p.save.key.realm, p.grant.payload.accountId.value))
    ensures PendingInv(w.(pending := w.pending[n := p]), n, p)
  {
  }

  lemma BeginOutcomeIsGood(w: World, n: nat, save: Save, outcome: Outcome)
    requires AccountsInv(w.accounts, w.tick) && n < w.next && n !in w.pending
    requires forall k :: k in w.records ==> w.records[k].ref < n && w.records[k].ref !in w.pending
    requires outcome == BeginSave(w.records, w.accounts.users, w.now, w.tick, n, save)
    ensures OutcomeInv(w, n, save.key, outcome)
  {
    if outcome.Suspended? && outcome.pending.AwaitParent? {
      LookupIsFresh(w, n, outcome.pending);
    }
  }

  lemma RefsAreOld(w: World)
    requires Inv(w)
    ensures forall k :: k in w.records ==> w.records[k].ref < w.next && w.records[k].ref !in w.pending
    ensures forall n :: n in w.pending ==> n < w.next && Unused(w, n)
    ensures w.next !in w.pending && Unused(w.(next := w.next + 1), w.next)
  {
    forall k | k in w.records ensures w.records[k].ref < w.next && w.records[k].ref !in w.pending {
      assert RecordInv(w, k, w.records[k]);
    }
    forall n | n in w.pending ensures n < w.next && (ParentOf(w.pending[n]).Some? ==>
      ParentOf(w.pending[n]).value.ref < w.next && ParentOf(w.pending[n]).value.ref !in w.pending) {
      assert PendingInv(w, n, w.pending[n]);
    }
  }

  lemma BeginningIsReady(w: World, save: Save, outcome: Outcome)
    requires Inv(w) && outcome == BeginSave(w.records, w.accounts.users, w.now, w.tick, w.next, save)
    ensures var w1 := w.(next := w.next + 1); Unused(w1, w.next) && OutcomeInv(w1, w.next, save.key, outcome)
  {
    RefsAreOld(w);
    BeginOutcomeIsGood(w.(next := w.next + 1), w.next, save, outcome);
  }

  lemma BeginSavingKeepsInv(w: World, save: Save, outcome: Outcome, w': World)
    requires Inv(w)
    requires outcome == BeginSave(w.records, w.accounts.users, w.now, w.tick, w.next, save)
    requires w' == Settle(w.(next := w.next + 1), w.next, save.key, outcome)
    ensures Inv(w')
  {
    BeginningIsReady(w, save, outcome);
    NumberingKeepsInv(w);
    SettleKeepsInv(w.(next := w.next + 1), w.next, save.key, outcome);
  }

  lemma ContinueSavingKeepsInv(w: World, n: nat)
    requires Inv(w) && Enabled(w, ContinueSaving(n))
    ensures Inv(Continue(w, n))
  {
    assert PendingInv(w, n, w.pending[n]);
    RefsAreOld(w);
    SettleKeepsInv(w, n, w.pending[n].save.key, ContinueSave(w.accounts.users, w.tick, w.pending[n]));
  }

  lemma FinishSavingKeepsInv(w: World, n: nat)
    requires Inv(w) && Enabled(w, FinishSaving(n))
    ensures Inv(Finish(w, n))
  {
    assert PendingInv(w, n, w.pending[n]);
    RefsAreOld(w);
    SettleKeepsInv(w, n, w.pending[n].save.key, FinishSave(w.records, w.now, n, w.pending[n]));
  }

  // ---------- preservation: other record events ----------

  /** Removing records, marking one consumed and the passing of time touch nothing the invariant reads. */
  lemma FewerRecordsKeepInv(w: World, rs: Records, now: nat)
    requires Inv(w)
    requires forall k :: k in rs ==> k in w.records && SameButConsumed(w.records[k], rs[k])
    ensures Inv(w.(records := rs, now := now))
  {
    var w' := w.(records := rs, now := now);
    forall k | k in w'.records ensures RecordInv(w', k, w'.records[k]) {
      RecordStays(w, w', k, w.records[k], w'.records[k]);
    }
    forall n | n in w'.pending ensures PendingInv(w', n, w'.pending[n]) { PendingStays(w, w', n, w.pending[n]); }
  }

  lemma RecordsOnlyKeepInv(w: World, e: Event)
    requires Inv(w) && Enabled(w, e)
    requires e.Consume? || e.Destroy? || e.RevokeByGrant? || e.Advance?
    ensures Inv(Effect(w, e))
  {
    var w' := Effect(w, e);
    FewerRecordsKeepInv(w, w'.records, w'.now);
    assert w' == w.(records := w'.records, now := w'.now);
  }

  // ---------- preservation: account events ----------

  lemma AccountEventKeepsVersions(s: Registry, e: Event, tick: nat, a: Account, v: int, at: nat)
    requires AccountsInv(s, tick) && AccountEvent(e) && AccountEnabled(s, e)
    ensures Honoured(s, a, v) ==> Honoured(AccountEffect(s, e, tick), a, v)
    ensures ReadInTime(s, a, v, at) ==> ReadInTime(AccountEffect(s, e, tick), a, v, at)
  {
  }

  lemma AccountEventKeepsAccounts(s: Registry, e: Event, tick: nat)
    requires AccountsInv(s, tick) && AccountEvent(e) && AccountEnabled(s, e)
    ensures AccountsInv(AccountEffect(s, e, tick), tick)
  {
  }

  lemma AccountEventKeepsInv(w: World, e: Event)
    requires Inv(w) && Enabled(w, e) && AccountEvent(e)
    ensures Inv(Effect(w, e))
  {
    var w' := Effect(w, e);
    AccountEventKeepsAccounts(w.accounts, e, w.tick);
    assert w' == w.(accounts := AccountEffect(w.accounts, e, w.tick));
    forall k | k in w'.records ensures RecordInv(w', k, w'.records[k]) {
      var r := w.records[k];
      assert RecordInv(w, k, r);
      if r.payload.accountId.Some? && r.securityVersion.Some? {
        var a := Account(k.realm, r.payload.accountId.value);
        AccountEventKeepsVersions(w.accounts, e, w.tick, a, r.securityVersion.value, r.versionReadAt);
      }
    }
    forall n | n in w'.pending ensures PendingInv(w', n, w'.pending[n]) {
      PendingSurvivesAccountEvent(w, e, n);
    }
  }

  lemma PendingSurvivesAccountEvent(w: World, e: Event, n: nat)
    requires Inv(w) && Enabled(w, e) && AccountEvent(e) && n in w.pending
    ensures PendingInv(Effect(w, e), n, w.pending[n])
  {
    var w' := Effect(w, e);
    var p := w.pending[n];
    assert PendingInv(w, n, p);
    assert ParentStored(w', p) ==> ParentStored(w, p);
    if ParentOf(p).Some? && ParentOf(p).value.securityVersion.Some? {
      var parent := ParentOf(p).value;
      AccountEventKeepsVersions(w.accounts, e, w.tick, Account(p.save.key.realm, parent.payload.accountId.value),
                                parent.securityVersion.value, parent.versionReadAt);
    }
    if p.AwaitVersion? && p.read.Some? {
      var a := Account(p.save.key.realm, p.save.payload.accountId.value);
      AccountEventKeepsVersions(w.accounts, e, w.tick, a, p.read.value, p.readAt);
    }
  }

  // ---------- preservation: revocation ----------

  /** After a revocation no suspended save can still find the grant it looked up, if that grant was the account's. */
  lemma RevocationKeepsInv(w: World, e: Event)
    requires Inv(w) && Enabled(w, e)
    requires e.Revoke? || e.FinishDelete?
    ensures Inv(Effect(w, e))
  {
    var w' := Effect(w, e);
    var a := e.account;
    forall k | k in w'.records ensures RecordInv(w', k, w'.records[k]) {
      assert RecordInv(w, k, w.records[k]);
      assert k !in OwnedBy(w.records, a);
    }
    forall n | n in w'.pending ensures PendingInv(w', n, w'.pending[n]) {
      var p := w.pending[n];
      assert PendingInv(w, n, p);
      if ParentStored(w', p) {
        var g := GrantKey(p.save.key.realm, p.save.payload.grantId.value);
        assert ParentStored(w, p) && g !in OwnedBy(w.records, a);
      }
    }
  }

  // ---------- the account events one by one ----------

  /** Everything of other accounts stays as it was. */
  predicate OnlyConcerns(s: Registry, s': Registry, a: Account) {
    && s'.users - {a} == s.users - {a} && s'.logins - {a} == s.logins - {a} && s'.phase - {a} == s.phase - {a}
    && s'.bumpedAt - {a} == s.bumpedAt - {a} && s'.lost - {a} == s.lost - {a} && s'.known - {a} == s.known - {a}
  }

  /** An account gets its logins, new or changed, exactly if no other account of the realm has one of them. */
  lemma LoginsAreGuarded(s: Registry, a: Account, u: User, logins: set<string>)
    ensures var free := forall b, login :: b in s.logins && b != a && b.realm == a.realm && login in logins ==>
                                             login !in s.logins[b];
      && (AccountEnabled(s, CreateUser(a, u, logins)) <==> free && a !in s.known)
      && (AccountEnabled(s, ChangeLogins(a, logins)) <==> free && a in s.users)
  {
    if LoginTaken(s, a, logins) {
      var b :| b in s.logins && b != a && b.realm == a.realm && !(s.logins[b] !! logins);
      var login :| login in s.logins[b] && login in logins;
    }
  }

  /** A mutation that fails puts user and logins back as they were when it began, whatever it did to them. */
  lemma MutationsStartAndEnd(s: Registry, e: Event, tick: nat)
    requires AccountEvent(e) && AccountEnabled(s, e)
    ensures OnlyConcerns(s, AccountEffect(s, e, tick), e.account)
    ensures e.BeginMutation? ==>
      var phase := Mutating(s.users[e.account], LoginsOf(s, e.account));
      AccountEffect(s, e, tick) == s.(phase := s.phase[e.account := phase])
    ensures e.SkipMutation? ==> AccountEffect(s, e, tick) == s.(phase := s.phase - {e.account})
    ensures e.FailMutation? ==>
      var s' := AccountEffect(s, e, tick);
      && e.account in s'.users && s'.users[e.account] == s.phase[e.account].snapshot
      && LoginsOf(s', e.account) == s.phase[e.account].logins && e.account !in s'.phase
    ensures e.Bump? ==>
      var s' := AccountEffect(s, e, tick);
      && s'.users[e.account].securityVersion == s.users[e.account].securityVersion + 1
      && s'.users[e.account].enabled == s.users[e.account].enabled && LoginsOf(s', e.account) == LoginsOf(s, e.account)
      && s'.phase[e.account] == Bumped
  {
  }

  /** A deletion that fails brings user and logins back, or loses the account if one of its logins was taken. */
  lemma DeletionsStartAndEnd(s: Registry, a: Account, tick: nat)
    ensures AccountEnabled(s, BeginDelete(a)) ==>
      var s' := AccountEffect(s, BeginDelete(a), tick);
      a !in s'.users && a !in s'.logins && s'.phase == s.phase[a := Deleting(s.users[a], LoginsOf(s, a))]
    ensures AccountEnabled(s, FailDelete(a)) ==>
      var s', gone := AccountEffect(s, FailDelete(a), tick), s.phase[a];
      var taken := exists b, login :: b in s.logins && b != a && b.realm == a.realm &&
                                      login in s.logins[b] && login in gone.logins;
      && a !in s'.phase
      && (if taken then a in s'.lost && s'.lost[a] == gone.snapshot.securityVersion && s'.users == s.users
          else a in s'.users && s'.users[a] == gone.snapshot && LoginsOf(s', a) == gone.logins)
  {
    if AccountEnabled(s, FailDelete(a)) && LoginTaken(s, a, s.phase[a].logins) {
      var b :| b in s.logins && b != a && b.realm == a.realm && !(s.logins[b] !! s.phase[a].logins);
      var login :| login in s.logins[b] && login in s.phase[a].logins;
    }
  }

  /** What a record event does to the records: each touches one record, those of one grant, or those of one account. */
  lemma RecordEventsAreExact(w: World, e: Event, k: Key)
    requires Enabled(w, e)
    ensures e.Destroy? ==> Effect(w, e).records == w.records - {e.key}
    ensures e.Consume? ==>
      && Effect(w, e).records - {e.key} == w.records - {e.key}
      && e.key in w.records && Effect(w, e).records[e.key] == MarkConsumed(w.records[e.key], w.now)
    ensures e.RevokeByGrant? ==> Effect(w, e).records == RevokeGrant(w.records, e.realm, e.model, e.grantId)
    ensures e.Revoke? || e.FinishDelete? ==>
      && (k in Effect(w, e).records <==> k in w.records && k !in Doomed(w.records, e.account))
      && (k in Effect(w, e).records ==> Effect(w, e).records[k] == w.records[k])
      && e.account !in Effect(w, e).accounts.phase
    ensures AccountEvent(e) || e.Advance? ==> Effect(w, e).records == w.records
    ensures e.Advance? ==> Effect(w, e).now == w.now + e.milliseconds
  {
  }

  // ---------- every run ----------

  lemma EffectKeepsInv(w: World, e: Event)
    requires Inv(w) && Enabled(w, e)
    ensures Inv(Effect(w, e))
  {
    if e.BeginSaving? {
      var outcome := BeginSave(w.records, w.accounts.users, w.now, w.tick, w.next, e.save);
      BeginSavingKeepsInv(w, e.save, outcome, Effect(w, e));
    }
    else if e.ContinueSaving? { ContinueSavingKeepsInv(w, e.call); }
    else if e.FinishSaving? { FinishSavingKeepsInv(w, e.call); }
    else if e.Revoke? || e.FinishDelete? { RevocationKeepsInv(w, e); }
    else if AccountEvent(e) { AccountEventKeepsInv(w, e); }
    else { RecordsOnlyKeepInv(w, e); }
  }

  lemma StepKeepsInv(w: World, e: Event)
    requires Inv(w)
    ensures Inv(Step(w, e))
  {
    var applied := Apply(w, e);
    assert Inv(applied) by {
      if Enabled(w, e) { EffectKeepsInv(w, e); }
    }
    TickKeepsInv(applied);
  }

  lemma TickKeepsInv(w: World)
    requires Inv(w)
    ensures Inv(Tick(w))
  {
    var w' := Tick(w);
    forall k | k in w'.records ensures RecordInv(w', k, w'.records[k]) {
      RecordStays(w, w', k, w.records[k], w.records[k]);
    }
    forall n | n in w'.pending ensures PendingInv(w', n, w'.pending[n]) { PendingStays(w, w', n, w.pending[n]); }
  }

  lemma {:induction false} RunKeepsInv(w: World, events: seq<Event>)
    requires Inv(w)
    ensures Inv(RunFrom(w, events))
  {
    if events != [] {
      RunKeepsInv(w, events[..|events| - 1]);
      StepKeepsInv(RunFrom(w, events[..|events| - 1]), events[|events| - 1]);
    }
  }

  lemma EveryRunKeepsInv(events: seq<Event>)
    ensures Inv(Run(events))
  {
    RunKeepsInv(Initial, events);
  }

  lemma {:induction false} RunsCompose(w: World, before: seq<Event>, after: seq<Event>)
    ensures RunFrom(w, before + after) == RunFrom(RunFrom(w, before), after)
  {
    if after == [] {
      assert before + after == before;
    } else {
      var all := before + after;
      assert all[..|all| - 1] == before + after[..|after| - 1];
      RunsCompose(w, before, after[..|after| - 1]);
    }
  }

  // ---------- main results ----------

  /** A deletion of the account is lost: its audit failed and another account holds one of its logins. */
  predicate Throws(w: World, e: Event, a: Account) {
    && e == FailDelete(a) && Enabled(w, e)
    && LoginTaken(w.accounts, a, w.accounts.phase[a].logins)
  }

  predicate RollbackThrew(events: seq<Event>, a: Account) {
    exists i :: 0 <= i < |events| && Throws(Run(events[..i]), events[i], a)
  }

  lemma StepLoses(w: World, e: Event, a: Account)
    ensures a in Step(w, e).accounts.lost <==> a in w.accounts.lost || Throws(w, e, a)
  {
    if Enabled(w, e) && !AccountEvent(e) { OthersKeepAccounts(w, e); }
  }

  /** Beside the account events only a revocation touches the accounts: it ends the phase. */
  lemma OthersKeepAccounts(w: World, e: Event)
    requires Enabled(w, e) && !AccountEvent(e)
    ensures e.Revoke? || e.FinishDelete? ==>
      Effect(w, e).accounts == w.accounts.(phase := w.accounts.phase - {e.account})
    ensures !e.Revoke? && !e.FinishDelete? ==> Effect(w, e).accounts == w.accounts
  {
  }

  lemma ThrewThen(front: seq<Event>, e: Event, a: Account)
    ensures RollbackThrew(front + [e], a) <==> RollbackThrew(front, a) || Throws(Run(front), e, a)
  {
    var all := front + [e];
    assert all[..|front|] == front && all[|front|] == e;
    assert forall i :: 0 <= i < |front| ==> all[..i] == front[..i] && all[i] == front[i];
  }

  lemma {:induction false} LostIffThrew(events: seq<Event>, a: Account)
    ensures a in Run(events).accounts.lost <==> RollbackThrew(events, a)
  {
    if events != [] {
      var front, e := events[..|events| - 1], events[|events| - 1];
      assert events == front + [e];
      LostIffThrew(front, a);
      ThrewThen(front, e, a);
      StepLoses(Run(front), e, a);
      RunSnoc(front, e);
    }
  }

  predicate IsCurrent(w: World, a: Account, version: int) {
    a in w.accounts.users && w.accounts.users[a].securityVersion == version
  }

  /** A bump or a deletion of the account is still to be followed by its revocation, or by its rollback. */
  predicate Unsettled(w: World, a: Account) {
    a in w.accounts.phase && !w.accounts.phase[a].Mutating?
  }

  /**
   In every interleaving a stored grant-linked record carries its account's present version unless
   that account is between its bump (or its deletion) and what follows it. Otherwise it does so if
   and only if no deletion of the account was lost: one whose rollback threw.
   */
  lemma GrantLinkedRecordsAreCurrent(events: seq<Event>, k: Key)
    requires k in Run(events).records && Run(events).records[k].payload.grantId.Some?
    ensures var w, r := Run(events), Run(events).records[k];
      && r.payload.accountId.Some? && r.securityVersion.Some?
      && var a := Account(k.realm, r.payload.accountId.value);
         Unsettled(w, a)
         || (IsCurrent(w, a, r.securityVersion.value) <==> !RollbackThrew(events, a))
  {
    EveryRunKeepsInv(events);
    assert RecordInv(Run(events), k, Run(events).records[k]);
    LostIffThrew(events, Account(k.realm, Run(events).records[k].payload.accountId.value));
  }

  predicate Lost(w: World, a: Account) {
    a in w.accounts.lost && a in w.accounts.known && a !in w.accounts.users && a !in w.accounts.phase
  }

  lemma StepKeepsLost(w: World, e: Event, a: Account)
    requires Lost(w, a)
    ensures Lost(Step(w, e), a)
  {
    if Enabled(w, e) && !AccountEvent(e) { OthersKeepAccounts(w, e); }
  }

  lemma {:induction false} RunKeepsLost(w: World, events: seq<Event>, a: Account)
    requires Lost(w, a)
    ensures Lost(RunFrom(w, events), a)
  {
    if events != [] {
      RunKeepsLost(w, events[..|events| - 1], a);
      StepKeepsLost(RunFrom(w, events[..|events| - 1]), events[|events| - 1], a);
    }
  }

  /** No revocation of a lost account can run, and none of its bound records is answered. */
  lemma LostIsUnanswered(w: World, a: Account, k: Key)
    requires Lost(w, a)
    ensures a !in w.accounts.users && !Enabled(w, Revoke(a)) && !Enabled(w, FinishDelete(a))
    ensures k in w.records && Owner(k, w.records[k]) == Some(a) && w.records[k].securityVersion.Some? ==>
              FindIn(w.records, w.accounts.users, w.now, k).None?
  {
  }

  /**
   A lost account never comes back, no revocation of it ever runs again, and none of its bound
   records is ever answered: what is left of it is garbage, not access.
   */
  lemma LostForGood(before: seq<Event>, after: seq<Event>, w: World, a: Account, k: Key)
    requires RollbackThrew(before, a) && w == Run(before + after)
    ensures a !in w.accounts.users && !Enabled(w, Revoke(a)) && !Enabled(w, FinishDelete(a))
    ensures k in w.records && Owner(k, w.records[k]) == Some(a) && w.records[k].securityVersion.Some? ==>
              FindIn(w.records, w.accounts.users, w.now, k).None?
  {
    LostStays(before, after, a);
    LostIsUnanswered(w, a, k);
  }

  lemma LostStays(before: seq<Event>, after: seq<Event>, a: Account)
    requires RollbackThrew(before, a)
    ensures Lost(Run(before + after), a)
  {
    EveryRunKeepsInv(before);
    LostIffThrew(before, a);
    RunKeepsLost(Run(before), after, a);
    RunsCompose(Initial, before, after);
  }

  /** Call `n` has stored nothing and can never pass its last check: the grant it looked up is gone for good. */
  predicate Barred(w: World, n: nat) {
    && n < w.next
    && (forall k :: k in w.records ==> w.records[k].ref != n)
    && (n in w.pending ==>
          var p := w.pending[n];
          && ParentOf(p).Some? && p.save.payload.grantId.Some?
          && ParentOf(p).value.ref < w.next && ParentOf(p).value.ref !in w.pending
          && !ParentStored(w, p))
  }

  lemma SettleKeepsBarred(w: World, n: nat, call: nat, key: Key, outcome: Outcome)
    requires Barred(w, n) && call < w.next
    requires n in w.pending ==> ParentOf(w.pending[n]).value.ref != call
    requires outcome.Stored? ==> outcome.record.ref == call
    requires call == n ==> !outcome.Stored?
    requires call == n && outcome.Suspended? ==>
      n in w.pending && ParentOf(outcome.pending) == ParentOf(w.pending[n])
      && outcome.pending.save.key == w.pending[n].save.key
      && outcome.pending.save.payload.grantId == w.pending[n].save.payload.grantId
    ensures Barred(Settle(w, call, key, outcome), n)
  {
  }

  lemma BeginKeepsBarred(w: World, n: nat, save: Save)
    requires Barred(w, n)
    ensures Barred(Begin(w, save), n)
  {
    var w1 := w.(next := w.next + 1);
    assert Barred(w1, n);
    var outcome := BeginSave(w.records, w.accounts.users, w.now, w.tick, w.next, save);
    assert outcome.Stored? ==> outcome.record.ref == w.next;
    SettleKeepsBarred(w1, n, w.next, save.key, outcome);
  }

  lemma ContinueKeepsBarred(w: World, n: nat, call: nat)
    requires Inv(w) && Barred(w, n) && Enabled(w, ContinueSaving(call))
    ensures Barred(Continue(w, call), n)
  {
    assert PendingInv(w, call, w.pending[call]);
    SettleKeepsBarred(w, n, call, w.pending[call].save.key, ContinueSave(w.accounts.users, w.tick, w.pending[call]));
  }

  lemma FinishKeepsBarred(w: World, n: nat, call: nat)
    requires Inv(w) && Barred(w, n) && Enabled(w, FinishSaving(call))
    ensures Barred(Finish(w, call), n)
  {
    assert PendingInv(w, call, w.pending[call]);
    SettleKeepsBarred(w, n, call, w.pending[call].save.key, FinishSave(w.records, w.now, call, w.pending[call]));
  }

  lemma OtherKeepsBarred(w: World, n: nat, e: Event)
    requires Barred(w, n) && Enabled(w, e)
    requires !e.BeginSaving? && !e.ContinueSaving? && !e.FinishSaving?
    ensures Barred(Effect(w, e), n)
  {
    var w' := Effect(w, e);
    assert w'.pending == w.pending && w'.next == w.next;
    assert forall k :: k in w'.records ==> k in w.records && w'.records[k].ref == w.records[k].ref;
  }

  lemma ApplyKeepsBarred(w: World, n: nat, e: Event)
    requires Inv(w) && Barred(w, n)
    ensures Barred(Apply(w, e), n)
  {
    if Enabled(w, e) {
      if e.BeginSaving? { BeginKeepsBarred(w, n, e.save); }
      else if e.ContinueSaving? { ContinueKeepsBarred(w, n, e.call); }
      else if e.FinishSaving? { FinishKeepsBarred(w, n, e.call); }
      else { OtherKeepsBarred(w, n, e); }
    }
  }

  lemma {:induction false} RunKeepsBarred(w: World, n: nat, events: seq<Event>)
    requires Inv(w) && Barred(w, n)
    ensures Barred(RunFrom(w, events), n)
  {
    if events != [] {
      var before := events[..|events| - 1];
      RunKeepsBarred(w, n, before);
      RunKeepsInv(w, before);
      var applied := Apply(RunFrom(w, before), events[|events| - 1]);
      ApplyKeepsBarred(RunFrom(w, before), n, events[|events| - 1]);
      assert Barred(Tick(applied), n);
    }
  }

  lemma RevocationBars(w: World, n: nat, e: Event)
    requires Inv(w) && Enabled(w, e)
    requires e.Revoke? || e.FinishDelete?
    requires LinkedSave(w, n, e.account)
    ensures Barred(Step(w, e), n)
  {
    var p := w.pending[n];
    assert PendingInv(w, n, p);
    var w' := Step(w, e);
    assert w'.records == RevokeAccount(w.records, e.account);
    forall k | k in w'.records ensures w'.records[k].ref != n { assert RecordInv(w, k, w.records[k]); }
    assert ParentStored(w, p) ==>
        GrantKey(p.save.key.realm, p.save.payload.grantId.value) in OwnedBy(w.records, e.account);
  }

  /** A running `upsert` linked to a grant of account `a`. */
  predicate LinkedSave(w: World, n: nat, a: Account) {
    && n in w.pending
    && ParentOf(w.pending[n]).Some?
    && w.pending[n].save.key.realm == a.realm
    && ParentOf(w.pending[n]).value.payload.accountId == Some(a.id)
  }

  /**
   Once a revocation has finished, whether it ends a mutation or a deletion, no save begun
   before it and linked to a grant of that account is ever stored, whatever happens next.
   */
  lemma NoSaveOutlivesRevocation(before: seq<Event>, e: Event, after: seq<Event>, n: nat)
    requires e.Revoke? || e.FinishDelete?
    requires Enabled(Run(before), e)
    requires LinkedSave(Run(before), n, e.account)
    ensures forall k :: k in Run(before + [e] + after).records ==> Run(before + [e] + after).records[k].ref != n
  {
    EveryRunKeepsInv(before);
    RevocationBars(Run(before), n, e);
    assert (before + [e])[..|before|] == before;
    assert Run(before + [e]) == Step(Run(before), e);
    EveryRunKeepsInv(before + [e]);
    RunKeepsBarred(Run(before + [e]), n, after);
    RunsCompose(Initial, before + [e], after);
  }

  /**
   What `find` returns for an account-bound record belongs to an enabled account at exactly the
   stored version, and that version was not read before the account's last security mutation.
   */
  lemma FindAnswersAreFresh(events: seq<Event>, k: Key)
    requires FindIn(Run(events).records, Run(events).accounts.users, Run(events).now, k).Some?
    requires Run(events).records[k].securityVersion.Some?
    ensures var w, r := Run(events), Run(events).records[k];
      && r.payload.accountId.Some?
      && var a := Account(k.realm, r.payload.accountId.value);
         && IsCurrent(w, a, r.securityVersion.value) && w.accounts.users[a].enabled
         && (a in w.accounts.bumpedAt ==> w.accounts.bumpedAt[a] <= r.versionReadAt)
  {
    EveryRunKeepsInv(events);
    assert RecordInv(Run(events), k, Run(events).records[k]);
  }

  /** Nothing but a consumption changes a stored object: under its key it stays what it was or is gone for good. */
  predicate SameObject(w: World, k: Key, r: Record) {
    k in w.records && w.records[k].ref == r.ref ==> SameButConsumed(r, w.records[k])
  }

  /** The account is as it was when the version was read, and nothing is under way for it. */
  predicate Undisturbed(w: World, a: Account, version: int) {
    a in w.accounts.users && a !in w.accounts.phase
    && w.accounts.users[a].enabled && w.accounts.users[a].securityVersion == version
  }

  /** No mutation or deletion of the account begins, and nobody disables it. */
  predicate LeavesAlone(e: Event, a: Account) {
    && e != BeginMutation(a) && e != BeginDelete(a) && e != SetEnabled(a, false)
  }

  lemma AccountEventLeavesAlone(s: Registry, e: Event, tick: nat, a: Account)
    requires AccountsInv(s, tick) && AccountEvent(e) && AccountEnabled(s, e) && LeavesAlone(e, a)
    requires a in s.users && a !in s.phase && s.users[a].enabled
    ensures var s' := AccountEffect(s, e, tick);
      && a in s'.users && a !in s'.phase && s'.users[a] == s.users[a]
  {
  }

  lemma StepLeavesUndisturbed(w: World, e: Event, a: Account, version: int)
    requires Inv(w) && Undisturbed(w, a, version) && LeavesAlone(e, a)
    ensures Undisturbed(Step(w, e), a, version)
  {
    if Enabled(w, e) {
      if AccountEvent(e) { AccountEventLeavesAlone(w.accounts, e, w.tick, a); } else { OthersKeepAccounts(w, e); }
    }
  }

  lemma SettleKeepsObject(w: World, call: nat, key: Key, outcome: Outcome, k: Key, r: Record)
    requires SameObject(w, k, r) && r.ref != call && (outcome.Stored? ==> outcome.record.ref == call)
    ensures SameObject(Settle(w, call, key, outcome), k, r)
  {
  }

  /** The object's number is neither waiting nor still to be given. */
  predicate Numbered(w: World, r: Record) {
    r.ref < w.next && r.ref !in w.pending
  }

  lemma StepKeepsObject(w: World, e: Event, k: Key, r: Record)
    requires Inv(w) && SameObject(w, k, r) && Numbered(w, r)
    ensures SameObject(Step(w, e), k, r) && Numbered(Step(w, e), r)
  {
    if Enabled(w, e) {
      if e.BeginSaving? {
        var outcome := BeginSave(w.records, w.accounts.users, w.now, w.tick, w.next, e.save);
        SettleKeepsObject(w.(next := w.next + 1), w.next, e.save.key, outcome, k, r);
      } else if e.ContinueSaving? {
        var p := w.pending[e.call];
        SettleKeepsObject(w, e.call, p.save.key, ContinueSave(w.accounts.users, w.tick, p), k, r);
      } else if e.FinishSaving? {
        var p := w.pending[e.call];
        SettleKeepsObject(w, e.call, p.save.key, FinishSave(w.records, w.now, e.call, p), k, r);
      } else {
        OthersKeepPending(w, e);
        OthersKeepObject(w, e, k, r);
      }
    }
  }

  lemma OthersKeepObject(w: World, e: Event, k: Key, r: Record)
    requires Enabled(w, e) && !e.BeginSaving? && !e.ContinueSaving? && !e.FinishSaving? && SameObject(w, k, r)
    ensures SameObject(Effect(w, e), k, r)
  {
  }

  lemma {:induction false} RunLeavesFindable(w: World, events: seq<Event>, k: Key, r: Record, a: Account, version: int)
    requires Inv(w) && SameObject(w, k, r) && Numbered(w, r) && Undisturbed(w, a, version)
    requires forall e :: e in events ==> LeavesAlone(e, a)
    ensures Inv(RunFrom(w, events)) && SameObject(RunFrom(w, events), k, r) && Numbered(RunFrom(w, events), r)
    ensures Undisturbed(RunFrom(w, events), a, version)
  {
    if events != [] {
      var front, e := events[..|events| - 1], events[|events| - 1];
      assert e in events && forall f :: f in front ==> f in events;
      RunLeavesFindable(w, front, k, r, a, version);
      StepKeepsInv(RunFrom(w, front), e);
      StepLeavesUndisturbed(RunFrom(w, front), e, a, version);
      StepKeepsObject(RunFrom(w, front), e, k, r);
    }
  }

  /**
   A bound record, once stored for an account that is enabled at its version, is answered by `find`
   whatever else happens, as long as it is neither removed nor replaced nor past its expiry, and
   the account is neither disabled nor mutated nor deleted. It is the record that was stored, but
   for a consumption.
   */
  lemma StoredRecordsAreFound(before: seq<Event>, after: seq<Event>, k: Key, r: Record, a: Account, w: World)
    requires k in Run(before).records && Run(before).records[k] == r && w == Run(before + after)
    requires r.securityVersion.Some? && r.payload.accountId == Some(a.id) && a.realm == k.realm
    requires Undisturbed(Run(before), a, r.securityVersion.value)
    requires forall e :: e in after ==> LeavesAlone(e, a)
    requires k in w.records && w.records[k].ref == r.ref && (r.expiresAt.None? || w.now < r.expiresAt.value)
    ensures FindIn(w.records, w.accounts.users, w.now, k) == Some(w.records[k]) && SameButConsumed(r, w.records[k])
  {
    EveryRunKeepsInv(before);
    RefsAreOld(Run(before));
    RunLeavesFindable(Run(before), after, k, r, a, r.securityVersion.value);
    RunsCompose(Initial, before, after);
  }

  // ---------- consumption under concurrent saves ----------

  predicate SameSave(w: World, w': World, n: nat) {
    n in w'.pending ==>
      && n in w.pending
      && w'.pending[n].save.key == w.pending[n].save.key
      && w'.pending[n].save.payload.consumed == w.pending[n].save.payload.consumed
  }

  lemma SettleKeepsSave(w: World, n: nat, call: nat, key: Key, outcome: Outcome)
    requires call == n && outcome.Suspended? ==>
      n in w.pending && outcome.pending.save.key == w.pending[n].save.key
      && outcome.pending.save.payload.consumed == w.pending[n].save.payload.consumed
    ensures SameSave(w, Settle(w, call, key, outcome), n)
  {
  }

  lemma OthersKeepPending(w: World, e: Event)
    requires Enabled(w, e) && !e.BeginSaving? && !e.ContinueSaving? && !e.FinishSaving?
    ensures Effect(w, e).pending == w.pending && Effect(w, e).next == w.next
  {
  }

  lemma ApplyKeepsSave(w: World, n: nat, e: Event)
    requires n < w.next
    ensures SameSave(w, Apply(w, e), n) && n < Apply(w, e).next
  {
    if !Enabled(w, e) {
    } else if e.BeginSaving? {
      SettleKeepsSave(w.(next := w.next + 1), n, w.next, e.save.key,
                      BeginSave(w.records, w.accounts.users, w.now, w.tick, w.next, e.save));
    } else if e.ContinueSaving? {
      var p := w.pending[e.call];
      SettleKeepsSave(w, n, e.call, p.save.key, ContinueSave(w.accounts.users, w.tick, p));
    } else if e.FinishSaving? {
      SettleKeepsSave(w, n, e.call, w.pending[e.call].save.key,
        FinishSave(w.records, w.now, e.call, w.pending[e.call]));
    } else {
      OthersKeepPending(w, e);
    }
  }

  lemma {:induction false} RunKeepsSave(w: World, n: nat, events: seq<Event>)
    requires n < w.next
    ensures SameSave(w, RunFrom(w, events), n) && n < RunFrom(w, events).next
  {
    if events != [] {
      var mid := RunFrom(w, events[..|events| - 1]);
      RunKeepsSave(w, n, events[..|events| - 1]);
      ApplyKeepsSave(mid, n, events[|events| - 1]);
      var last := Apply(mid, events[|events| - 1]);
      assert SameSave(mid, Tick(last), n);
    }
  }

  lemma BegunSaveIsCarried(w: World, save: Save)
    ensures var w' := Begin(w, save);
      && w.next < w'.next
      && (w.next in w'.pending && w.next !in w.pending ==>
            && w'.pending[w.next].save.key == save.key
            && w'.pending[w.next].save.payload.consumed == CarryConsumed(w.records, save).consumed)
  {
  }

  lemma FinishStoresPayload(w: World, n: nat)
    requires Enabled(w, FinishSaving(n)) && FinishSave(w.records, w.now, n, w.pending[n]).Stored?
    ensures var k, w' := w.pending[n].save.key, Finish(w, n);
      k in w'.records && w'.records[k].payload == w.pending[n].save.payload
  {
  }

  /**
   A save over a consumed record keeps it consumed exactly when the caller's payload says so or
   the record was consumed before the save began; a consumption during its awaits is lost.
   */
  lemma ConsumptionSurvivesSaveIff(before: seq<Event>, save: Save, during: seq<Event>, w: World, w1: World)
    requires w == Run(before) && w1 == RunFrom(Tick(Begin(w, save)), during)
    requires Enabled(w1, FinishSaving(w.next))
    requires FinishSave(w1.records, w1.now, w.next, w1.pending[w.next]).Stored?
    requires save.key in w1.records && Consumed(w1.records[save.key].payload)
    ensures var w2 := Finish(w1, w.next);
      && save.key in w2.records
      && (Consumed(w2.records[save.key].payload) <==>
            Consumed(save.payload) || (save.key in w.records && Consumed(w.records[save.key].payload)))
  {
    EveryRunKeepsInv(before);
    RefsAreOld(w);
    var begun := Tick(Begin(w, save));
    BegunSaveIsCarried(w, save);
    RunKeepsSave(begun, w.next, during);
    FinishStoresPayload(w1, w.next);
  }

  /** A save bound to no account and no grant has no await: it stores at once and loses no consumption. */
  lemma UnboundSaveKeepsConsumption(w: World, save: Save)
    requires save.payload.accountId.None? && save.payload.grantId.None?
    requires save.key in w.records && Consumed(w.records[save.key].payload)
    ensures var w' := Begin(w, save);
      save.key in w'.records && Consumed(w'.records[save.key].payload)
      && w'.pending == w.pending - {w.next}
  {
  }

  lemma RunSnoc(events: seq<Event>, e: Event)
    ensures Run(events + [e]) == Step(Run(events), e)
  {
    assert (events + [e])[..|events|] == events;
  }

  const ALICE := Account("master", "alice")
  const CODE_KEY := Key("master", "AuthorizationCode", "code")
  const CODE_SAVE := Save(CODE_KEY, Payload(Some("alice"), None, None, None, None, ""), None)
  const ALICE_ONLY := Registry(map[ALICE := User(true, 0)], map[ALICE := {"alice"}], map[], map[], {ALICE}, map[])
  const CREATED := World(map[], ALICE_ONLY, map[], 0, 1000, 2)
  const CODE_STORED := Record(0, CODE_SAVE.payload, Some(0), None, 2)

  lemma CodeIsStored() returns (before: seq<Event>)
    ensures Run(before) == CREATED.(records := map[CODE_KEY := CODE_STORED], next := 1, tick := 4)
  {
    RunSnoc([], Advance(1000));
    assert [] + [Advance(1000)] == [Advance(1000)];
    RunSnoc([Advance(1000)], CreateUser(ALICE, User(true, 0), {"alice"}));
    before := [Advance(1000)] + [CreateUser(ALICE, User(true, 0), {"alice"})];
    assert Run(before) == CREATED;
    RunSnoc(before, BeginSaving(CODE_SAVE));
    before := before + [BeginSaving(CODE_SAVE)];
    assert Run(before) ==
      CREATED.(pending := map[0 := AwaitVersion(CODE_SAVE, None, Some(0), 2)], next := 1, tick := 3);
    RunSnoc(before, FinishSaving(0));
    before := before + [FinishSaving(0)];
  }

  /** The loss happens: a code consumed while a second save of it waits is stored unconsumed. */
  lemma ConsumptionCanBeLost() returns (before: seq<Event>, last: Event)
    ensures CODE_KEY in Run(before).records && Consumed(Run(before).records[CODE_KEY].payload)
    ensures CODE_KEY in Run(before + [last]).records && !Consumed(Run(before + [last]).records[CODE_KEY].payload)
  {
    before := CodeIsStored();
    var w := CREATED.(records := map[CODE_KEY := CODE_STORED], next := 1, tick := 4);
    RunSnoc(before, BeginSaving(CODE_SAVE));
    before := before + [BeginSaving(CODE_SAVE)];
    var waiting := w.(pending := map[1 := AwaitVersion(CODE_SAVE, None, Some(0), 4)], next := 2, tick := 5);
    assert Run(before) == waiting;
    RunSnoc(before, Consume(CODE_KEY));
    before := before + [Consume(CODE_KEY)];
    assert Run(before) == waiting.(records := map[CODE_KEY := MarkConsumed(CODE_STORED, 1000)], tick := 6);
    last := FinishSaving(1);
    RunSnoc(before, last);
  }

  // ---------- a deletion that is lost ----------

  const BOB := Account("master", "bob")
  const GRANT_KEY := GrantKey("master", "grant")
  const GRANT_SAVE := Save(GRANT_KEY, Payload(Some("alice"), None, None, None, None, ""), None)
  const GRANT_STORED := Record(0, GRANT_SAVE.payload, Some(0), None, 1)
  const TOKEN_KEY := Key("master", "AccessToken", "token")
  const TOKEN_SAVE := Save(TOKEN_KEY, Payload(Some("alice"), Some("grant"), None, None, None, ""), None)
  const TOKEN_STORED := Record(1, TOKEN_SAVE.payload, Some(0), None, 4)

  const GrantedRun: seq<Event> := [
    CreateUser(ALICE, User(true, 0), {"alice"}),
    BeginSaving(GRANT_SAVE),
    FinishSaving(0)]

  const TokenRun: seq<Event> := [
    BeginSaving(TOKEN_SAVE),
    ContinueSaving(1),
    FinishSaving(1)]

  /** The deletion begins, somebody else takes the login, and the audit record cannot be written. */
  const LosingRun: seq<Event> := [
    BeginDelete(ALICE),
    CreateUser(BOB, User(true, 0), {"alice"}),
    FailDelete(ALICE)]

  lemma RunThree(w: World, events: seq<Event>)
    requires |events| == 3
    ensures RunFrom(w, events) == Step(Step(Step(w, events[0]), events[1]), events[2])
  {
    assert events[..2][..1] == events[..1] && events[..1][..0] == [];
    assert events[..2][1] == events[1] && events[..1][0] == events[0];
    assert RunFrom(w, events[..1]) == Step(w, events[0]);
    assert RunFrom(w, events[..2]) == Step(RunFrom(w, events[..1]), events[1]);
  }

  lemma GrantIsStored()
    ensures Run(GrantedRun) == World(map[GRANT_KEY := GRANT_STORED], ALICE_ONLY, map[], 1, 0, 3)
  {
    RunThree(Initial, GrantedRun);
    var w1 := Step(Initial, GrantedRun[0]);
    assert w1 == World(map[], ALICE_ONLY, map[], 0, 0, 1);
    var w2 := Step(w1, GrantedRun[1]);
    assert w2 == World(map[], ALICE_ONLY, map[0 := AwaitVersion(GRANT_SAVE, None, Some(0), 1)], 1, 0, 2);
  }

  lemma TokenIsStored(w: World)
    requires w == World(map[GRANT_KEY := GRANT_STORED], ALICE_ONLY, map[], 1, 0, 3)
    ensures var w' := RunFrom(w, TokenRun);
      w'.accounts == ALICE_ONLY && TOKEN_KEY in w'.records && w'.records[TOKEN_KEY] == TOKEN_STORED
  {
    RunThree(w, TokenRun);
    var w1 := Step(w, TokenRun[0]);
    assert w1 == w.(pending := map[1 := AwaitParent(TOKEN_SAVE, GRANT_STORED, Some(0))], next := 2, tick := 4);
    var w2 := Step(w1, TokenRun[1]);
    assert w2 == w1.(pending := map[1 := AwaitVersion(TOKEN_SAVE, Some(GRANT_STORED), Some(0), 4)], tick := 5);
  }

  lemma AliceIsDeleted(w: World)
    requires w.accounts == ALICE_ONLY
    ensures var w' := Step(w, LosingRun[0]);
      && w'.records == w.records && w'.accounts.users == map[] && w'.accounts.logins == map[]
      && w'.accounts.phase == map[ALICE := Deleting(User(true, 0), {"alice"})] && w'.accounts.known == {ALICE}
  {
  }

  lemma BobTakesTheLogin(w: World)
    requires w.accounts.users == map[] && w.accounts.logins == map[] && w.accounts.known == {ALICE}
    ensures var w' := Step(w, LosingRun[1]);
      && w'.records == w.records && w'.accounts.users == map[BOB := User(true, 0)]
      && w'.accounts.logins == map[BOB := {"alice"}] && w'.accounts.phase == w.accounts.phase
  {
  }

  lemma AliceIsLost(w: World)
    requires w.accounts == ALICE_ONLY
    ensures var w' := RunFrom(w, LosingRun);
      w'.records == w.records && ALICE !in w'.accounts.users && ALICE !in w'.accounts.phase
  {
    RunThree(w, LosingRun);
    AliceIsDeleted(w);
    var w1 := Step(w, LosingRun[0]);
    BobTakesTheLogin(w1);
    var w2 := Step(w1, LosingRun[1]);
    assert "alice" in w2.accounts.logins[BOB];
    assert LoginTaken(w2.accounts, ALICE, {"alice"});
  }

  /** It happens: the account is gone, nothing is pending for it, and its grant-linked token is still stored. */
  lemma LostDeletionsKeepRecords()
    ensures var w := Run(GrantedRun + TokenRun + LosingRun);
      && TOKEN_KEY in w.records && w.records[TOKEN_KEY].payload.grantId == Some("grant")
      && Owner(TOKEN_KEY, w.records[TOKEN_KEY]) == Some(ALICE)
      && ALICE !in w.accounts.users && ALICE !in w.accounts.phase
  {
    GrantIsStored();
    TokenIsStored(Run(GrantedRun));
    RunsCompose(Initial, GrantedRun, TokenRun);
    AliceIsLost(Run(GrantedRun + TokenRun));
    RunsCompose(Initial, GrantedRun + TokenRun, LosingRun);
  }
}
