/**
 The artifact records of the OIDC provider and the in-memory adapter that keeps them.

 `upsert` is cut at its awaits into three atomic segments (BeginSave, ContinueSave,
 FinishSave). Each segment is a function from what it reads to what it does, so that the
 class below and the protocol in EpochProtocol share one definition.
 */
module OidcRecords {
  import opened Wrappers
  import opened Accounts

  datatype Key = Key(realm: string, model: string, id: string)

  datatype Payload = Payload(
    accountId: Option<string>,
    grantId: Option<string>,
    uid: Option<string>,
    userCode: Option<string>,
    consumed: Option<nat>,
    body: string)

  /**
   A stored record. `ref` is the identity of the stored object, `versionReadAt` the moment
   (a step count) at which `securityVersion` was read; the code has neither as a field.
   */
  datatype Record = Record(
    ref: nat,
    payload: Payload,
    securityVersion: Option<int>,
    expiresAt: Option<int>,
    versionReadAt: nat)

  type Records = map<Key, Record>

  datatype User = User(enabled: bool, securityVersion: int)

  type Users = map<Account, User>

  /** `securityVersionFor`: null for an absent or disabled account. */
  function VersionFor(users: Users, a: Account): Option<int> {
    if a in users && users[a].enabled then Some(users[a].securityVersion) else None
  }

  datatype Error = InvalidRequest | InvalidGrant

  predicate Unexpired(expiresAt: Option<int>, now: int) {
    expiresAt.None? || expiresAt.value > now
  }

  predicate Live(r: Record, now: int) {
    Unexpired(r.expiresAt, now)
  }

  function Current(rs: Records, key: Key, now: int): Option<Record> {
    if key in rs && Live(rs[key], now) then Some(rs[key]) else None
  }

  /** `consumed` as the code tests it: an absent value and the epoch second zero are both falsy. */
  predicate Consumed(p: Payload) {
    p.consumed.Some? && p.consumed.value != 0
  }

  function Owner(key: Key, r: Record): Option<Account> {
    if r.payload.accountId.Some? then Some(Account(key.realm, r.payload.accountId.value)) else None
  }

  function GrantKey(realm: string, id: string): Key {
    Key(realm, "Grant", id)
  }

  // ---------- upsert, one function per segment ----------

  datatype Save = Save(key: Key, payload: Payload, ttl: Option<int>)

  /** A call of `upsert` suspended at one of its two awaits. */
  datatype Pending =
    | AwaitParent(save: Save, grant: Record, read: Option<int>)
    | AwaitVersion(save: Save, parent: Option<Record>, read: Option<int>, readAt: nat)

  datatype Outcome =
    | Rejected(error: Error)
    | Suspended(pending: Pending)
    | Stored(record: Record)

  function Expiry(ttl: Option<int>, now: int): Option<int> {
    if ttl.Some? then Some(now + ttl.value) else None
  }

  /** The payload to store: consumption already recorded under the key is carried over. */
  function CarryConsumed(rs: Records, save: Save): Payload {
    if save.key in rs && Consumed(rs[save.key].payload) && !Consumed(save.payload)
    then save.payload.(consumed := rs[save.key].payload.consumed)
    else save.payload
  }

  /** From the call to the first await, or to the end when nothing has to be awaited. */
  function BeginSave(rs: Records, users: Users, now: int, tick: nat, id: nat, save: Save): Outcome {
    if save.key.model == "ReplayDetection" && Current(rs, save.key, now).Some? then Rejected(InvalidRequest)
    else BeginBinding(rs, users, now, tick, id, save.(payload := CarryConsumed(rs, save)))
  }

  function BeginBinding(rs: Records, users: Users, now: int, tick: nat, id: nat, save: Save): Outcome {
    if save.payload.grantId.Some? then
      var parent := Current(rs, GrantKey(save.key.realm, save.payload.grantId.value), now);
      if parent.None? || parent.value.payload.accountId.None? then Rejected(InvalidGrant)
      else
        var account := Account(save.key.realm, parent.value.payload.accountId.value);
        Suspended(AwaitParent(save, parent.value, VersionFor(users, account)))
    else if save.payload.accountId.Some? then
      var account := Account(save.key.realm, save.payload.accountId.value);
      Suspended(AwaitVersion(save, None, VersionFor(users, account), tick))
    else
      Stored(Record(id, save.payload, None, Expiry(save.ttl, now), tick))
  }

  /** From the first await of a grant-linked save to its second. */
  function ContinueSave(users: Users, tick: nat, p: Pending): Outcome
    requires p.AwaitParent?
  {
    if p.grant.payload.accountId.None? || p.read.None? || p.grant.securityVersion != p.read then Rejected(InvalidGrant)
    else if p.save.payload.accountId.Some? && p.save.payload.accountId != p.grant.payload.accountId then
      Rejected(InvalidGrant)
    else
      var next := p.save.(payload := p.save.payload.(accountId := p.grant.payload.accountId));
      Suspended(AwaitVersion(next, Some(p.grant),
                             VersionFor(users, Account(next.key.realm, next.payload.accountId.value)), tick))
  }

  /** From the last await to the end. */
  function FinishSave(rs: Records, now: int, id: nat, p: Pending): Outcome
    requires p.AwaitVersion?
  {
    if p.read.None? then Rejected(InvalidGrant)
    else if p.save.payload.grantId.Some? &&
            (var live := Current(rs, GrantKey(p.save.key.realm, p.save.payload.grantId.value), now);
             || live.None? || p.parent.None?
             || live.value.ref != p.parent.value.ref || live.value.securityVersion != p.read)
    then Rejected(InvalidGrant)
    else Stored(Record(id, p.save.payload, p.read, Expiry(p.save.ttl, now), p.readAt))
  }

  // ---------- the other record operations ----------

  function MarkConsumed(r: Record, now: nat): Record {
    r.(payload := r.payload.(consumed := Some(now / 1000)))
  }

  /** One-use failures are InvalidGrant for the grant artifacts and InvalidRequest otherwise. */
  function ConsumeError(model: string): Error {
    if model in {"AuthorizationCode", "RefreshToken", "DeviceCode", "BackchannelAuthenticationRequest"}
    then InvalidGrant else InvalidRequest
  }

  predicate Consumable(rs: Records, key: Key, now: int) {
    Current(rs, key, now).Some? && !Consumed(rs[key].payload)
  }

  /** What `find` answers: nothing when the owner is gone, disabled or at another version. */
  function FindIn(rs: Records, users: Users, now: int, key: Key): Option<Record> {
    if Current(rs, key, now).None? then None
    else
      var r := rs[key];
      if r.securityVersion.Some? &&
         (Owner(key, r).None? || VersionFor(users, Owner(key, r).value) != r.securityVersion) then None
      else Some(r)
  }

  /**
   `find` answers exactly the stored record while it lives, whatever its model, provided it is bound
   to no version or its account is enabled at that version.
   */
  lemma FindAnswersIff(rs: Records, users: Users, now: int, key: Key, r: Record)
    ensures FindIn(rs, users, now, key) == Some(r) <==>
      && key in rs && r == rs[key]
      && (r.expiresAt.None? || now < r.expiresAt.value)
      && (r.securityVersion.None? ||
          (&& r.payload.accountId.Some?
           && var a := Account(key.realm, r.payload.accountId.value);
              a in users && users[a].enabled && users[a].securityVersion == r.securityVersion.value))
  {
  }

  /** A save keeps the mark of the record it replaces, unless it brings one of its own; nothing else of it changes. */
  lemma MarksAreCarriedOver(rs: Records, save: Save)
    ensures var p := CarryConsumed(rs, save);
      && p.(consumed := None) == save.payload.(consumed := None)
      && (Consumed(save.payload) ==> p.consumed == save.payload.consumed)
      && (!Consumed(save.payload) ==> (Consumed(p) <==> save.key in rs && Consumed(rs[save.key].payload)))
      && (!Consumed(save.payload) && Consumed(p) ==> p.consumed == rs[save.key].payload.consumed)
  {
  }

  /** A lifetime is counted from the clock of the save; without one a record never expires. */
  lemma LivesForItsLifetime(ttl: Option<int>, now: int, later: int)
    ensures Unexpired(Expiry(ttl, now), later) <==> ttl.None? || later < now + ttl.value
  {
  }

  /** Consuming sets the mark to the second of the clock and leaves the rest of the record as it was. */
  lemma ConsumptionMarks(r: Record, now: nat)
    ensures var after := MarkConsumed(r, now);
      && after.ref == r.ref && after.securityVersion == r.securityVersion && after.expiresAt == r.expiresAt
      && after.versionReadAt == r.versionReadAt
      && after.payload.(consumed := None) == r.payload.(consumed := None)
      && after.payload.consumed.Some? && 1000 * after.payload.consumed.value <= now
      && now < 1000 * (after.payload.consumed.value + 1)
  {
  }

  /** What can be consumed: a record that is stored, lives and bears no mark other than second zero. */
  lemma ConsumableIff(rs: Records, key: Key, now: int)
    ensures Consumable(rs, key, now) <==>
      && key in rs && (rs[key].expiresAt.None? || now < rs[key].expiresAt.value)
      && (rs[key].payload.consumed.None? || rs[key].payload.consumed.value == 0)
  {
  }

  /** The four grant artifacts answer `invalid_grant` when they are used again, every other model `invalid_request`. */
  lemma ReuseAnswers(model: string)
    ensures ConsumeError("AuthorizationCode") == ConsumeError("RefreshToken") == InvalidGrant
    ensures ConsumeError("DeviceCode") == ConsumeError("BackchannelAuthenticationRequest") == InvalidGrant
    ensures ConsumeError(model) == InvalidGrant ==>
      || model == "AuthorizationCode" || model == "RefreshToken"
      || model == "DeviceCode" || model == "BackchannelAuthenticationRequest"
  {
  }

  /** Revoking by grant deletes the records of that model and realm with that grant, and no other. */
  lemma GrantRevocationIsExact(rs: Records, realm: string, model: string, grantId: string, k: Key)
    ensures var after := RevokeGrant(rs, realm, model, grantId);
      && (k in after <==>
            k in rs && (k.realm == realm && k.model == model ==> rs[k].payload.grantId != Some(grantId)))
      && (k in after ==> after[k] == rs[k])
  {
  }

  // ---------- account revocation ----------

  /** The rows that the two SELECTs joined by UNION in the SQL name `doomed`. */
  function OwnedBy(rs: Records, a: Account): set<Key> {
    set k | k in rs && Owner(k, rs[k]) == Some(a)
  }

  function GrantsOf(rs: Records, a: Account): set<string> {
    set k | k in OwnedBy(rs, a) && k.model == "Grant" :: k.id
  }

  function LinkedTo(rs: Records, realm: string, grants: set<string>): set<Key> {
    set k | k in rs && k.realm == realm && rs[k].payload.grantId.Some? && rs[k].payload.grantId.value in grants
  }

  function Doomed(rs: Records, a: Account): set<Key> {
    OwnedBy(rs, a) + LinkedTo(rs, a.realm, GrantsOf(rs, a))
  }

  function RevokeAccount(rs: Records, a: Account): Records {
    rs - Doomed(rs, a)
  }

  function RevokeGrant(rs: Records, realm: string, model: string, grantId: string): Records {
    map k | k in rs && !(k.realm == realm && k.model == model && rs[k].payload.grantId == Some(grantId)) :: rs[k]
  }

  /** Whether the record names a grant that is stored and belongs to the account. */
  predicate HangsOnGrantOf(rs: Records, k: Key, a: Account) {
    && k in rs && rs[k].payload.grantId.Some?
    && var g := Key(a.realm, "Grant", rs[k].payload.grantId.value);
       g in rs && rs[g].payload.accountId == Some(a.id)
  }

  /** What a revocation deletes: in the account's realm, what names the account and what hangs on a grant of it. */
  lemma DoomedIff(rs: Records, a: Account, k: Key)
    ensures k in Doomed(rs, a) <==>
      k in rs && k.realm == a.realm && (rs[k].payload.accountId == Some(a.id) || HangsOnGrantOf(rs, k, a))
    ensures k in RevokeAccount(rs, a) <==> k in rs && k !in Doomed(rs, a)
  {
    if HangsOnGrantOf(rs, k, a) {
      var g := Key(a.realm, "Grant", rs[k].payload.grantId.value);
      assert g in OwnedBy(rs, a) && g.id in GrantsOf(rs, a);
    }
    if k in rs && k.realm == a.realm && rs[k].payload.grantId.Some? && rs[k].payload.grantId.value in GrantsOf(rs, a) {
      var g :| g in OwnedBy(rs, a) && g.model == "Grant" && g.id == rs[k].payload.grantId.value;
      assert g == Key(a.realm, "Grant", rs[k].payload.grantId.value);
    }
  }

  /**
   Revocation leaves nothing of the account behind, neither its own records nor anything
   still linked to a grant it had, and touches nothing else.
   */
  lemma RevocationIsExact(rs: Records, a: Account)
    ensures var left := RevokeAccount(rs, a);
      && OwnedBy(left, a) == {}
      && LinkedTo(left, a.realm, GrantsOf(rs, a)) == {}
      && left.Keys <= rs.Keys
      && (forall k :: k in left ==> left[k] == rs[k])
      && (forall k :: k in rs && k.realm != a.realm ==> k in left)
      && (forall k :: k in rs && Owner(k, rs[k]) != Some(a) && rs[k].payload.grantId.None? ==> k in left)
      && RevokeAccount(left, a) == left
  {
    var left := RevokeAccount(rs, a);
    assert forall k :: k in left ==> k !in OwnedBy(rs, a) && k !in LinkedTo(rs, a.realm, GrantsOf(rs, a));
    assert OwnedBy(left, a) == {};
    assert GrantsOf(left, a) == {};
    assert LinkedTo(left, a.realm, {}) == {};
    assert Doomed(left, a) == {};
  }
}
