/**
 The PostgreSQL adapter: every operation is one statement, hence one atomic step on the two
 tables it reads and writes.
 */
module PostgresRecords {
  import opened Wrappers
  import opened Accounts
  import opened OidcRecords

  /** A row of `oidc_records`; consumption is a column of its own, never part of the payload. */
  datatype Row = Row(payload: Payload, version: Option<int>, expiresAt: Option<int>, consumedAt: Option<nat>)

  type Rows = map<Key, Row>

  datatype Tables = Tables(rows: Rows, users: Users, now: nat)

  datatype UpsertError = StaleBinding | Replayed | UniqueViolation

  // ---------- upsert ----------

  /** The CTE `parent_account`: the owner of a live grant, if enabled and still at the grant's version. */
  function ParentAccount(t: Tables, key: Key, grantId: Option<string>): Option<Account> {
    if grantId.None? then None
    else
      var g := GrantKey(key.realm, grantId.value);
      if g !in t.rows || !Unexpired(t.rows[g].expiresAt, t.now) || t.rows[g].payload.accountId.None? then None
      else
        var a := Account(key.realm, t.rows[g].payload.accountId.value);
        if VersionFor(t.users, a).Some? && t.rows[g].version == VersionFor(t.users, a) then Some(a) else None
  }

  /** The column `valid` of the CTE `security`. */
  predicate BindingValid(t: Tables, key: Key, p: Payload) {
    var parent := ParentAccount(t, key, p.grantId);
    && (p.accountId.Some? ==> VersionFor(t.users, Account(key.realm, p.accountId.value)).Some?)
    && (p.grantId.Some? ==> parent.Some?)
    && (p.accountId.Some? && p.grantId.Some? ==> parent.Some? && parent.value.id == p.accountId.value)
  }

  function BoundAccount(t: Tables, key: Key, p: Payload): Option<string> {
    if p.accountId.Some? then p.accountId
    else if ParentAccount(t, key, p.grantId).Some? then Some(ParentAccount(t, key, p.grantId).value.id)
    else None
  }

  function BoundVersion(t: Tables, key: Key, p: Payload): Option<int> {
    if BoundAccount(t, key, p).None? then None
    else VersionFor(t.users, Account(key.realm, BoundAccount(t, key, p).value))
  }

  predicate Clashes(rows: Rows, key: Key, p: Payload) {
    exists k :: k in rows && k != key && k.realm == key.realm && k.model == key.model
      && ((p.uid.Some? && rows[k].payload.uid == p.uid) || (p.userCode.Some? && rows[k].payload.userCode == p.userCode))
  }

  function NewRow(t: Tables, save: Save): Row {
    var previous := if save.key in t.rows then t.rows[save.key].consumedAt else None;
    Row(save.payload.(consumed := None, accountId := BoundAccount(t, save.key, save.payload)),
        BoundVersion(t, save.key, save.payload),
        Expiry(save.ttl, t.now),
        if previous.Some? then previous else save.payload.consumed)
  }

  function Upsert(t: Tables, save: Save): Result<Row, UpsertError> {
    var bound := save.payload.accountId.Some? || save.payload.grantId.Some?;
    if !BindingValid(t, save.key, save.payload) then Err(StaleBinding)
    else if save.key.model == "ReplayDetection" && save.key in t.rows then
      Err(if bound then StaleBinding else Replayed)
    else if Clashes(t.rows, save.key, save.payload) then Err(UniqueViolation)
    else Ok(NewRow(t, save))
  }

  // ---------- the machine ----------

  datatype MutationResult = Applied(enabled: bool) | Declined(enabled: bool) | Threw

  datatype Event =
    | Save(save: OidcRecords.Save)
    | Consume(key: Key)
    | ClaimInitialAccessToken(realm: string, id: string)
    | Destroy(key: Key)
    | RevokeByGrant(realm: string, model: string, grantId: string)
    | CreateUser(account: Account, user: User)
    | MutateSecurity(account: Account, result: MutationResult)
    | DeleteAccount(account: Account)
    | CleanupExpired(keys: set<Key>)
    | Advance(milliseconds: nat)

  function ClaimKey(e: Event): Key
    requires e.Consume? || e.ClaimInitialAccessToken?
  {
    if e.Consume? then e.key else Key(e.realm, "InitialAccessToken", e.id)
  }

  /** The guarded UPDATE that both `consume` and `claimInitialAccessToken` run. */
  predicate Claims(t: Tables, e: Event) {
    && (e.Consume? || e.ClaimInitialAccessToken?)
    && ClaimKey(e) in t.rows
    && t.rows[ClaimKey(e)].consumedAt.None?
    && Unexpired(t.rows[ClaimKey(e)].expiresAt, t.now)
  }

  function RecordOf(r: Row): Record {
    Record(0, r.payload, r.version, r.expiresAt, 0)
  }

  /** The rows the SQL revocation names `doomed`: those of the account and those linked to its grants. */
  function DoomedRows(rows: Rows, a: Account): set<Key> {
    Doomed(map k | k in rows :: RecordOf(rows[k]), a)
  }

  function MutateUser(t: Tables, a: Account, result: MutationResult): Tables
    requires a in t.users
  {
    match result
    case Applied(enabled) =>
      t.(users := t.users[a := User(enabled, t.users[a].securityVersion + 1)], rows := t.rows - DoomedRows(t.rows, a))
    case Declined(enabled) => t.(users := t.users[a := t.users[a].(enabled := enabled)])
    case Threw => t
  }

  function Step(t: Tables, e: Event): Tables {
    match e
    case Save(save) => (match Upsert(t, save) case Ok(r) => t.(rows := t.rows[save.key := r]) case Err(_) => t)
    case Consume(k) => if Claims(t, e) then t.(rows := t.rows[k := t.rows[k].(consumedAt := Some(t.now))]) else t
    case ClaimInitialAccessToken(_, _) =>
      var k := ClaimKey(e);
      if Claims(t, e) then t.(rows := t.rows[k := t.rows[k].(consumedAt := Some(t.now))]) else t
    case Destroy(k) => t.(rows := t.rows - {k})
    case RevokeByGrant(realm, model, g) =>
      var doomed := set k | k in t.rows && k.realm == realm && k.model == model && t.rows[k].payload.grantId == Some(g);
      t.(rows := t.rows - doomed)
    case CreateUser(a, u) => if a in t.users then t else t.(users := t.users[a := u])
    case MutateSecurity(a, result) => if a in t.users then MutateUser(t, a, result) else t
    case DeleteAccount(a) =>
      if a in t.users then t.(users := t.users - {a}, rows := t.rows - DoomedRows(t.rows, a)) else t
    case CleanupExpired(keys) =>
      t.(rows := t.rows - set k | k in keys && k in t.rows && !Unexpired(t.rows[k].expiresAt, t.now))
    case Advance(d) => t.(now := t.now + d)
  }

  function Run(t: Tables, events: seq<Event>): Tables
    decreases |events|
  {
    if events == [] then t else Run(Step(t, events[0]), events[1..])
  }

  const Empty := Tables(map[], map[], 0)

  // ---------- the statements one by one ----------

  /** A claim wins exactly on a row that is there, unconsumed and unexpired; it marks that row, now, and no other. */
  lemma ClaimsAreExact(t: Tables, k: Key, realm: string, id: string)
    ensures var t' := Step(t, Consume(k));
      var open := k in t.rows && t.rows[k].consumedAt.None? &&
                  (t.rows[k].expiresAt.None? || t.now < t.rows[k].expiresAt.value);
      && (Claims(t, Consume(k)) <==> open)
      && t' == if open then t.(rows := t.rows[k := t.rows[k].(consumedAt := Some(t.now))]) else t
    ensures var k := Key(realm, "InitialAccessToken", id);
      && (Claims(t, ClaimInitialAccessToken(realm, id)) <==> Claims(t, Consume(k)))
      && Step(t, ClaimInitialAccessToken(realm, id)) == Step(t, Consume(k))
  {
  }

  /** The unique indexes: another row of the same realm and model has the uid or the user code. */
  predicate CodeInUse(t: Tables, save: OidcRecords.Save) {
    exists k :: k in t.rows && k.id != save.key.id && k.realm == save.key.realm && k.model == save.key.model
      && (save.payload.uid in {t.rows[k].payload.uid} - {None} ||
          save.payload.userCode in {t.rows[k].payload.userCode} - {None})
  }

  /** Whether the save's account and grant are there: enabled, live, one of the other and at the grant's version. */
  predicate IsBindable(t: Tables, save: OidcRecords.Save) {
    var accountId, grantId := save.payload.accountId, save.payload.grantId;
    && (accountId.Some? ==>
          var a := Account(save.key.realm, accountId.value);
          a in t.users && t.users[a].enabled)
    && (grantId.Some? ==>
          var g := Key(save.key.realm, "Grant", grantId.value);
          && g in t.rows && (t.rows[g].expiresAt.None? || t.now < t.rows[g].expiresAt.value)
          && t.rows[g].payload.accountId.Some?
          && (accountId.Some? ==> t.rows[g].payload.accountId == accountId)
          && var a := Account(save.key.realm, t.rows[g].payload.accountId.value);
             a in t.users && t.users[a].enabled && t.rows[g].version == Some(t.users[a].securityVersion))
  }

  /**
   When a save succeeds: account and grant can be bound, a replay marker is not there yet, and no
   other row has one of its codes. Its row then carries the account, its version, the lifetime, and
   the first consumption there ever was; no other row changes.
   */
  lemma UpsertIff(t: Tables, save: OidcRecords.Save)
    ensures var result := Upsert(t, save);
      var replayed := save.key.model == "ReplayDetection" && save.key in t.rows;
      && (result.Ok? <==> IsBindable(t, save) && !replayed && !CodeInUse(t, save))
      && (!IsBindable(t, save) ==> result == Err(StaleBinding))
      && (IsBindable(t, save) && !replayed && CodeInUse(t, save) ==> result == Err(UniqueViolation))
      && (IsBindable(t, save) && replayed ==>
            var bound := save.payload.accountId.Some? || save.payload.grantId.Some?;
            result == Err(if bound then StaleBinding else Replayed))
  {
    BindableIff(t, save);
    CodeInUseIff(t, save);
  }

  lemma BindableIff(t: Tables, save: OidcRecords.Save)
    ensures BindingValid(t, save.key, save.payload) <==> IsBindable(t, save)
  {
  }

  lemma CodeInUseIff(t: Tables, save: OidcRecords.Save)
    ensures Clashes(t.rows, save.key, save.payload) <==> CodeInUse(t, save)
  {
  }

  /** The row a save leaves, and that it leaves every other row and every user. */
  lemma SavedRowIs(t: Tables, save: OidcRecords.Save)
    requires Upsert(t, save).Ok?
    ensures var after := Step(t, Event.Save(save));
      && after.rows - {save.key} == t.rows - {save.key} && after.users == t.users && after.now == t.now
      && save.key in after.rows
      && var row := after.rows[save.key];
         && row.payload.(accountId := None) == save.payload.(accountId := None, consumed := None)
         && (row.payload.accountId.Some? <==> save.payload.accountId.Some? || save.payload.grantId.Some?)
         && (save.payload.accountId.Some? ==> row.payload.accountId == save.payload.accountId)
         && (save.payload.grantId.Some? ==>
               row.payload.accountId == t.rows[GrantKey(save.key.realm, save.payload.grantId.value)].payload.accountId)
         && (row.payload.accountId.None? ==> row.version.None?)
         && (row.payload.accountId.Some? ==>
               var a := Account(save.key.realm, row.payload.accountId.value);
               a in t.users && row.version == Some(t.users[a].securityVersion))
         && (save.ttl.None? ==> row.expiresAt.None?)
         && (save.ttl.Some? ==> row.expiresAt == Some(t.now + save.ttl.value))
         && row.consumedAt == (if save.key in t.rows && t.rows[save.key].consumedAt.Some?
                               then t.rows[save.key].consumedAt else save.payload.consumed)
  {
    BindableIff(t, save);
  }

  /** What each deletion takes: one row, the rows of a grant, the expired ones among those named. */
  lemma DeletionsAreExact(t: Tables, k: Key, realm: string, model: string, grantId: string, keys: set<Key>, j: Key)
    ensures j in Step(t, Destroy(k)).rows <==> j in t.rows && j != k
    ensures j in Step(t, RevokeByGrant(realm, model, grantId)).rows <==>
      j in t.rows && (j.realm == realm && j.model == model ==> t.rows[j].payload.grantId != Some(grantId))
    ensures j in Step(t, CleanupExpired(keys)).rows <==>
      j in t.rows && (j in keys ==> t.rows[j].expiresAt.None? || t.now < t.rows[j].expiresAt.value)
    ensures forall e :: e in {Destroy(k), RevokeByGrant(realm, model, grantId), CleanupExpired(keys)} ==>
      && Step(t, e).users == t.users && Step(t, e).now == t.now
      && (j in Step(t, e).rows ==> Step(t, e).rows[j] == t.rows[j])
  {
  }

  /**
   A security mutation that is applied counts the version up, revokes the account and, as a deletion
   does, nobody else; one that is declined or throws leaves every row and version.
   */
  lemma MutationsAreExact(t: Tables, a: Account, enabled: bool)
    requires a in t.users
    ensures var applied := Step(t, MutateSecurity(a, Applied(enabled)));
      && applied.users == t.users[a := User(enabled, t.users[a].securityVersion + 1)]
      && applied.rows == t.rows - DoomedRows(t.rows, a) && applied.now == t.now
    ensures var declined := Step(t, MutateSecurity(a, Declined(enabled)));
      && declined.users == t.users[a := User(enabled, t.users[a].securityVersion)]
      && declined.rows == t.rows && declined.now == t.now
    ensures Step(t, MutateSecurity(a, Threw)) == t
    ensures var deleted := Step(t, DeleteAccount(a));
      deleted.users == t.users - {a} && deleted.rows == t.rows - DoomedRows(t.rows, a) && deleted.now == t.now
  {
  }

  // ---------- every account-bound row is current ----------

  predicate RowInv(t: Tables, k: Key, r: Row) {
    && (r.payload.grantId.Some? ==> r.version.Some?)
    && (r.version.Some? <==> r.payload.accountId.Some?)
    && (r.version.Some? ==>
          var a := Account(k.realm, r.payload.accountId.value);
          a in t.users && t.users[a].securityVersion == r.version.value)
  }

  predicate UniqueCodes(rows: Rows) {
    forall j, k :: j in rows && k in rows && j != k && j.realm == k.realm && j.model == k.model ==>
      && (rows[j].payload.uid.Some? ==> rows[j].payload.uid != rows[k].payload.uid)
      && (rows[j].payload.userCode.Some? ==> rows[j].payload.userCode != rows[k].payload.userCode)
  }

  predicate Inv(t: Tables) {
    && (forall k {:trigger RowInv(t, k, t.rows[k])} :: k in t.rows ==> RowInv(t, k, t.rows[k]))
    && UniqueCodes(t.rows)
  }

  lemma NewRowIsCurrent(t: Tables, save: OidcRecords.Save)
    requires Upsert(t, save).Ok?
    ensures RowInv(t, save.key, NewRow(t, save))
  {
  }

  lemma SaveKeepsInv(t: Tables, save: OidcRecords.Save)
    requires Inv(t)
    ensures Inv(Step(t, Event.Save(save)))
  {
    var t' := Step(t, Event.Save(save));
    if Upsert(t, save).Ok? {
      NewRowIsCurrent(t, save);
      forall k | k in t'.rows ensures RowInv(t', k, t'.rows[k]) {
        if k != save.key { assert RowInv(t, k, t.rows[k]); }
      }
      assert forall k :: k in t.rows && k != save.key && k.realm == save.key.realm && k.model == save.key.model ==>
          (save.payload.uid.Some? ==> t.rows[k].payload.uid != save.payload.uid)
          && (save.payload.userCode.Some? ==> t.rows[k].payload.userCode != save.payload.userCode);
    }
  }

  lemma FewerRowsKeepInv(t: Tables, rows: Rows, users: Users, now: nat)
    requires Inv(t)
    requires forall k :: k in rows ==> k in t.rows && rows[k] == t.rows[k].(consumedAt := rows[k].consumedAt)
    requires forall k :: k in rows && rows[k].payload.accountId.Some? ==>
      var a := Account(k.realm, rows[k].payload.accountId.value);
      a in t.users ==> a in users && users[a].securityVersion == t.users[a].securityVersion
    ensures Inv(Tables(rows, users, now))
  {
    var t' := Tables(rows, users, now);
    forall k | k in rows ensures RowInv(t', k, rows[k]) { assert RowInv(t, k, t.rows[k]); }
  }

  lemma AccountEventKeepsInv(t: Tables, a: Account, users: Users)
    requires Inv(t)
    requires forall b :: b in t.users && b != a ==> b in users && users[b].securityVersion == t.users[b].securityVersion
    ensures Inv(t.(users := users, rows := t.rows - DoomedRows(t.rows, a)))
  {
    FewerRowsKeepInv(t, t.rows - DoomedRows(t.rows, a), users, t.now);
  }

  lemma AccountStepKeepsInv(t: Tables, e: Event)
    requires Inv(t) && (e.MutateSecurity? || e.DeleteAccount?)
    ensures Inv(Step(t, e))
  {
    match e {
      case MutateSecurity(a, Applied(_)) => if a in t.users { AccountEventKeepsInv(t, a, Step(t, e).users); }
      case DeleteAccount(a) => if a in t.users { AccountEventKeepsInv(t, a, Step(t, e).users); }
      case _ => FewerRowsKeepInv(t, Step(t, e).rows, Step(t, e).users, Step(t, e).now);
    }
  }

  lemma OtherKeepsInv(t: Tables, e: Event)
    requires Inv(t) && !e.Save?
    ensures Inv(Step(t, e))
  {
    if e.MutateSecurity? || e.DeleteAccount? { AccountStepKeepsInv(t, e); }
    else {
      var t' := Step(t, e);
      FewerRowsKeepInv(t, t'.rows, t'.users, t'.now);
    }
  }

  lemma {:induction false} EveryRunKeepsInv(t: Tables, events: seq<Event>)
    requires Inv(t)
    ensures Inv(Run(t, events))
    decreases |events|
  {
    if events != [] {
      if events[0].Save? { SaveKeepsInv(t, events[0].save); } else { OtherKeepsInv(t, events[0]); }
      EveryRunKeepsInv(Step(t, events[0]), events[1..]);
    }
  }

  predicate FindReturns(t: Tables, k: Key) {
    && k in t.rows
    && Unexpired(t.rows[k].expiresAt, t.now)
    && (t.rows[k].version.Some? ==>
          t.rows[k].payload.accountId.Some? &&
          VersionFor(t.users, Account(k.realm, t.rows[k].payload.accountId.value)) == t.rows[k].version)
  }

  /**
   In every run a live row is returned exactly when it is unbound or its account is enabled:
   the version test never hides a row, because every mutation is atomic with its revocation. A
   grant-linked row always carries its account and that account's present version.
   */
  lemma BoundRowsAreCurrent(events: seq<Event>, k: Key)
    requires k in Run(Empty, events).rows
    ensures var t, r := Run(Empty, events), Run(Empty, events).rows[k];
      && (r.payload.grantId.Some? ==> r.payload.accountId.Some?)
      && (r.payload.accountId.Some? ==>
            var a := Account(k.realm, r.payload.accountId.value);
            a in t.users && r.version == Some(t.users[a].securityVersion))
      && (FindReturns(t, k) <==>
            (Unexpired(r.expiresAt, t.now) &&
             (r.payload.accountId.Some? ==> t.users[Account(k.realm, r.payload.accountId.value)].enabled)))
  {
    EveryRunKeepsInv(Empty, events);
    assert RowInv(Run(Empty, events), k, Run(Empty, events).rows[k]);
  }

  // ---------- one use ----------

  predicate PresentThroughout(t: Tables, events: seq<Event>, k: Key)
    decreases |events|
  {
    k in t.rows && (events != [] ==> PresentThroughout(Step(t, events[0]), events[1..], k))
  }

  function Wins(t: Tables, events: seq<Event>, k: Key): nat
    decreases |events|
  {
    if events == [] then 0
    else (if Claims(t, events[0]) && ClaimKey(events[0]) == k then 1 else 0) + Wins(Step(t, events[0]), events[1..], k)
  }

  lemma ConsumedStays(t: Tables, e: Event, k: Key)
    requires k in t.rows && k in Step(t, e).rows
    ensures t.rows[k].consumedAt.Some? ==> Step(t, e).rows[k].consumedAt == t.rows[k].consumedAt
    ensures Claims(t, e) && ClaimKey(e) == k ==> Step(t, e).rows[k].consumedAt.Some?
  {
  }

  /**
   Between a record's creation and its deletion at most one `consume` or claim succeeds, none
   once it is consumed, and nothing, a later `upsert` of the key included, clears the mark.
   */
  lemma {:induction false} OneUse(t: Tables, events: seq<Event>, k: Key)
    requires PresentThroughout(t, events, k)
    ensures k in Run(t, events).rows
    ensures t.rows[k].consumedAt.Some? ==>
      Wins(t, events, k) == 0 && Run(t, events).rows[k].consumedAt == t.rows[k].consumedAt
    ensures Wins(t, events, k) <= 1
    ensures Wins(t, events, k) == 1 ==> Run(t, events).rows[k].consumedAt.Some?
    decreases |events|
  {
    if events != [] {
      ConsumedStays(t, events[0], k);
      OneUse(Step(t, events[0]), events[1..], k);
    }
  }

  // ---------- agreement with the in-memory adapter ----------

  function RowOf(r: Record): Row {
    Row(r.payload.(consumed := None), r.securityVersion, r.expiresAt, r.payload.consumed)
  }

  /** `revokeMemoryAccount` and the SQL revocation delete the same records. */
  lemma RevocationsAgree(rs: Records, a: Account)
    ensures DoomedRows(map k | k in rs :: RowOf(rs[k]), a) == Doomed(rs, a)
    ensures (map k | k in rs :: RowOf(rs[k])) - Doomed(rs, a)
         == map k | k in RevokeAccount(rs, a) :: RowOf(RevokeAccount(rs, a)[k])
  {
    var rows: Rows := map k | k in rs :: RowOf(rs[k]);
    var records: Records := map k | k in rows :: RecordOf(rows[k]);
    assert OwnedBy(records, a) == OwnedBy(rs, a);
    assert LinkedTo(records, a.realm, GrantsOf(rs, a)) == LinkedTo(rs, a.realm, GrantsOf(rs, a));
  }

  /** A replay marker that is past its expiry and still stored. */
  predicate LapsedReplay(rs: Records, key: Key, now: int) {
    key.model == "ReplayDetection" && key in rs && Current(rs, key, now).None?
  }

  /** `find` answers a record exactly where the SELECT, joined with the enabled users, returns its row. */
  lemma FindsAgree(rs: Records, users: Users, now: nat, k: Key)
    ensures var t := Tables(map k | k in rs :: RowOf(rs[k]), users, now);
      FindReturns(t, k) <==> FindIn(rs, users, now, k) == (if k in rs then Some(rs[k]) else None) && k in rs
  {
  }

  /** The three segments of the in-memory `upsert` with nothing between them. */
  function UninterruptedSave(rs: Records, users: Users, now: int, tick: nat, id: nat, save: OidcRecords.Save): Outcome {
    var first := BeginSave(rs, users, now, tick, id, save);
    var second :=
      if first.Suspended? && first.pending.AwaitParent? then ContinueSave(users, tick, first.pending) else first;
    if second.Suspended? && second.pending.AwaitVersion? then FinishSave(rs, now, id, second.pending) else second
  }

  /**
   The SQL accepts exactly what the in-memory `upsert`, run without interruption, accepts, but for
   a code some other row has and a replay marker left behind after its expiry; what both accept
   they store alike, up to which of two consumption times is kept.
   */
  lemma AdaptersAgree(rs: Records, users: Users, now: nat, tick: nat, id: nat, save: OidcRecords.Save, t: Tables)
    requires t == Tables(map k | k in rs :: RowOf(rs[k]), users, now)
    ensures var memory, sql := UninterruptedSave(rs, users, now, tick, id, save), Upsert(t, save);
      && (memory.Stored? || memory.Rejected?)
      && (sql.Ok? <==>
            && memory.Stored?
            && !Clashes(t.rows, save.key, save.payload)
            && !LapsedReplay(rs, save.key, now))
      && (sql.Ok? ==>
            && RowOf(memory.record).(consumedAt := None) == sql.value.(consumedAt := None)
            && (Consumed(memory.record.payload) <==>
                  Consumed(save.payload) || (save.key in rs && Consumed(rs[save.key].payload)))
            && (sql.value.consumedAt.Some? <==>
                  save.payload.consumed.Some? || (save.key in rs && rs[save.key].payload.consumed.Some?)))
  {
    var next := save.(payload := CarryConsumed(rs, save));
    assert next.payload.(consumed := None) == save.payload.(consumed := None);
    if save.payload.grantId.Some? {
      var g := GrantKey(save.key.realm, save.payload.grantId.value);
      if g in rs && Live(rs[g], now) && rs[g].payload.accountId.Some? {
        assert t.rows[g] == RowOf(rs[g]);
        LinkedSavesAgree(rs, users, now, tick, id, next, t);
      }
    }
  }

  lemma LinkedSavesAgree(rs: Records, users: Users, now: nat, tick: nat, id: nat, save: OidcRecords.Save, t: Tables)
    requires t == Tables(map k | k in rs :: RowOf(rs[k]), users, now)
    requires save.payload.grantId.Some?
    requires var g := GrantKey(save.key.realm, save.payload.grantId.value);
      g in rs && Live(rs[g], now) && rs[g].payload.accountId.Some?
    ensures var parent := rs[GrantKey(save.key.realm, save.payload.grantId.value)];
      var account := Account(save.key.realm, parent.payload.accountId.value);
      var version := VersionFor(users, account);
      var second := ContinueSave(users, tick, AwaitParent(save, parent, version));
      && (second.Suspended? <==> BindingValid(t, save.key, save.payload))
      && (second.Suspended? ==>
            && version.Some?
            && second.pending ==
              AwaitVersion(save.(payload := save.payload.(accountId := Some(account.id))), Some(parent), version, tick)
            && FinishSave(rs, now, id, second.pending)
               == Stored(Record(id, save.payload.(accountId := Some(account.id)), version, Expiry(save.ttl, now), tick))
            && BoundAccount(t, save.key, save.payload) == Some(account.id))
  {
  }
}
