/** The PostgreSQL SCIM repository of one realm. */
module ScimGroups {
  import opened Wrappers
  import opened Accounts
  import OidcRecords
  import Text

  // Users, groups and memberships, and the denormalised `groups` column of a user that must
  // follow them. Each operation is one transaction; transactions are serial.

  datatype User = User(
    username: string,
    email: string,
    displayName: string,
    externalId: Option<string>,
    enabled: bool,
    profile: string,
    groups: seq<string>,
    securityVersion: nat,
    version: nat)

  datatype Group = Group(displayName: string, externalId: Option<string>, version: nat)

  datatype Membership = Membership(group: string, user: string)

  datatype Tables = Tables(
    realm: string,
    users: map<string, User>,
    groups: map<string, Group>,
    members: set<Membership>,
    records: OidcRecords.Records)

  /** `Violation` is a failed CHECK constraint, which the repository does not translate. */
  datatype Error = NotFound | VersionMismatch | Uniqueness | InvalidValue | Violation

  // ---------- the derived column ----------

  function Slashless(s: string): string {
    if s == "" then "" else [if s[0] == '/' then '-' else s[0]] + Slashless(s[1..])
  }

  function Path(displayName: string): string {
    "/" + Slashless(displayName)
  }

  /** The groups a user is a member of, with their names. */
  function NamesOf(t: Tables, user: string): map<string, string> {
    map g | g in t.groups && Membership(g, user) in t.members :: t.groups[g].displayName
  }

  predicate First(names: map<string, string>, g: string) {
    g in names && forall h :: h in names ==> Text.AtMost(Text.Lower(names[g]), Text.Lower(names[h]))
  }

  lemma {:induction false} SomeIsFirst(names: map<string, string>)
    requires names != map[]
    ensures exists g :: First(names, g)
    decreases |names|
  {
    var g :| g in names;
    var rest := names - {g};
    if rest == map[] {
      assert forall h :: h in names ==> h == g || h in rest;
      Text.AtMostIsTotal(Text.Lower(names[g]), Text.Lower(names[g]));
      assert First(names, g);
    } else {
      assert |rest| < |names| by { assert rest.Keys == names.Keys - {g}; }
      SomeIsFirst(rest);
      var f :| First(rest, f);
      Text.AtMostIsTotal(Text.Lower(names[g]), Text.Lower(names[f]));
      Text.AtMostIsTotal(Text.Lower(names[g]), Text.Lower(names[g]));
      if Text.AtMost(Text.Lower(names[f]), Text.Lower(names[g])) {
        assert forall h :: h in names ==> h == g || h in rest;
        assert First(names, f);
      } else {
        forall h | h in names ensures Text.AtMost(Text.Lower(names[g]), Text.Lower(names[h])) {
          if h != g {
            assert h in rest;
            Text.AtMostIsTransitive(Text.Lower(names[g]), Text.Lower(names[f]), Text.Lower(names[h]));
          }
        }
        assert First(names, g);
      }
    }
  }

  /** ORDER BY lower(display_name). */
  ghost function Ordered(names: map<string, string>): seq<string>
    decreases |names|
  {
    if names == map[] then []
    else
      SomeIsFirst(names);
      var g :| First(names, g);
      assert (names - {g}).Keys == names.Keys - {g};
      [g] + Ordered(names - {g})
  }

  function Paths(ids: seq<string>, names: map<string, string>): seq<string>
    requires forall g :: g in ids ==> g in names
  {
    seq(|ids|, i requires 0 <= i < |ids| => Path(names[ids[i]]))
  }

  lemma {:induction false} OrderedListsAll(names: map<string, string>)
    ensures multiset(Ordered(names)) == multiset(names.Keys)
    ensures forall g :: g in Ordered(names) <==> g in names
    decreases |names|
  {
    if names != map[] {
      var g := OrderedHead(names);
      OrderedListsAll(names - {g});
      assert multiset(names.Keys) == multiset(names.Keys - {g}) + multiset{g};
      assert forall h :: h in Ordered(names) <==> h in multiset(Ordered(names));
      assert forall h :: h in names <==> h in multiset(names.Keys);
    }
  }

  lemma OrderedHead(names: map<string, string>) returns (g: string)
    requires names != map[]
    ensures First(names, g) && Ordered(names) == [g] + Ordered(names - {g}) && (names - {g}).Keys == names.Keys - {g}
    ensures |names - {g}| < |names|
  {
    SomeIsFirst(names);
    g :| First(names, g) && Ordered(names) == [g] + Ordered(names - {g});
    assert (names - {g}).Keys == names.Keys - {g};
  }

  predicate InOrder(ids: seq<string>, names: map<string, string>) {
    forall i, j :: 0 <= i < j < |ids| && ids[i] in names && ids[j] in names ==>
      Text.AtMost(Text.Lower(names[ids[i]]), Text.Lower(names[ids[j]]))
  }

  lemma FirstBeforeAll(names: map<string, string>, g: string, rest: seq<string>)
    requires First(names, g) && InOrder(rest, names - {g}) && forall h :: h in rest ==> h in names && h != g
    ensures InOrder([g] + rest, names)
  {
    var ids := [g] + rest;
    forall i, j | 0 <= i < j < |ids| ensures Text.AtMost(Text.Lower(names[ids[i]]), Text.Lower(names[ids[j]])) {
      assert ids[j] == rest[j - 1] && rest[j - 1] in rest;
      if i > 0 { assert ids[i] == rest[i - 1] && rest[i - 1] in rest; }
    }
  }

  lemma {:induction false} OrderedIsInOrder(names: map<string, string>)
    ensures InOrder(Ordered(names), names)
    decreases |names|
  {
    if names != map[] {
      var g := OrderedHead(names);
      OrderedIsInOrder(names - {g});
      OrderedListsAll(names - {g});
      FirstBeforeAll(names, g, Ordered(names - {g}));
    }
  }

  /** What the column of a user ought to hold: the paths of its groups, ordered by lower-case name. */
  ghost function Desired(t: Tables, user: string): seq<string> {
    OrderedListsAll(NamesOf(t, user));
    Paths(Ordered(NamesOf(t, user)), NamesOf(t, user))
  }

  // ---------- the statements ----------

  function RevokeAccounts(rs: OidcRecords.Records, realm: string, ids: set<string>): OidcRecords.Records {
    map k | k in rs && !(exists id :: id in ids && k in OidcRecords.Doomed(rs, Account(realm, id))) :: rs[k]
  }

  function Members(t: Tables, group: string): set<string> {
    set m | m in t.members && m.group == group :: m.user
  }

  predicate Duplicates(ids: seq<string>) {
    exists i, j :: 0 <= i < j < |ids| && ids[i] == ids[j]
  }

  function Distinct(ids: seq<string>): set<string> {
    set id | id in ids
  }

  function WithMembers(t: Tables, group: string, ids: set<string>): Tables {
    t.(members := (set m | m in t.members && m.group != group) + (set id | id in ids :: Membership(group, id)))
  }

  /** `#replaceMembers`: the new memberships and the users they may concern. */
  function ReplaceMembers(t: Tables, group: string, ids: seq<string>): Result<(Tables, set<string>), Error> {
    if Duplicates(ids) || exists id :: id in ids && id !in t.users then Err(InvalidValue)
    else
      var next := Distinct(ids);
      Ok((WithMembers(t, group, next), Members(t, group) + next))
  }

  /** The affected users whose column is out of date. */
  ghost function Stale(t: Tables, affected: set<string>): set<string> {
    set u | u in affected && u in t.users && t.users[u].groups != Desired(t, u)
  }

  function Resynced(u: User, groups: seq<string>): User {
    u.(groups := groups, securityVersion := u.securityVersion + 1, version := u.version + 1)
  }

  ghost function SyncedColumns(t: Tables, affected: set<string>): Tables {
    t.(users := map u | u in t.users ::
         if u in Stale(t, affected) then Resynced(t.users[u], Desired(t, u)) else t.users[u])
  }

  /** `#syncUserGroups`, with the trigger that counts up the version of an updated user. */
  ghost function SyncUserGroups(t: Tables, affected: set<string>): Tables {
    SyncedColumns(t, affected).(records := RevokeAccounts(t.records, t.realm, Stale(t, affected)))
  }

  function Trimmed(s: string): string {
    if s == "" then "" else if s[0] == ' ' then Trimmed(s[1..]) else TrimmedRight(s)
  }

  function TrimmedRight(s: string): string {
    if s == "" then "" else if s[|s| - 1] == ' ' then TrimmedRight(s[..|s| - 1]) else s
  }

  predicate NameTaken(t: Tables, displayName: string, except: string) {
    exists g :: g in t.groups && g != except && Text.Lower(t.groups[g].displayName) == Text.Lower(displayName)
  }

  predicate GroupExternalIdTaken(t: Tables, externalId: Option<string>, except: string) {
    externalId.Some? && exists g :: g in t.groups && g != except && t.groups[g].externalId == externalId
  }

  /** Writing one row of scim_groups: its CHECK constraints, then its unique indexes. */
  function WriteGroup(t: Tables, id: string, g: Group): Result<Tables, Error> {
    if !(1 <= |Trimmed(g.displayName)| <= 256) || (g.externalId.Some? && |g.externalId.value| > 256) then Err(Violation)
    else if NameTaken(t, g.displayName, id) || GroupExternalIdTaken(t, g.externalId, id) then Err(Uniqueness)
    else Ok(t.(groups := t.groups[id := g]))
  }

  ghost function WriteMembers(t: Tables, id: string, ids: seq<string>): Result<Tables, Error> {
    match ReplaceMembers(t, id, ids)
    case Err(e) => Err(e)
    case Ok((next, affected)) => Ok(SyncUserGroups(next, affected))
  }

  // ---------- group operations ----------

  /** `id` is a fresh UUID; an id in use would break the primary key. */
  ghost function CreateGroup(t: Tables, id: string, displayName: string, externalId: Option<string>,
                             ids: seq<string>): Result<Tables, Error> {
    if id in t.groups then Err(Uniqueness)
    else
      match WriteGroup(t, id, Group(displayName, externalId, 1))
      case Err(e) => Err(e)
      case Ok(next) => WriteMembers(next, id, ids)
  }

  ghost function ReplaceGroup(t: Tables, id: string, displayName: string, externalId: Option<string>, ids: seq<string>,
                              expected: nat): Result<Tables, Error> {
    if id !in t.groups then Err(NotFound)
    else if t.groups[id].version != expected then Err(VersionMismatch)
    else
      match WriteGroup(t, id, Group(displayName, externalId, expected + 1))
      case Err(e) => Err(e)
      case Ok(next) => WriteMembers(next, id, ids)
  }

  function WithoutGroup(t: Tables, id: string): Tables {
    t.(groups := t.groups - {id}, members := set m | m in t.members && m.group != id)
  }

  ghost function DeleteGroup(t: Tables, id: string, expected: nat): Result<Tables, Error> {
    if id !in t.groups then Err(NotFound)
    else if t.groups[id].version != expected then Err(VersionMismatch)
    else Ok(SyncUserGroups(WithoutGroup(t, id), Members(t, id)))
  }

  // ---------- user operations ----------

  datatype Core = Core(username: string, email: string, displayName: string, enabled: bool, profile: string)

  /** The names a user can log in with; usernames and email addresses share one namespace. */
  function Logins(username: string, email: string): set<string> {
    {Text.Lower(username), Text.Lower(email)}
  }

  /** The trigger `authme_enforce_login_namespace`, which also covers the two unique indexes. */
  predicate LoginTaken(t: Tables, logins: set<string>, except: string) {
    exists u :: u in t.users && u != except && !(Logins(t.users[u].username, t.users[u].email) !! logins)
  }

  predicate UserExternalIdTaken(t: Tables, externalId: Option<string>, except: string) {
    externalId.Some? && exists u :: u in t.users && u != except && t.users[u].externalId == externalId
  }

  predicate PasswordRefused(password: Option<string>) {
    password.Some? && (|password.value| < 12 || |password.value| > 1024)
  }

  /**
   Writing one row of users, whose trigger runs before its CHECK constraints, and then the
   external id of its resource.
   */
  function WriteUser(t: Tables, id: string, core: Core, externalId: Option<string>, groups: seq<string>,
                     securityVersion: nat, version: nat): Result<Tables, Error> {
    if LoginTaken(t, Logins(core.username, core.email), id) then Err(Uniqueness)
    else if |Trimmed(core.username)| == 0 || |Trimmed(core.email)| == 0 || |Trimmed(core.displayName)| == 0 then
      Err(Violation)
    else if externalId.Some? && |externalId.value| > 256 then Err(Violation)
    else if UserExternalIdTaken(t, externalId, id) then Err(Uniqueness)
    else Ok(t.(users := t.users[id := User(core.username, core.email, core.displayName, externalId, core.enabled,
                                           core.profile, groups, securityVersion, version)]))
  }

  function CreateUser(t: Tables, id: string, core: Core, externalId: Option<string>,
                      password: Option<string>): Result<Tables, Error> {
    if PasswordRefused(password) then Err(InvalidValue)
    else if id in t.users then Err(Uniqueness)
    else WriteUser(t, id, core, externalId, [], 0, 1)
  }

  function ReplaceUser(t: Tables, id: string, core: Core, externalId: Option<string>, password: Option<string>,
                       expected: nat): Result<Tables, Error> {
    if PasswordRefused(password) then Err(InvalidValue)
    else if id !in t.users then Err(NotFound)
    else if t.users[id].version != expected then Err(VersionMismatch)
    else
      match WriteUser(t, id, core, externalId, t.users[id].groups, t.users[id].securityVersion + 1, expected + 1)
      case Err(e) => Err(e)
      case Ok(next) => Ok(next.(records := RevokeAccounts(next.records, next.realm, {id})))
  }

  /** The user's groups count up; its memberships go with it. */
  function DeleteUser(t: Tables, id: string, expected: nat): Result<Tables, Error> {
    if id !in t.users then Err(NotFound)
    else if t.users[id].version != expected then Err(VersionMismatch)
    else Ok(t.(
      users := t.users - {id},
      groups := map g | g in t.groups ::
        if Membership(g, id) in t.members then t.groups[g].(version := t.groups[g].version + 1) else t.groups[g],
      members := (set m | m in t.members && m.user != id),
      records := RevokeAccounts(t.records, t.realm, {id})))
  }

  // ---------- runs ----------

  datatype Op =
    | OpCreateGroup(id: string, displayName: string, externalId: Option<string>, ids: seq<string>)
    | OpReplaceGroup(id: string, displayName: string, externalId: Option<string>, ids: seq<string>, expected: nat)
    | OpDeleteGroup(id: string, expected: nat)
    | OpCreateUser(id: string, core: Core, externalId: Option<string>, password: Option<string>)
    | OpReplaceUser(id: string, core: Core, externalId: Option<string>, password: Option<string>, expected: nat)
    | OpDeleteUser(id: string, expected: nat)

  ghost function Perform(t: Tables, op: Op): Result<Tables, Error> {
    match op
    case OpCreateGroup(id, name, ext, ids) => CreateGroup(t, id, name, ext, ids)
    case OpReplaceGroup(id, name, ext, ids, expected) => ReplaceGroup(t, id, name, ext, ids, expected)
    case OpDeleteGroup(id, expected) => DeleteGroup(t, id, expected)
    case OpCreateUser(id, core, ext, password) => CreateUser(t, id, core, ext, password)
    case OpReplaceUser(id, core, ext, password, expected) => ReplaceUser(t, id, core, ext, password, expected)
    case OpDeleteUser(id, expected) => DeleteUser(t, id, expected)
  }

  /** A failed transaction leaves the tables as they were. */
  ghost function Apply(t: Tables, op: Op): Tables {
    match Perform(t, op)
    case Ok(next) => next
    case Err(_) => t
  }

  ghost function Run(t: Tables, ops: seq<Op>): Tables
    decreases |ops|
  {
    if ops == [] then t else Run(Apply(t, ops[0]), ops[1..])
  }

  // ---------- the column follows the memberships ----------

  predicate References(t: Tables) {
    forall m :: m in t.members ==> m.group in t.groups && m.user in t.users
  }

  predicate NamesDiffer(t: Tables) {
    forall g, h | g in t.groups && h in t.groups ::
      Text.Lower(t.groups[g].displayName) == Text.Lower(t.groups[h].displayName) ==> g == h
  }

  ghost predicate InSync(t: Tables, u: string) {
    u in t.users ==> t.users[u].groups == Desired(t, u)
  }

  ghost predicate Consistent(t: Tables) {
    References(t) && NamesDiffer(t) && forall u {:trigger InSync(t, u)} :: InSync(t, u)
  }

  /** A user who neither was nor becomes a member of the group keeps the same groups and names, even on a rename. */
  lemma OthersKeepTheirNames(t: Tables, id: string, g: Group, ids: set<string>, u: string)
    requires u !in Members(t, id) && u !in ids
    ensures NamesOf(WithMembers(t.(groups := t.groups[id := g]), id, ids), u) == NamesOf(t, u)
  {
    var after := WithMembers(t.(groups := t.groups[id := g]), id, ids);
    assert Membership(id, u) !in t.members;
    assert Membership(id, u) !in after.members;
    forall h ensures h in NamesOf(after, u) <==> h in NamesOf(t, u) {}
  }

  /** What one synchronisation promises, when every other user's column was right already. */
  ghost predicate Settled(before: Tables, after: Tables) {
    && after.users.Keys == before.users.Keys && after.realm == before.realm
    && (forall u {:trigger InSync(after, u)} :: InSync(after, u))
    && (forall u :: u in before.users ==>
          after.users[u] == if before.users[u].groups == Desired(after, u) then before.users[u]
                            else Resynced(before.users[u], Desired(after, u)))
    && after.records == RevokeAccounts(before.records, before.realm, Regrouped(before, after))
  }

  /** The users whose column differs. */
  function Regrouped(before: Tables, after: Tables): set<string> {
    set u | u in before.users && u in after.users && before.users[u].groups != after.users[u].groups
  }

  lemma SyncSettles(before: Tables, t: Tables, affected: set<string>)
    requires t.users == before.users && t.records == before.records && t.realm == before.realm
    requires forall u {:trigger InSync(before, u)} :: InSync(before, u)
    requires forall u :: u !in affected ==> NamesOf(t, u) == NamesOf(before, u)
    ensures Settled(before, SyncUserGroups(t, affected))
  {
    var after := SyncUserGroups(t, affected);
    forall u ensures Desired(after, u) == Desired(t, u) {}
    forall u ensures InSync(after, u) {
      assert InSync(before, u);
      if u in after.users && u !in affected { assert NamesOf(t, u) == NamesOf(before, u); }
    }
    forall u | u in before.users
      ensures after.users[u] == if before.users[u].groups == Desired(after, u) then before.users[u]
                                else Resynced(before.users[u], Desired(after, u)) {
      assert InSync(before, u);
      if u !in affected { assert NamesOf(t, u) == NamesOf(before, u); }
    }
    assert Stale(t, affected) == Regrouped(before, after);
  }

  lemma WriteMembersSettles(t: Tables, id: string, g: Group, ids: seq<string>)
    requires Consistent(t)
    requires NamesDiffer(t.(groups := t.groups[id := g]))
    requires WriteMembers(t.(groups := t.groups[id := g]), id, ids).Ok?
    ensures var after := WriteMembers(t.(groups := t.groups[id := g]), id, ids).value;
      && Consistent(after) && Settled(t, after)
      && after.groups == t.groups[id := g]
      && after.members == (set m | m in t.members && m.group != id) + (set u | u in ids :: Membership(id, u))
  {
    var next := Distinct(ids);
    var t1 := t.(groups := t.groups[id := g]);
    var t2 := WithMembers(t1, id, next);
    assert Members(t1, id) == Members(t, id);
    forall u | u !in Members(t, id) + next ensures NamesOf(t2, u) == NamesOf(t, u) {
      OthersKeepTheirNames(t, id, g, next, u);
    }
    SyncSettles(t, t2, Members(t, id) + next);
    assert t2.members == (set m | m in t.members && m.group != id) + (set u | u in ids :: Membership(id, u));
  }

  lemma CreateGroupSettles(t: Tables, id: string, displayName: string, externalId: Option<string>, ids: seq<string>)
    requires Consistent(t) && CreateGroup(t, id, displayName, externalId, ids).Ok?
    ensures var after := CreateGroup(t, id, displayName, externalId, ids).value;
      Consistent(after) && Settled(t, after)
  {
    WriteMembersSettles(t, id, Group(displayName, externalId, 1), ids);
  }

  lemma ReplaceGroupSettles(t: Tables, id: string, displayName: string, externalId: Option<string>, ids: seq<string>,
                            expected: nat)
    requires Consistent(t) && ReplaceGroup(t, id, displayName, externalId, ids, expected).Ok?
    ensures var after := ReplaceGroup(t, id, displayName, externalId, ids, expected).value;
      Consistent(after) && Settled(t, after)
  {
    WriteMembersSettles(t, id, Group(displayName, externalId, expected + 1), ids);
  }

  lemma DeleteGroupSettles(t: Tables, id: string, expected: nat)
    requires Consistent(t) && DeleteGroup(t, id, expected).Ok?
    ensures var after := DeleteGroup(t, id, expected).value;
      Consistent(after) && Settled(t, after)
  {
    forall u | u !in Members(t, id) ensures NamesOf(WithoutGroup(t, id), u) == NamesOf(t, u) {}
    SyncSettles(t, WithoutGroup(t, id), Members(t, id));
  }

  predicate IsGroupOp(op: Op) {
    op.OpCreateGroup? || op.OpReplaceGroup? || op.OpDeleteGroup?
  }

  /**
   A group operation sets every column to what the memberships say, counts up the security
   version of exactly the users whose column changed, and revokes exactly their records.
   */
  lemma GroupOpsAreExact(t: Tables, op: Op)
    requires Consistent(t) && IsGroupOp(op) && Perform(t, op).Ok?
    ensures Consistent(Perform(t, op).value) && Settled(t, Perform(t, op).value)
  {
    match op
    case OpCreateGroup(id, name, ext, ids) => CreateGroupSettles(t, id, name, ext, ids);
    case OpReplaceGroup(id, name, ext, ids, expected) => ReplaceGroupSettles(t, id, name, ext, ids, expected);
    case OpDeleteGroup(id, expected) => DeleteGroupSettles(t, id, expected);
  }

  lemma NewUsersHaveNoGroups(t: Tables, id: string)
    requires References(t) && id !in t.users
    ensures Desired(t, id) == []
  {
    forall g ensures Membership(g, id) !in t.members {}
    assert NamesOf(t, id) == map[];
  }

  lemma CreateUserKeepsConsistent(t: Tables, id: string, core: Core, externalId: Option<string>,
                                  password: Option<string>)
    requires Consistent(t) && CreateUser(t, id, core, externalId, password).Ok?
    ensures Consistent(CreateUser(t, id, core, externalId, password).value)
  {
    var after := CreateUser(t, id, core, externalId, password).value;
    NewUsersHaveNoGroups(t, id);
    forall u ensures InSync(after, u) {
      assert InSync(t, u);
      assert NamesOf(after, u) == NamesOf(t, u);
    }
  }

  lemma ReplaceUserKeepsConsistent(t: Tables, id: string, core: Core, externalId: Option<string>,
                                   password: Option<string>, expected: nat)
    requires Consistent(t) && ReplaceUser(t, id, core, externalId, password, expected).Ok?
    ensures Consistent(ReplaceUser(t, id, core, externalId, password, expected).value)
  {
    var after := ReplaceUser(t, id, core, externalId, password, expected).value;
    forall u ensures InSync(after, u) {
      assert InSync(t, u);
      assert NamesOf(after, u) == NamesOf(t, u);
    }
  }

  lemma DeleteUserKeepsConsistent(t: Tables, id: string, expected: nat)
    requires Consistent(t) && DeleteUser(t, id, expected).Ok?
    ensures Consistent(DeleteUser(t, id, expected).value)
  {
    var after := DeleteUser(t, id, expected).value;
    forall u ensures InSync(after, u) {
      assert InSync(t, u);
      if u in after.users { assert NamesOf(after, u) == NamesOf(t, u); }
    }
  }

  lemma UserOpsKeepConsistent(t: Tables, op: Op)
    requires Consistent(t) && !IsGroupOp(op) && Perform(t, op).Ok?
    ensures Consistent(Perform(t, op).value)
  {
    match op
    case OpCreateUser(id, core, ext, password) => CreateUserKeepsConsistent(t, id, core, ext, password);
    case OpReplaceUser(id, core, ext, password, expected) =>
      ReplaceUserKeepsConsistent(t, id, core, ext, password, expected);
    case OpDeleteUser(id, expected) => DeleteUserKeepsConsistent(t, id, expected);
  }

  lemma {:induction false} RunKeepsConsistent(t: Tables, ops: seq<Op>)
    requires Consistent(t)
    ensures Consistent(Run(t, ops))
    decreases |ops|
  {
    if ops != [] {
      if Perform(t, ops[0]).Ok? {
        if IsGroupOp(ops[0]) { GroupOpsAreExact(t, ops[0]); } else { UserOpsKeepConsistent(t, ops[0]); }
      }
      RunKeepsConsistent(Apply(t, ops[0]), ops[1..]);
    }
  }

  /**
   After every run of SCIM operations each user's column holds, in the order in which
   `listUserGroups` lists them, the paths of the groups the user is a member of, once each.
   */
  lemma ColumnsFollowMemberships(t: Tables, ops: seq<Op>, u: string)
    requires Consistent(t) && u in Run(t, ops).users
    ensures var after := Run(t, ops);
      var listed := Ordered(NamesOf(after, u));
      && multiset(listed) == multiset(set g | g in after.groups && Membership(g, u) in after.members)
      && InOrder(listed, NamesOf(after, u))
      && (forall i :: 0 <= i < |listed| ==> listed[i] in after.groups)
      && |after.users[u].groups| == |listed|
      && (forall i :: 0 <= i < |listed| ==> after.users[u].groups[i] == Path(after.groups[listed[i]].displayName))
  {
    RunKeepsConsistent(t, ops);
    var after := Run(t, ops);
    assert InSync(after, u);
    OrderedListsAll(NamesOf(after, u));
    OrderedIsInOrder(NamesOf(after, u));
    assert NamesOf(after, u).Keys == set g | g in after.groups && Membership(g, u) in after.members;
    var listed := Ordered(NamesOf(after, u));
    assert forall i :: 0 <= i < |listed| ==> listed[i] in listed;
  }

  /** The database starts without users or groups. */
  lemma EmptyIsConsistent(realm: string, records: OidcRecords.Records)
    ensures Consistent(Tables(realm, map[], map[], {}, records))
  {
    forall u ensures InSync(Tables(realm, map[], map[], {}, records), u) {}
  }

  /** So it is for every run from the first one on, and no two users ever share a login or an external id. */
  lemma ColumnsFollowFromTheStart(realm: string, records: OidcRecords.Records, ops: seq<Op>, u: string)
    requires u in Run(Tables(realm, map[], map[], {}, records), ops).users
    ensures var after := Run(Tables(realm, map[], map[], {}, records), ops);
      var listed := Ordered(NamesOf(after, u));
      && multiset(listed) == multiset(set g | g in after.groups && Membership(g, u) in after.members)
      && (forall i :: 0 <= i < |listed| ==> listed[i] in after.groups)
      && |after.users[u].groups| == |listed|
      && (forall i :: 0 <= i < |listed| ==> after.users[u].groups[i] == Path(after.groups[listed[i]].displayName))
      && UsersDiffer(after)
  {
    var empty := Tables(realm, map[], map[], {}, records);
    EmptyIsConsistent(realm, records);
    ColumnsFollowMemberships(empty, ops, u);
    RunKeepsUsersDiffer(empty, ops);
  }

  predicate UsersDiffer(t: Tables) {
    forall u, v :: u in t.users && v in t.users && u != v ==>
      && Logins(t.users[u].username, t.users[u].email) !! Logins(t.users[v].username, t.users[v].email)
      && (t.users[u].externalId.Some? ==> t.users[u].externalId != t.users[v].externalId)
  }

  predicate SameNames(a: User, b: User) {
    a.username == b.username && a.email == b.email && a.externalId == b.externalId
  }

  lemma SameNamesKeepUsersDiffer(t: Tables, after: Tables)
    requires UsersDiffer(t)
    requires forall u :: u in after.users ==> u in t.users && SameNames(after.users[u], t.users[u])
    ensures UsersDiffer(after)
  {
  }

  lemma WriteUserKeepsUsersDiffer(t: Tables, id: string, u: User)
    requires UsersDiffer(t)
    requires !LoginTaken(t, Logins(u.username, u.email), id) && !UserExternalIdTaken(t, u.externalId, id)
    ensures UsersDiffer(t.(users := t.users[id := u]))
  {
    forall v | v in t.users && v != id
      ensures Logins(t.users[v].username, t.users[v].email) !! Logins(u.username, u.email)
      ensures u.externalId.Some? ==> t.users[v].externalId != u.externalId
    {
    }
  }

  lemma PerformKeepsUsersDiffer(t: Tables, op: Op)
    requires UsersDiffer(t) && Perform(t, op).Ok?
    ensures UsersDiffer(Perform(t, op).value)
  {
    var after := Perform(t, op).value;
    if op.OpCreateUser? || op.OpReplaceUser? {
      WriteUserKeepsUsersDiffer(t, op.id, after.users[op.id]);
    } else {
      SameNamesKeepUsersDiffer(t, after);
    }
  }

  lemma {:induction false} RunKeepsUsersDiffer(t: Tables, ops: seq<Op>)
    requires UsersDiffer(t)
    ensures UsersDiffer(Run(t, ops))
    decreases |ops|
  {
    if ops != [] {
      if Perform(t, ops[0]).Ok? { PerformKeepsUsersDiffer(t, ops[0]); }
      RunKeepsUsersDiffer(Apply(t, ops[0]), ops[1..]);
    }
  }

  // ---------- versions and revocation ----------

  predicate SameUser(before: Tables, after: Tables, u: string) {
    u in before.users && u in after.users && after.users[u] == before.users[u]
  }

  /** A group is its row and its members. */
  predicate SameGroup(before: Tables, after: Tables, g: string) {
    && g in before.groups && g in after.groups && after.groups[g] == before.groups[g]
    && Members(after, g) == Members(before, g)
  }

  lemma SyncCountsUp(t: Tables, affected: set<string>, u: string)
    requires u in t.users
    ensures var after := SyncUserGroups(t, affected);
      && after.users.Keys == t.users.Keys
      && (after.users[u] == t.users[u] || after.users[u] == Resynced(t.users[u], after.users[u].groups))
  {
  }

  /** Whatever an operation changes in a user it counts up the user's version, once. */
  lemma ChangedUsersCountUp(t: Tables, op: Op, u: string)
    requires Perform(t, op).Ok? && u in t.users && u in Perform(t, op).value.users
    ensures var after := Perform(t, op).value;
      SameUser(t, after, u) || after.users[u].version == t.users[u].version + 1
  {
    match op
    case OpCreateGroup(id, name, ext, ids) =>
      var next := WithMembers(t.(groups := t.groups[id := Group(name, ext, 1)]), id, Distinct(ids));
      SyncCountsUp(next, Members(t, id) + Distinct(ids), u);
    case OpReplaceGroup(id, name, ext, ids, expected) =>
      var next := WithMembers(t.(groups := t.groups[id := Group(name, ext, expected + 1)]), id, Distinct(ids));
      SyncCountsUp(next, Members(t, id) + Distinct(ids), u);
    case OpDeleteGroup(id, expected) => SyncCountsUp(WithoutGroup(t, id), Members(t, id), u);
    case _ =>
  }

  lemma OtherMembersStay(t: Tables, id: string, ids: set<string>, g: string)
    requires g != id
    ensures Members(WithMembers(t, id, ids), g) == Members(t, g) && Members(WithoutGroup(t, id), g) == Members(t, g)
  {
    forall u ensures u in Members(WithMembers(t, id, ids), g) <==> u in Members(t, g) {
      assert u in Members(t, g) <==> Membership(g, u) in t.members;
      assert u in Members(WithMembers(t, id, ids), g) <==> Membership(g, u) in WithMembers(t, id, ids).members;
    }
    forall u ensures u in Members(WithoutGroup(t, id), g) <==> u in Members(t, g) {
      assert u in Members(t, g) <==> Membership(g, u) in t.members;
      assert u in Members(WithoutGroup(t, id), g) <==> Membership(g, u) in WithoutGroup(t, id).members;
    }
  }

  lemma DeletedUserLeavesMembers(t: Tables, id: string, expected: nat, g: string)
    requires DeleteUser(t, id, expected).Ok? && Membership(g, id) !in t.members
    ensures Members(DeleteUser(t, id, expected).value, g) == Members(t, g)
  {
    var after := DeleteUser(t, id, expected).value;
    forall u ensures u in Members(after, g) <==> u in Members(t, g) {
      assert u in Members(t, g) <==> Membership(g, u) in t.members;
      assert u in Members(after, g) <==> Membership(g, u) in after.members;
    }
  }

  /** Whatever an operation changes in a group, its members included, it counts up the group's version, once. */
  lemma ChangedGroupsCountUp(t: Tables, op: Op, g: string)
    requires Perform(t, op).Ok? && g in t.groups && g in Perform(t, op).value.groups
    ensures var after := Perform(t, op).value;
      SameGroup(t, after, g) || after.groups[g].version == t.groups[g].version + 1
  {
    match op
    case OpCreateGroup(id, name, ext, ids) =>
      OtherMembersStay(t.(groups := t.groups[id := Group(name, ext, 1)]), id, Distinct(ids), g);
    case OpReplaceGroup(id, name, ext, ids, expected) =>
      if g != id {
        OtherMembersStay(t.(groups := t.groups[id := Group(name, ext, expected + 1)]), id, Distinct(ids), g);
      }
    case OpDeleteGroup(id, expected) => OtherMembersStay(t, id, {}, g);
    case OpDeleteUser(id, expected) =>
      if Membership(g, id) !in t.members { DeletedUserLeavesMembers(t, id, expected, g); }
    case _ =>
  }

  /** Some operation creates a group or a user under this id. */
  predicate Creates(ops: seq<Op>, id: string) {
    exists op :: op in ops && (op.OpCreateGroup? || op.OpCreateUser?) && op.id == id
  }

  lemma AbsentStaysAbsent(t: Tables, op: Op, id: string)
    requires !((op.OpCreateGroup? || op.OpCreateUser?) && op.id == id)
    ensures id !in t.groups ==> id !in Apply(t, op).groups
    ensures id !in t.users ==> id !in Apply(t, op).users
  {
  }

  predicate GroupSince(before: Tables, after: Tables, g: string) {
    && (g in after.groups ==> g in before.groups)
    && (g in before.groups && g in after.groups ==>
          SameGroup(before, after, g) || after.groups[g].version > before.groups[g].version)
  }

  predicate UserSince(before: Tables, after: Tables, u: string) {
    && (u in after.users ==> u in before.users)
    && (u in before.users && u in after.users ==>
          SameUser(before, after, u) || after.users[u].version > before.users[u].version)
  }

  lemma {:induction false} RunCountsUp(t: Tables, ops: seq<Op>, id: string)
    requires !Creates(ops, id)
    ensures GroupSince(t, Run(t, ops), id) && UserSince(t, Run(t, ops), id)
    decreases |ops|
  {
    if ops != [] {
      var next := Apply(t, ops[0]);
      assert ops[0] in ops;
      AbsentStaysAbsent(t, ops[0], id);
      if Perform(t, ops[0]).Ok? {
        if id in t.users && id in next.users { ChangedUsersCountUp(t, ops[0], id); }
        if id in t.groups && id in next.groups { ChangedGroupsCountUp(t, ops[0], id); }
      }
      RunCountsUp(next, ops[1..], id);
    }
  }

  /** Over every run an equal version means an equal group, members included, and an equal user. */
  lemma VersionsIdentifyContents(t: Tables, ops: seq<Op>, id: string)
    requires !Creates(ops, id)
    ensures var after := Run(t, ops);
      && (id in t.groups && id in after.groups && t.groups[id].version == after.groups[id].version ==>
        SameGroup(t, after, id))
      && (id in t.users && id in after.users && t.users[id].version == after.users[id].version ==>
        SameUser(t, after, id))
  {
    RunCountsUp(t, ops, id);
  }

  lemma RevocationLeavesNothing(rs: OidcRecords.Records, realm: string, ids: set<string>, u: string)
    ensures u in ids ==> OidcRecords.OwnedBy(RevokeAccounts(rs, realm, ids), Account(realm, u)) == {}
  {
    if u in ids {
      forall k | k in OidcRecords.OwnedBy(rs, Account(realm, u)) ensures k !in RevokeAccounts(rs, realm, ids) {
        assert k in OidcRecords.Doomed(rs, Account(realm, u));
      }
    }
  }

  /**
   No operation lowers a security version, and whoever's version it raises or whom it deletes is
   left without a record of its own.
   */
  lemma RaisedVersionsLeaveNoRecords(t: Tables, op: Op, u: string)
    requires Consistent(t) && Perform(t, op).Ok? && u in t.users
    ensures var after := Perform(t, op).value;
      && (u in after.users ==> after.users[u].securityVersion >= t.users[u].securityVersion)
      && (u !in after.users || after.users[u].securityVersion != t.users[u].securityVersion ==>
            OidcRecords.OwnedBy(after.records, Account(t.realm, u)) == {})
  {
    var after := Perform(t, op).value;
    if IsGroupOp(op) {
      GroupOpsAreExact(t, op);
      RevocationLeavesNothing(t.records, t.realm, Regrouped(t, after), u);
    } else {
      RevocationLeavesNothing(t.records, t.realm, {u}, u);
    }
  }

  // ---------- the statements as the repository runs them ----------

  lemma DuplicatesOfMore(front: seq<string>, id: string)
    ensures Duplicates(front + [id]) <==> Duplicates(front) || id in front
    ensures Distinct(front + [id]) == Distinct(front) + {id}
  {
    var ids := front + [id];
    if Duplicates(front) {
      var i, j :| 0 <= i < j < |front| && front[i] == front[j];
      assert ids[i] == ids[j];
    }
    if id in front {
      var i :| 0 <= i < |front| && front[i] == id;
      assert ids[i] == ids[|front|];
    }
    assert forall k :: 0 <= k < |front| ==> ids[k] == front[k];
  }

  lemma {:induction false} DuplicatesShrinkTheSet(ids: seq<string>)
    ensures |Distinct(ids)| <= |ids|
    ensures Duplicates(ids) <==> |Distinct(ids)| != |ids|
  {
    if ids != [] {
      var front, last := ids[..|ids| - 1], ids[|ids| - 1];
      assert ids == front + [last];
      DuplicatesShrinkTheSet(front);
      DuplicatesOfMore(front, last);
      if last in front { assert Distinct(ids) == Distinct(front); }
    }
  }

  lemma SubsetCounts(part: set<string>, all: set<string>)
    requires part <= all
    ensures |part| <= |all| && (|part| == |all| <==> part == all)
  {
    assert all == part + (all - part);
    assert all - part == {} <==> part == all;
  }

  predicate Apart(names: map<string, string>) {
    forall g, h :: g in names && h in names && Text.Lower(names[g]) == Text.Lower(names[h]) ==> g == h
  }

  /** With distinct names there is no tie: whichever first group is taken, the order is the same. */
  lemma TakeFirst(names: map<string, string>, g: string)
    requires First(names, g) && Apart(names)
    ensures Ordered(names) == [g] + Ordered(names - {g})
    ensures Apart(names - {g}) && |names - {g}| < |names|
  {
    var h := OrderedHead(names);
    Text.AtMostIsAntisymmetric(Text.Lower(names[g]), Text.Lower(names[h]));
  }

  /** The rows of one UPDATE can be taken one user at a time: no column reads another. */
  lemma SyncOneMore(t: Tables, done: set<string>, u: string)
    requires u !in done
    ensures var now := SyncedColumns(t, done);
      && Stale(now, {u}) == Stale(t, {u})
      && Stale(t, done + {u}) == Stale(t, done) + Stale(t, {u})
      && SyncedColumns(now, {u}) == SyncedColumns(t, done + {u})
      && (u !in t.users ==> SyncedColumns(t, done + {u}) == now)
  {
    var now := SyncedColumns(t, done);
    forall v ensures Desired(now, v) == Desired(t, v) { assert NamesOf(now, v) == NamesOf(t, v); }
    assert SyncedColumns(now, {u}).users == SyncedColumns(t, done + {u}).users;
  }

  /** One repository; `t` is what its client sees inside the transaction it runs. */
  class PostgresScimRepository {
    var t: Tables

    constructor (tables: Tables)
      ensures t == tables
    {
      t := tables;
    }

    method PickFirst(names: map<string, string>) returns (g: string)
      requires names != map[]
      ensures First(names, g)
    {
      SomeIsFirst(names);
      g :| First(names, g);
    }

    method OrderedByName(names: map<string, string>) returns (ids: seq<string>)
      requires Apart(names)
      ensures ids == Ordered(names)
    {
      ids := [];
      var rest := names;
      while rest != map[]
        invariant Apart(rest) && Ordered(names) == ids + Ordered(rest)
        decreases |rest|
      {
        var g := PickFirst(rest);
        TakeFirst(rest, g);
        assert ids + ([g] + Ordered(rest - {g})) == (ids + [g]) + Ordered(rest - {g});
        ids := ids + [g];
        rest := rest - {g};
      }
    }

    method InsertMembers(group: string, ids: seq<string>)
      modifies this
      ensures t == old(t).(members := old(t).members + set id | id in ids :: Membership(group, id))
    {
      for i := 0 to |ids|
        invariant t == old(t).(members := old(t).members + set id | id in ids[..i] :: Membership(group, id))
      {
        assert ids[..i + 1] == ids[..i] + [ids[i]];
        t := t.(members := t.members + {Membership(group, ids[i])});
      }
      assert ids[..|ids|] == ids;
    }

    method ReplaceMemberRows(group: string, ids: seq<string>) returns (r: Result<set<string>, Error>)
      modifies this
      ensures match ReplaceMembers(old(t), group, ids)
        case Err(e) => r == Err(e) && t == old(t)
        case Ok((next, affected)) => r == Ok(affected) && t == next
    {
      var distinct := Distinct(ids);
      DuplicatesShrinkTheSet(ids);
      if |distinct| != |ids| { return Err(InvalidValue); }
      var found := set u | u in t.users && u in distinct;
      SubsetCounts(found, distinct);
      if |found| != |ids| { return Err(InvalidValue); }
      assert forall id :: id in ids ==> id in found;
      var previous := Members(t, group);
      t := t.(members := set m | m in t.members && m.group != group);
      InsertMembers(group, ids);
      return Ok(previous + distinct);
    }

    /** One row of the UPDATE. */
    method SyncColumn(u: string) returns (changed: bool)
      requires NamesDiffer(t) && u in t.users
      modifies this
      ensures changed <==> u in Stale(old(t), {u})
      ensures t == SyncedColumns(old(t), {u})
    {
      var names := NamesOf(t, u);
      var ids := OrderedByName(names);
      OrderedListsAll(names);
      var column := Paths(ids, names);
      changed := t.users[u].groups != column;
      if changed { t := t.(users := t.users[u := Resynced(t.users[u], column)]); }
    }

    method SyncColumns(affected: set<string>)
      requires NamesDiffer(t)
      modifies this
      ensures t == SyncUserGroups(old(t), affected)
    {
      var todo := affected;
      var changed: set<string> := {};
      while todo != {}
        invariant todo <= affected && NamesDiffer(t)
        invariant t == SyncedColumns(old(t), affected - todo)
        invariant changed == Stale(old(t), affected - todo)
      {
        var u :| u in todo;
        SyncOneMore(old(t), affected - todo, u);
        assert affected - (todo - {u}) == (affected - todo) + {u};
        todo := todo - {u};
        if u in t.users {
          var stale := SyncColumn(u);
          if stale { changed := changed + {u}; }
        }
      }
      t := t.(records := RevokeAccounts(t.records, t.realm, changed));
    }

    method Create(id: string, displayName: string, externalId: Option<string>, ids: seq<string>)
      returns (error: Option<Error>)
      requires NamesDiffer(t)
      modifies this
      ensures t == Apply(old(t), OpCreateGroup(id, displayName, externalId, ids))
      ensures match CreateGroup(old(t), id, displayName, externalId, ids)
        case Err(e) => error == Some(e)
        case Ok(_) => error.None?
    {
      if id in t.groups { return Some(Uniqueness); }
      error := WriteGroupAndMembers(id, Group(displayName, externalId, 1), ids);
    }

    method Replace(id: string, displayName: string, externalId: Option<string>, ids: seq<string>, expected: nat)
      returns (error: Option<Error>)
      requires NamesDiffer(t)
      modifies this
      ensures t == Apply(old(t), OpReplaceGroup(id, displayName, externalId, ids, expected))
      ensures match ReplaceGroup(old(t), id, displayName, externalId, ids, expected)
        case Err(e) => error == Some(e)
        case Ok(_) => error.None?
    {
      if id !in t.groups { return Some(NotFound); }
      if t.groups[id].version != expected { return Some(VersionMismatch); }
      error := WriteGroupAndMembers(id, Group(displayName, externalId, expected + 1), ids);
    }

    /** The common part of the two transactions, from the row of the group to COMMIT or ROLLBACK. */
    method WriteGroupAndMembers(id: string, g: Group, ids: seq<string>) returns (error: Option<Error>)
      requires NamesDiffer(t)
      modifies this
      ensures match WriteGroup(old(t), id, g)
        case Err(e) => error == Some(e) && t == old(t)
        case Ok(next) =>
          match WriteMembers(next, id, ids)
          case Err(e) => error == Some(e) && t == old(t)
          case Ok(after) => error.None? && t == after
    {
      var saved := t;
      var row := WriteGroup(t, id, g);
      if row.Err? { return Some(row.error); }
      t := row.value;
      var affected := ReplaceMemberRows(id, ids);
      if affected.Err? {
        t := saved;
        return Some(affected.error);
      }
      SyncColumns(affected.value);
      return None;
    }

    method Delete(id: string, expected: nat) returns (error: Option<Error>)
      requires NamesDiffer(t)
      modifies this
      ensures t == Apply(old(t), OpDeleteGroup(id, expected))
      ensures match DeleteGroup(old(t), id, expected)
        case Err(e) => error == Some(e)
        case Ok(_) => error.None?
    {
      if id !in t.groups { return Some(NotFound); }
      if t.groups[id].version != expected { return Some(VersionMismatch); }
      var affected := Members(t, id);
      t := WithoutGroup(t, id);
      SyncColumns(affected);
      return None;
    }
  }

  /** The SQL of this repository revokes what the record store's own revocation does, account by account. */
  lemma RevokesAsTheStoreDoes(rs: OidcRecords.Records, realm: string, id: string)
    ensures RevokeAccounts(rs, realm, {id}) == OidcRecords.RevokeAccount(rs, Account(realm, id))
  {
    var left := RevokeAccounts(rs, realm, {id});
    var right := OidcRecords.RevokeAccount(rs, Account(realm, id));
    assert forall k :: k in left <==> k in right;
  }
}
