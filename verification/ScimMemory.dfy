/** The in-memory SCIM repository. */
module ScimMemory {
  import opened Wrappers
  import Text

  // Users and groups of every realm carry versions that `replace` and `delete` compare before
  // they write. Every operation runs in one synchronous stretch; the router reads a record,
  // computes a replacement and writes it in separate calls.

  datatype UserAttributes = UserAttributes(userName: string, externalId: Option<string>, active: bool, rest: string)

  /** Members are the ids of users; the other part of a member is always its type. */
  datatype GroupAttributes = GroupAttributes(displayName: string, externalId: Option<string>, members: seq<string>)

  datatype Resource<A> = Resource(attributes: A, version: nat, createdAt: nat, updatedAt: nat)

  type UserRecord = Resource<UserAttributes>

  type GroupRecord = Resource<GroupAttributes>

  datatype Realm = Realm(users: map<string, UserRecord>, groups: map<string, GroupRecord>)

  datatype Error = NotFound | VersionMismatch | Uniqueness | InvalidValue

  const Empty := Realm(map[], map[])

  function Created<A>(attributes: A, now: nat): Resource<A> {
    Resource(attributes, 1, now, now)
  }

  function Replaced<A>(current: Resource<A>, attributes: A, now: nat): Resource<A> {
    Resource(attributes, current.version + 1, current.createdAt, now)
  }

  /** An absent `expected` is a write that does not compare versions. */
  function VersionError<A>(resources: map<string, Resource<A>>, id: string, expected: Option<nat>): Option<Error> {
    if id !in resources then Some(NotFound)
    else if expected.Some? && resources[id].version != expected.value then Some(VersionMismatch)
    else None
  }

  predicate UserClashes(u: UserAttributes, a: UserAttributes) {
    Text.Lower(u.userName) == Text.Lower(a.userName) || (a.externalId.Some? && u.externalId == a.externalId)
  }

  predicate UserTaken(users: map<string, UserRecord>, a: UserAttributes, except: Option<string>) {
    exists id :: id in users && Some(id) != except && UserClashes(users[id].attributes, a)
  }

  predicate GroupTaken(groups: map<string, GroupRecord>, a: GroupAttributes, except: Option<string>) {
    a.externalId.Some? && exists id ::
      id in groups && Some(id) != except && groups[id].attributes.externalId == a.externalId
  }

  predicate MembersExist(r: Realm, members: seq<string>) {
    forall m :: m in members ==> m in r.users
  }

  function GroupError(r: Realm, a: GroupAttributes, except: Option<string>): Option<Error> {
    if GroupTaken(r.groups, a, except) then Some(Uniqueness)
    else if !MembersExist(r, a.members) then Some(InvalidValue)
    else None
  }

  function Without(members: seq<string>, id: string): seq<string> {
    if members == [] then []
    else if members[0] == id then Without(members[1..], id)
    else [members[0]] + Without(members[1..], id)
  }

  /** The groups once user `id` is gone: those that held it are written again without it. */
  function GroupsWithout(groups: map<string, GroupRecord>, id: string, now: nat): map<string, GroupRecord> {
    map g | g in groups ::
      if id in groups[g].attributes.members
      then Replaced(groups[g], groups[g].attributes.(members := Without(groups[g].attributes.members, id)), now)
      else groups[g]
  }

  // ---------- the operations on one realm ----------

  datatype Op =
    | CreateUser(id: string, user: UserAttributes)
    | ReplaceUser(id: string, user: UserAttributes, expected: Option<nat>)
    | DeleteUser(id: string, expected: Option<nat>)
    | CreateGroup(id: string, group: GroupAttributes)
    | ReplaceGroup(id: string, group: GroupAttributes, expected: Option<nat>)
    | DeleteGroup(id: string, expected: Option<nat>)

  function Fails(r: Realm, op: Op): Option<Error> {
    match op
    case CreateUser(_, a) => if UserTaken(r.users, a, None) then Some(Uniqueness) else None
    case ReplaceUser(id, a, expected) =>
      if VersionError(r.users, id, expected).Some? then VersionError(r.users, id, expected)
      else if UserTaken(r.users, a, Some(id)) then Some(Uniqueness)
      else None
    case DeleteUser(id, expected) => VersionError(r.users, id, expected)
    case CreateGroup(_, a) => GroupError(r, a, None)
    case ReplaceGroup(id, a, expected) =>
      if VersionError(r.groups, id, expected).Some? then VersionError(r.groups, id, expected)
      else GroupError(r, a, Some(id))
    case DeleteGroup(id, expected) => VersionError(r.groups, id, expected)
  }

  function Written(r: Realm, op: Op, now: nat): Realm
    requires Fails(r, op).None?
  {
    match op
    case CreateUser(id, a) => r.(users := r.users[id := Created(a, now)])
    case ReplaceUser(id, a, _) => r.(users := r.users[id := Replaced(r.users[id], a, now)])
    case DeleteUser(id, _) => Realm(r.users - {id}, GroupsWithout(r.groups, id, now))
    case CreateGroup(id, a) => r.(groups := r.groups[id := Created(a, now)])
    case ReplaceGroup(id, a, _) => r.(groups := r.groups[id := Replaced(r.groups[id], a, now)])
    case DeleteGroup(id, _) => r.(groups := r.groups - {id})
  }

  function Perform(r: Realm, op: Op, now: nat): Realm {
    if Fails(r, op).Some? then r else Written(r, op, now)
  }

  // ---------- what each operation writes ----------

  /** The members but one, in order. */
  function AllBut(members: seq<string>, id: string): seq<string> {
    if members == [] then []
    else
      var last := members[|members| - 1];
      AllBut(members[..|members| - 1], id) + if last == id then [] else [last]
  }

  lemma {:induction false} WithoutIsAllBut(members: seq<string>, id: string)
    ensures Without(members, id) == AllBut(members, id)
    decreases |members|
  {
    if members != [] {
      WithoutIsAllBut(members[1..], id);
      AllButCons(members[0], members[1..], id);
      assert members == [members[0]] + members[1..];
    }
  }

  lemma {:induction false} AllButCons(first: string, rest: seq<string>, id: string)
    ensures AllBut([first] + rest, id) == (if first == id then [] else [first]) + AllBut(rest, id)
    decreases |rest|
  {
    var all := [first] + rest;
    if rest == [] {
      assert all[..0] == [] && AllBut(all[..0], id) == [];
    } else {
      assert all[..|all| - 1] == [first] + rest[..|rest| - 1] && all[|all| - 1] == rest[|rest| - 1];
      AllButCons(first, rest[..|rest| - 1], id);
    }
  }

  /** Nobody but `except` has the userName, in any case, or the external id. */
  predicate UserFree(r: Realm, a: UserAttributes, except: Option<string>) {
    forall id :: id in r.users && except != Some(id) ==>
      && Text.Lower(r.users[id].attributes.userName) != Text.Lower(a.userName)
      && (a.externalId.Some? ==> r.users[id].attributes.externalId != a.externalId)
  }

  /** No group but `except` has the external id, and every member is a user. */
  predicate GroupFits(r: Realm, a: GroupAttributes, except: Option<string>) {
    && (a.externalId.Some? ==>
          forall id :: id in r.groups && except != Some(id) ==> r.groups[id].attributes.externalId != a.externalId)
    && forall i :: 0 <= i < |a.members| ==> a.members[i] in r.users
  }

  predicate AtVersion<A>(resources: map<string, Resource<A>>, id: string, expected: Option<nat>) {
    id in resources && (expected.None? || expected.value == resources[id].version)
  }

  /** A record with these attributes, first written and last written then. */
  predicate IsRecord<A(==)>(resources: map<string, Resource<A>>, id: string, a: A, version: nat, first: nat, last: nat)
  {
    && id in resources && resources[id].attributes == a && resources[id].version == version
    && resources[id].createdAt == first && resources[id].updatedAt == last
  }

  /** A user is created exactly when its name and external id are free, with the attributes given, alone. */
  lemma UserCreationIsExact(r: Realm, id: string, a: UserAttributes, now: nat)
    ensures var after := Perform(r, Op.CreateUser(id, a), now);
      if UserFree(r, a, None) then
        && IsRecord(after.users, id, a, 1, now, now)
        && after.users - {id} == r.users - {id} && after.groups == r.groups
      else Fails(r, Op.CreateUser(id, a)) == Some(Uniqueness) && after == r
  {
  }

  /** A user is replaced exactly at the version expected and with a free name and external id. */
  lemma UserReplacementIsExact(r: Realm, id: string, a: UserAttributes, expected: Option<nat>, now: nat)
    ensures var op := Op.ReplaceUser(id, a, expected);
      var after := Perform(r, op, now);
      if AtVersion(r.users, id, expected) && UserFree(r, a, Some(id)) then
        && IsRecord(after.users, id, a, r.users[id].version + 1, r.users[id].createdAt, now)
        && after.users - {id} == r.users - {id} && after.groups == r.groups
      else
        && after == r
        && Fails(r, op) == Some(if id !in r.users then NotFound
                                else if !AtVersion(r.users, id, expected) then VersionMismatch else Uniqueness)
  {
  }

  /** A user is deleted exactly at the version expected; exactly its groups are written again, without it. */
  lemma UserDeletionIsExact(r: Realm, id: string, expected: Option<nat>, now: nat)
    ensures var op := Op.DeleteUser(id, expected);
      var after := Perform(r, op, now);
      if AtVersion(r.users, id, expected) then
        && after.users == r.users - {id} && after.groups.Keys == r.groups.Keys
        && (forall g :: g in r.groups ==>
              if id in r.groups[g].attributes.members then
                IsRecord(after.groups, g,
                         r.groups[g].attributes.(members := AllBut(r.groups[g].attributes.members, id)),
                         r.groups[g].version + 1, r.groups[g].createdAt, now)
              else after.groups[g] == r.groups[g])
      else after == r && Fails(r, op) == Some(if id !in r.users then NotFound else VersionMismatch)
  {
    forall g | g in r.groups
      ensures Without(r.groups[g].attributes.members, id) == AllBut(r.groups[g].attributes.members, id)
    {
      WithoutIsAllBut(r.groups[g].attributes.members, id);
    }
  }

  /** So are the writes of a group: at the version expected, with a free external id and members that are users. */
  lemma GroupWritesAreExact(r: Realm, id: string, a: GroupAttributes, expected: Option<nat>, now: nat)
    ensures var op := Op.CreateGroup(id, a);
      var after := Perform(r, op, now);
      if GroupFits(r, a, None) then
        && IsRecord(after.groups, id, a, 1, now, now)
        && after.groups - {id} == r.groups - {id} && after.users == r.users
      else after == r && Fails(r, op) in {Some(Uniqueness), Some(InvalidValue)}
    ensures var op := Op.ReplaceGroup(id, a, expected);
      var after := Perform(r, op, now);
      if AtVersion(r.groups, id, expected) && GroupFits(r, a, Some(id)) then
        && IsRecord(after.groups, id, a, r.groups[id].version + 1, r.groups[id].createdAt, now)
        && after.groups - {id} == r.groups - {id} && after.users == r.users
      else
        && after == r && Fails(r, op).Some?
        && (id !in r.groups ==> Fails(r, op) == Some(NotFound))
        && (id in r.groups && !AtVersion(r.groups, id, expected) ==> Fails(r, op) == Some(VersionMismatch))
    ensures var op := Op.DeleteGroup(id, expected);
      var after := Perform(r, op, now);
      if AtVersion(r.groups, id, expected) then after == r.(groups := r.groups - {id})
      else after == r && Fails(r, op) == Some(if id !in r.groups then NotFound else VersionMismatch)
  {
    assert MembersExist(r, a.members) <==> forall i :: 0 <= i < |a.members| ==> a.members[i] in r.users;
  }

  /** A taken external id is answered before an unknown member. */
  lemma GroupFaults(r: Realm, id: string, a: GroupAttributes)
    ensures GroupFits(r, a.(members := []), None) && !GroupFits(r, a, None) ==>
      Fails(r, Op.CreateGroup(id, a)) == Some(InvalidValue)
    ensures !GroupFits(r, a.(members := []), None) ==> Fails(r, Op.CreateGroup(id, a)) == Some(Uniqueness)
  {
    assert MembersExist(r, a.members) <==> forall i :: 0 <= i < |a.members| ==> a.members[i] in r.users;
  }

  // ---------- runs over all realms ----------

  /** `used` holds every id ever given out: a UUID is never given out twice. */
  datatype World = World(realms: map<string, Realm>, used: set<string>)

  const Initial := World(map[], {})

  function RealmOf(w: World, name: string): Realm {
    if name in w.realms then w.realms[name] else Empty
  }

  datatype Event = Event(realm: string, op: Op, now: nat)

  predicate Creates(op: Op) {
    op.CreateUser? || op.CreateGroup?
  }

  function Step(w: World, e: Event): World {
    if Creates(e.op) && e.op.id in w.used then w
    else World(w.realms[e.realm := Perform(RealmOf(w, e.realm), e.op, e.now)], w.used + {e.op.id})
  }

  function Run(w: World, events: seq<Event>): World
    decreases |events|
  {
    if events == [] then w else Run(Step(w, events[0]), events[1..])
  }

  /** Every operation acts on its realm alone, but that no id is created twice. */
  lemma OperationsActOnTheirRealm(w: World, e: Event, name: string)
    ensures RealmOf(Step(w, e), name) ==
      if name == e.realm && !((e.op.CreateUser? || e.op.CreateGroup?) && e.op.id in w.used)
      then Perform(RealmOf(w, name), e.op, e.now)
      else RealmOf(w, name)
  {
  }

  // ---------- what every run keeps ----------

  predicate UsersDiffer(r: Realm) {
    forall i, j :: i in r.users && j in r.users && i != j ==> !UserClashes(r.users[i].attributes, r.users[j].attributes)
  }

  predicate GroupsDiffer(r: Realm) {
    forall i, j :: i in r.groups && j in r.groups && i != j && r.groups[j].attributes.externalId.Some? ==>
      r.groups[i].attributes.externalId != r.groups[j].attributes.externalId
  }

  predicate MembersAreUsers(r: Realm) {
    forall g :: g in r.groups ==> MembersExist(r, r.groups[g].attributes.members)
  }

  predicate Valid(r: Realm) {
    UsersDiffer(r) && GroupsDiffer(r) && MembersAreUsers(r)
  }

  lemma {:induction false} WithoutRemoves(members: seq<string>, id: string)
    ensures forall m :: m in Without(members, id) <==> m in members && m != id
    ensures |Without(members, id)| <= |members|
    ensures |Without(members, id)| == |members| <==> id !in members
    ensures id !in members ==> Without(members, id) == members
  {
    if members != [] {
      WithoutRemoves(members[1..], id);
      assert members == [members[0]] + members[1..];
    }
  }

  lemma DeletedUsersLeaveGroups(r: Realm, id: string, now: nat)
    requires Valid(r)
    ensures Valid(Realm(r.users - {id}, GroupsWithout(r.groups, id, now)))
  {
    var after := Realm(r.users - {id}, GroupsWithout(r.groups, id, now));
    forall g | g in after.groups ensures MembersExist(after, after.groups[g].attributes.members) {
      WithoutRemoves(r.groups[g].attributes.members, id);
      assert MembersExist(r, r.groups[g].attributes.members);
    }
  }

  lemma UserWriteKeepsValid(r: Realm, id: string, u: UserRecord)
    requires Valid(r) && !UserTaken(r.users, u.attributes, Some(id))
    ensures Valid(r.(users := r.users[id := u]))
  {
    var after := r.(users := r.users[id := u]);
    assert forall i :: i in r.users && i != id ==> !UserClashes(r.users[i].attributes, u.attributes);
    assert forall a, b :: UserClashes(a, b) && a.externalId.Some? ==> UserClashes(b, a);
    forall g | g in after.groups ensures MembersExist(after, after.groups[g].attributes.members) {
      assert MembersExist(r, r.groups[g].attributes.members);
    }
  }

  lemma GroupWriteKeepsValid(r: Realm, id: string, g: GroupRecord)
    requires Valid(r) && !GroupTaken(r.groups, g.attributes, Some(id)) && MembersExist(r, g.attributes.members)
    ensures Valid(r.(groups := r.groups[id := g]))
  {
    var after := r.(groups := r.groups[id := g]);
    forall h | h in after.groups ensures MembersExist(after, after.groups[h].attributes.members) {
      if h != id { assert MembersExist(r, r.groups[h].attributes.members); }
    }
  }

  lemma PerformKeepsValid(r: Realm, op: Op, now: nat)
    requires Valid(r)
    ensures Valid(Perform(r, op, now))
  {
    if Fails(r, op).None? {
      match op
      case CreateUser(id, a) => UserWriteKeepsValid(r, id, Created(a, now));
      case ReplaceUser(id, a, _) => UserWriteKeepsValid(r, id, Replaced(r.users[id], a, now));
      case DeleteUser(id, _) => DeletedUsersLeaveGroups(r, id, now);
      case CreateGroup(id, a) => GroupWriteKeepsValid(r, id, Created(a, now));
      case ReplaceGroup(id, a, _) => GroupWriteKeepsValid(r, id, Replaced(r.groups[id], a, now));
      case DeleteGroup(id, _) =>
    }
  }

  lemma {:induction false} RunKeepsValid(w: World, events: seq<Event>, name: string)
    requires Valid(RealmOf(w, name))
    ensures Valid(RealmOf(Run(w, events), name))
    decreases |events|
  {
    if events != [] {
      PerformKeepsValid(RealmOf(w, name), events[0].op, events[0].now);
      RunKeepsValid(Step(w, events[0]), events[1..], name);
    }
  }

  /**
   In every realm after every run no two users share a userName, in whatever case, or an
   externalId, no two groups an externalId, and every member of a group is a user.
   */
  lemma EveryRealmIsValid(events: seq<Event>, name: string)
    ensures Valid(RealmOf(Run(Initial, events), name))
  {
    RunKeepsValid(Initial, events, name);
  }

  // ---------- versions ----------

  /** The record under an id: still the same one, a later version of it, or gone for good. */
  predicate Later<A(==)>(before: map<string, Resource<A>>, after: map<string, Resource<A>>, id: string) {
    && (id in before && id in after ==> after[id] == before[id] || after[id].version > before[id].version)
    && (id in after ==> id in before)
  }

  predicate Progress(before: Realm, after: Realm, id: string) {
    Later(before.users, after.users, id) && Later(before.groups, after.groups, id)
  }

  ghost predicate IdsUsed(w: World) {
    forall name, id :: name in w.realms && (id in w.realms[name].users || id in w.realms[name].groups) ==> id in w.used
  }

  lemma StepProgresses(w: World, e: Event, name: string, id: string)
    requires IdsUsed(w) && id in w.used
    ensures IdsUsed(Step(w, e)) && id in Step(w, e).used
    ensures Progress(RealmOf(w, name), RealmOf(Step(w, e), name), id)
  {
  }

  lemma {:induction false} RunProgresses(w: World, events: seq<Event>, name: string, id: string)
    requires IdsUsed(w) && id in w.used
    ensures IdsUsed(Run(w, events)) && id in Run(w, events).used
    ensures Progress(RealmOf(w, name), RealmOf(Run(w, events), name), id)
    decreases |events|
  {
    if events != [] {
      StepProgresses(w, events[0], name, id);
      RunProgresses(Step(w, events[0]), events[1..], name, id);
    }
  }

  lemma {:induction false} RunKeepsIdsUsed(w: World, events: seq<Event>)
    requires IdsUsed(w)
    ensures IdsUsed(Run(w, events))
    decreases |events|
  {
    if events != [] { RunKeepsIdsUsed(Step(w, events[0]), events[1..]); }
  }

  function RecordVersion(r: Realm, user: bool, id: string): Option<nat> {
    if user then (if id in r.users then Some(r.users[id].version) else None)
    else if id in r.groups then Some(r.groups[id].version) else None
  }

  predicate SameRecord(a: Realm, b: Realm, user: bool, id: string) {
    if user then id in a.users && id in b.users && a.users[id] == b.users[id]
    else id in a.groups && id in b.groups && a.groups[id] == b.groups[id]
  }

  /** Two reads of one id that see the same version see the same record, whatever ran in between. */
  lemma EqualVersionsAreEqualRecords(first: seq<Event>, second: seq<Event>, name: string, user: bool, id: string)
    requires RecordVersion(RealmOf(Run(Initial, first), name), user, id).Some?
    requires RecordVersion(RealmOf(Run(Initial, first), name), user, id) ==
      RecordVersion(RealmOf(Run(Run(Initial, first), second), name), user, id)
    ensures SameRecord(RealmOf(Run(Initial, first), name), RealmOf(Run(Run(Initial, first), second), name), user, id)
  {
    RunKeepsIdsUsed(Initial, first);
    var w := Run(Initial, first);
    assert id in w.used;
    RunProgresses(w, second, name, id);
  }

  /** What an operation writes to, and the version it insists on. */
  predicate Insists(op: Op, user: bool, id: string, version: nat) {
    && op.id == id && !Creates(op) && op.expected == Some(version)
    && (user <==> op.ReplaceUser? || op.DeleteUser?)
  }

  /**
   Of all writes that insist on one version of a record at most one ever succeeds: after the
   first, every other one fails, whatever ran in between.
   */
  lemma OneWriterPerVersion(events: seq<Event>, first: Event, between: seq<Event>, second: Op, user: bool, version: nat)
    requires Insists(first.op, user, first.op.id, version) && Insists(second, user, first.op.id, version)
    requires Fails(RealmOf(Run(Initial, events), first.realm), first.op).None?
    ensures var after := Run(Step(Run(Initial, events), first), between);
      Fails(RealmOf(after, first.realm), second) in {Some(NotFound), Some(VersionMismatch)}
  {
    RunKeepsIdsUsed(Initial, events);
    var w := Run(Initial, events);
    var next := Step(w, first);
    StepProgresses(w, first, first.realm, first.op.id);
    RunProgresses(next, between, first.realm, first.op.id);
  }

  /**
   A replacement computed from a read and written with the version read overwrites exactly
   what was read: a PUT or PATCH never undoes a write it did not see.
   */
  lemma NoLostUpdates(events: seq<Event>, between: seq<Event>, name: string, op: Op, user: bool, version: nat)
    requires Insists(op, user, op.id, version)
    requires RecordVersion(RealmOf(Run(Initial, events), name), user, op.id) == Some(version)
    requires Fails(RealmOf(Run(Run(Initial, events), between), name), op).None?
    ensures SameRecord(RealmOf(Run(Initial, events), name), RealmOf(Run(Run(Initial, events), between), name), user,
      op.id)
  {
    EqualVersionsAreEqualRecords(events, between, name, user, op.id);
  }

  // ---------- pages ----------

  /** `slice(startIndex - 1, startIndex - 1 + count)`, with JavaScript's clamping at the end. */
  function Page<T>(selected: seq<T>, startIndex: nat, count: nat): seq<T>
    requires startIndex >= 1
  {
    var from := if startIndex - 1 <= |selected| then startIndex - 1 else |selected|;
    var to := if from + count <= |selected| then from + count else |selected|;
    selected[from..to]
  }

  function Pages<T>(selected: seq<T>, startIndex: nat, count: nat): seq<T>
    requires startIndex >= 1 && count >= 1
    decreases |selected| + 1 - startIndex
  {
    if startIndex > |selected| then []
    else Page(selected, startIndex, count) + Pages(selected, startIndex + count, count)
  }

  /** Reading page after page, of any size, yields every selected resource once and in order. */
  lemma {:induction false} PagesListAll<T>(selected: seq<T>, startIndex: nat, count: nat)
    requires 1 <= startIndex && 1 <= count
    ensures Pages(selected, startIndex, count) ==
      selected[if startIndex - 1 <= |selected| then startIndex - 1 else |selected|..]
    decreases |selected| + 1 - startIndex
  {
    if startIndex <= |selected| { PagesListAll(selected, startIndex + count, count); }
  }

  // ---------- the repository ----------

  class MemoryScimRepository {
    var realms: map<string, Realm>

    constructor ()
      ensures realms == map[]
    {
      realms := map[];
    }

    function Get(name: string): Realm
      reads this
    {
      if name in realms then realms[name] else Empty
    }

    method UserUnique(name: string, a: UserAttributes, except: Option<string>) returns (unique: bool)
      ensures unique <==> !UserTaken(Get(name).users, a, except)
    {
      var users := Get(name).users;
      var todo := users.Keys;
      while todo != {}
        invariant todo <= users.Keys
        invariant forall id :: id in users && id !in todo && Some(id) != except ==>
          !UserClashes(users[id].attributes, a)
      {
        var id :| id in todo;
        todo := todo - {id};
        if Some(id) == except { continue; }
        if Text.Lower(users[id].attributes.userName) == Text.Lower(a.userName) { return false; }
        if a.externalId.Some? && users[id].attributes.externalId == a.externalId { return false; }
      }
      return true;
    }

    method GroupUnique(name: string, a: GroupAttributes, except: Option<string>) returns (unique: bool)
      ensures unique <==> !GroupTaken(Get(name).groups, a, except)
    {
      if a.externalId.None? { return true; }
      var groups := Get(name).groups;
      var todo := groups.Keys;
      while todo != {}
        invariant todo <= groups.Keys
        invariant forall id :: id in groups && id !in todo && Some(id) != except ==>
          groups[id].attributes.externalId != a.externalId
      {
        var id :| id in todo;
        todo := todo - {id};
        if Some(id) != except && groups[id].attributes.externalId == a.externalId { return false; }
      }
      return true;
    }

    method AllUsers(name: string, members: seq<string>) returns (all: bool)
      ensures all <==> MembersExist(Get(name), members)
    {
      for i := 0 to |members|
        invariant forall j :: 0 <= j < i ==> members[j] in Get(name).users
      {
        if members[i] !in Get(name).users { return false; }
      }
      return true;
    }

    method CheckGroup(name: string, a: GroupAttributes, except: Option<string>) returns (error: Option<Error>)
      ensures error == GroupError(Get(name), a, except)
    {
      var unique := GroupUnique(name, a, except);
      if !unique { return Some(Uniqueness); }
      var all := AllUsers(name, a.members);
      return if all then None else Some(InvalidValue);
    }

    method CreateUser(name: string, id: string, a: UserAttributes, now: nat) returns (error: Option<Error>)
      modifies this
      ensures error == Fails(old(Get(name)), Op.CreateUser(id, a))
      ensures realms == if error.Some? then old(realms)
        else old(realms)[name := Perform(old(Get(name)), Op.CreateUser(id, a), now)]
    {
      var unique := UserUnique(name, a, None);
      if !unique { return Some(Uniqueness); }
      var r := Get(name);
      realms := realms[name := r.(users := r.users[id := Created(a, now)])];
      return None;
    }

    method ReplaceUser(name: string, id: string, a: UserAttributes, expected: Option<nat>, now: nat)
      returns (error: Option<Error>)
      modifies this
      ensures error == Fails(old(Get(name)), Op.ReplaceUser(id, a, expected))
      ensures realms == if error.Some? then old(realms)
        else old(realms)[name := Perform(old(Get(name)), Op.ReplaceUser(id, a, expected), now)]
    {
      var r := Get(name);
      error := VersionError(r.users, id, expected);
      if error.Some? { return; }
      var unique := UserUnique(name, a, Some(id));
      if !unique { return Some(Uniqueness); }
      realms := realms[name := r.(users := r.users[id := Replaced(r.users[id], a, now)])];
    }

    /** The user goes, and then, group by group, its memberships. */
    method DeleteUser(name: string, id: string, expected: Option<nat>, now: nat) returns (error: Option<Error>)
      modifies this
      ensures error == Fails(old(Get(name)), Op.DeleteUser(id, expected))
      ensures realms == if error.Some? then old(realms)
        else old(realms)[name := Perform(old(Get(name)), Op.DeleteUser(id, expected), now)]
    {
      var r := Get(name);
      error := VersionError(r.users, id, expected);
      if error.Some? { return; }
      var groups := r.groups;
      var todo := groups.Keys;
      while todo != {}
        invariant realms == old(realms) && error.None?
        invariant todo <= groups.Keys == r.groups.Keys
        invariant forall g :: g in groups ==>
          groups[g] == if g in todo then r.groups[g] else GroupsWithout(r.groups, id, now)[g]
      {
        var g :| g in todo;
        todo := todo - {g};
        var members := Without(groups[g].attributes.members, id);
        WithoutRemoves(groups[g].attributes.members, id);
        if |members| != |groups[g].attributes.members| {
          groups := groups[g := Replaced(groups[g], groups[g].attributes.(members := members), now)];
        }
      }
      assert groups == GroupsWithout(r.groups, id, now);
      realms := realms[name := Realm(r.users - {id}, groups)];
    }

    method CreateGroup(name: string, id: string, a: GroupAttributes, now: nat) returns (error: Option<Error>)
      modifies this
      ensures error == Fails(old(Get(name)), Op.CreateGroup(id, a))
      ensures realms == if error.Some? then old(realms)
        else old(realms)[name := Perform(old(Get(name)), Op.CreateGroup(id, a), now)]
    {
      error := CheckGroup(name, a, None);
      if error.Some? { return; }
      var r := Get(name);
      realms := realms[name := r.(groups := r.groups[id := Created(a, now)])];
    }

    method ReplaceGroup(name: string, id: string, a: GroupAttributes, expected: Option<nat>, now: nat)
      returns (error: Option<Error>)
      modifies this
      ensures error == Fails(old(Get(name)), Op.ReplaceGroup(id, a, expected))
      ensures realms == if error.Some? then old(realms)
        else old(realms)[name := Perform(old(Get(name)), Op.ReplaceGroup(id, a, expected), now)]
    {
      var r := Get(name);
      error := VersionError(r.groups, id, expected);
      if error.Some? { return; }
      error := CheckGroup(name, a, Some(id));
      if error.Some? { return; }
      realms := realms[name := r.(groups := r.groups[id := Replaced(r.groups[id], a, now)])];
    }

    method DeleteGroup(name: string, id: string, expected: Option<nat>, now: nat) returns (error: Option<Error>)
      modifies this
      ensures error == Fails(old(Get(name)), Op.DeleteGroup(id, expected))
      ensures realms == if error.Some? then old(realms)
        else old(realms)[name := Perform(old(Get(name)), Op.DeleteGroup(id, expected), now)]
    {
      var r := Get(name);
      error := VersionError(r.groups, id, expected);
      if error.Some? { return; }
      realms := realms[name := r.(groups := r.groups - {id})];
    }
  }
}
