/** When the SCIM statements succeed, and what they leave. */
module ScimWrites {
  import opened Wrappers
  import opened Accounts
  import opened ScimGroups
  import OidcRecords
  import Text

  // Guards as a caller could check them before the call, and effects row by row.

  // ---------- texts ----------

  /** There is something in it beside spaces. */
  predicate HasInk(s: string) {
    exists i :: 0 <= i < |s| && s[i] != ' '
  }

  lemma {:induction false} RightTrimLeavesInk(s: string)
    ensures TrimmedRight(s) <= s && (TrimmedRight(s) != "" <==> HasInk(s))
    ensures forall i :: |TrimmedRight(s)| <= i < |s| ==> s[i] == ' '
    ensures TrimmedRight(s) != "" ==> TrimmedRight(s)[|TrimmedRight(s)| - 1] != ' '
  {
    if s != "" && s[|s| - 1] == ' ' { RightTrimLeavesInk(s[..|s| - 1]); }
  }

  /** Trimming takes off the spaces on both ends, and nothing else. */
  lemma {:induction false} TrimmedIsTheMiddle(s: string) returns (from: nat, to: nat)
    ensures from <= to <= |s| && Trimmed(s) == s[from..to]
    ensures forall i :: (0 <= i < from || to <= i < |s|) ==> s[i] == ' '
    ensures from < to ==> s[from] != ' ' && s[to - 1] != ' '
    ensures from < to <==> HasInk(s)
  {
    if s == "" {
      from, to := 0, 0;
    } else if s[0] == ' ' {
      from, to := TrimmedIsTheMiddle(s[1..]);
      assert s[1..][from..to] == s[from + 1..to + 1];
      assert forall i :: 0 < i < |s| ==> s[i] == s[1..][i - 1];
      from, to := from + 1, to + 1;
    } else {
      RightTrimLeavesInk(s);
      from, to := 0, |TrimmedRight(s)|;
      assert s[0] != ' ';
    }
  }

  lemma TrimmedIsEmptyIff(s: string)
    ensures |Trimmed(s)| > 0 <==> HasInk(s)
  {
    var from, to := TrimmedIsTheMiddle(s);
  }

  /** A group's path: a slash, and its name with every slash in it a hyphen. */
  lemma PathReplacesSlashes(name: string)
    ensures |Path(name)| == |name| + 1 && Path(name)[0] == '/'
    ensures forall i :: 0 <= i < |name| ==> Path(name)[i + 1] == if name[i] == '/' then '-' else name[i]
  {
    SlashlessAt(name);
  }

  lemma {:induction false} SlashlessAt(s: string)
    ensures |Slashless(s)| == |s|
    ensures forall i :: 0 <= i < |s| ==> Slashless(s)[i] == if s[i] == '/' then '-' else s[i]
  {
    if s != "" {
      SlashlessAt(s[1..]);
      assert forall i :: 0 < i < |s| ==> s[i] == s[1..][i - 1];
    }
  }

  // ---------- users ----------

  predicate GoodPassword(password: Option<string>) {
    password.None? || 12 <= |password.value| <= 1024
  }

  /** No other user has the name as its username or as its email address, in any case. */
  predicate LoginFree(t: Tables, id: string, login: string) {
    forall u :: u in t.users && u != id ==>
      Text.Lower(t.users[u].username) != Text.Lower(login) && Text.Lower(t.users[u].email) != Text.Lower(login)
  }

  predicate ExternalIdFree(t: Tables, id: string, externalId: Option<string>) {
    externalId.Some? ==>
      |externalId.value| <= 256 && forall u :: u in t.users && u != id ==> t.users[u].externalId != externalId
  }

  /** What the database demands of a user's row. */
  predicate GoodUser(t: Tables, id: string, core: Core, externalId: Option<string>) {
    && LoginFree(t, id, core.username) && LoginFree(t, id, core.email)
    && HasInk(core.username) && HasInk(core.email) && HasInk(core.displayName)
    && ExternalIdFree(t, id, externalId)
  }

  predicate Stores(u: User, core: Core, externalId: Option<string>) {
    && u.username == core.username && u.email == core.email && u.displayName == core.displayName
    && u.enabled == core.enabled && u.profile == core.profile && u.externalId == externalId
  }

  predicate OnlyUserChanges(t: Tables, after: Tables, id: string) {
    && after.users - {id} == t.users - {id} && after.realm == t.realm
    && after.groups == t.groups && after.members == t.members
  }

  lemma WriteUserIff(t: Tables, id: string, core: Core, externalId: Option<string>, groups: seq<string>,
                     securityVersion: nat, version: nat)
    ensures WriteUser(t, id, core, externalId, groups, securityVersion, version).Ok? <==>
      GoodUser(t, id, core, externalId)
  {
    TrimmedIsEmptyIff(core.username);
    TrimmedIsEmptyIff(core.email);
    TrimmedIsEmptyIff(core.displayName);
  }

  /** A user is created exactly with a good password, an unused id and a good row, and stored as given. */
  lemma CreateUserIff(t: Tables, id: string, core: Core, externalId: Option<string>, password: Option<string>)
    ensures var result := CreateUser(t, id, core, externalId, password);
      && (result.Ok? <==> GoodPassword(password) && id !in t.users && GoodUser(t, id, core, externalId))
      && (!GoodPassword(password) ==> result == Err(InvalidValue))
      && (GoodPassword(password) && (id in t.users || !LoginFree(t, id, core.username)) ==> result == Err(Uniqueness))
      && (result.Ok? ==>
            && OnlyUserChanges(t, result.value, id) && result.value.records == t.records
            && id in result.value.users && Stores(result.value.users[id], core, externalId)
            && result.value.users[id].groups == []
            && result.value.users[id].securityVersion == 0 && result.value.users[id].version == 1)
  {
    WriteUserIff(t, id, core, externalId, [], 0, 1);
  }

  /** Nothing the account owns and nothing linked to a grant of it is left, and everything else is. */
  ghost predicate Revoked(t: Tables, after: Tables, id: string) {
    && (forall k :: k in after.records <==>
          k in t.records && k !in OidcRecords.Doomed(t.records, Account(t.realm, id)))
    && (forall k :: k in after.records ==> after.records[k] == t.records[k])
  }

  /**
   A user is replaced exactly with a good password, at the version expected and with a good row; the
   new attributes are stored, the groups stay, both versions count up and the account is revoked.
   */
  lemma ReplaceUserIff(t: Tables, id: string, core: Core, externalId: Option<string>, password: Option<string>,
                       expected: nat)
    ensures var result := ReplaceUser(t, id, core, externalId, password, expected);
      && (result.Ok? <==>
            && GoodPassword(password) && id in t.users && t.users[id].version == expected
            && GoodUser(t, id, core, externalId))
      && (!GoodPassword(password) ==> result == Err(InvalidValue))
      && (GoodPassword(password) && id !in t.users ==> result == Err(NotFound))
      && (GoodPassword(password) && id in t.users && t.users[id].version != expected ==>
            result == Err(VersionMismatch))
      && (result.Ok? ==>
            && OnlyUserChanges(t, result.value, id) && Revoked(t, result.value, id)
            && id in result.value.users && Stores(result.value.users[id], core, externalId)
            && result.value.users[id].groups == t.users[id].groups
            && result.value.users[id].securityVersion == t.users[id].securityVersion + 1
            && result.value.users[id].version == expected + 1)
  {
    if id in t.users {
      WriteUserIff(t, id, core, externalId, t.users[id].groups, t.users[id].securityVersion + 1, expected + 1);
    }
  }

  /** Which of a row's faults is answered: a taken login first, then a violated CHECK, then a taken external id. */
  lemma UserRowFaults(t: Tables, id: string, core: Core, externalId: Option<string>)
    requires id !in t.users
    ensures var result := CreateUser(t, id, core, externalId, None);
      var free := LoginFree(t, id, core.username) && LoginFree(t, id, core.email);
      var whole := HasInk(core.username) && HasInk(core.email) && HasInk(core.displayName) &&
                   (externalId.Some? ==> |externalId.value| <= 256);
      && (!free ==> result == Err(Uniqueness))
      && (free && !whole ==> result == Err(Violation))
      && (free && whole && !ExternalIdFree(t, id, externalId) ==> result == Err(Uniqueness))
  {
    TrimmedIsEmptyIff(core.username);
    TrimmedIsEmptyIff(core.email);
    TrimmedIsEmptyIff(core.displayName);
  }

  /**
   A user is deleted exactly at the version expected, with its memberships and records; the groups
   it was a member of count up, and nothing else changes.
   */
  lemma DeleteUserIff(t: Tables, id: string, expected: nat)
    ensures var result := DeleteUser(t, id, expected);
      && (result.Ok? <==> id in t.users && t.users[id].version == expected)
      && (id !in t.users ==> result == Err(NotFound))
      && (id in t.users && t.users[id].version != expected ==> result == Err(VersionMismatch))
      && (result.Ok? ==>
            && result.value.users == t.users - {id} && result.value.realm == t.realm
            && Revoked(t, result.value, id)
            && (forall m :: m in result.value.members <==> m in t.members && m.user != id)
            && result.value.groups.Keys == t.groups.Keys
            && (forall g :: g in t.groups ==>
                  && result.value.groups[g].displayName == t.groups[g].displayName
                  && result.value.groups[g].externalId == t.groups[g].externalId
                  && result.value.groups[g].version ==
                     t.groups[g].version + if Membership(g, id) in t.members then 1 else 0))
  {
  }

  /** A column that is brought up to date counts up both versions of its user, once, and changes nothing else of it. */
  lemma ResyncingCountsUp(u: User, groups: seq<string>)
    ensures var after := Resynced(u, groups);
      && after.groups == groups
      && after.securityVersion == u.securityVersion + 1 && after.version == u.version + 1
      && after.username == u.username && after.email == u.email && after.displayName == u.displayName
      && after.externalId == u.externalId && after.enabled == u.enabled && after.profile == u.profile
  {
  }

  // ---------- groups ----------

  /** What the database demands of a group's row. */
  ghost predicate GoodGroup(t: Tables, id: string, displayName: string, externalId: Option<string>) {
    && 1 <= |Trimmed(displayName)| <= 256
    && (forall g :: g in t.groups && g != id ==> Text.Lower(t.groups[g].displayName) != Text.Lower(displayName))
    && (externalId.Some? ==>
          && |externalId.value| <= 256
          && forall g :: g in t.groups && g != id ==> t.groups[g].externalId != externalId)
  }

  predicate GoodMembers(t: Tables, ids: seq<string>) {
    && (forall i :: 0 <= i < |ids| ==> ids[i] in t.users)
    && (forall i, j :: 0 <= i < j < |ids| ==> ids[i] != ids[j])
  }

  lemma GoodMembersIff(t: Tables, id: string, ids: seq<string>)
    ensures WriteMembers(t, id, ids).Ok? <==> GoodMembers(t, ids)
    ensures WriteMembers(t, id, ids).Err? ==> WriteMembers(t, id, ids).error == InvalidValue
  {
    assert (exists u :: u in ids && u !in t.users) <==> !(forall i :: 0 <= i < |ids| ==> ids[i] in t.users);
  }

  /** The group's memberships are exactly the ones listed, and everyone else's stay. */
  ghost predicate MembersAre(t: Tables, after: Tables, id: string, ids: seq<string>) {
    forall m :: m in after.members <==> (if m.group == id then m.user in ids else m in t.members)
  }

  predicate GroupIs(after: Tables, id: string, displayName: string, externalId: Option<string>, version: nat) {
    && id in after.groups
    && after.groups[id].displayName == displayName && after.groups[id].externalId == externalId
    && after.groups[id].version == version
  }

  /** A group is created exactly with an unused id, a good row and distinct members that exist. */
  lemma CreateGroupIff(t: Tables, id: string, displayName: string, externalId: Option<string>, ids: seq<string>)
    ensures var result := CreateGroup(t, id, displayName, externalId, ids);
      && (result.Ok? <==>
            id !in t.groups && GoodGroup(t, id, displayName, externalId) && GoodMembers(t, ids))
      && (id in t.groups ==> result == Err(Uniqueness))
      && (id !in t.groups && GoodGroup(t, id, displayName, externalId) && !GoodMembers(t, ids) ==>
            result == Err(InvalidValue))
      && (result.Ok? ==>
            && GroupIs(result.value, id, displayName, externalId, 1) && result.value.groups - {id} == t.groups - {id}
            && MembersAre(t, result.value, id, ids))
  {
    GoodMembersIff(t.(groups := t.groups[id := Group(displayName, externalId, 1)]), id, ids);
  }

  /** A group is replaced exactly at the version expected, with a good row and distinct members that exist. */
  lemma ReplaceGroupIff(t: Tables, id: string, displayName: string, externalId: Option<string>, ids: seq<string>,
                        expected: nat)
    ensures var result := ReplaceGroup(t, id, displayName, externalId, ids, expected);
      && (result.Ok? <==>
            && id in t.groups && t.groups[id].version == expected
            && GoodGroup(t, id, displayName, externalId) && GoodMembers(t, ids))
      && (id !in t.groups ==> result == Err(NotFound))
      && (id in t.groups && t.groups[id].version != expected ==> result == Err(VersionMismatch))
      && (result.Ok? ==>
            && GroupIs(result.value, id, displayName, externalId, expected + 1)
            && result.value.groups - {id} == t.groups - {id}
            && MembersAre(t, result.value, id, ids))
  {
    GoodMembersIff(t.(groups := t.groups[id := Group(displayName, externalId, expected + 1)]), id, ids);
  }

  /** Which of a group row's faults is answered: a violated CHECK first, then a taken name or external id. */
  lemma GroupRowFaults(t: Tables, id: string, displayName: string, externalId: Option<string>, ids: seq<string>)
    requires id !in t.groups && !GoodGroup(t, id, displayName, externalId)
    ensures var whole := 1 <= |Trimmed(displayName)| <= 256 && (externalId.Some? ==> |externalId.value| <= 256);
      CreateGroup(t, id, displayName, externalId, ids) == Err(if whole then Uniqueness else Violation)
  {
  }

  /** A group is deleted exactly at the version expected, with its memberships and nobody else's. */
  lemma DeleteGroupIff(t: Tables, id: string, expected: nat)
    ensures var result := DeleteGroup(t, id, expected);
      && (result.Ok? <==> id in t.groups && t.groups[id].version == expected)
      && (id !in t.groups ==> result == Err(NotFound))
      && (id in t.groups && t.groups[id].version != expected ==> result == Err(VersionMismatch))
      && (result.Ok? ==>
            result.value.groups == t.groups - {id} && MembersAre(t, result.value, id, []))
  {
  }
}
