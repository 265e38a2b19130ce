/** The in-memory identity store. */
module IdentityStore {
  import opened Wrappers
  import opened Accounts
  import Text

  // Accounts, their logins, passkeys and administrator grants, and how the data layer puts them
  // back when a security mutation or a deletion fails half-way.

  /** `rest` stands for the fields that nothing here tests and no normalisation changes. */
  datatype User = User(
    username: string,
    email: string,
    name: string,
    givenName: string,
    familyName: string,
    enabled: bool,
    securityVersion: nat,
    roles: seq<string>,
    groups: seq<string>,
    rest: string)

  datatype Credential = Credential(owner: Account, rest: string)

  datatype CredentialKey = CredentialKey(realm: string, id: string)

  datatype Grant = Grant(permissions: set<string>, enabled: bool, version: nat)

  /** Sessions and challenges matter here only by the account they belong to. */
  datatype Store = Store(
    users: map<Account, User>,
    credentials: map<CredentialKey, Credential>,
    grants: map<Account, Grant>,
    sessions: map<string, Account>,
    challenges: map<string, Account>)

  datatype Error = UserExists | CredentialExists

  // ---------- normal users ----------

  /** `[...new Set(s)]`: every element where it first occurs. */
  function Distinct(s: seq<string>): seq<string> {
    if s == [] then []
    else
      var front, last := s[..|s| - 1], s[|s| - 1];
      Distinct(front) + if last in front then [] else [last]
  }

  predicate NoDuplicates(s: seq<string>) {
    forall i, j :: 0 <= i < j < |s| ==> s[i] != s[j]
  }

  lemma {:induction false} DistinctKeepsElements(s: seq<string>)
    ensures forall x :: x in Distinct(s) <==> x in s
    ensures NoDuplicates(Distinct(s)) && |Distinct(s)| <= |s|
    ensures |Distinct(s)| == |s| <==> NoDuplicates(s)
    ensures NoDuplicates(s) ==> Distinct(s) == s
  {
    if s != [] {
      var front, last := s[..|s| - 1], s[|s| - 1];
      DistinctKeepsElements(front);
      assert s == front + [last];
      if last in front {
        var i :| 0 <= i < |front| && front[i] == last;
        assert s[i] == s[|s| - 1];
      }
      assert NoDuplicates(s) <==> NoDuplicates(front) && last !in front by { DuplicatesOfLast(front, last); }
    }
  }

  /** `s[a]` is the first of its kind. */
  predicate FirstOfKind(s: seq<string>, a: nat) {
    a < |s| && s[a] !in s[..a]
  }

  lemma LongerKeepsFirst(front: seq<string>, last: string, a: nat)
    requires FirstOfKind(front, a)
    ensures FirstOfKind(front + [last], a) && (front + [last])[a] == front[a]
  {
    assert (front + [last])[..a] == front[..a];
  }

  /** The elements stand in the order in which they first occur. */
  lemma {:induction false} DistinctKeepsTheFirsts(s: seq<string>, i: nat, j: nat) returns (a: nat, b: nat)
    requires i < j < |Distinct(s)|
    ensures a < b && FirstOfKind(s, a) && FirstOfKind(s, b) && s[a] == Distinct(s)[i] && s[b] == Distinct(s)[j]
  {
    var front, last := s[..|s| - 1], s[|s| - 1];
    var before := Distinct(front);
    assert s == front + [last] && Distinct(s) == before + if last in front then [] else [last];
    if j < |before| {
      a, b := DistinctKeepsTheFirsts(front, i, j);
      LongerKeepsFirst(front, last, b);
    } else {
      DistinctKeepsElements(front);
      assert before[i] in before;
      a := FirstIndex(front, before[i]);
      b := |front|;
      assert s[..b] == front;
    }
    LongerKeepsFirst(front, last, a);
  }

  lemma {:induction false} FirstIndex(s: seq<string>, x: string) returns (a: nat)
    requires x in s
    ensures FirstOfKind(s, a) && s[a] == x
  {
    var front := s[..|s| - 1];
    if x in front {
      a := FirstIndex(front, x);
      assert front[..a] == s[..a];
    } else {
      a := |s| - 1;
    }
  }

  lemma DuplicatesOfLast(front: seq<string>, last: string)
    ensures NoDuplicates(front + [last]) <==> NoDuplicates(front) && last !in front
  {
    var s := front + [last];
    assert forall i :: 0 <= i < |front| ==> s[i] == front[i];
    if last in front {
      var i :| 0 <= i < |front| && front[i] == last;
      assert s[i] == s[|front|];
    }
    if NoDuplicates(s) {
      assert forall i, j :: 0 <= i < j < |front| ==> s[i] != s[j];
    }
  }

  function Normalize(u: User): User {
    u.(username := Text.Trim(u.username),
       email := Text.Lower(Text.Trim(u.email)),
       name := if Text.Trim(u.name) != "" then Text.Trim(u.name) else Text.Trim(u.username),
       givenName := Text.Trim(u.givenName),
       familyName := Text.Trim(u.familyName),
       roles := Distinct(u.roles),
       groups := Distinct(u.groups))
  }

  predicate Normal(u: User) {
    Normalize(u) == u
  }

  /** The normal form of each field; a name that is blank becomes the username. */
  lemma NormalFields(u: User)
    ensures var n := Normalize(u);
      && n.username == Text.Trim(u.username) && n.email == Text.Lower(Text.Trim(u.email))
      && (Text.Trim(u.name) != "" ==> n.name == Text.Trim(u.name))
      && (Text.Trim(u.name) == "" ==> n.name == n.username)
      && n.givenName == Text.Trim(u.givenName) && n.familyName == Text.Trim(u.familyName)
      && n.roles == Distinct(u.roles) && n.groups == Distinct(u.groups)
      && n.enabled == u.enabled && n.securityVersion == u.securityVersion && n.rest == u.rest
  {
  }

  /** What makes a user its own normal form. */
  lemma NormalIff(u: User)
    ensures Normal(u) <==>
      && Text.Tidy(u.username) && Text.Lower(Text.Trim(u.email)) == u.email
      && Text.Tidy(u.name) && (u.name == "" ==> u.username == "")
      && Text.Tidy(u.givenName) && Text.Tidy(u.familyName)
      && NoDuplicates(u.roles) && NoDuplicates(u.groups)
  {
    Text.TrimIsTidy(u.username);
    Text.TrimIsTidy(u.name);
    Text.TrimIsTidy(u.givenName);
    Text.TrimIsTidy(u.familyName);
    DistinctKeepsElements(u.roles);
    DistinctKeepsElements(u.groups);
  }

  /** Its logins are normal: true of every user in the store, whose other fields a patch may leave as they come. */
  predicate LoginsNormal(u: User) {
    Text.Trim(u.username) == u.username && Text.Lower(Text.Trim(u.email)) == u.email
  }

  lemma NormalizeSettles(u: User)
    ensures Normal(Normalize(u)) && LoginsNormal(Normalize(u))
    ensures LoginsNormal(u) ==> Logins(Normalize(u)) == Logins(u)
  {
    Text.TrimIsTidy(u.username);
    Text.TrimIsTidy(Text.Trim(u.username));
    Text.TrimIsTidy(u.name);
    Text.TrimIsTidy(u.givenName);
    Text.TrimIsTidy(u.familyName);
    Text.FoldSettles(u.email);
    DistinctKeepsElements(u.roles);
    DistinctKeepsElements(u.groups);
    NormalIff(Normalize(u));
  }

  function Logins(u: User): set<string> {
    {Text.Lower(u.username), u.email}
  }

  predicate Answers(users: map<Account, User>, a: Account, realm: string, login: string) {
    a in users && a.realm == realm && Text.Lower(Text.Trim(login)) in Logins(users[a])
  }

  /** Whether a user of the account's realm, other than the account, has one of these logins. */
  predicate Taken(users: map<Account, User>, a: Account, logins: set<string>) {
    exists b :: b in users && b.realm == a.realm && b != a && !(Logins(users[b]) !! logins)
  }

  // ---------- accounts ----------

  function CreateUser(users: map<Account, User>, a: Account, input: User): Result<map<Account, User>, Error> {
    var u := Normalize(input);
    if a in users || Taken(users, a, Logins(u)) then Err(UserExists) else Ok(users[a := u])
  }

  /** The fields of a patch; those it does not have are None. */
  datatype Patch = Patch(
    email: Option<string>,
    name: Option<string>,
    givenName: Option<string>,
    familyName: Option<string>,
    enabled: Option<bool>,
    roles: Option<seq<string>>,
    groups: Option<seq<string>>,
    rest: Option<string>)

  function Or<T>(patched: Option<T>, current: T): T {
    if patched.Some? then patched.value else current
  }

  /** The email is folded; every other field is stored as it comes. */
  function Patched(u: User, p: Patch): User {
    u.(email := if p.email.Some? then Text.Lower(Text.Trim(p.email.value)) else u.email,
       name := Or(p.name, u.name),
       givenName := Or(p.givenName, u.givenName),
       familyName := Or(p.familyName, u.familyName),
       enabled := Or(p.enabled, u.enabled),
       roles := Or(p.roles, u.roles),
       groups := Or(p.groups, u.groups),
       rest := Or(p.rest, u.rest))
  }

  /** An absent account answers null and changes nothing. */
  function UpdateUser(users: map<Account, User>, a: Account, p: Patch): Result<map<Account, User>, Error> {
    if a !in users then Ok(users)
    else if p.email.Some? && Taken(users, a, {Text.Lower(Text.Trim(p.email.value))}) then Err(UserExists)
    else Ok(users[a := Patched(users[a], p)])
  }

  function DeleteUser(s: Store, a: Account): Store {
    if a !in s.users then s
    else Store(
      s.users - {a},
      map k | k in s.credentials && s.credentials[k].owner != a :: s.credentials[k],
      s.grants - {a},
      map k | k in s.sessions && s.sessions[k] != a :: s.sessions[k],
      map k | k in s.challenges && s.challenges[k] != a :: s.challenges[k])
  }

  /** The fields a patch names take its values, the email trimmed and in lower case; the others stay. */
  lemma PatchedFields(u: User, p: Patch)
    ensures var after := Patched(u, p);
      && after.username == u.username && after.securityVersion == u.securityVersion
      && after.email == (match p.email case None => u.email case Some(email) => Text.Lower(Text.Trim(email)))
      && after.name == (match p.name case None => u.name case Some(name) => name)
      && after.givenName == (match p.givenName case None => u.givenName case Some(name) => name)
      && after.familyName == (match p.familyName case None => u.familyName case Some(name) => name)
      && after.enabled == (match p.enabled case None => u.enabled case Some(enabled) => enabled)
      && after.roles == (match p.roles case None => u.roles case Some(roles) => roles)
      && after.groups == (match p.groups case None => u.groups case Some(groups) => groups)
      && after.rest == (match p.rest case None => u.rest case Some(rest) => rest)
  {
  }

  /** No account of the realm but this one has the login as its username, in any case, or as its email. */
  predicate LoginFree(users: map<Account, User>, a: Account, login: string) {
    forall b :: b in users && b.realm == a.realm && b != a ==>
      Text.Lower(users[b].username) != login && users[b].email != login
  }

  /** When a user is created: its id and both its logins are free. It is stored in its normal form, alone. */
  lemma CreateUserIff(users: map<Account, User>, a: Account, input: User)
    ensures var result := CreateUser(users, a, input);
      && (result.Ok? <==>
            && a !in users && LoginFree(users, a, Text.Lower(Text.Trim(input.username)))
            && LoginFree(users, a, Text.Lower(Text.Trim(input.email))))
      && (result.Ok? ==> result.value == users[a := Normalize(input)])
      && (result.Err? ==> result.error == UserExists)
  {
  }

  /** When a user is updated: the new email, if there is one, is free. An absent user is left absent. */
  lemma UpdateUserIff(users: map<Account, User>, a: Account, p: Patch)
    ensures var result := UpdateUser(users, a, p);
      && (result.Ok? <==>
            a in users && p.email.Some? ==> LoginFree(users, a, Text.Lower(Text.Trim(p.email.value))))
      && (result.Ok? ==> result.value == if a in users then users[a := Patched(users[a], p)] else users)
      && (result.Err? ==> result.error == UserExists)
  {
  }

  /** Nothing is added and nothing changed. */
  predicate PartOf<K, V(==)>(after: map<K, V>, before: map<K, V>) {
    forall k :: k in after ==> k in before && after[k] == before[k]
  }

  /** A deletion takes the account and what belongs to it, and nothing of anyone else. */
  lemma DeletionTakesWhatIsOwned(s: Store, a: Account)
    requires a in s.users
    ensures var after := DeleteUser(s, a);
      && (forall b :: b in after.users <==> b in s.users && b != a)
      && (forall b :: b in after.grants <==> b in s.grants && b != a)
      && (forall k :: k in after.credentials <==> k in s.credentials && s.credentials[k].owner != a)
      && (forall k :: k in after.sessions <==> k in s.sessions && s.sessions[k] != a)
      && (forall k :: k in after.challenges <==> k in s.challenges && s.challenges[k] != a)
    ensures var after := DeleteUser(s, a);
      && PartOf(after.users, s.users) && PartOf(after.grants, s.grants) && PartOf(after.credentials, s.credentials)
      && PartOf(after.sessions, s.sessions) && PartOf(after.challenges, s.challenges)
  {
  }

  lemma AbsentUsersAreNotDeleted(s: Store, a: Account)
    requires a !in s.users
    ensures DeleteUser(s, a) == s
  {
  }

  predicate LoginsDiffer(users: map<Account, User>) {
    forall a, b :: a in users && b in users && a.realm == b.realm && a != b ==> Logins(users[a]) !! Logins(users[b])
  }

  predicate Valid(users: map<Account, User>) {
    LoginsDiffer(users) && forall a :: a in users ==> LoginsNormal(users[a])
  }

  datatype Op =
    | Create(account: Account, input: User)
    | Update(account: Account, patch: Patch)
    | Delete(account: Account)
    | Touch(account: Account, securityVersion: nat, rest: string)
    | Restore(account: Account, input: User)

  /** `Touch` is any operation that assigns neither username nor email; `Restore` is `restoreUser`. */
  function Apply(users: map<Account, User>, op: Op): map<Account, User> {
    match op
    case Create(a, u) => if CreateUser(users, a, u).Ok? then CreateUser(users, a, u).value else users
    case Update(a, p) => if UpdateUser(users, a, p).Ok? then UpdateUser(users, a, p).value else users
    case Delete(a) => users - {a}
    case Touch(a, version, rest) =>
      if a in users then users[a := users[a].(securityVersion := version, rest := rest)] else users
    case Restore(a, u) => users[a := Normalize(u)]
  }

  function Run(users: map<Account, User>, ops: seq<Op>): map<Account, User>
    decreases |ops|
  {
    if ops == [] then users else Run(Apply(users, ops[0]), ops[1..])
  }

  lemma WriteKeepsValidIff(users: map<Account, User>, a: Account, u: User)
    requires Valid(users) && LoginsNormal(u)
    ensures Valid(users[a := u]) <==> !Taken(users, a, Logins(u))
  {
    var after := users[a := u];
    if Taken(users, a, Logins(u)) {
      var b :| b in users && b.realm == a.realm && b != a && !(Logins(users[b]) !! Logins(u));
      assert after[b] == users[b] && after[a] == u;
    } else {
      forall b | b in users && b.realm == a.realm && b != a ensures Logins(users[b]) !! Logins(u) {}
    }
  }

  /** `restoreUser` checks nothing: it keeps logins apart exactly when no other account has taken one meanwhile. */
  lemma RestoreKeepsLoginsApartIff(users: map<Account, User>, a: Account, u: User)
    requires Valid(users)
    ensures Valid(Apply(users, Restore(a, u))) <==> !Taken(users, a, Logins(Normalize(u)))
  {
    NormalizeSettles(u);
    WriteKeepsValidIff(users, a, Normalize(u));
  }

  lemma UpdateKeepsValid(users: map<Account, User>, a: Account, p: Patch)
    requires Valid(users) && UpdateUser(users, a, p).Ok?
    ensures Valid(UpdateUser(users, a, p).value)
  {
    if a in users {
      var u := Patched(users[a], p);
      if p.email.Some? { Text.FoldSettles(p.email.value); }
      forall b | b in users && b.realm == a.realm && b != a ensures Logins(users[b]) !! Logins(u) {
        assert Logins(users[b]) !! Logins(users[a]);
        assert p.email.Some? ==> Logins(users[b]) !! {u.email};
      }
      WriteKeepsValidIff(users, a, u);
    }
  }

  lemma ApplyKeepsValid(users: map<Account, User>, op: Op)
    requires Valid(users)
    requires op.Restore? ==> !Taken(users, op.account, Logins(Normalize(op.input)))
    ensures Valid(Apply(users, op))
  {
    match op
    case Create(a, u) =>
      NormalizeSettles(u);
      WriteKeepsValidIff(users, a, Normalize(u));
    case Update(a, p) => if UpdateUser(users, a, p).Ok? { UpdateKeepsValid(users, a, p); }
    case Delete(a) =>
    case Touch(a, version, rest) =>
      if a in users {
        var u := users[a].(securityVersion := version, rest := rest);
        assert Logins(u) == Logins(users[a]);
        WriteKeepsValidIff(users, a, u);
      }
    case Restore(a, u) => RestoreKeepsLoginsApartIff(users, a, u);
  }

  /** No `restoreUser` brings back a login another account has taken since. */
  predicate SafeRun(users: map<Account, User>, ops: seq<Op>)
    decreases |ops|
  {
    ops == [] ||
    ((ops[0].Restore? ==> !Taken(users, ops[0].account, Logins(Normalize(ops[0].input)))) &&
      SafeRun(Apply(users, ops[0]), ops[1..]))
  }

  lemma {:induction false} RunKeepsValid(users: map<Account, User>, ops: seq<Op>)
    requires Valid(users) && SafeRun(users, ops)
    ensures Valid(Run(users, ops))
    decreases |ops|
  {
    if ops != [] {
      ApplyKeepsValid(users, ops[0]);
      RunKeepsValid(Apply(users, ops[0]), ops[1..]);
    }
  }

  /**
   After every such run a login names at most one account of its realm: usernames and email
   addresses are kept apart across both columns, in any case and with any white space around.
   */
  lemma LoginsNameOneAccount(ops: seq<Op>, a: Account, b: Account, realm: string, login: string)
    requires SafeRun(map[], ops)
    requires Answers(Run(map[], ops), a, realm, login) && Answers(Run(map[], ops), b, realm, login)
    ensures a == b
  {
    RunKeepsValid(map[], ops);
  }

  /** A user that was created can be found by its username and by its email, however they are typed. */
  lemma CreatedUsersAreFound(ops: seq<Op>, a: Account, input: User, login: string)
    requires SafeRun(map[], ops) && CreateUser(Run(map[], ops), a, input).Ok?
    requires Text.Lower(Text.Trim(login)) in {Text.Lower(Text.Trim(input.username)), Text.Lower(Text.Trim(input.email))}
    ensures var users := CreateUser(Run(map[], ops), a, input).value;
      Answers(users, a, a.realm, login) && forall b :: Answers(users, b, a.realm, login) ==> b == a
  {
    RunKeepsValid(map[], ops);
    ApplyKeepsValid(Run(map[], ops), Create(a, input));
  }

  const CLASHING_RUN: seq<Op> := [
    Create(ALICE, BEFORE),
    Update(ALICE, Patch(Some("y"), None, None, None, None, None, None, None)),
    Create(BOB, OTHER),
    Restore(ALICE, BEFORE) ]

  lemma LettersFold()
    ensures Text.Lower("a") == "a" && Text.Lower("b") == "b" && Text.Lower("x") == "x" && Text.Lower("y") == "y"
    ensures Text.Trim("a") == "a" && Text.Trim("b") == "b" && Text.Trim("x") == "x" && Text.Trim("y") == "y"
    ensures Text.Trim("") == "" && Distinct([]) == []
  {
    assert "a"[1..] == "b"[1..] == "x"[1..] == "y"[1..] == "";
  }

  const ALICE := Account("r", "a")
  const BOB := Account("r", "b")
  const BEFORE := User("a", "x", "a", "", "", true, 0, [], [], "")
  const MOVED := User("a", "y", "a", "", "", true, 0, [], [], "")
  const OTHER := User("b", "x", "b", "", "", true, 0, [], [], "")

  lemma AddressChangesHands()
    ensures Run(map[], CLASHING_RUN[..3]) == map[ALICE := MOVED, BOB := OTHER]
    ensures Valid(map[ALICE := MOVED, BOB := OTHER])
  {
    LettersFold();
    var ops := CLASHING_RUN[..3];
    assert !Taken(map[], ALICE, Logins(BEFORE));
    var u1 := map[ALICE := BEFORE];
    assert Apply(map[], ops[0]) == u1;
    assert !Taken(u1, ALICE, {"y"});
    var u2 := map[ALICE := MOVED];
    assert Apply(u1, ops[1]) == u2;
    assert Logins(MOVED) == {"a", "y"} && Logins(OTHER) == {"b", "x"};
    assert !Taken(u2, BOB, Logins(OTHER));
    assert Apply(u2, ops[2]) == u2[BOB := OTHER];
    RunThree(ops);
  }

  /** Alice gives up an address, Bob takes it, and a rollback brings it back to Alice. */
  lemma RestoredLoginsCanClash()
    ensures Valid(Run(map[], CLASHING_RUN[..3])) && !Valid(Run(map[], CLASHING_RUN))
  {
    AddressChangesHands();
    LettersFold();
    var users := map[ALICE := MOVED, BOB := OTHER];
    assert "x" in Logins(users[BOB]) && "x" in Logins(Normalize(BEFORE));
    assert Taken(users, ALICE, Logins(Normalize(BEFORE)));
    RestoreKeepsLoginsApartIff(users, ALICE, BEFORE);
    RunAppends(map[], CLASHING_RUN[..3], CLASHING_RUN[3]);
    assert CLASHING_RUN == CLASHING_RUN[..3] + [CLASHING_RUN[3]];
  }

  lemma RunThree(ops: seq<Op>)
    requires |ops| == 3
    ensures Run(map[], ops) == Apply(Apply(Apply(map[], ops[0]), ops[1]), ops[2])
  {
    assert ops[1..][1..] == [ops[2]] && [ops[2]][1..] == [];
    assert Run(Apply(Apply(map[], ops[0]), ops[1]), [ops[2]]) == Apply(Apply(Apply(map[], ops[0]), ops[1]), ops[2]);
  }

  lemma {:induction false} RunAppends(users: map<Account, User>, ops: seq<Op>, op: Op)
    ensures Run(users, ops + [op]) == Apply(Run(users, ops), op)
    decreases |ops|
  {
    if ops == [] {
      assert ops + [op] == [op] && [op][1..] == [];
    } else {
      assert (ops + [op])[1..] == ops[1..] + [op];
      RunAppends(Apply(users, ops[0]), ops[1..], op);
    }
  }

  // ---------- passkeys put back ----------

  type Credentials = map<CredentialKey, Credential>

  /** Passkeys in the order in which they are listed, and so put back. */
  type Listing = seq<(CredentialKey, Credential)>

  function CredentialsOf(credentials: Credentials, a: Account): Credentials {
    map k | k in credentials && credentials[k].owner == a :: credentials[k]
  }

  function CredentialsOfOthers(credentials: Credentials, a: Account): Credentials {
    map k | k in credentials && credentials[k].owner != a :: credentials[k]
  }

  function AsMap(listing: Listing): Credentials {
    if listing == [] then map[]
    else AsMap(listing[..|listing| - 1])[listing[|listing| - 1].0 := listing[|listing| - 1].1]
  }

  /** A listing of passkeys of one account: each key once. */
  predicate ListingOf(listing: Listing, a: Account) {
    && (forall i :: 0 <= i < |listing| ==> listing[i].1.owner == a)
    && (forall i, j :: 0 <= i < j < |listing| ==> listing[i].0 != listing[j].0)
  }

  lemma {:induction false} AsMapKeys(listing: Listing)
    ensures AsMap(listing).Keys == set i | 0 <= i < |listing| :: listing[i].0
  {
    if listing != [] {
      var front, last := listing[..|listing| - 1], listing[|listing| - 1];
      AsMapKeys(front);
      assert forall i :: 0 <= i < |front| ==> front[i] == listing[i];
      assert (set i | 0 <= i < |listing| :: listing[i].0) == (set i | 0 <= i < |front| :: front[i].0) + {last.0};
    }
  }

  lemma {:induction false} AsMapOwners(listing: Listing, a: Account)
    requires forall i :: 0 <= i < |listing| ==> listing[i].1.owner == a
    ensures forall k :: k in AsMap(listing) ==> AsMap(listing)[k].owner == a
  {
    if listing != [] { AsMapOwners(listing[..|listing| - 1], a); }
  }

  /** How many passkeys are put back before one meets a key somebody else has registered. */
  function Fitting(others: Credentials, listing: Listing): (n: nat)
    ensures n <= |listing|
    ensures forall i :: 0 <= i < n ==> listing[i].0 !in others
    ensures n < |listing| ==> listing[n].0 in others
  {
    if listing == [] || listing[0].0 in others then 0 else 1 + Fitting(others, listing[1..])
  }

  /** The passkeys after `restoreMemoryWebAuthnCredentials`, which throws at the first key that is taken. */
  function PasskeysPutBack(credentials: Credentials, a: Account, listing: Listing): Credentials {
    CredentialsOfOthers(credentials, a) + AsMap(listing[..Fitting(CredentialsOfOthers(credentials, a), listing)])
  }

  lemma PutBackIsOwn(credentials: Credentials, a: Account, listing: Listing)
    requires ListingOf(listing, a)
    ensures var others := CredentialsOfOthers(credentials, a);
      var after := PasskeysPutBack(credentials, a, listing);
      CredentialsOfOthers(after, a) == others && CredentialsOf(after, a) == AsMap(listing[..Fitting(others, listing)])
  {
    var others := CredentialsOfOthers(credentials, a);
    var part := listing[..Fitting(others, listing)];
    AsMapKeys(part);
    AsMapOwners(part, a);
    forall k | k in AsMap(part) ensures k !in others { assert k in AsMap(part).Keys; }
    UnionSplits(others, AsMap(part), a);
  }

  lemma UnionSplits(others: Credentials, own: Credentials, a: Account)
    requires others == CredentialsOfOthers(others, a) && own == CredentialsOf(own, a) && others.Keys !! own.Keys
    ensures CredentialsOfOthers(others + own, a) == others && CredentialsOf(others + own, a) == own
  {
  }

  lemma PrefixLacksNext(listing: Listing, a: Account, n: nat)
    requires ListingOf(listing, a) && n < |listing|
    ensures listing[n].0 in AsMap(listing) && listing[n].0 !in AsMap(listing[..n])
  {
    AsMapKeys(listing);
    AsMapKeys(listing[..n]);
    assert forall i :: 0 <= i < n ==> listing[..n][i] == listing[i];
  }

  /** All of them come back exactly when nobody else holds one of their keys; nobody else ever loses one. */
  lemma PasskeysComeBackIff(credentials: Credentials, a: Account, listing: Listing)
    requires ListingOf(listing, a)
    ensures var after := PasskeysPutBack(credentials, a, listing);
      && CredentialsOfOthers(after, a) == CredentialsOfOthers(credentials, a)
      && (CredentialsOf(after, a) == AsMap(listing) <==>
            forall i :: 0 <= i < |listing| ==> listing[i].0 !in CredentialsOfOthers(credentials, a))
  {
    PutBackIsOwn(credentials, a, listing);
    var n := Fitting(CredentialsOfOthers(credentials, a), listing);
    if n < |listing| { PrefixLacksNext(listing, a, n); } else { assert listing[..n] == listing; }
  }

  // ---------- what a failed operation puts back ----------

  /** The store after `restoreUser` and the passkeys of a listing. */
  function PutBack(s: Store, a: Account, user: User, listing: Listing): Store {
    s.(users := s.users[a := Normalize(user)], credentials := PasskeysPutBack(s.credentials, a, listing))
  }

  /** The callback of a mutation of account `a` reached no other account and no session or challenge. */
  predicate ConfinedTo(before: Store, after: Store, a: Account) {
    && after.users - {a} == before.users - {a}
    && CredentialsOfOthers(after.credentials, a) == CredentialsOfOthers(before.credentials, a)
    && after.grants - {a} == before.grants - {a}
    && after.sessions == before.sessions && after.challenges == before.challenges
  }

  lemma SplitCredentials(credentials: Credentials, a: Account)
    ensures CredentialsOfOthers(credentials, a) + CredentialsOf(credentials, a) == credentials
  {
  }

  lemma FittingIsAll(credentials: Credentials, a: Account, listing: Listing)
    requires AsMap(listing) == CredentialsOf(credentials, a)
    ensures Fitting(CredentialsOfOthers(credentials, a), listing) == |listing|
  {
    AsMapKeys(listing);
    forall i | 0 <= i < |listing| ensures listing[i].0 !in CredentialsOfOthers(credentials, a) {
      assert listing[i].0 in AsMap(listing).Keys;
    }
  }

  lemma OwnListingFits(credentials: Credentials, others: Credentials, a: Account, listing: Listing)
    requires AsMap(listing) == CredentialsOf(credentials, a)
    requires CredentialsOfOthers(others, a) == CredentialsOfOthers(credentials, a)
    ensures PasskeysPutBack(others, a, listing) == credentials
  {
    FittingIsAll(credentials, a, listing);
    assert listing[..|listing|] == listing;
    SplitCredentials(credentials, a);
  }

  /**
   A mutation whose callback throws leaves everyone else as they were, the account's passkeys too,
   whatever it had done to the account, and the account itself in its normal form. The
   administrator grant is not put back. So the store is the old one if and only if the account was
   normal before and the callback left the grant alone.
   */
  lemma FailedMutationIsUndone(before: Store, after: Store, a: Account, listing: Listing)
    requires a in before.users && ConfinedTo(before, after, a)
    requires ListingOf(listing, a) && AsMap(listing) == CredentialsOf(before.credentials, a)
    ensures var restored := PutBack(after, a, before.users[a], listing);
      && restored == before.(users := before.users[a := Normalize(before.users[a])], grants := after.grants)
      && (restored == before <==> Normal(before.users[a]) && after.grants == before.grants)
  {
    OwnListingFits(before.credentials, after.credentials, a, listing);
    var restored := PutBack(after, a, before.users[a], listing);
    var expected := before.users[a := Normalize(before.users[a])];
    forall b ensures b in restored.users <==> b in expected {
      assert b != a ==> (b in after.users - {a} <==> b in before.users - {a});
    }
    forall b | b in expected ensures restored.users[b] == expected[b] {
      if b != a {
        assert b in before.users - {a};
        assert (after.users - {a})[b] == (before.users - {a})[b];
      }
    }
    assert restored.users == expected;
    assert expected == before.users <==> Normal(before.users[a]);
  }

  /**
   A patch stores a role twice; another one, which also asks for somebody else's address, throws;
   and the account comes back with the role once.
   */
  lemma DuplicateRolesAreNotPutBack(users: map<Account, User>, a: Account, b: Account)
    requires Valid(users) && a in users && b in users && a.realm == b.realm && a != b
    ensures var twice := Patch(None, None, None, None, None, Some(["a", "a"]), None, None);
      var taken := Patch(Some(users[b].email), None, None, None, None, None, None, None);
      var before := Store(UpdateUser(users, a, twice).value, map[], map[], map[], map[]);
      && before.users[a].roles == ["a", "a"]
      && UpdateUser(before.users, a, taken) == Err(UserExists)
      && PutBack(before, a, before.users[a], []).users[a].roles == ["a"]
  {
    assert ["a", "a"][..1] == ["a"] && ["a"][..0] == [];
    assert Distinct(["a"]) == ["a"];
    assert "a" in ["a"];
    assert LoginsNormal(users[b]) && users[b].email in Logins(users[b]);
  }

  /** What `deleteAccount` puts back when its audit record cannot be written: all of it, or some and an error. */
  function UndoDeletion(s: Store, a: Account, user: User, grant: Option<Grant>, listing: Listing)
    : (Store, Option<Error>)
  {
    match CreateUser(s.users, a, user)
    case Err(e) => (s, Some(e))
    case Ok(users) =>
      var fit := Fitting(CredentialsOfOthers(s.credentials, a), listing) == |listing|;
      (s.(users := users,
          grants := if grant.Some? then s.grants[a := grant.value] else s.grants,
          credentials := PasskeysPutBack(s.credentials, a, listing)),
       if fit then None else Some(CredentialExists))
  }

  /**
   Whatever other calls have done since the deletion, the account, its grant and all its passkeys
   come back exactly when its id is free, no account of the realm has its username or its email
   address, in either column, and no other account has one of the keys of its passkeys.
   */
  lemma DeletedAccountComesBackIff(meanwhile: Store, a: Account, user: User, grant: Option<Grant>, listing: Listing)
    requires LoginsNormal(user) && ListingOf(listing, a)
    ensures var (after, error) := UndoDeletion(meanwhile, a, user, grant, listing);
      && (error.None? <==>
            && a !in meanwhile.users
            && (forall b :: b in meanwhile.users && b.realm == a.realm ==>
                  Logins(meanwhile.users[b]) !! {Text.Lower(user.username), user.email})
            && forall i :: 0 <= i < |listing| ==> listing[i].0 !in CredentialsOfOthers(meanwhile.credentials, a))
      && (error.None? ==>
            && after.users == meanwhile.users[a := Normalize(user)]
            && (grant.Some? ==> a in after.grants && after.grants[a] == grant.value)
            && CredentialsOf(after.credentials, a) == AsMap(listing)
            && CredentialsOfOthers(after.credentials, a) == CredentialsOfOthers(meanwhile.credentials, a))
  {
    NormalizeSettles(user);
    PasskeysComeBackIff(meanwhile.credentials, a, listing);
  }

  /** The passkeys of the listing before the first whose key another account holds; all, if none is held. */
  predicate FirstHeld(others: Credentials, listing: Listing, n: nat) {
    && n <= |listing|
    && (forall i :: 0 <= i < n ==> listing[i].0 !in others)
    && (n < |listing| ==> listing[n].0 in others)
  }

  /**
   What an undo that fails has put back by then: nothing if the user could not be created, and else
   the user, its grant and the passkeys before the first whose key another account holds.
   */
  lemma FailedUndoStopsThere(meanwhile: Store, a: Account, user: User, grant: Option<Grant>, listing: Listing, n: nat)
    requires FirstHeld(CredentialsOfOthers(meanwhile.credentials, a), listing, n)
    ensures var (after, error) := UndoDeletion(meanwhile, a, user, grant, listing);
      && (error == Some(UserExists) <==> CreateUser(meanwhile.users, a, user).Err?)
      && (error == Some(UserExists) ==> after == meanwhile)
      && (error != Some(UserExists) ==>
            && after.users == meanwhile.users[a := Normalize(user)]
            && after.grants == (match grant case None => meanwhile.grants case Some(g) => meanwhile.grants[a := g])
            && after.credentials == CredentialsOfOthers(meanwhile.credentials, a) + AsMap(listing[..n])
            && after.sessions == meanwhile.sessions && after.challenges == meanwhile.challenges
            && error == if n == |listing| then None else Some(CredentialExists))
  {
    FirstHeldIsFitting(CredentialsOfOthers(meanwhile.credentials, a), listing, n);
  }

  lemma {:induction false} FirstHeldIsFitting(others: Credentials, listing: Listing, n: nat)
    requires FirstHeld(others, listing, n)
    ensures Fitting(others, listing) == n
  {
  }

  /** A listing, written down, holds exactly its passkeys. */
  lemma {:induction false} AsMapHolds(listing: Listing, a: Account)
    requires ListingOf(listing, a)
    ensures forall i :: 0 <= i < |listing| ==>
      listing[i].0 in AsMap(listing) && AsMap(listing)[listing[i].0] == listing[i].1
  {
    if listing != [] {
      var n := |listing| - 1;
      AsMapHolds(listing[..n], a);
      assert forall i :: 0 <= i < n ==> listing[..n][i] == listing[i];
    }
  }

  function GrantOf(s: Store, a: Account): Option<Grant> {
    if a in s.grants then Some(s.grants[a]) else None
  }

  /** `deleteAccount` when its audit record cannot be written, with nothing else in between. */
  function FailedDeletion(s: Store, a: Account, listing: Listing): (Store, Option<Error>)
    requires a in s.users
  {
    UndoDeletion(DeleteUser(s, a), a, s.users[a], GrantOf(s, a), listing)
  }

  lemma DeletedUserFits(users: map<Account, User>, a: Account)
    requires Valid(users) && a in users
    ensures CreateUser(users - {a}, a, users[a]) == Ok(users[a := Normalize(users[a])])
  {
    var rest := users - {a};
    NormalizeSettles(users[a]);
    forall b | b in rest && b.realm == a.realm ensures Logins(rest[b]) !! Logins(users[a]) {
      assert b in users && b != a;
    }
    assert rest[a := Normalize(users[a])] == users[a := Normalize(users[a])];
  }

  /**
   The account comes back in its normal form, with its grant and its passkeys; its sessions and
   challenges do not. Sessions and challenges aside the store is the old one if and only if the
   account was normal.
   */
  lemma FailedDeletionIsUndone(s: Store, a: Account, listing: Listing)
    requires Valid(s.users) && a in s.users
    requires ListingOf(listing, a) && AsMap(listing) == CredentialsOf(s.credentials, a)
    ensures var gone := DeleteUser(s, a);
      && FailedDeletion(s, a, listing) ==
           (s.(users := s.users[a := Normalize(s.users[a])],
               sessions := gone.sessions, challenges := gone.challenges), None)
      && (FailedDeletion(s, a, listing).0 == s.(sessions := gone.sessions, challenges := gone.challenges) <==>
        Normal(s.users[a]))
  {
    DeletedUserFits(s.users, a);
    var gone := DeleteUser(s, a);
    assert CredentialsOfOthers(gone.credentials, a) == gone.credentials == CredentialsOfOthers(s.credentials, a);
    OwnListingFits(s.credentials, gone.credentials, a, listing);
    FittingIsAll(s.credentials, a, listing);
    assert (if a in s.grants then gone.grants[a := s.grants[a]] else gone.grants) == s.grants;
    assert s.users[a := Normalize(s.users[a])] == s.users <==> Normal(s.users[a]);
  }

  lemma OneMorePutBack(others: Credentials, listing: Listing, i: nat)
    requires i < |listing|
    ensures others + AsMap(listing[..i + 1]) == (others + AsMap(listing[..i]))[listing[i].0 := listing[i].1]
  {
    assert listing[..i + 1][..i] == listing[..i] && listing[..i + 1][i] == listing[i];
  }

  // ---------- the store and the data layer ----------

  class MemoryIdentityStore {
    var s: Store

    constructor ()
      ensures s == Store(map[], map[], map[], map[], map[])
    {
      s := Store(map[], map[], map[], map[], map[]);
    }

    /** The search `createUser` makes before it writes. */
    method LoginFree(a: Account, logins: set<string>) returns (free: bool)
      ensures free <==> !Taken(s.users, a, logins)
    {
      var todo := s.users.Keys;
      while todo != {}
        invariant todo <= s.users.Keys
        invariant forall b :: b in s.users && b !in todo && b.realm == a.realm && b != a ==>
          Logins(s.users[b]) !! logins
      {
        var b :| b in todo;
        todo := todo - {b};
        if b.realm == a.realm && b != a && !(Logins(s.users[b]) !! logins) { return false; }
      }
      return true;
    }

    method Insert(a: Account, input: User) returns (error: Option<Error>)
      modifies this
      ensures match CreateUser(old(s).users, a, input)
        case Err(e) => error == Some(e) && s == old(s)
        case Ok(users) => error.None? && s == old(s).(users := users)
    {
      var u := Normalize(input);
      if a in s.users { return Some(UserExists); }
      var free := LoginFree(a, Logins(u));
      if !free { return Some(UserExists); }
      s := s.(users := s.users[a := u]);
      return None;
    }

    /** The first match in whatever order the users are kept: the only one while logins differ. */
    method FindUserByLogin(realm: string, login: string) returns (found: Option<Account>)
      ensures found.Some? ==> Answers(s.users, found.value, realm, login)
      ensures found.None? ==> forall a :: !Answers(s.users, a, realm, login)
      ensures Valid(s.users) ==> forall a :: Answers(s.users, a, realm, login) ==> found == Some(a)
    {
      var todo := s.users.Keys;
      while todo != {}
        invariant todo <= s.users.Keys
        invariant forall a :: a in s.users && a !in todo ==> !Answers(s.users, a, realm, login)
      {
        var a :| a in todo;
        todo := todo - {a};
        if Answers(s.users, a, realm, login) { return Some(a); }
      }
      return None;
    }

    /** One delete loop over a map of things that belong to accounts. */
    method Purge(owned: map<string, Account>, a: Account) returns (left: map<string, Account>)
      ensures left == map k | k in owned && owned[k] != a :: owned[k]
    {
      left := owned;
      var todo := owned.Keys;
      while todo != {}
        invariant todo <= owned.Keys
        invariant left.Keys <= owned.Keys && forall k :: k in left ==> left[k] == owned[k]
        invariant forall k :: k in owned ==> (k in left <==> k in todo || owned[k] != a)
      {
        var k :| k in todo;
        todo := todo - {k};
        if owned[k] == a { left := left - {k}; }
      }
    }

    method PurgeCredentials(a: Account)
      modifies this
      ensures s == old(s).(credentials := CredentialsOfOthers(old(s).credentials, a))
    {
      var owned := s.credentials;
      var left := owned;
      var todo := owned.Keys;
      while todo != {}
        invariant s == old(s) && todo <= owned.Keys
        invariant left.Keys <= owned.Keys && forall k :: k in left ==> left[k] == owned[k]
        invariant forall k :: k in owned ==> (k in left <==> k in todo || owned[k].owner != a)
      {
        var k :| k in todo;
        todo := todo - {k};
        if owned[k].owner == a { left := left - {k}; }
      }
      assert left == CredentialsOfOthers(owned, a);
      s := s.(credentials := left);
    }

    method Delete(a: Account) returns (found: bool)
      modifies this
      ensures s == DeleteUser(old(s), a) && (found <==> a in old(s).users)
    {
      if a !in s.users { return false; }
      s := s.(users := s.users - {a}, grants := s.grants - {a});
      var sessions := Purge(s.sessions, a);
      PurgeCredentials(a);
      var challenges := Purge(s.challenges, a);
      s := s.(sessions := sessions, challenges := challenges);
      return true;
    }

    /** `createWebAuthnCredential`; false is its null for an absent user. */
    method CreateCredential(key: CredentialKey, c: Credential) returns (r: Result<bool, Error>)
      modifies this
      ensures c.owner !in old(s).users ==> r == Ok(false) && s == old(s)
      ensures c.owner in old(s).users && key in old(s).credentials ==> r == Err(CredentialExists) && s == old(s)
      ensures c.owner in old(s).users && key !in old(s).credentials ==>
        r == Ok(true) && s == old(s).(credentials := old(s).credentials[key := c])
    {
      if c.owner !in s.users { return Ok(false); }
      if key in s.credentials { return Err(CredentialExists); }
      s := s.(credentials := s.credentials[key := c]);
      return Ok(true);
    }

    /** Writes a listing passkey by passkey, until a key is taken. */
    method Recreate(a: Account, listing: Listing) returns (error: Option<Error>)
      requires a in s.users && ListingOf(listing, a)
      modifies this
      ensures var n := Fitting(old(s).credentials, listing);
        && s == old(s).(credentials := old(s).credentials + AsMap(listing[..n]))
        && error == if n == |listing| then None else Some(CredentialExists)
    {
      ghost var n := Fitting(s.credentials, listing);
      for i := 0 to |listing|
        invariant i <= n
        invariant s == old(s).(credentials := old(s).credentials + AsMap(listing[..i]))
      {
        PrefixLacksNext(listing, a, i);
        OneMorePutBack(old(s).credentials, listing, i);
        var r := CreateCredential(listing[i].0, listing[i].1);
        if r.Err? { return Some(r.error); }
      }
      return None;
    }

    /** `restoreMemoryWebAuthnCredentials`: drop what the account has, write the snapshot again. */
    method RestoreCredentials(a: Account, listing: Listing) returns (error: Option<Error>)
      requires a in s.users && ListingOf(listing, a)
      modifies this
      ensures s == old(s).(credentials := PasskeysPutBack(old(s).credentials, a, listing))
      ensures error.None? <==> forall i :: 0 <= i < |listing| ==>
        listing[i].0 !in CredentialsOfOthers(old(s).credentials, a)
      ensures error.Some? ==> error == Some(CredentialExists)
    {
      PurgeCredentials(a);
      error := Recreate(a, listing);
    }

    /** What `mutateAccountSecurity` does when the callback has thrown. */
    method UndoMutation(a: Account, current: User, listing: Listing) returns (error: Option<Error>)
      requires ListingOf(listing, a)
      modifies this
      ensures s == PutBack(old(s), a, current, listing)
      ensures error.None? <==> forall i :: 0 <= i < |listing| ==>
        listing[i].0 !in CredentialsOfOthers(old(s).credentials, a)
    {
      s := s.(users := s.users[a := Normalize(current)]);
      error := RestoreCredentials(a, listing);
    }

    /** What `deleteAccount` does after its audit record could not be written. */
    method UndoDelete(a: Account, user: User, grant: Option<Grant>, listing: Listing) returns (error: Option<Error>)
      requires ListingOf(listing, a)
      modifies this
      ensures (s, error) == UndoDeletion(old(s), a, user, grant, listing)
    {
      error := Insert(a, user);
      if error.Some? { return; }
      if grant.Some? { s := s.(grants := s.grants[a := grant.value]); }
      error := RestoreCredentials(a, listing);
    }

    /** A whole deletion whose audit record cannot be written. */
    method DeleteAndUndo(a: Account, listing: Listing) returns (error: Option<Error>)
      requires a in s.users && ListingOf(listing, a)
      modifies this
      ensures (s, error) == FailedDeletion(old(s), a, listing)
    {
      var user := s.users[a];
      var grant := if a in s.grants then Some(s.grants[a]) else None;
      var found := Delete(a);
      error := UndoDelete(a, user, grant, listing);
    }
  }
}
