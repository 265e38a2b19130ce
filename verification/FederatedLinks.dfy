/** The in-memory federated-identity repository. */
module FederatedLinks {
  import opened Wrappers
  import opened Accounts
  import opened KeyedLock

  // `resolve` and `link` calls run under the keyed lock and are cut at every await, with
  // `unlink` and changes to the user store in between.
  //
  // A login name stands for its normalised form (trimmed, lower case). Timestamps of a link are
  // readings of one clock.

  /** An empty `email` is an absent one. */
  datatype Profile = Profile(username: string, email: string)

  datatype User = User(enabled: bool, logins: set<string>)

  datatype StoredLink = StoredLink(
    userId: string,
    profile: Profile,
    createdAt: nat,
    updatedAt: nat,
    lastLoginAt: Option<nat>)

  datatype Request =
    | ResolveRequest(identity: Key, profile: Profile, allowCreate: bool)
    | LinkRequest(identity: Key, userId: string, profile: Profile)

  datatype Outcome =
    | Resolved(userId: string)
    | Disabled(userId: string)
    | NotFound
    | LinkRequired(userId: string)
    | Created(userId: string)
    | Linked
    | Conflict
    | Threw

  /** Where an operation stands; `Saw...` holds the answer of the await it is suspended at. */
  datatype Progress =
    | Queued
    | SawUser(userId: string, user: Option<User>)
    | SawUsername(hit: Option<string>, retry: bool)
    | SawEmail(hit: Option<string>, retry: bool)
    | SawCreation(userId: string)
    | SawExists
    | Finished(outcome: Outcome)

  datatype Op = Op(request: Request, progress: Progress)

  /** `ops[i]` is the operation of lock call `i`; `known` holds every account there ever was. */
  datatype World = World(
    lock: Lock,
    ops: seq<Op>,
    links: map<Key, StoredLink>,
    users: map<Account, User>,
    known: set<Account>,
    now: nat)

  const Initial := World(Unlocked, [], map[], map[], {}, 0)

  datatype Event =
    | Begin(request: Request)
    | Enter(call: nat)
    | Resume(call: nat, freshId: string, fails: bool)
    | Leave(call: nat)
    | Unlink(choice: Key, realm: string, userId: string, providerId: string, issuer: string)
    | AddUser(account: Account, user: User)
    | ChangeUser(account: Account, enabled: bool, logins: set<string>)
    | RemoveUser(account: Account)
    | RestoreUser(account: Account, user: User)
    | Advance(milliseconds: nat)

  predicate HasLogin(users: map<Account, User>, realm: string, login: string, id: string) {
    Account(realm, id) in users && login in users[Account(realm, id)].logins
  }

  ghost function FindByLogin(users: map<Account, User>, realm: string, login: string): Option<string> {
    if exists id :: HasLogin(users, realm, login, id) then
      var id :| HasLogin(users, realm, login, id);
      Some(id)
    else None
  }

  function FindById(users: map<Account, User>, realm: string, id: string): Option<User> {
    if Account(realm, id) in users then Some(users[Account(realm, id)]) else None
  }

  predicate Hex(c: char) {
    '0' <= c <= '9' || 'a' <= c <= 'f' || 'A' <= c <= 'F'
  }

  /** The user ids `link` accepts. */
  predicate Uuid(s: string) {
    && |s| == 36
    && s[8] == s[13] == s[18] == s[23] == '-'
    && '1' <= s[14] <= '8' && s[19] in {'8', '9', 'a', 'b', 'A', 'B'}
    && forall i :: 0 <= i < 36 && i !in {8, 13, 18, 23} ==> Hex(s[i])
  }

  function UserKey(r: Request): Key
    requires r.LinkRequest? && r.identity.Identity?
  {
    UserProvider(r.identity.realm, r.userId, r.identity.providerId, r.identity.issuer)
  }

  /** Whether `link` ties a user to the provider and issuer of identity `k`. */
  predicate Ties(k: Key, link: StoredLink, realm: string, userId: string, providerId: string, issuer: string) {
    k.Identity? && k.realm == realm && link.userId == userId && k.providerId == providerId && k.issuer == issuer
  }

  ghost predicate HasTie(links: map<Key, StoredLink>, realm: string, userId: string, providerId: string,
                         issuer: string) {
    exists k :: k in links && Ties(k, links[k], realm, userId, providerId, issuer)
  }

  function Progressed(w: World, i: nat, p: Progress): World
    requires i < |w.ops|
  {
    w.(ops := w.ops[i := w.ops[i].(progress := p)])
  }

  // ---------- the segments of resolve ----------

  ghost function LookUpUsername(w: World, i: nat, retry: bool): World
    requires i < |w.ops| && w.ops[i].request.ResolveRequest? && w.ops[i].request.identity.Identity?
  {
    var r := w.ops[i].request;
    Progressed(w, i, SawUsername(FindByLogin(w.users, r.identity.realm, r.profile.username), retry))
  }

  ghost function WithoutLink(w: World, i: nat): World
    requires i < |w.ops| && w.ops[i].request.ResolveRequest? && w.ops[i].request.identity.Identity?
  {
    if w.ops[i].request.allowCreate then LookUpUsername(w, i, false) else Progressed(w, i, Finished(NotFound))
  }

  ghost function BeginResolve(w: World, i: nat): World
    requires i < |w.ops| && w.ops[i].request.ResolveRequest? && w.ops[i].request.identity.Identity?
  {
    var k := w.ops[i].request.identity;
    if k in w.links then Progressed(w, i, SawUser(w.links[k].userId, FindById(w.users, k.realm, w.links[k].userId)))
    else WithoutLink(w, i)
  }

  /** The link's user is known: refresh the link, or drop it when the user is gone. */
  function LinksAfterUser(links: map<Key, StoredLink>, k: Key, present: bool, profile: Profile,
                          now: nat): map<Key, StoredLink> {
    if !present then links - {k}
    else if k in links then links[k := links[k].(lastLoginAt := Some(now), updatedAt := now, profile := profile)]
    else links
  }

  ghost function AfterUser(w: World, i: nat, userId: string, user: Option<User>): World
    requires i < |w.ops| && w.ops[i].request.ResolveRequest? && w.ops[i].request.identity.Identity?
  {
    var r := w.ops[i].request;
    var after := w.(links := LinksAfterUser(w.links, r.identity, user.Some?, r.profile, w.now));
    match user
    case None => WithoutLink(after, i)
    case Some(u) => Progressed(after, i, Finished(if u.enabled then Resolved(userId) else Disabled(userId)))
  }

  ghost function NewLogins(r: Request, id: string): set<string> {
    {r.profile.username, if r.profile.email == "" then "federated-" + id + "@invalid.local" else r.profile.email}
  }

  ghost predicate LoginTaken(users: map<Account, User>, realm: string, logins: set<string>) {
    exists login :: login in logins && FindByLogin(users, realm, login).Some?
  }

  /** `createUser` with a fresh id: refused when a login is taken, or for a reason of its own. */
  ghost function Create(w: World, i: nat, freshId: string, fails: bool): World
    requires i < |w.ops| && w.ops[i].request.ResolveRequest? && w.ops[i].request.identity.Identity?
  {
    var r := w.ops[i].request;
    var logins := NewLogins(r, freshId);
    var account := Account(r.identity.realm, freshId);
    if fails || account in w.known then Progressed(w, i, Finished(Threw))
    else if LoginTaken(w.users, r.identity.realm, logins) then Progressed(w, i, SawExists)
    else
      Progressed(w.(users := w.users[account := User(true, logins)], known := w.known + {account}),
                 i, SawCreation(freshId))
  }

  ghost function AfterLookups(w: World, i: nat, freshId: string, fails: bool, retry: bool): World
    requires i < |w.ops| && w.ops[i].request.ResolveRequest? && w.ops[i].request.identity.Identity?
  {
    if retry then Progressed(w, i, Finished(Threw)) else Create(w, i, freshId, fails)
  }

  ghost function ResumeResolve(w: World, i: nat, freshId: string, fails: bool): World
    requires i < |w.ops| && w.ops[i].request.ResolveRequest? && w.ops[i].request.identity.Identity?
  {
    var r := w.ops[i].request;
    match w.ops[i].progress
    case SawUser(id, user) => AfterUser(w, i, id, user)
    case SawUsername(Some(id), _) => Progressed(w, i, Finished(LinkRequired(id)))
    case SawUsername(None, retry) =>
      if r.profile.email == "" then AfterLookups(w, i, freshId, fails, retry)
      else Progressed(w, i, SawEmail(FindByLogin(w.users, r.identity.realm, r.profile.email), retry))
    case SawEmail(Some(id), _) => Progressed(w, i, Finished(LinkRequired(id)))
    case SawEmail(None, retry) => AfterLookups(w, i, freshId, fails, retry)
    case SawExists => LookUpUsername(w, i, true)
    case SawCreation(id) =>
      var link := StoredLink(id, r.profile, w.now, w.now, Some(w.now));
      Progressed(w.(links := w.links[r.identity := link]), i, Finished(Created(id)))
    case _ => w
  }

  // ---------- the segments of link ----------

  function BeginLink(w: World, i: nat): World
    requires i < |w.ops| && w.ops[i].request.LinkRequest? && w.ops[i].request.identity.Identity?
  {
    var r := w.ops[i].request;
    Progressed(w, i, SawUser(r.userId, FindById(w.users, r.identity.realm, r.userId)))
  }

  /** What the second segment of `link` answers, from the links alone. */
  ghost function LinkOutcome(links: map<Key, StoredLink>, k: Key, userId: string): Outcome
    requires k.Identity?
  {
    if k in links then (if links[k].userId == userId then Linked else Conflict)
    else if HasTie(links, k.realm, userId, k.providerId, k.issuer) then Conflict
    else Linked
  }

  ghost function LinksAfterLink(links: map<Key, StoredLink>, k: Key, userId: string, profile: Profile,
                                now: nat): map<Key, StoredLink>
    requires k.Identity?
  {
    if k !in links && LinkOutcome(links, k, userId).Linked? then
      links[k := StoredLink(userId, profile, now, now, None)]
    else links
  }

  ghost function ResumeLink(w: World, i: nat): World
    requires i < |w.ops| && w.ops[i].request.LinkRequest? && w.ops[i].request.identity.Identity?
  {
    var r := w.ops[i].request;
    match w.ops[i].progress
    case SawUser(_, None) => Progressed(w, i, Finished(NotFound))
    case SawUser(_, Some(_)) =>
      Progressed(w.(links := LinksAfterLink(w.links, r.identity, r.userId, r.profile, w.now)),
                 i, Finished(LinkOutcome(w.links, r.identity, r.userId)))
    case _ => w
  }

  // ---------- steps ----------

  function AfterCall(w: World, r: Request): World
    requires r.identity.Identity?
  {
    var lock := if r.LinkRequest? then Queue(w.lock, UserKey(r), Some(r.identity)) else Queue(w.lock, r.identity, None);
    w.(lock := lock, ops := w.ops + [Op(r, Queued)])
  }

  /** The call's turn has come: a `link` on its first key queues on the second, others run. */
  ghost function AfterEnter(w: World, i: nat): World
    requires i < |w.lock.calls| == |w.ops| && w.ops[i].request.identity.Identity?
  {
    var entered := w.(lock := KeyedLock.Enter(w.lock, i));
    if w.lock.calls[i].inner.Some? then entered.(ops := w.ops + [Op(w.ops[i].request, Queued)])
    else if w.ops[i].request.ResolveRequest? then BeginResolve(entered, i)
    else BeginLink(entered, i)
  }

  predicate Suspended(w: World, i: nat) {
    && i < |w.ops| && w.ops[i].request.identity.Identity?
    && !w.ops[i].progress.Queued? && !w.ops[i].progress.Finished?
  }

  predicate Over(w: World, i: nat) {
    i < |w.ops| && i < |w.lock.calls| && (w.lock.calls[i].key.Identity? ==> w.ops[i].progress.Finished?)
  }

  ghost function Step(w: World, e: Event): World {
    match e
    case Begin(r) => if r.identity.Identity? && (r.LinkRequest? ==> Uuid(r.userId)) then AfterCall(w, r) else w
    case Enter(i) =>
      if MayEnter(w.lock, i) && |w.lock.calls| == |w.ops| && w.ops[i].request.identity.Identity? then
        AfterEnter(w, i)
      else w
    case Resume(i, id, fails) =>
      if !Suspended(w, i) then w
      else if w.ops[i].request.ResolveRequest? then ResumeResolve(w, i, id, fails)
      else ResumeLink(w, i)
    case Leave(i) => if MayLeave(w.lock, i) && Over(w, i) then w.(lock := KeyedLock.Leave(w.lock, i, false)) else w
    case Unlink(k, realm, userId, providerId, issuer) =>
      if k in w.links && Ties(k, w.links[k], realm, userId, providerId, issuer) then w.(links := w.links - {k}) else w
    case AddUser(a, u) => if a in w.known then w else w.(users := w.users[a := u], known := w.known + {a})
    case ChangeUser(a, enabled, logins) => if a in w.users then w.(users := w.users[a := User(enabled, logins)]) else w
    case RemoveUser(a) => w.(users := w.users - {a})
    case RestoreUser(a, u) => if a in w.known && a !in w.users then w.(users := w.users[a := u]) else w
    case Advance(d) => w.(now := w.now + d)
  }

  ghost function Run(w: World, events: seq<Event>): World
    decreases |events|
  {
    if events == [] then w else Run(Step(w, events[0]), events[1..])
  }

  lemma {:induction false} RunThen(w: World, events: seq<Event>, e: Event)
    ensures Run(w, events + [e]) == Step(Run(w, events), e)
    decreases |events|
  {
    if events == [] {
      assert events + [e] == [e] && Run(Step(w, e), []) == Step(w, e);
    } else {
      assert (events + [e])[1..] == events[1..] + [e];
      RunThen(Step(w, events[0]), events[1..], e);
    }
  }

  // ---------- operations hold their locks ----------

  predicate Matched(w: World, i: nat) {
    i < |w.ops| && i < |w.lock.calls| ==>
      var call := w.lock.calls[i];
      var op := w.ops[i];
      && op.request.identity.Identity?
      && (call.key.Identity? ==>
            && call.key == op.request.identity
            && (call.phase.Waiting? <==> op.progress.Queued?)
            && (call.phase.Done? ==> op.progress.Finished?))
      && (call.key.UserProvider? ==>
            && op.request.LinkRequest? && call.key == UserKey(op.request)
            && call.inner == Some(op.request.identity) && op.progress.Queued?)
  }

  ghost predicate Locked(w: World) {
    && |w.ops| == |w.lock.calls|
    && KeyedLock.Inv(w.lock)
    && forall i: nat {:trigger Matched(w, i)} :: Matched(w, i)
  }

  /** An operation that has started and is not finished holds the lock of its identity, alone. */
  lemma SuspendedIsAlone(w: World, i: nat, j: nat)
    requires Locked(w) && Suspended(w, i) && Suspended(w, j) && w.ops[i].request.identity == w.ops[j].request.identity
    ensures i == j
  {
    assert Matched(w, i) && Matched(w, j);
    assert CallInv(w.lock, i) && CallInv(w.lock, j);
    assert InTurn(w.lock, i) && InTurn(w.lock, j);
  }

  lemma ResumeShape(w: World, e: Event)
    requires e.Resume? && Suspended(w, e.call)
    ensures var after := Step(w, e);
      && after.lock == w.lock && |after.ops| == |w.ops|
      && after.ops == w.ops[e.call := w.ops[e.call].(progress := after.ops[e.call].progress)]
      && !after.ops[e.call].progress.Queued?
  {
  }

  lemma AfterEnterIsMatched(w: World, i: nat, j: nat)
    requires Locked(w) && MayEnter(w.lock, i) && Matched(w, i) && Matched(w, j) && Nested(w.lock, i)
    ensures Matched(AfterEnter(w, i), j)
  {
  }

  lemma CallKeepsLocked(w: World, r: Request)
    requires Locked(w) && r.identity.Identity?
    ensures Locked(AfterCall(w, r))
  {
    if r.LinkRequest? { QueueKeepsInv(w.lock, UserKey(r), Some(r.identity)); }
    else { QueueKeepsInv(w.lock, r.identity, None); }
    forall j: nat ensures Matched(AfterCall(w, r), j) { assert Matched(w, j); }
  }

  lemma EnterKeepsLocked(w: World, i: nat)
    requires Locked(w) && MayEnter(w.lock, i) && w.ops[i].request.identity.Identity?
    ensures Locked(AfterEnter(w, i))
  {
    EnterKeepsInv(w.lock, i);
    assert Matched(w, i) && CallInv(w.lock, i);
    forall j: nat ensures Matched(AfterEnter(w, i), j) {
      assert Matched(w, j);
      AfterEnterIsMatched(w, i, j);
    }
  }

  lemma ResumeKeepsLocked(w: World, e: Event)
    requires Locked(w) && e.Resume? && Suspended(w, e.call)
    ensures Locked(Step(w, e))
  {
    ResumeShape(w, e);
    var after := Step(w, e);
    forall j: nat ensures Matched(after, j) { assert Matched(w, j) && Matched(w, e.call); }
  }

  lemma LeaveKeepsLocked(w: World, i: nat)
    requires Locked(w) && MayLeave(w.lock, i) && Over(w, i)
    ensures Locked(w.(lock := KeyedLock.Leave(w.lock, i, false)))
  {
    LeaveKeepsInv(w.lock, i, false);
    forall j: nat ensures Matched(w.(lock := KeyedLock.Leave(w.lock, i, false)), j) { assert Matched(w, j); }
  }

  lemma UsersKeepLocked(w: World, after: World)
    requires Locked(w) && after.lock == w.lock && after.ops == w.ops
    ensures Locked(after)
  {
    forall j: nat ensures Matched(after, j) { assert Matched(w, j); }
  }

  lemma StepKeepsLocked(w: World, e: Event)
    requires Locked(w)
    ensures Locked(Step(w, e))
  {
    match e
    case Begin(r) => if r.identity.Identity? && (r.LinkRequest? ==> Uuid(r.userId)) { CallKeepsLocked(w, r); }
    case Enter(i) => if MayEnter(w.lock, i) && w.ops[i].request.identity.Identity? { EnterKeepsLocked(w, i); }
    case Resume(i, id, fails) => if Suspended(w, i) { ResumeKeepsLocked(w, e); }
    case Leave(i) => if MayLeave(w.lock, i) && Over(w, i) { LeaveKeepsLocked(w, i); }
    case _ => UsersKeepLocked(w, Step(w, e));
  }

  lemma InitialIsLocked()
    ensures Locked(Initial)
  {
    UnlockedInv();
    forall j: nat ensures Matched(Initial, j) {}
  }

  // ---------- a link holds both its locks ----------

  /** Call `i` holds the user-provider lock of `link` `j`, which it has queued on its identity. */
  predicate HolderOf(w: World, i: nat, j: nat) {
    && i < |w.lock.calls| && j < |w.ops| && w.lock.calls[i].child == Some(j)
    && w.ops[j].request.LinkRequest? && w.ops[j].request.identity.Identity?
    && w.lock.calls[i].key == UserKey(w.ops[j].request)
  }

  ghost predicate IsHeld(w: World, j: nat) {
    j < |w.ops| && j < |w.lock.calls| && w.lock.calls[j].key.Identity? && w.ops[j].request.LinkRequest? ==>
      exists i: nat :: HolderOf(w, i, j)
  }

  ghost predicate AllHeld(w: World) {
    forall j: nat {:trigger IsHeld(w, j)} :: IsHeld(w, j)
  }

  lemma EnterKeepsHeld(w: World, i: nat, j: nat)
    requires Locked(w) && MayEnter(w.lock, i) && w.ops[i].request.identity.Identity? && IsHeld(w, j)
    ensures IsHeld(AfterEnter(w, i), j)
  {
    var after := AfterEnter(w, i);
    assert Matched(w, i) && CallInv(w.lock, i);
    if j < |w.ops| && w.lock.calls[j].key.Identity? && w.ops[j].request.LinkRequest? {
      var h: nat :| HolderOf(w, h, j);
      assert Nested(w.lock, h) by { assert CallInv(w.lock, h); }
      assert h != i;
      assert HolderOf(after, h, j);
    } else if j == |w.ops| && j < |after.ops| {
      assert HolderOf(after, i, j);
    }
  }

  lemma OthersKeepHeld(w: World, after: World, j: nat)
    requires Locked(w) && IsHeld(w, j) && |after.ops| >= |w.ops| && |after.lock.calls| == |after.ops|
    requires forall i :: 0 <= i < |w.ops| ==>
      && after.ops[i].request == w.ops[i].request
      && after.lock.calls[i].key == w.lock.calls[i].key && after.lock.calls[i].child == w.lock.calls[i].child
    requires |w.ops| <= j < |after.ops| ==> !after.lock.calls[j].key.Identity? || !after.ops[j].request.LinkRequest?
    ensures IsHeld(after, j)
  {
    if j < |w.ops| && w.lock.calls[j].key.Identity? && w.ops[j].request.LinkRequest? {
      var h: nat :| HolderOf(w, h, j);
      assert HolderOf(after, h, j);
    }
  }

  lemma StepKeepsHeld(w: World, e: Event, j: nat)
    requires Locked(w) && IsHeld(w, j)
    ensures IsHeld(Step(w, e), j)
  {
    match e
    case Enter(i) =>
      if MayEnter(w.lock, i) && w.ops[i].request.identity.Identity? { EnterKeepsHeld(w, i, j); }
    case Resume(i, _, _) =>
      if Suspended(w, i) {
        ResumeShape(w, e);
        OthersKeepHeld(w, Step(w, e), j);
      }
    case _ => OthersKeepHeld(w, Step(w, e), j);
  }

  lemma {:induction false} RunKeepsHeld(w: World, events: seq<Event>)
    requires Locked(w) && AllHeld(w)
    ensures Locked(Run(w, events)) && AllHeld(Run(w, events))
    decreases |events|
  {
    if events != [] {
      StepKeepsLocked(w, events[0]);
      forall j: nat ensures IsHeld(Step(w, events[0]), j) {
        assert IsHeld(w, j);
        StepKeepsHeld(w, events[0], j);
      }
      RunKeepsHeld(Step(w, events[0]), events[1..]);
    }
  }

  /**
   In every run at most one `link` of a user to a provider and issuer is under way, whatever the
   identities: it holds that lock from before it queues on its identity until it is over.
   */
  lemma LinksOfOneUserRunInTurn(events: seq<Event>, i: nat, j: nat)
    requires var w := Run(Initial, events);
      && Suspended(w, i) && Suspended(w, j) && w.ops[i].request.LinkRequest? && w.ops[j].request.LinkRequest?
      && w.ops[i].request.userId == w.ops[j].request.userId
      && var a, b := w.ops[i].request.identity, w.ops[j].request.identity;
         a.realm == b.realm && a.providerId == b.providerId && a.issuer == b.issuer
    ensures i == j
  {
    InitialIsLocked();
    forall c: nat ensures IsHeld(Initial, c) {}
    RunKeepsHeld(Initial, events);
    var w := Run(Initial, events);
    assert Matched(w, i) && Matched(w, j) && IsHeld(w, i) && IsHeld(w, j);
    var g: nat :| HolderOf(w, g, i);
    var h: nat :| HolderOf(w, h, j);
    assert CallInv(w.lock, g) && CallInv(w.lock, h);
    assert InTurn(w.lock, g) && InTurn(w.lock, h) && Nested(w.lock, g) && Nested(w.lock, h);
  }

  // ---------- a link never moves ----------

  predicate Searching(p: Progress) {
    p.SawUsername? || p.SawEmail? || p.SawExists? || p.SawCreation?
  }

  /** A resolve past its lookup of the link runs only while its identity has none. */
  predicate Clear(w: World, i: nat) {
    Suspended(w, i) && w.ops[i].request.ResolveRequest? && Searching(w.ops[i].progress) ==>
      w.ops[i].request.identity !in w.links
  }

  /** A step of one operation leaves the links of every other identity alone. */
  lemma ResumeTouchesItsIdentity(w: World, e: Event, k: Key)
    requires e.Resume? && Suspended(w, e.call) && k != w.ops[e.call].request.identity
    ensures k in Step(w, e).links <==> k in w.links
    ensures k in w.links ==> Step(w, e).links[k] == w.links[k]
  {
  }

  lemma ResumeKeepsOwnClear(w: World, e: Event)
    requires e.Resume? && Suspended(w, e.call) && Clear(w, e.call)
    ensures Clear(Step(w, e), e.call)
  {
  }

  lemma EnterKeepsLinks(w: World, i: nat)
    requires i < |w.lock.calls| == |w.ops| && w.ops[i].request.identity.Identity? && w.ops[i].progress.Queued?
    ensures AfterEnter(w, i).links == w.links && AfterEnter(w, i).users == w.users && AfterEnter(w, i).known == w.known
    ensures forall j :: 0 <= j < |w.ops| && j != i ==> AfterEnter(w, i).ops[j] == w.ops[j]
    ensures Clear(AfterEnter(w, i), i)
    ensures |AfterEnter(w, i).ops| > |w.ops| ==>
      |AfterEnter(w, i).ops| == |w.ops| + 1 && AfterEnter(w, i).ops[|w.ops|].progress.Queued?
  {
  }

  lemma EnterFindsQueued(w: World, i: nat)
    requires Locked(w) && MayEnter(w.lock, i)
    ensures w.ops[i].progress.Queued?
  {
    assert Matched(w, i);
  }

  lemma StepKeepsClear(w: World, e: Event, i: nat)
    requires Locked(w) && Clear(w, i)
    ensures Clear(Step(w, e), i)
  {
    match e
    case Enter(j) =>
      if MayEnter(w.lock, j) && w.ops[j].request.identity.Identity? {
        EnterFindsQueued(w, j);
        EnterKeepsLinks(w, j);
      }
    case Resume(j, _, _) =>
      if Suspended(w, j) {
        if i == j { ResumeKeepsOwnClear(w, e); }
        else {
          ResumeShape(w, e);
          if Suspended(w, i) {
            if w.ops[i].request.identity == w.ops[j].request.identity { SuspendedIsAlone(w, i, j); }
            ResumeTouchesItsIdentity(w, e, w.ops[i].request.identity);
          }
        }
      }
    case _ =>
  }

  // ---------- ids ----------

  function AccountOf(op: Op, userId: string): Account {
    Account(op.request.identity.realm, userId)
  }

  /** The account an operation created for its identity, stored as a link or not yet. */
  function Minted(op: Op): Option<Account> {
    match op.progress
    case SawCreation(id) => Some(AccountOf(op, id))
    case Finished(Created(id)) => Some(AccountOf(op, id))
    case _ => None
  }

  predicate KnownOp(w: World, i: nat) {
    i < |w.ops| ==>
      var op := w.ops[i];
      && (Minted(op).Some? ==> Minted(op).value in w.known)
      && (op.progress.SawUser? && (op.request.ResolveRequest? || op.progress.user.Some?) ==>
            AccountOf(op, op.progress.userId) in w.known)
      && (op.progress.SawUser? && op.request.LinkRequest? ==> op.progress.userId == op.request.userId)
  }

  predicate Distinct(w: World, i: nat, j: nat) {
    i < |w.ops| && j < |w.ops| && i != j && Minted(w.ops[i]).Some? && Minted(w.ops[j]).Some? ==>
      Minted(w.ops[i]).value != Minted(w.ops[j]).value
  }

  predicate KnownLink(w: World, k: Key) {
    k in w.links ==> Account(k.realm, w.links[k].userId) in w.known
  }

  ghost predicate Base(w: World) {
    && Locked(w)
    && w.users.Keys <= w.known
    && (forall i: nat {:trigger Clear(w, i)} :: Clear(w, i))
    && (forall i: nat {:trigger KnownOp(w, i)} :: KnownOp(w, i))
    && (forall i: nat, j: nat {:trigger Distinct(w, i, j)} :: Distinct(w, i, j))
    && (forall k {:trigger KnownLink(w, k)} :: KnownLink(w, k))
  }

  lemma ResumeKeepsUsersKnown(w: World, e: Event)
    requires e.Resume? && Suspended(w, e.call) && w.users.Keys <= w.known
    ensures w.known <= Step(w, e).known && Step(w, e).users.Keys <= Step(w, e).known
  {
  }

  lemma ResumeKeepsOpKnown(w: World, e: Event, j: nat)
    requires e.Resume? && Suspended(w, e.call) && KnownOp(w, e.call) && KnownOp(w, j)
    ensures KnownOp(Step(w, e), j)
  {
  }

  lemma ResumeKeepsLinkKnown(w: World, e: Event, k: Key)
    requires e.Resume? && Suspended(w, e.call) && KnownOp(w, e.call) && KnownLink(w, k)
    ensures KnownLink(Step(w, e), k)
  {
  }

  lemma ResumeMintsFreshIds(w: World, e: Event)
    requires e.Resume? && Suspended(w, e.call)
    ensures var before, after := Minted(w.ops[e.call]), Minted(Step(w, e).ops[e.call]);
      && (before.Some? ==> after == before)
      && (before.None? && after.Some? ==> after.value !in w.known)
  {
  }

  lemma EnterKeepsKnown(w: World, i: nat, j: nat)
    requires Base(w) && MayEnter(w.lock, i) && w.ops[i].request.identity.Identity?
    ensures KnownOp(AfterEnter(w, i), j)
    ensures j < |w.ops| ==> Minted(AfterEnter(w, i).ops[j]) == Minted(w.ops[j])
    ensures |w.ops| <= j < |AfterEnter(w, i).ops| ==> Minted(AfterEnter(w, i).ops[j]).None?
  {
    EnterFindsQueued(w, i);
    EnterKeepsLinks(w, i);
    assert KnownOp(w, j);
    var k := w.ops[i].request.identity;
    assert KnownLink(w, k);
  }

  lemma StepKeepsKnown(w: World, e: Event, i: nat, k: Key)
    requires Base(w)
    ensures Step(w, e).users.Keys <= Step(w, e).known && w.known <= Step(w, e).known
    ensures KnownOp(Step(w, e), i) && KnownLink(Step(w, e), k)
  {
    assert KnownOp(w, i) && KnownLink(w, k);
    match e
    case Enter(j) =>
      if MayEnter(w.lock, j) && w.ops[j].request.identity.Identity? {
        EnterFindsQueued(w, j);
        EnterKeepsLinks(w, j);
        EnterKeepsKnown(w, j, i);
      }
    case Resume(j, _, _) =>
      if Suspended(w, j) {
        assert KnownOp(w, j);
        ResumeKeepsUsersKnown(w, e);
        ResumeKeepsOpKnown(w, e, i);
        ResumeKeepsLinkKnown(w, e, k);
      }
    case _ =>
  }

  lemma StepKeepsDistinct(w: World, e: Event, i: nat, j: nat)
    requires Base(w)
    ensures Distinct(Step(w, e), i, j)
  {
    assert Distinct(w, i, j) && KnownOp(w, i) && KnownOp(w, j);
    match e
    case Enter(c) =>
      if MayEnter(w.lock, c) && w.ops[c].request.identity.Identity? {
        EnterKeepsKnown(w, c, i);
        EnterKeepsKnown(w, c, j);
      }
    case Resume(c, _, _) =>
      if Suspended(w, c) {
        ResumeShape(w, e);
        ResumeMintsFreshIds(w, e);
      }
    case _ =>
  }

  lemma StepKeepsBase(w: World, e: Event)
    requires Base(w)
    ensures Base(Step(w, e))
  {
    var after := Step(w, e);
    StepKeepsLocked(w, e);
    forall i: nat ensures Clear(after, i) {
      assert Clear(w, i);
      StepKeepsClear(w, e, i);
    }
    forall i: nat ensures KnownOp(after, i) { StepKeepsKnown(w, e, i, UserProvider("", "", "", "")); }
    forall k ensures KnownLink(after, k) { StepKeepsKnown(w, e, 0, k); }
    forall i: nat, j: nat ensures Distinct(after, i, j) { StepKeepsDistinct(w, e, i, j); }
    StepKeepsKnown(w, e, 0, UserProvider("", "", "", ""));
  }

  lemma {:induction false} RunKeepsBase(w: World, events: seq<Event>)
    requires Base(w)
    ensures Base(Run(w, events))
    decreases |events|
  {
    if events != [] {
      StepKeepsBase(w, events[0]);
      RunKeepsBase(Step(w, events[0]), events[1..]);
    }
  }

  lemma InitialBase()
    ensures Base(Initial)
  {
    InitialIsLocked();
    forall i: nat ensures Clear(Initial, i) {}
    forall i: nat ensures KnownOp(Initial, i) {}
    forall i: nat, j: nat ensures Distinct(Initial, i, j) {}
    forall k ensures KnownLink(Initial, k) {}
  }

  /** Two resolves in one realm never share the account they created, whatever ids they were given. */
  lemma CreatedUsersDiffer(events: seq<Event>, i: nat, j: nat, a: string, b: string)
    requires var w := Run(Initial, events);
      && i < |w.ops| && j < |w.ops| && i != j
      && w.ops[i].progress == Finished(Created(a)) && w.ops[j].progress == Finished(Created(b))
    ensures AccountOf(Run(Initial, events).ops[i], a) != AccountOf(Run(Initial, events).ops[j], b)
  {
    InitialBase();
    RunKeepsBase(Initial, events);
    assert Distinct(Run(Initial, events), i, j);
  }

  lemma StepNeverMovesLink(w: World, e: Event, k: Key)
    requires Base(w) && k in w.links && k in Step(w, e).links
    ensures Step(w, e).links[k].userId == w.links[k].userId
  {
    match e
    case Enter(i) =>
      if MayEnter(w.lock, i) && w.ops[i].request.identity.Identity? {
        EnterFindsQueued(w, i);
        EnterKeepsLinks(w, i);
      }
    case Resume(i, _, _) => assert Clear(w, i);
    case _ =>
  }

  /** In every run, whatever the next step is, it never gives a linked identity to another user. */
  lemma LinksNeverMove(events: seq<Event>, e: Event, k: Key)
    requires var w := Run(Initial, events);
      k in w.links && k in Step(w, e).links
    ensures var w := Run(Initial, events);
      Step(w, e).links[k].userId == w.links[k].userId
  {
    InitialBase();
    RunKeepsBase(Initial, events);
    StepNeverMovesLink(Run(Initial, events), e, k);
  }

  // ---------- where a link comes from ----------

  /** Some operation on the identity was told to link this user, or created the user itself. */
  ghost predicate Origin(w: World, k: Key, userId: string) {
    exists i :: 0 <= i < |w.ops| && OriginAt(w.ops[i], k, userId)
  }

  predicate OriginAt(op: Op, k: Key, userId: string) {
    && op.request.identity == k
    && match op.request
       case LinkRequest(_, id, _) => id == userId && op.progress == Finished(Linked)
       case ResolveRequest(_, _, _) => op.progress == Finished(Created(userId))
  }

  lemma FinishedOpsStay(w: World, e: Event, i: nat)
    requires Base(w) && i < |w.ops| && w.ops[i].progress.Finished?
    ensures i < |Step(w, e).ops| && Step(w, e).ops[i] == w.ops[i]
  {
    match e
    case Enter(j) =>
      if MayEnter(w.lock, j) && w.ops[j].request.identity.Identity? {
        EnterFindsQueued(w, j);
        EnterKeepsLinks(w, j);
      }
    case Resume(j, _, _) => if Suspended(w, j) { ResumeShape(w, e); }
    case _ =>
  }

  lemma NewLinkHasOrigin(w: World, e: Event, k: Key)
    requires Base(w) && k !in w.links && k in Step(w, e).links
    ensures e.Resume? && Suspended(w, e.call) && OriginAt(Step(w, e).ops[e.call], k, Step(w, e).links[k].userId)
  {
    match e
    case Enter(i) =>
      if MayEnter(w.lock, i) && w.ops[i].request.identity.Identity? {
        EnterFindsQueued(w, i);
        EnterKeepsLinks(w, i);
      }
    case Resume(i, _, _) => if Suspended(w, i) { ResumeShape(w, e); }
    case _ =>
  }

  lemma StepKeepsOrigin(w: World, e: Event, k: Key)
    requires Base(w) && (k in w.links ==> Origin(w, k, w.links[k].userId))
    ensures k in Step(w, e).links ==> Origin(Step(w, e), k, Step(w, e).links[k].userId)
  {
    if k in Step(w, e).links {
      if k in w.links {
        StepNeverMovesLink(w, e, k);
        var i :| 0 <= i < |w.ops| && OriginAt(w.ops[i], k, w.links[k].userId);
        FinishedOpsStay(w, e, i);
      } else {
        NewLinkHasOrigin(w, e, k);
        ResumeShape(w, e);
      }
    }
  }

  lemma {:induction false} RunKeepsOrigin(w: World, events: seq<Event>, k: Key)
    requires Base(w) && (k in w.links ==> Origin(w, k, w.links[k].userId))
    ensures k in Run(w, events).links ==> Origin(Run(w, events), k, Run(w, events).links[k].userId)
    decreases |events|
  {
    if events != [] {
      StepKeepsBase(w, events[0]);
      StepKeepsOrigin(w, events[0], k);
      RunKeepsOrigin(Step(w, events[0]), events[1..], k);
    }
  }

  /**
   A local account is never linked by a login: every link was asked for by `link` with that
   very user, or its user was created, under a new id, by the `resolve` that stored it.
   */
  lemma EveryLinkHasOrigin(events: seq<Event>, k: Key)
    requires k in Run(Initial, events).links
    ensures Origin(Run(Initial, events), k, Run(Initial, events).links[k].userId)
  {
    InitialBase();
    RunKeepsOrigin(Initial, events, k);
  }

  // ---------- one link per user, provider and issuer ----------

  predicate SameTie(j: Key, a: StoredLink, k: Key, b: StoredLink) {
    && j.Identity? && k.Identity? && a.userId == b.userId
    && j.realm == k.realm && j.providerId == k.providerId && j.issuer == k.issuer
  }

  ghost predicate OneLinkPerTie(links: map<Key, StoredLink>) {
    forall j, k :: j in links && k in links && SameTie(j, links[j], k, links[k]) ==> j == k
  }

  lemma AddingAnUntiedLink(links: map<Key, StoredLink>, k: Key, link: StoredLink)
    requires k.Identity? && OneLinkPerTie(links) && !HasTie(links, k.realm, link.userId, k.providerId, k.issuer)
    ensures OneLinkPerTie(links[k := link])
  {
    forall a | a in links ensures !SameTie(a, links[a], k, link) && !SameTie(k, link, a, links[a]) {
      assert !Ties(a, links[a], k.realm, link.userId, k.providerId, k.issuer);
    }
    var after := links[k := link];
    forall a, b | a in after && b in after && SameTie(a, after[a], b, after[b]) ensures a == b {}
  }

  /** Exactly when `resolve` stores the link of its new user it may break that: if one is there already. */
  lemma StoringKeepsOneLinkIff(w: World, e: Event)
    requires e.Resume? && Suspended(w, e.call)
    requires w.ops[e.call].request.ResolveRequest? && w.ops[e.call].progress.SawCreation?
    requires OneLinkPerTie(w.links) && Clear(w, e.call)
    ensures var k := w.ops[e.call].request.identity;
      OneLinkPerTie(Step(w, e).links) <==>
        !HasTie(w.links, k.realm, w.ops[e.call].progress.userId, k.providerId, k.issuer)
  {
    var k := w.ops[e.call].request.identity;
    var id := w.ops[e.call].progress.userId;
    var after := Step(w, e).links;
    assert k in after && after[k].userId == id;
    if HasTie(w.links, k.realm, id, k.providerId, k.issuer) {
      var j :| j in w.links && Ties(j, w.links[j], k.realm, id, k.providerId, k.issuer);
      assert j in after && SameTie(j, after[j], k, after[k]);
    } else {
      AddingAnUntiedLink(w.links, k, after[k]);
    }
  }

  /** A resolve stores the link of its new user while that user is linked there already. */
  ghost predicate StoresTied(w: World, e: Event) {
    && e.Resume? && Suspended(w, e.call)
    && w.ops[e.call].request.ResolveRequest? && w.ops[e.call].progress.SawCreation?
    && var k := w.ops[e.call].request.identity;
       HasTie(w.links, k.realm, w.ops[e.call].progress.userId, k.providerId, k.issuer)
  }

  lemma FewerLinksStayUnique(links: map<Key, StoredLink>, fewer: map<Key, StoredLink>)
    requires OneLinkPerTie(links)
    requires forall k :: k in fewer ==> k in links && fewer[k].userId == links[k].userId
    ensures OneLinkPerTie(fewer)
  {
    forall a, b | a in fewer && b in fewer && SameTie(a, fewer[a], b, fewer[b]) ensures a == b {
      assert SameTie(a, links[a], b, links[b]);
    }
  }

  lemma OnlyFewerLinks(w: World, e: Event)
    requires Base(w) && e.Resume? && Suspended(w, e.call) && OneLinkPerTie(w.links)
    requires w.ops[e.call].request.identity in Step(w, e).links ==> w.ops[e.call].request.identity in w.links
    ensures OneLinkPerTie(Step(w, e).links)
  {
    var after := Step(w, e).links;
    forall a | a in after ensures a in w.links && after[a].userId == w.links[a].userId {
      if a != w.ops[e.call].request.identity { ResumeTouchesItsIdentity(w, e, a); }
      StepNeverMovesLink(w, e, a);
    }
    FewerLinksStayUnique(w.links, after);
  }

  lemma ResumeKeepsOneLinkIff(w: World, e: Event)
    requires Base(w) && OneLinkPerTie(w.links) && e.Resume? && Suspended(w, e.call)
    ensures OneLinkPerTie(Step(w, e).links) <==> !StoresTied(w, e)
  {
    var i := e.call;
    var k := w.ops[i].request.identity;
    assert Clear(w, i);
    if w.ops[i].request.ResolveRequest? && w.ops[i].progress.SawCreation? {
      StoringKeepsOneLinkIff(w, e);
    } else if k !in w.links && k in Step(w, e).links {
      var after := Step(w, e).links;
      var userId := w.ops[i].request.userId;
      assert !HasTie(w.links, k.realm, userId, k.providerId, k.issuer);
      AddingAnUntiedLink(w.links, k, after[k]);
    } else {
      OnlyFewerLinks(w, e);
    }
  }

  lemma StepKeepsOneLinkIff(w: World, e: Event)
    requires Base(w) && OneLinkPerTie(w.links)
    ensures OneLinkPerTie(Step(w, e).links) <==> !StoresTied(w, e)
  {
    match e
    case Enter(j) =>
      if MayEnter(w.lock, j) && w.ops[j].request.identity.Identity? {
        EnterFindsQueued(w, j);
        EnterKeepsLinks(w, j);
      }
    case Resume(j, _, _) => if Suspended(w, j) { ResumeKeepsOneLinkIff(w, e); }
    case Unlink(_, _, _, _, _) => FewerLinksStayUnique(w.links, Step(w, e).links);
    case _ =>
  }

  /** After every prefix of the run a user has at most one link at each provider and issuer. */
  ghost predicate AlwaysUnique(events: seq<Event>) {
    forall n :: 0 <= n <= |events| ==> OneLinkPerTie(Run(Initial, events[..n]).links)
  }

  ghost predicate NeverStoresTied(events: seq<Event>) {
    forall n :: 0 <= n < |events| ==> !StoresTied(Run(Initial, events[..n]), events[n])
  }

  lemma AlwaysUniqueThen(front: seq<Event>, e: Event)
    ensures AlwaysUnique(front + [e]) <==> AlwaysUnique(front) && OneLinkPerTie(Run(Initial, front + [e]).links)
    ensures NeverStoresTied(front + [e]) <==> NeverStoresTied(front) && !StoresTied(Run(Initial, front), e)
  {
    var all := front + [e];
    assert all[..|front|] == front && all[|front|] == e && all[..|all|] == all;
    assert forall n :: 0 <= n < |front| ==> all[..n] == front[..n] && all[n] == front[n];
    assert front[..|front|] == front;
  }

  /**
   Throughout a run a user has at most one link at each provider and issuer if and only if no
   resolve of that run stores the link of its new user while that user is linked there already.
   */
  lemma {:induction false} LinksStayUniqueIff(events: seq<Event>)
    ensures AlwaysUnique(events) <==> NeverStoresTied(events)
    decreases |events|
  {
    InitialBase();
    if events == [] {
      assert events[..0] == [] && Run(Initial, events[..0]).links == map[];
    } else {
      var front, e := events[..|events| - 1], events[|events| - 1];
      assert events == front + [e];
      LinksStayUniqueIff(front);
      AlwaysUniqueThen(front, e);
      RunThen(Initial, front, e);
      if AlwaysUnique(front) {
        assert front[..|front|] == front;
        RunKeepsBase(Initial, front);
        StepKeepsOneLinkIff(Run(Initial, front), e);
      }
    }
  }

  /** No `link` decides about a user some `resolve` has created but not yet stored. */
  ghost predicate KeepsSecret(w: World, e: Event) {
    e.Resume? && Suspended(w, e.call) && w.ops[e.call].request.LinkRequest? ==>
      forall j :: 0 <= j < |w.ops| && w.ops[j].progress.SawCreation? ==>
        AccountOf(w.ops[j], w.ops[j].progress.userId) != AccountOf(w.ops[e.call], w.ops[e.call].request.userId)
  }

  ghost predicate SecretRun(w: World, events: seq<Event>)
    decreases |events|
  {
    events == [] || (KeepsSecret(w, events[0]) && SecretRun(Step(w, events[0]), events[1..]))
  }

  /** The user a `resolve` has created and not stored has no link yet. */
  predicate Unlinked(w: World, i: nat, k: Key) {
    i < |w.ops| && w.ops[i].progress.SawCreation? && k in w.links ==>
      Account(k.realm, w.links[k].userId) != AccountOf(w.ops[i], w.ops[i].progress.userId)
  }

  ghost predicate Tidy(w: World) {
    && Base(w)
    && OneLinkPerTie(w.links)
    && forall i: nat, k {:trigger Unlinked(w, i, k)} :: Unlinked(w, i, k)
  }

  lemma StepKeepsUnlinked(w: World, e: Event, i: nat, k: Key)
    requires Tidy(w) && KeepsSecret(w, e)
    ensures Unlinked(Step(w, e), i, k)
  {
    assert Unlinked(w, i, k);
    match e
    case Enter(j) =>
      if MayEnter(w.lock, j) && w.ops[j].request.identity.Identity? {
        EnterFindsQueued(w, j);
        EnterKeepsLinks(w, j);
        EnterKeepsKnown(w, j, i);
      }
    case Resume(j, _, _) =>
      if Suspended(w, j) {
        ResumeShape(w, e);
        assert Distinct(w, i, j) && KnownOp(w, j) && KnownOp(w, i) && KnownLink(w, k);
        if k in Step(w, e).links && k in w.links { StepNeverMovesLink(w, e, k); }
        if k in Step(w, e).links && k !in w.links { NewLinkHasOrigin(w, e, k); }
        ResumeMintsFreshIds(w, e);
      }
    case _ =>
  }

  lemma SecretsAreNotStoredTied(w: World, e: Event)
    requires Tidy(w)
    ensures !StoresTied(w, e)
  {
    if e.Resume? && Suspended(w, e.call) && w.ops[e.call].progress.SawCreation? {
      var k := w.ops[e.call].request.identity;
      var userId := w.ops[e.call].progress.userId;
      forall j | j in w.links ensures !Ties(j, w.links[j], k.realm, userId, k.providerId, k.issuer) {
        assert Unlinked(w, e.call, j);
      }
    }
  }

  lemma StepKeepsTidy(w: World, e: Event)
    requires Tidy(w) && KeepsSecret(w, e)
    ensures Tidy(Step(w, e))
  {
    StepKeepsBase(w, e);
    forall i: nat, k ensures Unlinked(Step(w, e), i, k) { StepKeepsUnlinked(w, e, i, k); }
    SecretsAreNotStoredTied(w, e);
    StepKeepsOneLinkIff(w, e);
  }

  lemma {:induction false} RunKeepsTidy(w: World, events: seq<Event>)
    requires Tidy(w) && SecretRun(w, events)
    ensures Tidy(Run(w, events))
    decreases |events|
  {
    if events != [] {
      StepKeepsTidy(w, events[0]);
      RunKeepsTidy(Step(w, events[0]), events[1..]);
    }
  }

  /** While new ids stay secret, a user has at most one link at each provider and issuer. */
  lemma LinksAreUnique(events: seq<Event>)
    requires SecretRun(Initial, events)
    ensures OneLinkPerTie(Run(Initial, events).links)
  {
    InitialBase();
    forall i: nat, k ensures Unlinked(Initial, i, k) {}
    RunKeepsTidy(Initial, events);
  }

  // ---------- since the lookup ----------

  /** A resolve that has looked up its link's user and not acted on it yet. */
  predicate AtUser(w: World, i: nat) {
    i < |w.ops| && w.ops[i].request.ResolveRequest? && w.ops[i].progress.SawUser?
  }

  predicate SameOp(w: World, after: World, i: nat) {
    i < |w.ops| && i < |after.ops| && after.ops[i] == w.ops[i]
  }

  /** How many events had run when operation `i` came to where it stands: its last lookup, if it waits at one. */
  ghost function LookedUp(events: seq<Event>, i: nat): (n: nat)
    ensures n <= |events|
  {
    if events == [] then 0
    else
      var front := events[..|events| - 1];
      if SameOp(Run(Initial, front), Run(Initial, events), i) then LookedUp(front, i) else |events|
  }

  /** Some `unlink` of this very link is among the events. */
  predicate UnlinkRan(events: seq<Event>, k: Key, userId: string) {
    k.Identity? && exists m :: 0 <= m < |events| && events[m] == Unlink(k, k.realm, userId, k.providerId, k.issuer)
  }

  predicate Restores(e: Event, a: Account) {
    e.RestoreUser? && e.account == a
  }

  /** The account was restored among the events and not removed again after that. */
  predicate BackAgain(events: seq<Event>, a: Account) {
    exists m :: 0 <= m < |events| && Restores(events[m], a) && RemoveUser(a) !in events[m..]
  }

  lemma UnlinkRanThen(events: seq<Event>, e: Event, k: Key, userId: string)
    requires k.Identity?
    ensures UnlinkRan(events + [e], k, userId) <==>
      UnlinkRan(events, k, userId) || e == Unlink(k, k.realm, userId, k.providerId, k.issuer)
  {
    var more := events + [e];
    assert more[|events|] == e && forall m :: 0 <= m < |events| ==> more[m] == events[m];
  }

  lemma BackAgainThen(events: seq<Event>, e: Event, a: Account)
    ensures BackAgain(events + [e], a) <==> e != RemoveUser(a) && (BackAgain(events, a) || Restores(e, a))
  {
    var more := events + [e];
    assert more[|events|] == e && more[|events|..] == [e];
    assert forall m :: 0 <= m < |events| ==> more[m] == events[m] && more[m..] == events[m..] + [e];
    if BackAgain(events, a) && e != RemoveUser(a) {
      var m :| 0 <= m < |events| && Restores(events[m], a) && RemoveUser(a) !in events[m..];
      assert Restores(more[m], a) && RemoveUser(a) !in more[m..];
    }
    if BackAgain(more, a) {
      var m :| 0 <= m < |more| && Restores(more[m], a) && RemoveUser(a) !in more[m..];
      assert e in more[m..];
      if m < |events| { assert Restores(events[m], a) && RemoveUser(a) !in events[m..]; }
    }
  }

  /** What a resolve saw was so then; and what has become of it since is told by the events since. */
  ghost predicate SinceLookup(events: seq<Event>, w: World, i: nat) {
    AtUser(w, i) ==>
      var k, id := w.ops[i].request.identity, w.ops[i].progress.userId;
      var before, since := Run(Initial, events[..LookedUp(events, i)]), events[LookedUp(events, i)..];
      && k.Identity? && LinkedTo(before.links, k, id) && w.ops[i].progress.user == FindById(before.users, k.realm, id)
      && (k in w.links ==> w.links[k].userId == id)
      && (k in w.links <==> !UnlinkRan(since, k, id))
      && (w.ops[i].progress.user.None? ==>
        (Account(k.realm, id) in w.users <==> BackAgain(since, Account(k.realm, id))))
  }

  predicate LinkedTo(links: map<Key, StoredLink>, k: Key, userId: string) {
    k in links && links[k].userId == userId
  }

  /** The lookup itself: nothing has run since. */
  lemma LookupIsNow(w: World, e: Event, i: nat)
    requires Base(w) && !AtUser(w, i) && AtUser(Step(w, e), i)
    ensures var after := Step(w, e);
      var k, id := after.ops[i].request.identity, after.ops[i].progress.userId;
      && k.Identity? && LinkedTo(after.links, k, id)
      && after.ops[i].progress.user == FindById(after.users, k.realm, id)
  {
    match e
    case Enter(j) =>
      if MayEnter(w.lock, j) && w.ops[j].request.identity.Identity? {
        EnterFindsQueued(w, j);
        EnterKeepsLinks(w, j);
      }
    case Resume(j, _, _) => if Suspended(w, j) { ResumeShape(w, e); }
    case _ =>
  }

  /** One more event while a resolve waits: its link goes only by `unlink`, its user comes and goes only by name. */
  lemma WaitingSeesEvents(w: World, e: Event, i: nat)
    requires Base(w) && AtUser(w, i) && AtUser(Step(w, e), i)
    requires var k, id := w.ops[i].request.identity, w.ops[i].progress.userId;
      k in w.links ==> w.links[k].userId == id
    ensures Step(w, e).ops[i] == w.ops[i]
    ensures var after := Step(w, e);
      var k, id := w.ops[i].request.identity, w.ops[i].progress.userId;
      var a := Account(k.realm, id);
      && k.Identity?
      && (k in after.links <==> k in w.links && e != Unlink(k, k.realm, id, k.providerId, k.issuer))
      && (k in after.links ==> after.links[k].userId == id)
      && (a in after.users <==> e != RemoveUser(a) && (a in w.users || Restores(e, a)))
  {
    assert KnownOp(w, i) && Matched(w, i);
    match e
    case Enter(j) =>
      if MayEnter(w.lock, j) && w.ops[j].request.identity.Identity? {
        EnterFindsQueued(w, j);
        EnterKeepsLinks(w, j);
      }
    case Resume(j, _, _) => if Suspended(w, j) { ResumeOfAnother(w, e, i); }
    case _ =>
  }

  lemma ResumeOfAnother(w: World, e: Event, i: nat)
    requires Base(w) && AtUser(w, i) && e.Resume? && Suspended(w, e.call) && AtUser(Step(w, e), i)
    ensures Step(w, e).ops[i] == w.ops[i]
    ensures var k := w.ops[i].request.identity;
      (k in Step(w, e).links <==> k in w.links) && (k in w.links ==> Step(w, e).links[k] == w.links[k])
    ensures var a := AccountOf(w.ops[i], w.ops[i].progress.userId); a in Step(w, e).users <==> a in w.users
  {
    ResumeShape(w, e);
    assert Matched(w, i) && KnownOp(w, i);
    if e.call == i {
      ResumeLeavesUser(w, e);
    } else {
      if w.ops[i].request.identity == w.ops[e.call].request.identity { SuspendedIsAlone(w, i, e.call); }
      ResumeTouchesItsIdentity(w, e, w.ops[i].request.identity);
      ResumeAddsFreshUsers(w, e, AccountOf(w.ops[i], w.ops[i].progress.userId));
    }
  }

  lemma ResumeLeavesUser(w: World, e: Event)
    requires e.Resume? && Suspended(w, e.call) && AtUser(w, e.call)
    ensures !AtUser(Step(w, e), e.call)
  {
  }

  lemma ResumeAddsFreshUsers(w: World, e: Event, a: Account)
    requires e.Resume? && Suspended(w, e.call) && a in w.known
    ensures a in Step(w, e).users <==> a in w.users
    ensures a in w.users ==> Step(w, e).users[a] == w.users[a]
  {
  }

  lemma {:induction false} EveryLookupIsFollowed(events: seq<Event>, i: nat)
    ensures Base(Run(Initial, events)) && SinceLookup(events, Run(Initial, events), i)
    decreases |events|
  {
    InitialBase();
    if events != [] {
      var front, e := events[..|events| - 1], events[|events| - 1];
      assert events == front + [e];
      RunThen(Initial, front, e);
      EveryLookupIsFollowed(front, i);
      StepKeepsBase(Run(Initial, front), e);
      if AtUser(Run(Initial, events), i) {
        if AtUser(Run(Initial, front), i) { LookupIsFollowed(front, e, i); }
        else {
          LookupIsNow(Run(Initial, front), e, i);
          assert events[..|events|] == events && events[|events|..] == [];
        }
      }
    }
  }

  lemma LookupIsFollowed(front: seq<Event>, e: Event, i: nat)
    requires Base(Run(Initial, front)) && SinceLookup(front, Run(Initial, front), i)
    requires Run(Initial, front + [e]) == Step(Run(Initial, front), e)
    requires AtUser(Run(Initial, front), i) && AtUser(Run(Initial, front + [e]), i)
    ensures SinceLookup(front + [e], Run(Initial, front + [e]), i)
  {
    var w, n := Run(Initial, front), LookedUp(front, i);
    assert (front + [e])[..|front + [e]| - 1] == front;
    WaitingSeesEvents(w, e, i);
    assert LookedUp(front + [e], i) == n;
    assert (front + [e])[..n] == front[..n] && (front + [e])[n..] == front[n..] + [e];
    var k, id := w.ops[i].request.identity, w.ops[i].progress.userId;
    UnlinkRanThen(front[n..], e, k, id);
    BackAgainThen(front[n..], e, Account(k.realm, id));
  }

  // ---------- a link goes only by unlink, or with its user ----------

  /**
   In every run a link disappears only by `unlink`, or when a resolve of its identity acts on a
   lookup that found the link's user gone. The user is then still absent if and only if it was not
   restored, for good, since that lookup.
   */
  lemma LinksOutliveTheirUser(events: seq<Event>, e: Event, k: Key)
    requires k in Run(Initial, events).links && k !in Step(Run(Initial, events), e).links
    ensures var w := Run(Initial, events);
      || (e.Unlink? && e.choice == k)
      || (&& e.Resume? && AtUser(w, e.call) && w.ops[e.call].request.identity == k
          && var a := Account(k.realm, w.links[k].userId);
             && a !in Run(Initial, events[..LookedUp(events, e.call)]).users
             && (a !in w.users <==> !BackAgain(events[LookedUp(events, e.call)..], a)))
  {
    InitialBase();
    RunKeepsBase(Initial, events);
    var w := Run(Initial, events);
    match e
    case Enter(j) =>
      if MayEnter(w.lock, j) && w.ops[j].request.identity.Identity? {
        EnterFindsQueued(w, j);
        EnterKeepsLinks(w, j);
      }
    case Resume(j, _, _) =>
      if Suspended(w, j) {
        EveryLookupIsFollowed(events, j);
        if k != w.ops[j].request.identity { ResumeTouchesItsIdentity(w, e, k); }
        OnlyLookupsDrop(w, e);
      }
    case _ =>
  }

  /** A resumed operation drops its identity's link only when it had found the link's user gone. */
  lemma OnlyLookupsDrop(w: World, e: Event)
    requires e.Resume? && Suspended(w, e.call)
    requires w.ops[e.call].request.identity in w.links && w.ops[e.call].request.identity !in Step(w, e).links
    ensures AtUser(w, e.call) && w.ops[e.call].progress.user.None?
  {
  }

  // ---------- what the answers mean ----------

  /** What a lookup by login has to answer: an account that has it, or nothing if none does. */
  predicate LooksUp(users: map<Account, User>, realm: string, login: string, hit: Option<string>) {
    match hit
    case Some(id) => Account(realm, id) in users && login in users[Account(realm, id)].logins
    case None => NobodyHas(users, realm, login)
  }

  predicate NobodyHas(users: map<Account, User>, realm: string, login: string) {
    forall a :: a in users && a.realm == realm ==> login !in users[a].logins
  }

  /** What the lookup an operation waits at has answered was so when it was made. */
  ghost predicate Seen(at: World, op: Op) {
    var realm := op.request.identity.realm;
    match op.progress
    case SawUsername(hit, _) =>
      op.request.ResolveRequest? && LooksUp(at.users, realm, op.request.profile.username, hit)
    case SawEmail(hit, _) =>
      && op.request.ResolveRequest? && op.request.profile.email != ""
      && LooksUp(at.users, realm, op.request.profile.email, hit)
    case SawUser(_, user) =>
      op.request.LinkRequest? ==> (user.Some? <==> Account(realm, op.request.userId) in at.users)
    case SawExists => op.request.ResolveRequest?
    case SawCreation(_) => op.request.ResolveRequest?
    case _ => true
  }

  lemma FindByLoginHolds(users: map<Account, User>, realm: string, login: string)
    ensures LooksUp(users, realm, login, FindByLogin(users, realm, login))
  {
    forall a | a in users && a.realm == realm && login in users[a].logins
      ensures FindByLogin(users, realm, login).Some?
    {
      assert HasLogin(users, realm, login, a.id);
    }
  }

  lemma ResumedLookupIsSeen(w: World, e: Event)
    requires e.Resume? && Suspended(w, e.call)
    ensures var after := Step(w, e);
      after.ops[e.call].progress == w.ops[e.call].progress || Seen(after, after.ops[e.call])
  {
    var r := w.ops[e.call].request;
    FindByLoginHolds(w.users, r.identity.realm, r.profile.username);
    FindByLoginHolds(w.users, r.identity.realm, r.profile.email);
  }

  lemma EnteredLookupIsSeen(w: World, i: nat)
    requires i < |w.lock.calls| == |w.ops| && w.ops[i].request.identity.Identity? && w.ops[i].progress.Queued?
    ensures Seen(AfterEnter(w, i), AfterEnter(w, i).ops[i])
  {
    var r := w.ops[i].request;
    FindByLoginHolds(w.users, r.identity.realm, r.profile.username);
  }

  lemma NewLookupIsSeen(w: World, e: Event, i: nat)
    requires Base(w) && i < |Step(w, e).ops| && !SameOp(w, Step(w, e), i)
    ensures Seen(Step(w, e), Step(w, e).ops[i])
  {
    match e
    case Enter(j) =>
      if MayEnter(w.lock, j) && w.ops[j].request.identity.Identity? {
        EnterFindsQueued(w, j);
        EnterKeepsLinks(w, j);
        if i == j { EnteredLookupIsSeen(w, j); }
      }
    case Resume(j, _, _) =>
      if Suspended(w, j) {
        ResumeShape(w, e);
        ResumedLookupIsSeen(w, e);
      }
    case _ =>
  }

  lemma {:induction false} LookupsAreSeen(events: seq<Event>, i: nat)
    requires i < |Run(Initial, events).ops|
    ensures Seen(Run(Initial, events[..LookedUp(events, i)]), Run(Initial, events).ops[i])
    decreases |events|
  {
    var front, e := events[..|events| - 1], events[|events| - 1];
    assert events == front + [e];
    RunThen(Initial, front, e);
    InitialBase();
    RunKeepsBase(Initial, front);
    if SameOp(Run(Initial, front), Run(Initial, events), i) {
      LookupsAreSeen(front, i);
      assert front[..LookedUp(front, i)] == events[..LookedUp(events, i)];
    } else {
      assert events[..|events|] == events;
      NewLookupIsSeen(Run(Initial, front), e, i);
    }
  }

  /** An account the profile's username or email address named. */
  predicate Collides(at: World, r: Request, id: string)
    requires r.ResolveRequest?
  {
    || LooksUp(at.users, r.identity.realm, r.profile.username, Some(id))
    || (r.profile.email != "" && LooksUp(at.users, r.identity.realm, r.profile.email, Some(id)))
  }

  /**
   What an answer says about the links, and about the user store where it says something of that,
   `at` being the world at the last lookup before it.
   */
  predicate Truthful(at: World, before: World, after: World, r: Request, outcome: Outcome) {
    var k := r.identity;
    match outcome
    case Resolved(id) => r.ResolveRequest? && Refreshed(before, after, k, id)
    case Disabled(id) => r.ResolveRequest? && Refreshed(before, after, k, id)
    case NotFound =>
      if r.ResolveRequest? then !r.allowCreate && k !in after.links
      else after.links == before.links && Account(k.realm, r.userId) !in at.users
    case LinkRequired(id) =>
      r.ResolveRequest? && r.allowCreate && k !in after.links && after.users == before.users && Collides(at, r, id)
    case Created(id) => k !in before.links && LinkedTo(after.links, k, id)
    case Linked => r.LinkRequest? && LinkedTo(after.links, k, r.userId)
    case Conflict => r.LinkRequest? && after.links == before.links && !LinkedTo(after.links, k, r.userId)
    case Threw => after.links == before.links && after.users == before.users
  }

  /** A link that is still there is the user's and carries the login; one that is gone stays gone. */
  predicate Refreshed(before: World, after: World, k: Key, userId: string) {
    && (k in after.links <==> k in before.links)
    && (k in after.links ==> after.links[k].userId == userId && after.links[k].lastLoginAt == Some(after.now))
  }

  predicate AsksToCreate(w: World, i: nat) {
    i < |w.ops| && w.ops[i].request.ResolveRequest? && Searching(w.ops[i].progress) ==> w.ops[i].request.allowCreate
  }

  lemma StepKeepsAsksToCreate(w: World, e: Event, i: nat)
    requires Base(w) && AsksToCreate(w, i)
    ensures AsksToCreate(Step(w, e), i)
  {
    match e
    case Enter(j) =>
      if MayEnter(w.lock, j) && w.ops[j].request.identity.Identity? {
        EnterFindsQueued(w, j);
        if i == j { EnteredAsksToCreate(w, i); } else { EnterKeepsLinks(w, j); }
      }
    case Resume(j, _, _) =>
      if Suspended(w, j) {
        if i == j { ResumedAsksToCreate(w, e); } else { ResumeShape(w, e); }
      }
    case _ =>
  }

  lemma EnteredAsksToCreate(w: World, i: nat)
    requires i < |w.lock.calls| == |w.ops| && w.ops[i].request.identity.Identity? && w.ops[i].progress.Queued?
    ensures AsksToCreate(AfterEnter(w, i), i)
  {
  }

  lemma ResumedAsksToCreate(w: World, e: Event)
    requires e.Resume? && Suspended(w, e.call) && AsksToCreate(w, e.call)
    ensures AsksToCreate(Step(w, e), e.call)
  {
  }

  lemma {:induction false} RunKeepsAsksToCreate(w: World, events: seq<Event>, i: nat)
    requires Base(w) && AsksToCreate(w, i)
    ensures AsksToCreate(Run(w, events), i)
    decreases |events|
  {
    if events != [] {
      StepKeepsBase(w, events[0]);
      StepKeepsAsksToCreate(w, events[0], i);
      RunKeepsAsksToCreate(Step(w, events[0]), events[1..], i);
    }
  }

  lemma ActingIsTruthful(at: World, w: World, e: Event)
    requires e.Resume? && Suspended(w, e.call) && AtUser(w, e.call)
    requires w.ops[e.call].request.identity in w.links ==>
      w.links[w.ops[e.call].request.identity].userId == w.ops[e.call].progress.userId
    requires Step(w, e).ops[e.call].progress.Finished?
    ensures Truthful(at, w, Step(w, e), w.ops[e.call].request, Step(w, e).ops[e.call].progress.outcome)
  {
  }

  lemma SearchingIsTruthful(at: World, w: World, e: Event)
    requires e.Resume? && Suspended(w, e.call) && w.ops[e.call].request.ResolveRequest? && !AtUser(w, e.call)
    requires Clear(w, e.call) && AsksToCreate(w, e.call) && Seen(at, w.ops[e.call])
    requires Step(w, e).ops[e.call].progress.Finished?
    ensures Truthful(at, w, Step(w, e), w.ops[e.call].request, Step(w, e).ops[e.call].progress.outcome)
  {
  }

  lemma LinkIsTruthful(at: World, w: World, e: Event)
    requires e.Resume? && Suspended(w, e.call) && w.ops[e.call].request.LinkRequest? && Seen(at, w.ops[e.call])
    requires Step(w, e).ops[e.call].progress.Finished?
    ensures Truthful(at, w, Step(w, e), w.ops[e.call].request, Step(w, e).ops[e.call].progress.outcome)
  {
  }

  lemma EnteredIsTruthful(at: World, w: World, i: nat)
    requires i < |w.lock.calls| == |w.ops| && w.ops[i].request.identity.Identity? && w.ops[i].progress.Queued?
    requires AfterEnter(w, i).ops[i].progress.Finished?
    ensures Truthful(at, w, AfterEnter(w, i), w.ops[i].request, AfterEnter(w, i).ops[i].progress.outcome)
  {
  }

  /** The step by which call `i` is answered. */
  ghost predicate Answers(w: World, e: Event, i: nat) {
    i < |w.ops| && !w.ops[i].progress.Finished? && i < |Step(w, e).ops| && Step(w, e).ops[i].progress.Finished?
  }

  lemma OnlyItsOwnSegmentAnswers(w: World, e: Event, i: nat)
    requires Base(w) && Answers(w, e, i)
    ensures (e.Enter? && e.call == i && MayEnter(w.lock, i)) || (e.Resume? && e.call == i && Suspended(w, i))
    ensures Step(w, e).ops[i].request == w.ops[i].request && w.ops[i].request.identity.Identity?
  {
    match e
    case Enter(j) =>
      if MayEnter(w.lock, j) && w.ops[j].request.identity.Identity? {
        EnterFindsQueued(w, j);
        EnterKeepsLinks(w, j);
      }
    case Resume(j, _, _) => if Suspended(w, j) { ResumeShape(w, e); }
    case _ =>
  }

  /** In every run the segment that ends a call answers what is so when it ends, or was at its last lookup. */
  lemma AnswersAreTruthful(events: seq<Event>, e: Event, i: nat)
    requires Answers(Run(Initial, events), e, i)
    ensures var w, at := Run(Initial, events), Run(Initial, events[..LookedUp(events, i)]);
      Truthful(at, w, Step(w, e), w.ops[i].request, Step(w, e).ops[i].progress.outcome)
  {
    EveryLookupIsFollowed(events, i);
    LookupsAreSeen(events, i);
    InitialBase();
    RunKeepsAsksToCreate(Initial, events, i);
    var w, at := Run(Initial, events), Run(Initial, events[..LookedUp(events, i)]);
    OnlyItsOwnSegmentAnswers(w, e, i);
    assert Clear(w, i);
    if e.Enter? {
      EnterFindsQueued(w, i);
      EnteredIsTruthful(at, w, i);
    }
    else if AtUser(w, i) { ActingIsTruthful(at, w, e); }
    else if w.ops[i].request.ResolveRequest? { SearchingIsTruthful(at, w, e); }
    else { LinkIsTruthful(at, w, e); }
  }

  /**
   A resolve that found its link and the link's user answers with that user, resolved or disabled
   as the user was at the lookup. That user is linked when it answers if and only if no `unlink` of
   the link ran since the lookup.
   */
  lemma ResolvedIsLinkedIff(events: seq<Event>, e: Event)
    requires var w := Run(Initial, events); e.Resume? && AtUser(w, e.call) && w.ops[e.call].progress.user.Some?
    ensures var w, n := Run(Initial, events), LookedUp(events, e.call);
      var k, id := w.ops[e.call].request.identity, w.ops[e.call].progress.userId;
      var user := FindById(Run(Initial, events[..n]).users, k.realm, id);
      && LinkedTo(Run(Initial, events[..n]).links, k, id) && user.Some?
      && Step(w, e).ops[e.call].progress == Finished(if user.value.enabled then Resolved(id) else Disabled(id))
      && (LinkedTo(Step(w, e).links, k, id) <==> !UnlinkRan(events[n..], k, id))
  {
    EveryLookupIsFollowed(events, e.call);
  }

  // ---------- what a call has to answer ----------

  /** How a resolve begins: with the user of its link, else with the search for its username, else not at all. */
  lemma ResolveBegins(w: World, i: nat)
    requires MayEnter(w.lock, i) && |w.lock.calls| == |w.ops| && w.lock.calls[i].inner.None?
    requires w.ops[i].request.ResolveRequest? && w.ops[i].request.identity.Identity?
    ensures var r, after := w.ops[i].request, Step(w, Enter(i));
      var k, q := r.identity, after.ops[i].progress;
      && after.links == w.links && after.users == w.users
      && (if k in w.links then
            q == SawUser(w.links[k].userId,
                         if Account(k.realm, w.links[k].userId) in w.users
                         then Some(w.users[Account(k.realm, w.links[k].userId)]) else None)
          else if r.allowCreate then
            q.SawUsername? && !q.retry && LooksUp(w.users, k.realm, r.profile.username, q.hit)
          else q == Finished(NotFound))
  {
    FindByLoginHolds(w.users, w.ops[i].request.identity.realm, w.ops[i].request.profile.username);
  }

  /** A resolve whose link's user was gone drops the link and goes on as one without a link. */
  lemma DroppingGoesOn(w: World, i: nat, freshId: string, fails: bool)
    requires Suspended(w, i) && AtUser(w, i) && w.ops[i].progress.user.None?
    ensures var r, after := w.ops[i].request, Step(w, Resume(i, freshId, fails));
      var q := after.ops[i].progress;
      && after.links == w.links - {r.identity} && after.users == w.users
      && (if r.allowCreate then
            q.SawUsername? && !q.retry && LooksUp(w.users, r.identity.realm, r.profile.username, q.hit)
          else q == Finished(NotFound))
  {
    FindByLoginHolds(w.users, w.ops[i].request.identity.realm, w.ops[i].request.profile.username);
  }

  /** Both logins have been searched for, each at its own moment, and neither was found. */
  predicate SearchedInVain(op: Op) {
    || (op.progress.SawUsername? && op.progress.hit.None? && op.request.profile.email == "")
    || (op.progress.SawEmail? && op.progress.hit.None?)
  }

  /**
   The search of a resolve, in every run: whoever had the username at its lookup is answered as
   `link_required`; if nobody had, the email address is looked up, if there is one, and whoever has
   it is answered; only when both searches found nobody does the resolve go on to create.
   */
  lemma SearchesAreAnswered(events: seq<Event>, i: nat, freshId: string, fails: bool)
    requires Suspended(Run(Initial, events), i)
    ensures var w, at := Run(Initial, events), Run(Initial, events[..LookedUp(events, i)]);
      var r, p, after := w.ops[i].request, w.ops[i].progress, Step(w, Resume(i, freshId, fails));
      var q := after.ops[i].progress;
      && (p.SawUsername? && !NobodyHas(at.users, r.identity.realm, r.profile.username) ==>
            && q.Finished? && q.outcome.LinkRequired?
            && LooksUp(at.users, r.identity.realm, r.profile.username, Some(q.outcome.userId)))
      && (p.SawUsername? && NobodyHas(at.users, r.identity.realm, r.profile.username) && r.profile.email != "" ==>
            && q.SawEmail? && q.retry == p.retry && LooksUp(w.users, r.identity.realm, r.profile.email, q.hit)
            && after.links == w.links && after.users == w.users)
      && (p.SawEmail? && !NobodyHas(at.users, r.identity.realm, r.profile.email) ==>
            && q.Finished? && q.outcome.LinkRequired?
            && LooksUp(at.users, r.identity.realm, r.profile.email, Some(q.outcome.userId)))
      && (p.SawExists? ==>
            q.SawUsername? && q.retry && LooksUp(w.users, r.identity.realm, r.profile.username, q.hit))
  {
    LookupsAreSeen(events, i);
    var w := Run(Initial, events);
    FindByLoginHolds(w.users, w.ops[i].request.identity.realm, w.ops[i].request.profile.username);
    FindByLoginHolds(w.users, w.ops[i].request.identity.realm, w.ops[i].request.profile.email);
  }

  /** The logins of a new user: its username, and its email address or one made up from its id. */
  function LoginsFor(profile: Profile, id: string): set<string> {
    if profile.email != "" then {profile.username, profile.email}
    else {profile.username, "federated-" + id + "@invalid.local"}
  }

  ghost predicate AllFree(users: map<Account, User>, realm: string, logins: set<string>) {
    forall login :: login in logins ==> NobodyHas(users, realm, login)
  }

  lemma FreeIsNotTaken(users: map<Account, User>, realm: string, logins: set<string>)
    ensures LoginTaken(users, realm, logins) <==> !AllFree(users, realm, logins)
  {
    forall login ensures FindByLogin(users, realm, login).None? <==> NobodyHas(users, realm, login) {
      FindByLoginHolds(users, realm, login);
    }
  }

  /** After a search in vain: an enabled user with those logins if they are all free, and then its link. */
  lemma CreationFollows(w: World, i: nat, freshId: string, fails: bool)
    requires Suspended(w, i) && w.ops[i].request.ResolveRequest?
    ensures var r, p, after := w.ops[i].request, w.ops[i].progress, Step(w, Resume(i, freshId, fails));
      var q, a := after.ops[i].progress, Account(r.identity.realm, freshId);
      && (SearchedInVain(w.ops[i]) ==>
            && after.links == w.links
            && (if !p.retry && !fails && a !in w.known && AllFree(w.users, a.realm, LoginsFor(r.profile, freshId)) then
                  q == SawCreation(freshId) && after.users == w.users[a := User(true, LoginsFor(r.profile, freshId))]
                else
                  && after.users == w.users
                  && q == if p.retry || fails || a in w.known then Finished(Threw) else SawExists))
      && (p.SawCreation? ==>
            && q == Finished(Created(p.userId)) && after.users == w.users
            && after.links == w.links[r.identity := StoredLink(p.userId, r.profile, w.now, w.now, Some(w.now))])
  {
    var r := w.ops[i].request;
    assert LoginsFor(r.profile, freshId) == NewLogins(r, freshId);
    FreeIsNotTaken(w.users, r.identity.realm, LoginsFor(r.profile, freshId));
  }

  /**
   When a `link` is answered how, in every run: not found exactly if its user was absent at the
   lookup; else linked exactly if the identity is that user's already, or nobody's while the user
   has no link of that provider and issuer, which is then stored; else conflict.
   */
  lemma LinkAnswersIff(events: seq<Event>, i: nat)
    requires Suspended(Run(Initial, events), i) && Run(Initial, events).ops[i].request.LinkRequest?
    ensures var w, at := Run(Initial, events), Run(Initial, events[..LookedUp(events, i)]);
      var r, after := w.ops[i].request, Step(w, Resume(i, "", false));
      var k := r.identity;
      var free := k !in w.links && !HasTie(w.links, k.realm, r.userId, k.providerId, k.issuer);
      && after.ops[i].progress ==
         Finished(if Account(k.realm, r.userId) !in at.users then NotFound
                  else if free || LinkedTo(w.links, k, r.userId) then Linked else Conflict)
      && after.links ==
         (if Account(k.realm, r.userId) in at.users && free
          then w.links[k := StoredLink(r.userId, r.profile, w.now, w.now, None)] else w.links)
  {
    LookupsAreSeen(events, i);
    InitialBase();
    RunKeepsBase(Initial, events);
    assert KnownOp(Run(Initial, events), i) && Matched(Run(Initial, events), i);
  }

  // ---------- a first login that nobody disturbs ----------

  ghost predicate SomebodyHas(users: map<Account, User>, r: Request)
    requires r.ResolveRequest?
  {
    || !NobodyHas(users, r.identity.realm, r.profile.username)
    || (r.profile.email != "" && !NobodyHas(users, r.identity.realm, r.profile.email))
  }

  /** A resolve that has looked for the username, and nothing else has happened. */
  ghost predicate JustSearching(w: World, i: nat, before: World, r: Request) {
    && i < |w.ops| && w.ops[i].request == r && r.ResolveRequest? && r.identity.Identity?
    && w.links == before.links && w.users == before.users && w.known == before.known && w.now == before.now
  }

  lemma ThreeSegments(w: World, i: nat, before: World, r: Request, freshId: string)
    requires JustSearching(w, i, before, r) && w.ops[i].progress.SawUsername? && !w.ops[i].progress.retry
    requires LooksUp(w.users, r.identity.realm, r.profile.username, w.ops[i].progress.hit)
    ensures var e := Resume(i, freshId, false);
      var after := Step(Step(Step(w, e), e), e);
      FirstLoginEnds(before, after, i, r, freshId)
  {
    var e := Resume(i, freshId, false);
    FindByLoginHolds(w.users, r.identity.realm, r.profile.email);
    CreationFollows(w, i, freshId, false);
    var w1 := Step(w, e);
    if Suspended(w1, i) {
      CreationFollows(w1, i, freshId, false);
      var w2 := Step(w1, e);
      if Suspended(w2, i) { CreationFollows(w2, i, freshId, false); }
    }
  }

  /** Its answer and all its effects. */
  ghost predicate FirstLoginEnds(before: World, after: World, i: nat, r: Request, freshId: string)
    requires r.ResolveRequest?
  {
    var k, a := r.identity, Account(r.identity.realm, freshId);
    && i < |after.ops|
    && (SomebodyHas(before.users, r) ==>
          && after.users == before.users && after.links == before.links
          && after.ops[i].progress.Finished? && after.ops[i].progress.outcome.LinkRequired?
          && Collides(before, r, after.ops[i].progress.outcome.userId))
    && (!SomebodyHas(before.users, r) && a !in before.known
        && AllFree(before.users, a.realm, LoginsFor(r.profile, freshId)) ==>
          && after.ops[i].progress == Finished(Created(freshId))
          && after.users == before.users[a := User(true, LoginsFor(r.profile, freshId))]
          && after.links == before.links[k := StoredLink(freshId, r.profile, before.now, before.now, Some(before.now))])
  }

  /**
   A resolve of an identity without a link that runs through undisturbed: an account that has its
   username or its email address is answered as `link_required` and nothing changes; if none has, an
   enabled account with these logins is created, linked and answered.
   */
  lemma UndisturbedFirstLogin(w: World, i: nat, freshId: string)
    requires MayEnter(w.lock, i) && |w.lock.calls| == |w.ops| && w.lock.calls[i].inner.None?
    requires w.ops[i].request.ResolveRequest? && w.ops[i].request.allowCreate
    requires w.ops[i].request.identity.Identity? && w.ops[i].request.identity !in w.links
    ensures var e := Resume(i, freshId, false);
      FirstLoginEnds(w, Run(w, [Enter(i), e, e, e]), i, w.ops[i].request, freshId)
  {
    var e := Resume(i, freshId, false);
    ResolveBegins(w, i);
    ThreeSegments(Step(w, Enter(i)), i, w, w.ops[i].request, freshId);
    UnrollFour(w, Enter(i), e, e, e);
  }

  // ---------- one account per identity ----------

  predicate Removes(e: Event) {
    e.Unlink? || e.RemoveUser?
  }

  predicate LinkLasts(w: World, k: Key) {
    k in w.links ==> k.Identity? && FindById(w.users, k.realm, w.links[k].userId).Some?
  }

  /** While nothing is removed: users an operation has seen or made exist, and a created user's link stands. */
  predicate OpLasts(w: World, i: nat) {
    i < |w.ops| && w.ops[i].request.identity.Identity? ==>
      var k := w.ops[i].request.identity;
      match w.ops[i].progress
      case SawUser(_, user) =>
        if w.ops[i].request.ResolveRequest? then user.Some?
        else user.Some? ==> FindById(w.users, k.realm, w.ops[i].request.userId).Some?
      case SawCreation(id) => FindById(w.users, k.realm, id).Some?
      case Finished(Created(id)) => k in w.links && w.links[k].userId == id
      case _ => true
  }

  lemma UsersStay(w: World, e: Event, realm: string, id: string)
    requires w.users.Keys <= w.known && !e.RemoveUser? && FindById(w.users, realm, id).Some?
    ensures FindById(Step(w, e).users, realm, id).Some?
  {
    match e
    case Enter(i) => if MayEnter(w.lock, i) && |w.lock.calls| == |w.ops| && w.ops[i].request.identity.Identity? {
        assert AfterEnter(w, i).users == w.users;
      }
    case Resume(i, _, _) => if Suspended(w, i) { ResumeAddsFreshUsers(w, e, Account(realm, id)); }
    case _ =>
  }

  lemma LinkStays(w: World, e: Event, k: Key)
    requires Base(w) && !Removes(e) && k in w.links
    requires e.Resume? ==> OpLasts(w, e.call)
    ensures k in Step(w, e).links && Step(w, e).links[k].userId == w.links[k].userId
  {
    match e
    case Enter(i) =>
      if MayEnter(w.lock, i) && w.ops[i].request.identity.Identity? {
        EnterFindsQueued(w, i);
        EnterKeepsLinks(w, i);
      }
    case Resume(i, _, _) =>
      if Suspended(w, i) {
        assert Clear(w, i);
        if k != w.ops[i].request.identity { ResumeTouchesItsIdentity(w, e, k); }
      }
    case _ =>
  }

  lemma StepKeepsLinkLasts(w: World, e: Event, k: Key)
    requires Base(w) && !Removes(e) && LinkLasts(w, k)
    requires e.Resume? ==> OpLasts(w, e.call)
    ensures LinkLasts(Step(w, e), k)
  {
    if k in w.links {
      LinkStays(w, e, k);
      UsersStay(w, e, k.realm, w.links[k].userId);
    } else if k in Step(w, e).links {
      NewLinkHasOrigin(w, e, k);
      ResumeShape(w, e);
      var op := w.ops[e.call];
      UsersStay(w, e, k.realm, if op.request.LinkRequest? then op.request.userId else op.progress.userId);
    }
  }

  lemma ResumedOpLasts(w: World, e: Event)
    requires Base(w) && e.Resume? && Suspended(w, e.call) && OpLasts(w, e.call)
    ensures OpLasts(Step(w, e), e.call)
  {
  }

  lemma EnteredOpLasts(w: World, i: nat, j: nat)
    requires Base(w) && MayEnter(w.lock, i) && w.ops[i].request.identity.Identity?
    requires LinkLasts(w, w.ops[i].request.identity) && OpLasts(w, j)
    ensures OpLasts(AfterEnter(w, i), j)
  {
    EnterFindsQueued(w, i);
    EnterKeepsLinks(w, i);
  }

  lemma StepKeepsOpLasts(w: World, e: Event, i: nat)
    requires Base(w) && !Removes(e) && OpLasts(w, i)
    requires e.Resume? ==> OpLasts(w, e.call)
    requires forall k {:trigger LinkLasts(w, k)} :: LinkLasts(w, k)
    ensures OpLasts(Step(w, e), i)
  {
    if e.Resume? && Suspended(w, e.call) && e.call == i {
      ResumedOpLasts(w, e);
    } else if e.Enter? && MayEnter(w.lock, e.call) && w.ops[e.call].request.identity.Identity? {
      assert LinkLasts(w, w.ops[e.call].request.identity);
      EnteredOpLasts(w, e.call, i);
    } else if i < |w.ops| && w.ops[i].request.identity.Identity? {
      OtherOpLasts(w, e, i);
    }
  }

  lemma OtherOpLasts(w: World, e: Event, i: nat)
    requires Base(w) && !Removes(e) && i < |w.ops| && OpLasts(w, i) && w.ops[i].request.identity.Identity?
    requires e.Resume? && Suspended(w, e.call) ==> e.call != i
    requires e.Resume? ==> OpLasts(w, e.call)
    requires !(e.Enter? && MayEnter(w.lock, e.call) && w.ops[e.call].request.identity.Identity?)
    ensures OpLasts(Step(w, e), i)
  {
    var op := w.ops[i];
    if e.Resume? && Suspended(w, e.call) { ResumeShape(w, e); }
    assert i < |Step(w, e).ops| && Step(w, e).ops[i] == op;
    match op.progress
    case SawUser(id, user) =>
      if op.request.LinkRequest? && user.Some? { UsersStay(w, e, op.request.identity.realm, op.request.userId); }
    case SawCreation(id) => UsersStay(w, e, op.request.identity.realm, id);
    case Finished(Created(id)) => LinkStays(w, e, op.request.identity);
    case _ =>
  }

  ghost predicate Lasting(w: World) {
    && Base(w)
    && (forall k {:trigger LinkLasts(w, k)} :: LinkLasts(w, k))
    && (forall i: nat {:trigger OpLasts(w, i)} :: OpLasts(w, i))
  }

  lemma StepKeepsLasting(w: World, e: Event)
    requires Lasting(w) && !Removes(e)
    ensures Lasting(Step(w, e))
  {
    StepKeepsBase(w, e);
    if e.Resume? { assert OpLasts(w, e.call); }
    forall k ensures LinkLasts(Step(w, e), k) {
      assert LinkLasts(w, k);
      StepKeepsLinkLasts(w, e, k);
    }
    forall i: nat ensures OpLasts(Step(w, e), i) {
      assert OpLasts(w, i);
      StepKeepsOpLasts(w, e, i);
    }
  }

  lemma {:induction false} RunKeepsLasting(w: World, events: seq<Event>)
    requires Lasting(w) && forall e :: e in events ==> !Removes(e)
    ensures Lasting(Run(w, events))
    decreases |events|
  {
    if events != [] {
      StepKeepsLasting(w, events[0]);
      RunKeepsLasting(Step(w, events[0]), events[1..]);
    }
  }

  /** However many first logins of one identity run at once, only one of them creates an account. */
  lemma OneAccountPerIdentity(events: seq<Event>, i: nat, j: nat)
    requires forall e :: e in events ==> !Removes(e)
    requires var w := Run(Initial, events);
      && i < |w.ops| && j < |w.ops| && w.ops[i].request.identity == w.ops[j].request.identity
      && w.ops[i].progress.Finished? && w.ops[i].progress.outcome.Created?
      && w.ops[j].progress.Finished? && w.ops[j].progress.outcome.Created?
    ensures i == j
  {
    InitialBase();
    forall k ensures LinkLasts(Initial, k) {}
    forall c: nat ensures OpLasts(Initial, c) {}
    RunKeepsLasting(Initial, events);
    var w := Run(Initial, events);
    assert OpLasts(w, i) && OpLasts(w, j) && Matched(w, i) && Matched(w, j) && Distinct(w, i, j);
  }

  // ---------- what happens without those conditions ----------

  const A := Identity("r", "idp", "https://idp", "a")
  const B := Identity("r", "idp", "https://idp", "b")

  const USER := "00000000-0000-4000-8000-000000000000"
  const ANN := Profile("ann", "")
  const ACCOUNT := Account("r", USER)

  lemma UserIsUuid()
    ensures Uuid(USER)
  {
    assert |USER| == 36;
  }

  /** A first login of A up to its new account, then a `link` of B to that account, up to its last segment. */
  const GuessingRun: seq<Event> := [
    Begin(ResolveRequest(A, ANN, true)),
    Enter(0),
    Resume(0, USER, false),
    Begin(LinkRequest(B, USER, ANN)),
    Enter(1),
    Enter(2),
    Resume(2, "", false),
    Resume(0, "", false) ]

  lemma NobodyToFind(realm: string, login: string)
    ensures FindByLogin(map[], realm, login).None?
  {
    assert !exists id :: HasLogin(map[], realm, login, id);
  }

  /** With the new id guessed in time, one user ends with two links at one provider and issuer. */
  lemma GuessedIdsDoubleLinks()
    ensures !OneLinkPerTie(Run(Initial, GuessingRun).links)
  {
    var w2 := Step(Step(Initial, GuessingRun[0]), GuessingRun[1]);
    GuessedBeginning();
    GuessedCreation(w2);
    var w3 := Step(w2, GuessingRun[2]);
    GuessedLink(w3);
    GuessedEnding(Step(Step(Step(w3, GuessingRun[3]), GuessingRun[4]), GuessingRun[5]));
    UnrollEight(Initial, GuessingRun);
  }

  lemma GuessedBeginning()
    ensures var w := Step(Step(Initial, GuessingRun[0]), GuessingRun[1]);
      && w.ops == [Op(ResolveRequest(A, ANN, true), SawUsername(None, false))]
      && w.links == map[] && w.users == map[] && w.known == {}
      && w.lock == Lock([Call(A, None, None, None, Running)], map[A := 0])
  {
    NobodyToFind("r", "ann");
    var w := Step(Initial, GuessingRun[0]);
    assert w.lock == Lock([Call(A, None, None, None, Waiting)], map[A := 0]);
  }

  lemma GuessedLink(w: World)
    requires w.ops == [Op(ResolveRequest(A, ANN, true), SawCreation(USER))] && w.links == map[] && ACCOUNT in w.users
    requires w.lock == Lock([Call(A, None, None, None, Running)], map[A := 0])
    ensures var after := Step(Step(Step(w, GuessingRun[3]), GuessingRun[4]), GuessingRun[5]);
      && |after.ops| == 3 && after.links == map[] && after.ops[0] == w.ops[0]
      && after.ops[2] == Op(LinkRequest(B, USER, ANN), SawUser(USER, Some(w.users[ACCOUNT])))
  {
    UserIsUuid();
    var r := LinkRequest(B, USER, ANN);
    var w1 := Step(w, GuessingRun[3]);
    assert w1.ops == w.ops + [Op(r, Queued)] && w1.links == map[] && w1.users == w.users;
    assert w1.lock.calls == w.lock.calls + [Call(UserKey(r), Some(B), None, None, Waiting)] && B !in w1.lock.tails;
    var w2 := Step(w1, GuessingRun[4]);
    assert w2.ops == w1.ops + [Op(r, Queued)] && w2.links == map[] && w2.users == w.users;
    assert |w2.lock.calls| == 3 && w2.lock.calls[2] == Call(B, None, None, None, Waiting);
  }

  lemma GuessedEnding(w: World)
    requires |w.ops| == 3 && w.links == map[]
    requires w.ops[0] == Op(ResolveRequest(A, ANN, true), SawCreation(USER))
    requires w.ops[2].request == LinkRequest(B, USER, ANN)
    requires w.ops[2].progress.SawUser? && w.ops[2].progress.user.Some?
    ensures !OneLinkPerTie(Step(Step(w, Resume(2, "", false)), Resume(0, "", false)).links)
  {
    var linked := Step(w, Resume(2, "", false));
    assert linked.links == map[B := linked.links[B]] && linked.links[B].userId == USER && linked.ops[0] == w.ops[0];
    var links := Step(linked, Resume(0, "", false)).links;
    assert A in links && B in links && SameTie(A, links[A], B, links[B]);
    assert A.externalSubject == "a" && B.externalSubject == "b";
  }

  lemma GuessedCreation(w: World)
    requires w.ops == [Op(ResolveRequest(A, ANN, true), SawUsername(None, false))] && w.users == map[] && w.known == {}
    ensures var after := Step(w, Resume(0, USER, false));
      && after.ops == [Op(w.ops[0].request, SawCreation(USER))] && after.lock == w.lock && after.links == w.links
      && ACCOUNT in after.users
  {
    forall login ensures FindByLogin(w.users, "r", login).None? { NobodyToFind("r", login); }
    assert !LoginTaken(w.users, "r", NewLogins(w.ops[0].request, USER));
  }

  lemma {:induction false} RunBoth(w: World, first: seq<Event>, second: seq<Event>)
    ensures Run(w, first + second) == Run(Run(w, first), second)
    decreases |first|
  {
    if first == [] {
      assert first + second == second;
    } else {
      assert (first + second)[1..] == first[1..] + second;
      RunBoth(Step(w, first[0]), first[1..], second);
    }
  }

  lemma UnrollFour(w: World, a: Event, b: Event, c: Event, d: Event)
    ensures Run(w, [a, b, c, d]) == Step(Step(Step(Step(w, a), b), c), d)
  {
    assert [a, b, c, d] == [a] + [b] + [c] + [d] && [a] == [] + [a] && Run(w, []) == w;
    RunThen(w, [], a);
    RunThen(w, [a], b);
    RunThen(w, [a] + [b], c);
    RunThen(w, [a] + [b] + [c], d);
  }

  lemma UnrollEight(w: World, events: seq<Event>)
    requires |events| == 8
    ensures Run(w, events) ==
      var half := Step(Step(Step(Step(w, events[0]), events[1]), events[2]), events[3]);
      Step(Step(Step(Step(half, events[4]), events[5]), events[6]), events[7])
  {
    assert events[..4] == [events[0], events[1], events[2], events[3]];
    assert events[4..] == [events[4], events[5], events[6], events[7]];
    assert events == events[..4] + events[4..];
    RunBoth(w, events[..4], events[4..]);
    UnrollFour(w, events[0], events[1], events[2], events[3]);
    UnrollFour(Run(w, events[..4]), events[4], events[5], events[6], events[7]);
  }

  /** A user is linked to A; some time later a login of A begins. */
  const LinkedRun: seq<Event> := [
    AddUser(ACCOUNT, User(true, {"ann"})),
    Begin(LinkRequest(A, USER, ANN)),
    Enter(0),
    Enter(1),
    Resume(1, "", false),
    Leave(1),
    Advance(1),
    Begin(ResolveRequest(A, ANN, true)) ]

  /** The link goes while the login waits for its user. */
  const UnlinkWhileResolving: seq<Event> :=
    [Enter(2), Unlink(A, "r", USER, "idp", "https://idp"), Advance(1), Resume(2, "", false)]

  /** The user is gone when the login looks, and back when it acts on that. */
  const RestoreWhileResolving: seq<Event> := [
    RemoveUser(ACCOUNT), Enter(2), RestoreUser(ACCOUNT, User(true, {"ann"})), Resume(2, "", false)]

  /** The `link` holds both its locks and has seen the user. */
  predicate Linking(w: World) {
    && |w.ops| == |w.lock.calls| == 2 && w.links == map[] && w.now == 0
    && w.users == map[ACCOUNT := User(true, {"ann"})] && w.known == {ACCOUNT}
    && w.ops[1] == Op(LinkRequest(A, USER, ANN), SawUser(USER, Some(User(true, {"ann"}))))
    && w.lock.calls[1] == Call(A, None, None, None, Running)
    && w.lock.tails == map[UserKey(w.ops[1].request) := 0, A := 1]
  }

  /** The login of A waits for its turn, which has come. */
  predicate LoginWaits(w: World) {
    && |w.ops| == |w.lock.calls| == 3 && w.ops[2] == Op(ResolveRequest(A, ANN, true), Queued)
    && w.lock.calls[2] == Call(A, None, None, None, Waiting)
    && w.links == map[A := StoredLink(USER, ANN, 0, 0, None)]
    && w.users == map[ACCOUNT := User(true, {"ann"})] && w.known == {ACCOUNT}
  }

  lemma LinkedToQueued()
    ensures var w, r := Step(Step(Initial, LinkedRun[0]), LinkedRun[1]), LinkRequest(A, USER, ANN);
      && w.ops == [Op(r, Queued)] && w.lock.tails == map[UserKey(r) := 0]
      && w.lock.calls == [Call(UserKey(r), Some(A), None, None, Waiting)]
      && w.links == map[] && w.users == map[ACCOUNT := User(true, {"ann"})] && w.known == {ACCOUNT} && w.now == 0
  {
    UserIsUuid();
    var w := Step(Initial, LinkedRun[0]);
    assert w == World(Unlocked, [], map[], map[ACCOUNT := User(true, {"ann"})], {ACCOUNT}, 0);
  }

  lemma LinkedToLinking()
    ensures Linking(Step(Step(Step(Step(Initial, LinkedRun[0]), LinkedRun[1]), LinkedRun[2]), LinkedRun[3]))
  {
    LinkedToQueued();
    var r := LinkRequest(A, USER, ANN);
    var w := Step(Step(Step(Initial, LinkedRun[0]), LinkedRun[1]), LinkedRun[2]);
    assert w.ops == [Op(r, Queued), Op(r, Queued)] && w.lock.tails == map[UserKey(r) := 0, A := 1];
    assert |w.lock.calls| == 2 && w.lock.calls[1] == Call(A, None, None, None, Waiting);
  }

  lemma LinkingToLogin(w: World)
    requires Linking(w)
    ensures LoginWaits(Step(Step(Step(Step(w, LinkedRun[4]), LinkedRun[5]), LinkedRun[6]), LinkedRun[7]))
  {
    var linked := Step(w, LinkedRun[4]);
    assert !HasTie(w.links, "r", USER, "idp", "https://idp");
    assert linked.ops[1].progress == Finished(Linked) && linked.links == map[A := StoredLink(USER, ANN, 0, 0, None)];
    assert linked.lock == w.lock && linked.users == w.users && linked.known == w.known && |linked.ops| == 2;
    var left := Step(linked, LinkedRun[5]);
    assert A !in left.lock.tails && |left.lock.calls| == 2;
  }

  lemma LinkedThenWaiting()
    ensures LoginWaits(Run(Initial, LinkedRun))
  {
    LinkedToLinking();
    LinkingToLogin(Step(Step(Step(Step(Initial, LinkedRun[0]), LinkedRun[1]), LinkedRun[2]), LinkedRun[3]));
    UnrollEight(Initial, LinkedRun);
  }

  lemma EnterLogin(w: World)
    requires |w.ops| == |w.lock.calls| == 3 && w.ops[2] == Op(ResolveRequest(A, ANN, true), Queued)
    requires w.lock.calls[2] == Call(A, None, None, None, Waiting)
    requires w.links == map[A := StoredLink(USER, ANN, 0, 0, None)]
    ensures var after := Step(w, Enter(2));
      && |after.ops| == 3
      && after.ops[2] == Op(ResolveRequest(A, ANN, true), SawUser(USER, FindById(w.users, "r", USER)))
      && after.links == w.links && after.users == w.users && after.known == w.known
  {
  }

  /** An `unlink` in time: the login is answered `resolved` with a link that no longer exists. */
  lemma UnlinkedWhileResolving()
    ensures var w := Run(Initial, LinkedRun + UnlinkWhileResolving);
      |w.ops| == 3 && w.ops[2].progress == Finished(Resolved(USER)) && A !in w.links
  {
    LinkedThenWaiting();
    var w := Run(Initial, LinkedRun);
    EnterLogin(w);
    UnlinkedBeforeAnswer(Step(w, Enter(2)));
    RunBoth(Initial, LinkedRun, UnlinkWhileResolving);
    UnrollFour(w, UnlinkWhileResolving[0], UnlinkWhileResolving[1], UnlinkWhileResolving[2], UnlinkWhileResolving[3]);
  }

  lemma UnlinkedBeforeAnswer(w: World)
    requires |w.ops| == 3 && w.ops[2] == Op(ResolveRequest(A, ANN, true), SawUser(USER, Some(User(true, {"ann"}))))
    requires w.links == map[A := StoredLink(USER, ANN, 0, 0, None)]
    ensures var after := Step(Step(Step(w, UnlinkWhileResolving[1]), UnlinkWhileResolving[2]), UnlinkWhileResolving[3]);
      |after.ops| == 3 && after.ops[2].progress == Finished(Resolved(USER)) && A !in after.links
  {
    var unlinked := Step(w, UnlinkWhileResolving[1]);
    assert unlinked.links == map[] && unlinked.ops == w.ops;
  }

  /** A user restored in time loses the link all the same. */
  lemma RevivedUsersLoseLinks()
    ensures var w := Run(Initial, LinkedRun + RestoreWhileResolving);
      ACCOUNT in w.users && A !in w.links
  {
    LinkedThenWaiting();
    var w := Run(Initial, LinkedRun);
    var removed := Step(w, RestoreWhileResolving[0]);
    assert ACCOUNT !in removed.users && removed == w.(users := removed.users);
    EnterLogin(removed);
    RevivedBeforeAnswer(Step(removed, Enter(2)));
    RunBoth(Initial, LinkedRun, RestoreWhileResolving);
    UnrollFour(w, RestoreWhileResolving[0], RestoreWhileResolving[1], RestoreWhileResolving[2],
      RestoreWhileResolving[3]);
  }

  lemma RevivedBeforeAnswer(w: World)
    requires |w.ops| == 3 && w.ops[2] == Op(ResolveRequest(A, ANN, true), SawUser(USER, None))
    requires ACCOUNT in w.known && ACCOUNT !in w.users
    ensures var after := Step(Step(w, RestoreWhileResolving[2]), RestoreWhileResolving[3]);
      ACCOUNT in after.users && A !in after.links
  {
    var restored := Step(w, RestoreWhileResolving[2]);
    assert ACCOUNT in restored.users && restored.ops == w.ops;
  }

  // ---------- the repository's own maps ----------

  /** The synchronous stretches that touch the `#links` and `#locks` maps. */
  class MemoryFederatedIdentityRepository {
    var links: map<Key, StoredLink>
    var locks: map<Key, nat>

    constructor ()
      ensures links == map[] && locks == map[]
    {
      links, locks := map[], map[];
    }

    /** The head of `#locked`, as call number `call`. */
    method JoinQueue(key: Key, call: nat, ghost l: Lock, ghost inner: Option<Key>) returns (predecessor: Option<nat>)
      requires locks == l.tails && call == |l.calls|
      modifies this`locks
      ensures locks == Queue(l, key, inner).tails && predecessor == Queue(l, key, inner).calls[call].previous
    {
      predecessor := if key in locks then Some(locks[key]) else None;
      locks := locks[key := call];
    }

    /** The `finally` of `#locked`. */
    method Release(key: Key, call: nat, ghost l: Lock, ghost threw: bool)
      requires locks == l.tails && call < |l.calls| && l.calls[call].key == key
      modifies this`locks
      ensures locks == KeyedLock.Leave(l, call, threw).tails
    {
      if key in locks && locks[key] == call { locks := locks - {key}; }
    }

    /**
     `resolve` of an identity whose link was there, from the answer of `findUserById` on, up to its
     next await. Only that link is touched: it is refreshed, or gone with its user, and a link
     unlinked meanwhile is not brought back. `None` is a call that goes on searching.
     */
    method ActOnLookup(k: Key, userId: string, user: Option<User>, profile: Profile, allowCreate: bool, now: nat,
                       ghost w: World, ghost i: nat)
      returns (answer: Option<Outcome>)
      requires k.Identity? && i < |w.ops|
      requires w.ops[i] == Op(ResolveRequest(k, profile, allowCreate), SawUser(userId, user))
      requires links == w.links && now == w.now
      modifies this`links
      ensures links == ResumeResolve(w, i, "", false).links
      ensures var after := ResumeResolve(w, i, "", false).ops[i].progress;
        if answer.Some? then after == Finished(answer.value) else after.SawUsername?
      ensures links - {k} == old(links) - {k}
      ensures k in links <==> k in old(links) && user.Some?
      ensures k in links ==>
        && links[k].userId == old(links)[k].userId && links[k].createdAt == old(links)[k].createdAt
        && links[k].profile == profile && links[k].lastLoginAt == Some(now) && links[k].updatedAt == now
    {
      if user.None? {
        links := links - {k};
        return if allowCreate then None else Some(NotFound);
      }
      if k in links { links := links[k := links[k].(lastLoginAt := Some(now), updatedAt := now, profile := profile)]; }
      return Some(if user.value.enabled then Resolved(userId) else Disabled(userId));
    }

    /** The search both `link` and `unlink` make. */
    method FindTie(realm: string, userId: string, providerId: string, issuer: string) returns (found: Option<Key>)
      ensures found.Some? <==> HasTie(links, realm, userId, providerId, issuer)
      ensures found.Some? ==>
        found.value in links && Ties(found.value, links[found.value], realm, userId, providerId, issuer)
    {
      var todo := links.Keys;
      while todo != {}
        invariant todo <= links.Keys
        invariant forall k :: k in links && k !in todo ==> !Ties(k, links[k], realm, userId, providerId, issuer)
      {
        var k :| k in todo;
        if Ties(k, links[k], realm, userId, providerId, issuer) { return Some(k); }
        todo := todo - {k};
      }
      return None;
    }

    method DecideLink(k: Key, userId: string, profile: Profile, now: nat) returns (outcome: Outcome)
      requires k.Identity?
      modifies this`links
      ensures outcome == LinkOutcome(old(links), k, userId)
      ensures links == LinksAfterLink(old(links), k, userId, profile, now)
    {
      if k in links { return if links[k].userId == userId then Linked else Conflict; }
      var tie := FindTie(k.realm, userId, k.providerId, k.issuer);
      if tie.Some? { return Conflict; }
      links := links[k := StoredLink(userId, profile, now, now, None)];
      return Linked;
    }

    /** At most one link goes, and one does when there is one. */
    method Unlink(realm: string, userId: string, providerId: string, issuer: string) returns (removed: Option<Key>)
      modifies this`links
      ensures removed.Some? <==> HasTie(old(links), realm, userId, providerId, issuer)
      ensures removed.None? ==> links == old(links)
      ensures removed.Some? ==>
        && removed.value in old(links)
        && Ties(removed.value, old(links)[removed.value], realm, userId, providerId, issuer)
        && links == old(links) - {removed.value}
    {
      removed := FindTie(realm, userId, providerId, issuer);
      if removed.Some? { links := links - {removed.value}; }
    }
  }
}
