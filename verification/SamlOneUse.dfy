/** The SAML broker's one-use protocol. */
module SamlOneUse {
  import opened Wrappers
  import opened SamlCache

  // Any number of `start` and `consumePost` calls of any brokers are interleaved at their
  // awaits, over any of the three cache implementations. XML parsing and signature validation
  // are an oracle inside the events.

  datatype Broker = Broker(realm: string, providerId: string, requestTtl: nat, replayTtl: nat, clockSkew: nat)

  function KeyOf(b: Broker, kind: Kind, id: string): Key {
    Key(b.realm, b.providerId, kind, id)
  }

  /** What the unsigned envelope of a response says. */
  datatype Envelope = Envelope(destinationMatches: bool, inResponseTo: string, id: string)

  datatype Time = Absent | Unparsable | At(instant: int)

  /** One SubjectConfirmation of an assertion. */
  datatype Confirmation = Confirmation(
    bearer: bool,
    recipientMatches: bool,
    inResponseTo: string,
    notBefore: Time,
    notOnOrAfter: Time)

  /** What signature validation answers: nothing, or a profile; a malformed assertion id is None. */
  datatype Verdict =
    | Invalid
    | Profile(inResponseTo: string, issuerMatches: bool, assertionId: Option<string>, confirmations: seq<Confirmation>)

  datatype Failure =
    | InvalidRelayState
    | InvalidDestination
    | InvalidInResponseTo
    | InvalidResponse
    | InvalidIssuer
    | MalformedAssertion
    | InvalidSubjectConfirmation
    | ReplayedResponse
    | ReplayedAssertion

  datatype Phase =
    | Looked
    | Validated
    | HoldsResponse
    | HoldsAssertion
    | Found(consumed: Value)
    | Won
    | Failed(failure: Failure)

  /** One replay record a call put into the cache: its key, when the key was tested and when it lapses. */
  datatype Claim = Claim(key: Key, from: int, until: int)

  /** One `consumePost` call. `pending` is the state its first read returned. */
  datatype Post = Post(
    broker: Broker,
    relayState: string,
    pending: Value,
    responseId: string,
    assertionId: string,
    responseClaim: Option<Claim>,
    assertionClaim: Option<Claim>,
    phase: Phase)

  /** A RelayState that some `start` stored, with its state. */
  datatype Started = Started(key: Key, state: Value)

  datatype World = World(impl: Implementation, cache: Cache, now: nat, posts: seq<Post>, starts: seq<Started>)

  function Empty(impl: Implementation): World {
    World(impl, map[], 0, [], [])
  }

  /** `drift` is how far the clock moves between the two readings of one `putIfAbsent`. */
  datatype Event =
    | Start(broker: Broker, relayState: string, interactionUid: string, requestId: string, drift: nat)
    | BeginPost(broker: Broker, relayState: string)
    | Validate(post: nat, envelope: Envelope, verdict: Verdict)
    | ClaimResponse(post: nat, drift: nat)
    | ClaimAssertion(post: nat, drift: nat)
    | BeginConsume(post: nat)
    | EndConsume(post: nat)
    | PutRequest(broker: Broker, id: string, text: string, drift: nat)
    | TakeRequest(broker: Broker, id: string)
    | CleanUp(key: Key)
    | Advance(milliseconds: nat)

  predicate ValidRelayState(s: string) {
    && 32 <= |s| <= 80
    && forall c :: c in s ==> 'A' <= c <= 'Z' || 'a' <= c <= 'z' || '0' <= c <= '9' || c == '_' || c == '-'
  }

  predicate StateMatches(a: Value, b: Value) {
    && a.Pending? && b.Pending?
    && a.interactionUid == b.interactionUid && a.requestId == b.requestId
    && a.realm == b.realm && a.providerId == b.providerId
  }

  /** A bearer confirmation of this request whose time has come and is not over, give or take the clock skew. */
  predicate Confirms(c: Confirmation, requestId: string, now: int, skew: nat) {
    && c.bearer && c.recipientMatches && c.inResponseTo == requestId
    && !c.notBefore.Unparsable? && c.notOnOrAfter.At?
    && (c.notBefore.At? ==> now + skew >= c.notBefore.instant)
    && now - skew < c.notOnOrAfter.instant
  }

  /** The checks between the state's read and the first claim, in the order of the code. */
  function Checked(pending: Value, e: Envelope, v: Verdict, now: int, skew: nat): Result<(string, string), Failure>
    requires pending.Pending?
  {
    if !e.destinationMatches then Err(InvalidDestination)
    else if e.inResponseTo != pending.requestId then Err(InvalidInResponseTo)
    else if v.Invalid? then Err(InvalidResponse)
    else if v.inResponseTo != pending.requestId then Err(InvalidInResponseTo)
    else if !v.issuerMatches then Err(InvalidIssuer)
    else if v.assertionId.None? then Err(MalformedAssertion)
    else if !exists c :: c in v.confirmations && Confirms(c, pending.requestId, now, skew) then
      Err(InvalidSubjectConfirmation)
    else Ok((e.id, v.assertionId.value))
  }

  function StateKey(p: Post): Key {
    KeyOf(p.broker, State, p.relayState)
  }

  function ResponseKey(p: Post): Key {
    KeyOf(p.broker, Response, p.responseId)
  }

  function AssertionKey(p: Post): Key {
    KeyOf(p.broker, Assertion, p.assertionId)
  }

  function Put(w: World, k: Key, v: Value, ttl: nat, drift: nat): (World, bool) {
    var put := PutIfAbsent(w.impl, w.cache, k, v, ttl, w.now, w.now + drift);
    (w.(cache := put.0, now := w.now + drift), put.1)
  }

  function SetPost(w: World, p: nat, post: Post): World
    requires p < |w.posts|
  {
    w.(posts := w.posts[p := post])
  }

  /** A refused `start` also takes back its request record, which is a `TakeRequest` of its own. */
  function AfterStart(w: World, b: Broker, relayState: string, interactionUid: string, requestId: string,
                      drift: nat): World {
    var k := KeyOf(b, State, relayState);
    var state := Pending(b.realm, b.providerId, interactionUid, requestId);
    var (after, saved) := Put(w, k, state, b.requestTtl, drift);
    if saved then after.(starts := w.starts + [Started(k, state)]) else after
  }

  function AfterBegin(w: World, b: Broker, relayState: string): World {
    var blank := Post(b, relayState, Mark, "", "", None, None, Failed(InvalidRelayState));
    if !ValidRelayState(relayState) then w.(posts := w.posts + [blank])
    else
      var (cache, got) := Get(w.impl, w.cache, KeyOf(b, State, relayState), w.now);
      if got.Some? && got.value.Pending? then
        w.(cache := cache, posts := w.posts + [blank.(pending := got.value, phase := Looked)])
      else w.(cache := cache, posts := w.posts + [blank])
  }

  function AfterValidation(p: Post, e: Envelope, v: Verdict, now: int): Post {
    if !p.pending.Pending? then p
    else
      match Checked(p.pending, e, v, now, p.broker.clockSkew)
      case Err(f) => p.(phase := Failed(f))
      case Ok(ids) => p.(responseId := ids.0, assertionId := ids.1, phase := Validated)
  }

  function AfterResponseClaim(w: World, p: nat, drift: nat): World
    requires p < |w.posts|
  {
    var post := w.posts[p];
    var (after, saved) := Put(w, ResponseKey(post), Mark, post.broker.replayTtl, drift);
    var claim := Claim(ResponseKey(post), w.now, after.now + post.broker.replayTtl);
    SetPost(after, p, if saved then post.(responseClaim := Some(claim), phase := HoldsResponse)
                      else post.(phase := Failed(ReplayedResponse)))
  }

  function AfterAssertionClaim(w: World, p: nat, drift: nat): World
    requires p < |w.posts|
  {
    var post := w.posts[p];
    var (after, saved) := Put(w, AssertionKey(post), Mark, post.broker.replayTtl, drift);
    var claim := Claim(AssertionKey(post), w.now, after.now + post.broker.replayTtl);
    SetPost(after, p, if saved then post.(assertionClaim := Some(claim), phase := HoldsAssertion)
                      else post.(phase := Failed(ReplayedAssertion)))
  }

  function Ending(won: bool): Phase {
    if won then Won else Failed(InvalidRelayState)
  }

  /** The process-local `consume` is one step; the adapters read first and commit after an await. */
  function AfterBeginConsume(w: World, p: nat): World
    requires p < |w.posts|
  {
    var post := w.posts[p];
    var got := Get(w.impl, w.cache, StateKey(post), w.now).1;
    if w.impl.Process? then
      var taken := Commit(w.impl, w.cache, StateKey(post), w.now);
      SetPost(w.(cache := taken.0), p,
        post.(phase := Ending(taken.1 && got.Some? && StateMatches(got.value, post.pending))))
    else if got.Some? then SetPost(w, p, post.(phase := Found(got.value)))
    else SetPost(w, p, post.(phase := Failed(InvalidRelayState)))
  }

  function AfterEndConsume(w: World, p: nat): World
    requires p < |w.posts| && w.posts[p].phase.Found?
  {
    var post := w.posts[p];
    var taken := Commit(w.impl, w.cache, StateKey(post), w.now);
    SetPost(w.(cache := taken.0), p, post.(phase := Ending(taken.1 && StateMatches(post.phase.consumed, post.pending))))
  }

  predicate At(w: World, p: nat, phase: Phase) {
    p < |w.posts| && w.posts[p].phase == phase
  }

  function Step(w: World, e: Event): World {
    match e
    case Start(b, relayState, uid, requestId, drift) => AfterStart(w, b, relayState, uid, requestId, drift)
    case BeginPost(b, relayState) => AfterBegin(w, b, relayState)
    case Validate(p, envelope, v) =>
      if At(w, p, Looked) then SetPost(w, p, AfterValidation(w.posts[p], envelope, v, w.now)) else w
    case ClaimResponse(p, drift) => if At(w, p, Validated) then AfterResponseClaim(w, p, drift) else w
    case ClaimAssertion(p, drift) => if At(w, p, HoldsResponse) then AfterAssertionClaim(w, p, drift) else w
    case BeginConsume(p) => if At(w, p, HoldsAssertion) then AfterBeginConsume(w, p) else w
    case EndConsume(p) =>
      if !w.impl.Process? && p < |w.posts| && w.posts[p].phase.Found? then AfterEndConsume(w, p) else w
    case PutRequest(b, id, text, drift) => Put(w, KeyOf(b, Request, id), Text(text), b.requestTtl, drift).0
    case TakeRequest(b, id) => w.(cache := Commit(w.impl, w.cache, KeyOf(b, Request, id), w.now).0)
    case CleanUp(k) => if k in w.cache && !Alive(w.cache[k], w.now) then w.(cache := w.cache - {k}) else w
    case Advance(d) => w.(now := w.now + d)
  }

  function Run(w: World, events: seq<Event>): World
    decreases |events|
  {
    if events == [] then w else Run(Step(w, events[0]), events[1..])
  }

  // ---------- one success per stored RelayState ----------

  predicate Unspent(c: Cache, k: Key) {
    k in c && !c[k].consumed
  }

  ghost function Wins(posts: seq<Post>, k: Key): set<nat> {
    set p: nat | p < |posts| && posts[p].phase.Won? && StateKey(posts[p]) == k
  }

  ghost function StartsOf(starts: seq<Started>, k: Key): set<nat> {
    set i: nat | i < |starts| && starts[i].key == k
  }

  ghost predicate Budget(w: World, k: Key) {
    |Wins(w.posts, k)| + (if Unspent(w.cache, k) then 1 else 0) <= |StartsOf(w.starts, k)|
  }

  lemma PutKeepsSpent(w: World, k: Key, v: Value, ttl: nat, drift: nat, j: Key)
    ensures var put := Put(w, k, v, ttl, drift);
      Unspent(put.0.cache, j) ==> Unspent(w.cache, j) || (put.1 && j == k)
  {
  }

  lemma CommitSpends(impl: Implementation, c: Cache, k: Key, now: int, j: Key)
    ensures var after := Commit(impl, c, k, now).0;
      && (Unspent(after, j) ==> Unspent(c, j))
      && (Commit(impl, c, k, now).1 && j == k ==> !Unspent(after, j))
  {
  }

  lemma WinsAfter(posts: seq<Post>, p: nat, post: Post, k: Key)
    requires p < |posts| && !posts[p].phase.Won?
    ensures Wins(posts[p := post], k) == Wins(posts, k) + (if post.phase.Won? && StateKey(post) == k then {p} else {})
    ensures p !in Wins(posts, k)
  {
  }

  lemma WinsOfMore(posts: seq<Post>, post: Post, k: Key)
    requires !post.phase.Won?
    ensures Wins(posts + [post], k) == Wins(posts, k)
  {
  }

  lemma StartsOfMore(starts: seq<Started>, s: Started, k: Key)
    ensures StartsOf(starts + [s], k) == StartsOf(starts, k) + (if s.key == k then {|starts|} else {})
    ensures |starts| !in StartsOf(starts, k)
  {
  }

  lemma StartKeepsBudget(w: World, b: Broker, relayState: string, uid: string, requestId: string, drift: nat, k: Key)
    requires Budget(w, k)
    ensures Budget(AfterStart(w, b, relayState, uid, requestId, drift), k)
  {
    var state := Pending(b.realm, b.providerId, uid, requestId);
    PutKeepsSpent(w, KeyOf(b, State, relayState), state, b.requestTtl, drift, k);
    StartsOfMore(w.starts, Started(KeyOf(b, State, relayState), state), k);
  }

  lemma ConsumeKeepsBudget(w: World, p: nat, k: Key)
    requires p < |w.posts| && !w.posts[p].phase.Won? && Budget(w, k)
    ensures Budget(AfterBeginConsume(w, p), k)
    ensures w.posts[p].phase.Found? && !w.impl.Process? ==> Budget(AfterEndConsume(w, p), k)
  {
    CommitSpends(w.impl, w.cache, StateKey(w.posts[p]), w.now, k);
    WinsAfter(w.posts, p, AfterBeginConsume(w, p).posts[p], k);
    if w.posts[p].phase.Found? { WinsAfter(w.posts, p, AfterEndConsume(w, p).posts[p], k); }
  }

  lemma ClaimKeepsBudget(w: World, p: nat, drift: nat, k: Key)
    requires p < |w.posts| && !w.posts[p].phase.Won? && Budget(w, k) && k.kind.State?
    ensures Budget(AfterResponseClaim(w, p, drift), k) && Budget(AfterAssertionClaim(w, p, drift), k)
  {
    PutKeepsSpent(w, ResponseKey(w.posts[p]), Mark, w.posts[p].broker.replayTtl, drift, k);
    WinsAfter(w.posts, p, AfterResponseClaim(w, p, drift).posts[p], k);
    PutKeepsSpent(w, AssertionKey(w.posts[p]), Mark, w.posts[p].broker.replayTtl, drift, k);
    WinsAfter(w.posts, p, AfterAssertionClaim(w, p, drift).posts[p], k);
  }

  lemma StepKeepsBudget(w: World, e: Event, k: Key)
    requires Budget(w, k) && k.kind.State?
    ensures Budget(Step(w, e), k)
  {
    match e
    case Start(b, relayState, uid, requestId, drift) => StartKeepsBudget(w, b, relayState, uid, requestId, drift, k);
    case BeginPost(b, relayState) =>
      WinsOfMore(w.posts, AfterBegin(w, b, relayState).posts[|w.posts|], k);
    case Validate(p, envelope, v) =>
      if At(w, p, Looked) { WinsAfter(w.posts, p, AfterValidation(w.posts[p], envelope, v, w.now), k); }
    case ClaimResponse(p, drift) =>
      if At(w, p, Validated) { ClaimKeepsBudget(w, p, drift, k); }
    case ClaimAssertion(p, drift) =>
      if At(w, p, HoldsResponse) { ClaimKeepsBudget(w, p, drift, k); }
    case BeginConsume(p) =>
      if At(w, p, HoldsAssertion) { ConsumeKeepsBudget(w, p, k); }
    case EndConsume(p) =>
      if !w.impl.Process? && p < |w.posts| && w.posts[p].phase.Found? { ConsumeKeepsBudget(w, p, k); }
    case PutRequest(b, id, text, drift) => PutKeepsSpent(w, KeyOf(b, Request, id), Text(text), b.requestTtl, drift, k);
    case TakeRequest(b, id) => CommitSpends(w.impl, w.cache, KeyOf(b, Request, id), w.now, k);
    case _ =>
  }

  lemma {:induction false} RunKeepsBudget(w: World, events: seq<Event>, k: Key)
    requires Budget(w, k) && k.kind.State?
    ensures Budget(Run(w, events), k)
    decreases |events|
  {
    if events != [] {
      StepKeepsBudget(w, events[0], k);
      RunKeepsBudget(Step(w, events[0]), events[1..], k);
    }
  }

  /** Over every run, a RelayState yields at most as many successes as `start` calls stored it. */
  lemma SuccessesNeverExceedStarts(impl: Implementation, events: seq<Event>, k: Key)
    requires k.kind.State?
    ensures var w := Run(Empty(impl), events);
      |Wins(w.posts, k)| + (if Unspent(w.cache, k) then 1 else 0) <= |StartsOf(w.starts, k)|
  {
    assert Wins(Empty(impl).posts, k) == {};
    RunKeepsBudget(Empty(impl), events, k);
  }

  lemma TwoSuccessesNeedTwoStarts(impl: Implementation, events: seq<Event>, p: nat, q: nat)
    requires var w := Run(Empty(impl), events);
      p != q && At(w, p, Won) && At(w, q, Won) && StateKey(w.posts[p]) == StateKey(w.posts[q])
    ensures var w := Run(Empty(impl), events);
      |StartsOf(w.starts, StateKey(w.posts[p]))| >= 2
  {
    var w := Run(Empty(impl), events);
    var k := StateKey(w.posts[p]);
    SuccessesNeverExceedStarts(impl, events, k);
    var others := Wins(w.posts, k) - {p};
    assert q in others && Wins(w.posts, k) == others + {p};
  }

  /** A RelayState is random, so one `start` stores it: then no two of all its posts succeed. */
  lemma AtMostOnePostSucceeds(impl: Implementation, events: seq<Event>, p: nat, q: nat)
    requires var w := Run(Empty(impl), events);
      && At(w, p, Won) && At(w, q, Won) && StateKey(w.posts[p]) == StateKey(w.posts[q])
      && |StartsOf(w.starts, StateKey(w.posts[p]))| <= 1
    ensures p == q
  {
    if p != q { TwoSuccessesNeedTwoStarts(impl, events, p, q); }
  }

  // ---------- the winner's answer ----------

  predicate StoredFor(starts: seq<Started>, k: Key, v: Value) {
    Started(k, v) in starts
  }

  /** Every state in the cache came from a `start`, and so did what a call has read of it. */
  ghost predicate CacheFromStarts(c: Cache, starts: seq<Started>) {
    forall k :: k in c && k.kind.State? ==> StoredFor(starts, k, c[k].value)
  }

  predicate PostFromStarts(p: Post, starts: seq<Started>) {
    && (!p.phase.Failed? ==> p.pending.Pending? && StoredFor(starts, StateKey(p), p.pending))
    && (p.phase.Found? ==> StoredFor(starts, StateKey(p), p.phase.consumed))
  }

  ghost predicate FromStarts(w: World) {
    && CacheFromStarts(w.cache, w.starts)
    && forall p :: 0 <= p < |w.posts| ==> PostFromStarts(w.posts[p], w.starts)
  }

  lemma PutKeepsStates(w: World, k: Key, v: Value, ttl: nat, drift: nat)
    requires CacheFromStarts(w.cache, w.starts)
    ensures !k.kind.State? ==> CacheFromStarts(Put(w, k, v, ttl, drift).0.cache, w.starts)
    ensures var put := Put(w, k, v, ttl, drift);
      CacheFromStarts(put.0.cache, if put.1 then w.starts + [Started(k, v)] else w.starts)
  {
  }

  lemma BeginKeepsFromStarts(w: World, b: Broker, relayState: string)
    requires FromStarts(w)
    ensures FromStarts(AfterBegin(w, b, relayState))
  {
  }

  lemma ConsumeKeepsFromStarts(w: World, r: nat)
    requires r < |w.posts| && FromStarts(w)
    ensures w.posts[r].phase.HoldsAssertion? ==> FromStarts(AfterBeginConsume(w, r))
    ensures w.posts[r].phase.Found? ==> FromStarts(AfterEndConsume(w, r))
  {
    var taken := Commit(w.impl, w.cache, StateKey(w.posts[r]), w.now).0;
    assert CacheFromStarts(taken, w.starts);
  }

  lemma StepKeepsFromStarts(w: World, e: Event)
    requires FromStarts(w)
    ensures FromStarts(Step(w, e))
  {
    match e
    case Start(b, relayState, uid, requestId, drift) =>
      PutKeepsStates(w, KeyOf(b, State, relayState), Pending(b.realm, b.providerId, uid, requestId), b.requestTtl,
        drift);
    case BeginPost(b, relayState) => BeginKeepsFromStarts(w, b, relayState);
    case BeginConsume(p) => if p < |w.posts| { ConsumeKeepsFromStarts(w, p); }
    case EndConsume(p) => if p < |w.posts| { ConsumeKeepsFromStarts(w, p); }
    case ClaimResponse(p, drift) =>
      if At(w, p, Validated) { PutKeepsStates(w, ResponseKey(w.posts[p]), Mark, w.posts[p].broker.replayTtl, drift); }
    case ClaimAssertion(p, drift) =>
      if At(w, p, HoldsResponse) {
        PutKeepsStates(w, AssertionKey(w.posts[p]), Mark, w.posts[p].broker.replayTtl, drift);
      }
    case PutRequest(b, id, text, drift) => PutKeepsStates(w, KeyOf(b, Request, id), Text(text), b.requestTtl, drift);
    case _ =>
  }

  lemma {:induction false} RunKeepsFromStarts(w: World, events: seq<Event>)
    requires FromStarts(w)
    ensures FromStarts(Run(w, events))
    decreases |events|
  {
    if events != [] {
      StepKeepsFromStarts(w, events[0]);
      RunKeepsFromStarts(Step(w, events[0]), events[1..]);
    }
  }

  /** A success returns an interaction and request that some `start` stored under its RelayState. */
  lemma WinnerReturnsStoredInteraction(impl: Implementation, events: seq<Event>, p: nat)
    requires At(Run(Empty(impl), events), p, Won)
    ensures var w := Run(Empty(impl), events);
      var post := w.posts[p];
      post.pending.Pending? && StoredFor(w.starts, StateKey(post), post.pending)
  {
    RunKeepsFromStarts(Empty(impl), events);
  }

  // ---------- what a success has passed ----------

  lemma {:induction false} RunThen(w: World, events: seq<Event>, e: Event)
    ensures Run(w, events + [e]) == Step(Run(w, events), e)
    decreases |events|
  {
    if events == [] {
      assert events + [e] == [e] && Run(Step(w, e), []) == Step(w, e);
    } else {
      assert (events + [e])[1..] == events[1..] + [e];
      RunThen(Step(w, events[0]), events[1..], e);
    }
  }

  /** A bearer confirmation for this service and request, not before its start and before its end by the skew. */
  predicate IsGoodFor(c: Confirmation, requestId: string, now: int, skew: int) {
    && c.bearer && c.recipientMatches && c.inResponseTo == requestId
    && (match c.notBefore case Absent => true case Unparsable => false case At(start) => start - skew <= now)
    && (match c.notOnOrAfter case At(end) => now < end + skew case _ => false)
  }

  ghost predicate HasGoodConfirmation(v: Verdict, requestId: string, now: int, skew: int)
    requires v.Profile?
  {
    exists i :: 0 <= i < |v.confirmations| && IsGoodFor(v.confirmations[i], requestId, now, skew)
  }

  /** The post's response was for this destination and request, and its signed profile for this request and issuer. */
  ghost predicate Vouched(post: Post, e: Envelope, v: Verdict, now: int) {
    && post.pending.Pending?
    && e.destinationMatches && e.inResponseTo == post.pending.requestId && e.id == post.responseId
    && v.Profile? && v.inResponseTo == post.pending.requestId && v.issuerMatches
    && v.assertionId == Some(post.assertionId)
    && HasGoodConfirmation(v, post.pending.requestId, now, post.broker.clockSkew)
  }

  predicate SameCall(a: Post, b: Post) {
    a.broker == b.broker && a.relayState == b.relayState && a.pending == b.pending
  }

  /** The step by which call `p` passes all checks. */
  ghost predicate Passes(w: World, e: Event, p: nat, post: Post) {
    && e.Validate? && e.post == p && At(w, p, Looked) && SameCall(w.posts[p], post)
    && Vouched(post, e.envelope, e.verdict, w.now)
  }

  predicate PastChecks(p: Post) {
    p.phase.Validated? || p.phase.HoldsResponse? || p.phase.HoldsAssertion? || p.phase.Found? || p.phase.Won?
  }

  predicate SameIds(a: Post, b: Post) {
    SameCall(a, b) && a.responseId == b.responseId && a.assertionId == b.assertionId
  }

  /** `Checked` accepts what all the checks accept. */
  lemma CheckedIsVouched(pending: Value, e: Envelope, v: Verdict, now: int, skew: nat)
    requires pending.Pending?
    ensures Checked(pending, e, v, now, skew).Ok? <==>
      && e.destinationMatches && e.inResponseTo == pending.requestId
      && v.Profile? && v.inResponseTo == pending.requestId && v.issuerMatches && v.assertionId.Some?
      && HasGoodConfirmation(v, pending.requestId, now, skew)
    ensures Checked(pending, e, v, now, skew).Ok? ==>
      Checked(pending, e, v, now, skew).value == (e.id, v.assertionId.value)
  {
    if v.Profile? {
      assert forall i :: 0 <= i < |v.confirmations| ==>
          (Confirms(v.confirmations[i], pending.requestId, now, skew) <==>
           IsGoodFor(v.confirmations[i], pending.requestId, now, skew));
      assert (exists c :: c in v.confirmations && Confirms(c, pending.requestId, now, skew)) <==>
          (exists i :: 0 <= i < |v.confirmations| && Confirms(v.confirmations[i], pending.requestId, now, skew));
    }
  }

  /** Every later step of a call keeps its ids; only a response that is vouched for gets it past the checks. */
  lemma StepPasses(w: World, e: Event, p: nat)
    requires p < |Step(w, e).posts| && PastChecks(Step(w, e).posts[p])
    ensures var post := Step(w, e).posts[p];
      if p < |w.posts| && PastChecks(w.posts[p]) then SameIds(w.posts[p], post) else Passes(w, e, p, post)
  {
    if e.Validate? && At(w, e.post, Looked) && w.posts[e.post].pending.Pending? {
      var post := w.posts[e.post];
      CheckedIsVouched(post.pending, e.envelope, e.verdict, w.now, post.broker.clockSkew);
    }
  }

  ghost predicate PassedAt(impl: Implementation, events: seq<Event>, i: nat, p: nat, post: Post)
    requires i < |events|
  {
    Passes(Run(Empty(impl), events[..i]), events[i], p, post)
  }

  lemma {:induction false} PassedBefore(impl: Implementation, events: seq<Event>, p: nat) returns (i: nat)
    requires p < |Run(Empty(impl), events).posts| && PastChecks(Run(Empty(impl), events).posts[p])
    ensures i < |events| && PassedAt(impl, events, i, p, Run(Empty(impl), events).posts[p])
    decreases |events|
  {
    var front, e := events[..|events| - 1], events[|events| - 1];
    assert events == front + [e];
    RunThen(Empty(impl), front, e);
    var w := Run(Empty(impl), front);
    StepPasses(w, e, p);
    if p < |w.posts| && PastChecks(w.posts[p]) {
      i := PassedBefore(impl, front, p);
      assert front[..i] == events[..i];
    } else {
      i := |front|;
    }
  }

  /**
   In every run a successful post was validated: at some event of the run its response was addressed
   to this service and answered the request of the state read, its signatures were valid, and the
   signed profile named that request, the configured issuer and a bearer confirmation that was good
   at that moment. The response and assertion ids claimed are the ones of that response.
   */
  lemma WinnersWereVouchedFor(impl: Implementation, events: seq<Event>, p: nat)
    requires At(Run(Empty(impl), events), p, Won)
    ensures exists i :: 0 <= i < |events| && PassedAt(impl, events, i, p, Run(Empty(impl), events).posts[p])
  {
    var i := PassedBefore(impl, events, p);
  }

  /** Which failure each missed check gives: that of the first one missed, in this order. */
  lemma MissedChecksFail(w: World, p: nat, e: Envelope, v: Verdict)
    requires At(w, p, Looked) && w.posts[p].pending.Pending?
    ensures var phase, requestId := Step(w, Validate(p, e, v)).posts[p].phase, w.posts[p].pending.requestId;
      var addressed := e.destinationMatches && e.inResponseTo == requestId;
      var signed := addressed && v.Profile? && v.inResponseTo == requestId;
      var issued := signed && v.issuerMatches;
      && (phase == Failed(InvalidDestination) <==> !e.destinationMatches)
      && (phase == Failed(InvalidInResponseTo) <==>
            e.destinationMatches && (e.inResponseTo != requestId || (v.Profile? && v.inResponseTo != requestId)))
      && (phase == Failed(InvalidResponse) <==> addressed && v.Invalid?)
      && (phase == Failed(InvalidIssuer) <==> signed && !v.issuerMatches)
      && (phase == Failed(MalformedAssertion) <==> issued && v.assertionId.None?)
      && (phase == Failed(InvalidSubjectConfirmation) <==>
            issued && v.assertionId.Some? && !HasGoodConfirmation(v, requestId, w.now, w.posts[p].broker.clockSkew))
      && (phase == Validated <==>
            issued && v.assertionId.Some? && HasGoodConfirmation(v, requestId, w.now, w.posts[p].broker.clockSkew))
  {
    CheckedIsVouched(w.posts[p].pending, e, v, w.now, w.posts[p].broker.clockSkew);
  }

  predicate Base64Url(c: char) {
    'A' <= c <= 'Z' || 'a' <= c <= 'z' || '0' <= c <= '9' || c in {'-', '_'}
  }

  /** A post gets past its first read exactly when its RelayState has the right form and is on offer. */
  lemma BeginsIffOffered(w: World, b: Broker, relayState: string)
    ensures var after, k := Step(w, BeginPost(b, relayState)), KeyOf(b, State, relayState);
      var p := |w.posts|;
      && |after.posts| == p + 1 && after.posts[..p] == w.posts
      && after.posts[p].broker == b && after.posts[p].relayState == relayState
      && (if && 32 <= |relayState| <= 80 && (forall i :: 0 <= i < |relayState| ==> Base64Url(relayState[i]))
             && k in Offered(w.cache, w.now) && Offered(w.cache, w.now)[k].Pending?
          then after.posts[p].phase == Looked && after.posts[p].pending == Offered(w.cache, w.now)[k]
          else after.posts[p].phase == Failed(InvalidRelayState))
  {
    GetAnswersTheOffered(w.impl, w.cache, KeyOf(b, State, relayState), w.now, w.now);
    assert forall c :: c in relayState ==> exists i :: 0 <= i < |relayState| && relayState[i] == c;
    assert forall i :: 0 <= i < |relayState| ==> relayState[i] in relayState;
  }

  lemma StartIsAPut(w: World, b: Broker, relayState: string, uid: string, requestId: string, drift: nat)
    ensures var after := Step(w, Start(b, relayState, uid, requestId, drift));
      var k, state := KeyOf(b, State, relayState), Pending(b.realm, b.providerId, uid, requestId);
      var put := PutIfAbsent(w.impl, w.cache, k, state, b.requestTtl, w.now, w.now + drift);
      && after.cache == put.0 && after.starts == (if put.1 then w.starts + [Started(k, state)] else w.starts)
      && after.now == w.now + drift && after.posts == w.posts
  {
  }

  /**
   `start` succeeds exactly on a RelayState that is not blocked, which stays blocked for the request's
   lifetime; a new one is on offer with its state for just as long, and no other offer changes.
   */
  lemma StartOffersItsState(w: World, b: Broker, relayState: string, uid: string, requestId: string, drift: nat,
                            later: nat)
    requires w.now <= later
    ensures var after := Step(w, Start(b, relayState, uid, requestId, drift));
      var k, state := KeyOf(b, State, relayState), Pending(b.realm, b.providerId, uid, requestId);
      var end := w.now + drift + b.requestTtl;
      if Blocked(w.impl, w.cache, k, w.now) then
        after.starts == w.starts && Offered(after.cache, later) == Offered(w.cache, later)
      else
        && after.starts == w.starts + [Started(k, state)]
        && Offered(after.cache, later) - {k} == Offered(w.cache, later) - {k}
        && (Blocked(w.impl, after.cache, k, later) <==> w.impl.PostgresAdapter? || later < end)
        && (k !in w.cache ==>
              && (k in Offered(after.cache, later) <==> later < end)
              && (later < end ==> Offered(after.cache, later)[k] == state))
  {
    var k, state := KeyOf(b, State, relayState), Pending(b.realm, b.providerId, uid, requestId);
    StartIsAPut(w, b, relayState, uid, requestId, drift);
    PutOffers(w.impl, w.cache, k, state, b.requestTtl, w.now, w.now + drift, later);
    PutBlocks(w.impl, w.cache, k, state, b.requestTtl, w.now, w.now + drift, later);
  }

  /** A claim that succeeds blocks its key for the replay lifetime, counted from the later reading of the clock. */
  lemma ClaimsBlockForTheReplayLifetime(w: World, p: nat, drift: nat, later: nat)
    requires p < |w.posts|
    ensures var end := w.now + drift + w.posts[p].broker.replayTtl;
      var after := Step(w, ClaimResponse(p, drift));
      At(w, p, Validated) && At(after, p, HoldsResponse) ==>
        (Blocked(w.impl, after.cache, ResponseKey(w.posts[p]), later) <==> w.impl.PostgresAdapter? || later < end)
    ensures var end := w.now + drift + w.posts[p].broker.replayTtl;
      var after := Step(w, ClaimAssertion(p, drift));
      At(w, p, HoldsResponse) && At(after, p, HoldsAssertion) ==>
        (Blocked(w.impl, after.cache, AssertionKey(w.posts[p]), later) <==> w.impl.PostgresAdapter? || later < end)
  {
    var ttl := w.posts[p].broker.replayTtl;
    PutBlocks(w.impl, w.cache, ResponseKey(w.posts[p]), Mark, ttl, w.now, w.now + drift, later);
    PutBlocks(w.impl, w.cache, AssertionKey(w.posts[p]), Mark, ttl, w.now, w.now + drift, later);
  }

  /** A claim is refused, as a replay of the response or of the assertion, exactly when its key is blocked. */
  lemma ClaimsFailIffBlocked(w: World, p: nat, drift: nat)
    ensures At(w, p, Validated) ==>
      Step(w, ClaimResponse(p, drift)).posts[p].phase ==
      if Blocked(w.impl, w.cache, KeyOf(w.posts[p].broker, Response, w.posts[p].responseId), w.now)
      then Failed(ReplayedResponse) else HoldsResponse
    ensures At(w, p, HoldsResponse) ==>
      Step(w, ClaimAssertion(p, drift)).posts[p].phase ==
      if Blocked(w.impl, w.cache, KeyOf(w.posts[p].broker, Assertion, w.posts[p].assertionId), w.now)
      then Failed(ReplayedAssertion) else HoldsAssertion
  {
    if At(w, p, Validated) {
      var k, ttl := ResponseKey(w.posts[p]), w.posts[p].broker.replayTtl;
      PutOffers(w.impl, w.cache, k, Mark, ttl, w.now, w.now + drift, w.now);
    }
    if At(w, p, HoldsResponse) {
      var k, ttl := AssertionKey(w.posts[p]), w.posts[p].broker.replayTtl;
      PutOffers(w.impl, w.cache, k, Mark, ttl, w.now, w.now + drift, w.now);
    }
  }

  /** The last step succeeds exactly when the state read at first is still on offer, and takes it away. */
  lemma ConsumesIffOffered(w: World, p: nat)
    requires At(w, p, HoldsAssertion) && w.posts[p].pending.Pending? && (w.impl.Process? ==> NeverConsumed(w.cache))
    ensures var k := KeyOf(w.posts[p].broker, State, w.posts[p].relayState);
      var after := Step(Step(w, BeginConsume(p)), EndConsume(p));
      var offered := k in Offered(w.cache, w.now);
      && after.posts[p].phase ==
         (if offered && Offered(w.cache, w.now)[k] == w.posts[p].pending then Won else Failed(InvalidRelayState))
      && (forall later :: later >= w.now ==> Offered(after.cache, later) == Offered(w.cache, later) - {k})
  {
    var k := StateKey(w.posts[p]);
    forall later | later >= w.now
      ensures Offered(Step(Step(w, BeginConsume(p)), EndConsume(p)).cache, later) == Offered(w.cache, later) - {k}
    {
      CommitTakesTheOffered(w.impl, w.cache, k, w.now, later);
    }
    GetAnswersTheOffered(w.impl, w.cache, k, w.now, w.now);
    CommitTakesTheOffered(w.impl, w.cache, k, w.now, w.now);
  }

  // ---------- replay records ----------

  /** The claim's record still stands in the cache, or its time is over. */
  predicate Covered(c: Cache, now: int, claim: Claim) {
    claim.until <= now || (claim.key in c && claim.until <= c[claim.key].expiresAt)
  }

  predicate IsReplayKey(k: Key) {
    k.kind.Response? || k.kind.Assertion?
  }

  function ClaimOf(p: Post, kind: Kind): Option<Claim> {
    if kind.Response? then p.responseClaim else p.assertionClaim
  }

  function ReplayKey(p: Post, kind: Kind): Key {
    if kind.Response? then ResponseKey(p) else AssertionKey(p)
  }

  predicate Claims(p: Post, kind: Kind) {
    p.phase.HoldsAssertion? || p.phase.Found? || p.phase.Won? || (kind.Response? && p.phase.HoldsResponse?)
  }

  /** A post past its claim holds one on its own key, for at least `replayTtl`, and a covered one. */
  predicate ClaimInv(w: World, p: nat, kind: Kind) {
    p < |w.posts| ==>
      var post := w.posts[p];
      && (Claims(post, kind) ==> ClaimOf(post, kind).Some?)
      && (!Claims(post, kind) && !post.phase.Failed? ==> ClaimOf(post, kind).None?)
      && (ClaimOf(post, kind).Some? ==>
            var claim := ClaimOf(post, kind).value;
            && claim.key == ReplayKey(post, kind)
            && claim.from + post.broker.replayTtl <= claim.until
            && claim.from <= w.now
            && Covered(w.cache, w.now, claim))
  }

  predicate Apart(a: Option<Claim>, b: Option<Claim>) {
    a.Some? && b.Some? && a.value.key == b.value.key ==> a.value.until <= b.value.from || b.value.until <= a.value.from
  }

  predicate ReplayInv(w: World, p: nat, q: nat, kind: Kind) {
    && ClaimInv(w, p, kind) && ClaimInv(w, q, kind)
    && (p < |w.posts| && q < |w.posts| ==> Apart(ClaimOf(w.posts[p], kind), ClaimOf(w.posts[q], kind)))
  }

  /** A `putIfAbsent` covers what was covered, and succeeds only where every earlier claim has lapsed. */
  lemma PutKeepsCover(w: World, k: Key, v: Value, ttl: nat, drift: nat, claim: Claim)
    requires Covered(w.cache, w.now, claim)
    ensures var put := Put(w, k, v, ttl, drift);
      && Covered(put.0.cache, put.0.now, claim)
      && (put.1 ==> Covered(put.0.cache, put.0.now, Claim(k, w.now, put.0.now + ttl)))
      && (put.1 && claim.key == k ==> claim.until <= w.now)
  {
  }

  lemma CommitKeepsCover(impl: Implementation, c: Cache, k: Key, now: int, claim: Claim)
    requires Covered(c, now, claim) && claim.key != k
    ensures Covered(Commit(impl, c, k, now).0, now, claim)
  {
  }

  lemma PutKeepsClaimInv(w: World, k: Key, v: Value, ttl: nat, drift: nat, p: nat, kind: Kind)
    requires ClaimInv(w, p, kind)
    ensures ClaimInv(Put(w, k, v, ttl, drift).0, p, kind)
  {
    if p < |w.posts| && ClaimOf(w.posts[p], kind).Some? {
      PutKeepsCover(w, k, v, ttl, drift, ClaimOf(w.posts[p], kind).value);
    }
  }

  lemma CommitKeepsClaimInv(w: World, k: Key, p: nat, kind: Kind)
    requires ClaimInv(w, p, kind) && !IsReplayKey(k)
    ensures ClaimInv(w.(cache := Commit(w.impl, w.cache, k, w.now).0), p, kind)
  {
    if p < |w.posts| && ClaimOf(w.posts[p], kind).Some? {
      CommitKeepsCover(w.impl, w.cache, k, w.now, ClaimOf(w.posts[p], kind).value);
    }
  }

  lemma ClaimStepKeepsClaimInv(w: World, r: nat, drift: nat, p: nat, kind: Kind)
    requires r < |w.posts| && ClaimInv(w, p, kind)
    ensures w.posts[r].phase.Validated? ==> ClaimInv(AfterResponseClaim(w, r, drift), p, kind)
    ensures w.posts[r].phase.HoldsResponse? ==> ClaimInv(AfterAssertionClaim(w, r, drift), p, kind)
  {
    var post := w.posts[r];
    var ttl := post.broker.replayTtl;
    PutKeepsClaimInv(w, ResponseKey(post), Mark, ttl, drift, p, kind);
    PutKeepsClaimInv(w, AssertionKey(post), Mark, ttl, drift, p, kind);
    PutKeepsCover(w, ResponseKey(post), Mark, ttl, drift, Claim(ResponseKey(post), 0, w.now));
    PutKeepsCover(w, AssertionKey(post), Mark, ttl, drift, Claim(AssertionKey(post), 0, w.now));
  }

  lemma StartKeepsClaimInv(w: World, b: Broker, relayState: string, uid: string, requestId: string, drift: nat,
                           p: nat, kind: Kind)
    requires ClaimInv(w, p, kind)
    ensures ClaimInv(AfterStart(w, b, relayState, uid, requestId, drift), p, kind)
  {
    PutKeepsClaimInv(w, KeyOf(b, State, relayState), Pending(b.realm, b.providerId, uid, requestId), b.requestTtl,
      drift, p, kind);
  }

  lemma BeginKeepsClaimInv(w: World, b: Broker, relayState: string, p: nat, kind: Kind)
    requires ClaimInv(w, p, kind)
    ensures ClaimInv(AfterBegin(w, b, relayState), p, kind)
  {
  }

  lemma BeginConsumeKeepsClaimInv(w: World, r: nat, p: nat, kind: Kind)
    requires At(w, r, HoldsAssertion) && ClaimInv(w, p, kind)
    ensures ClaimInv(AfterBeginConsume(w, r), p, kind)
  {
    CommitKeepsClaimInv(w, StateKey(w.posts[r]), p, kind);
  }

  lemma EndConsumeKeepsClaimInv(w: World, r: nat, p: nat, kind: Kind)
    requires r < |w.posts| && w.posts[r].phase.Found? && ClaimInv(w, p, kind)
    ensures ClaimInv(AfterEndConsume(w, r), p, kind)
  {
    CommitKeepsClaimInv(w, StateKey(w.posts[r]), p, kind);
  }

  lemma StepKeepsClaimInv(w: World, e: Event, p: nat, kind: Kind)
    requires ClaimInv(w, p, kind)
    ensures ClaimInv(Step(w, e), p, kind)
  {
    match e
    case Start(b, relayState, uid, requestId, drift) =>
      StartKeepsClaimInv(w, b, relayState, uid, requestId, drift, p, kind);
    case BeginPost(b, relayState) => BeginKeepsClaimInv(w, b, relayState, p, kind);
    case ClaimResponse(r, drift) => if At(w, r, Validated) { ClaimStepKeepsClaimInv(w, r, drift, p, kind); }
    case ClaimAssertion(r, drift) => if At(w, r, HoldsResponse) { ClaimStepKeepsClaimInv(w, r, drift, p, kind); }
    case BeginConsume(r) => if At(w, r, HoldsAssertion) { BeginConsumeKeepsClaimInv(w, r, p, kind); }
    case EndConsume(r) => if r < |w.posts| && w.posts[r].phase.Found? { EndConsumeKeepsClaimInv(w, r, p, kind); }
    case PutRequest(b, id, text, drift) =>
      PutKeepsClaimInv(w, KeyOf(b, Request, id), Text(text), b.requestTtl, drift, p, kind);
    case TakeRequest(b, id) => CommitKeepsClaimInv(w, KeyOf(b, Request, id), p, kind);
    case _ =>
  }

  /** A step gives at most one post a new claim, and then only where the other's has lapsed. */
  lemma StepKeepsApart(w: World, e: Event, p: nat, q: nat, kind: Kind)
    requires p != q && p < |Step(w, e).posts| && q < |Step(w, e).posts|
    requires ReplayInv(w, p, q, kind)
    ensures Apart(ClaimOf(Step(w, e).posts[p], kind), ClaimOf(Step(w, e).posts[q], kind))
  {
    if p < |w.posts| && q < |w.posts| {
      if e.ClaimResponse? && e.post in {p, q} && At(w, e.post, Validated) {
        var other := ClaimOf(w.posts[if e.post == p then q else p], kind);
        if other.Some? {
          PutKeepsCover(w, ResponseKey(w.posts[e.post]), Mark, w.posts[e.post].broker.replayTtl, e.drift, other.value);
        }
      } else if e.ClaimAssertion? && e.post in {p, q} && At(w, e.post, HoldsResponse) {
        var other := ClaimOf(w.posts[if e.post == p then q else p], kind);
        if other.Some? {
          PutKeepsCover(w, AssertionKey(w.posts[e.post]), Mark, w.posts[e.post].broker.replayTtl, e.drift, other.value);
        }
      }
    }
  }

  lemma {:induction false} RunKeepsReplayInv(w: World, events: seq<Event>, p: nat, q: nat, kind: Kind)
    requires p != q && ReplayInv(w, p, q, kind)
    ensures ReplayInv(Run(w, events), p, q, kind)
    decreases |events|
  {
    if events != [] {
      StepKeepsClaimInv(w, events[0], p, kind);
      StepKeepsClaimInv(w, events[0], q, kind);
      if p < |Step(w, events[0]).posts| && q < |Step(w, events[0]).posts| { StepKeepsApart(w, events[0], p, q, kind); }
      RunKeepsReplayInv(Step(w, events[0]), events[1..], p, q, kind);
    }
  }

  /**
   Two successes with the same response id, or with the same assertion id, claimed it at least
   the first one's `replayTtl` apart: no response and no assertion is used twice while its
   replay record lives.
   */
  lemma ReplaysAreSeparated(impl: Implementation, events: seq<Event>, p: nat, q: nat, kind: Kind)
    requires p != q && (kind.Response? || kind.Assertion?)
    requires var w := Run(Empty(impl), events);
      At(w, p, Won) && At(w, q, Won) && ReplayKey(w.posts[p], kind) == ReplayKey(w.posts[q], kind)
    ensures var w := Run(Empty(impl), events);
      var a := ClaimOf(w.posts[p], kind);
      var b := ClaimOf(w.posts[q], kind);
      && a.Some? && b.Some?
      && (a.value.from + w.posts[p].broker.replayTtl <= b.value.from ||
          b.value.from + w.posts[q].broker.replayTtl <= a.value.from)
  {
    RunKeepsReplayInv(Empty(impl), events, p, q, kind);
  }

  // ---------- an undisturbed login succeeds ----------

  function Login(b: Broker, p: nat, relayState: string, requestId: string, responseId: string, assertionId: string,
                 confirmation: Confirmation): seq<Event> {
    [ BeginPost(b, relayState),
      Validate(p, Envelope(true, requestId, responseId), Profile(requestId, true, Some(assertionId), [confirmation])),
      ClaimResponse(p, 0),
      ClaimAssertion(p, 0),
      BeginConsume(p),
      EndConsume(p) ]
  }

  /** Post `p` stands at `phase` with the ids of one login, and its state is still to be had. */
  predicate Ready(w: World, p: nat, b: Broker, relayState: string, state: Value, phase: Phase) {
    && At(w, p, phase)
    && w.posts[p].broker == b && w.posts[p].relayState == relayState && w.posts[p].pending == state
    && Available(w.cache, KeyOf(b, State, relayState), w.now) && w.cache[KeyOf(b, State, relayState)].value == state
  }

  predicate Names(w: World, p: nat, responseId: string, assertionId: string) {
    p < |w.posts| && w.posts[p].responseId == responseId && w.posts[p].assertionId == assertionId
  }

  lemma BeginIsReady(w: World, b: Broker, relayState: string, k: Key)
    requires ValidRelayState(relayState) && Available(w.cache, KeyOf(b, State, relayState), w.now)
    requires w.cache[KeyOf(b, State, relayState)].value.Pending?
    ensures Ready(AfterBegin(w, b, relayState), |w.posts|, b, relayState, w.cache[KeyOf(b, State, relayState)].value,
      Looked)
    ensures k !in w.cache ==> k !in AfterBegin(w, b, relayState).cache
  {
  }

  lemma ClaimIsReady(w: World, p: nat, b: Broker, relayState: string, state: Value, k: Key)
    requires p < |w.posts| && b == w.posts[p].broker
    ensures Ready(w, p, b, relayState, state, Validated) && ResponseKey(w.posts[p]) !in w.cache
        ==> Ready(AfterResponseClaim(w, p, 0), p, b, relayState, state, HoldsResponse)
    ensures Ready(w, p, b, relayState, state, HoldsResponse) && AssertionKey(w.posts[p]) !in w.cache
        ==> Ready(AfterAssertionClaim(w, p, 0), p, b, relayState, state, HoldsAssertion)
    ensures k !in w.cache && k != ResponseKey(w.posts[p]) ==> k !in AfterResponseClaim(w, p, 0).cache
    ensures Names(AfterResponseClaim(w, p, 0), p, w.posts[p].responseId, w.posts[p].assertionId)
  {
  }

  lemma ConsumeWins(w: World, p: nat, b: Broker, relayState: string, state: Value)
    requires Ready(w, p, b, relayState, state, HoldsAssertion) && state.Pending?
    ensures var after := Step(Step(w, BeginConsume(p)), EndConsume(p));
      && At(after, p, Won) && after.posts[p].pending == state
      && !Available(after.cache, KeyOf(b, State, relayState), after.now)
  {
    var middle := Step(w, BeginConsume(p));
    assert if w.impl.Process? then At(middle, p, Won) else At(middle, p, Found(state));
  }

  lemma ClaimsThenConsumeWin(w: World, p: nat, b: Broker, relayState: string, state: Value, responseId: string,
                             assertionId: string)
    requires Ready(w, p, b, relayState, state, Validated) && Names(w, p, responseId, assertionId) && state.Pending?
    requires KeyOf(b, Response, responseId) !in w.cache && KeyOf(b, Assertion, assertionId) !in w.cache
    ensures var after :=
      Step(Step(Step(Step(w, ClaimResponse(p, 0)), ClaimAssertion(p, 0)), BeginConsume(p)), EndConsume(p));
      && At(after, p, Won) && after.posts[p].pending == state
      && !Available(after.cache, KeyOf(b, State, relayState), after.now)
  {
    ClaimIsReady(w, p, b, relayState, state, KeyOf(b, Assertion, assertionId));
    var w1 := AfterResponseClaim(w, p, 0);
    ClaimIsReady(w1, p, b, relayState, state, KeyOf(b, Assertion, assertionId));
    ConsumeWins(AfterAssertionClaim(w1, p, 0), p, b, relayState, state);
  }

  /** With its state in the cache and its ids unclaimed, a valid response that runs through is accepted. */
  lemma UndisturbedLoginWins(w: World, b: Broker, relayState: string, responseId: string, assertionId: string,
                             confirmation: Confirmation)
    requires ValidRelayState(relayState)
    requires Available(w.cache, KeyOf(b, State, relayState), w.now) &&
      w.cache[KeyOf(b, State, relayState)].value.Pending?
    requires Confirms(confirmation, w.cache[KeyOf(b, State, relayState)].value.requestId, w.now, b.clockSkew)
    requires KeyOf(b, Response, responseId) !in w.cache && KeyOf(b, Assertion, assertionId) !in w.cache
    ensures var state := w.cache[KeyOf(b, State, relayState)].value;
      var after := Run(w, Login(b, |w.posts|, relayState, state.requestId, responseId, assertionId, confirmation));
      && At(after, |w.posts|, Won) && after.posts[|w.posts|].pending == state
      && !Available(after.cache, KeyOf(b, State, relayState), after.now)
  {
    var state := w.cache[KeyOf(b, State, relayState)].value;
    var p := |w.posts|;
    var events := Login(b, p, relayState, state.requestId, responseId, assertionId, confirmation);
    var w1 := AfterBegin(w, b, relayState);
    BeginIsReady(w, b, relayState, KeyOf(b, Response, responseId));
    BeginIsReady(w, b, relayState, KeyOf(b, Assertion, assertionId));
    var w2 := Step(w1, events[1]);
    assert confirmation in [confirmation];
    assert Ready(w2, p, b, relayState, state, Validated) && Names(w2, p, responseId, assertionId);
    ClaimsThenConsumeWin(w2, p, b, relayState, state, responseId, assertionId);
    Unroll(w, events);
  }

  lemma Unroll(w: World, events: seq<Event>)
    requires |events| == 6
    ensures Run(w, events) ==
      Step(Step(Step(Step(Step(Step(w, events[0]), events[1]), events[2]), events[3]), events[4]), events[5])
  {
    var w2 := Step(Step(w, events[0]), events[1]);
    var w4 := Step(Step(w2, events[2]), events[3]);
    UnrollTwo(w, events);
    UnrollTwo(w2, events[2..]);
    assert events[2..][2..] == events[4..];
    UnrollTwo(w4, events[4..]);
  }

  lemma UnrollTwo(w: World, events: seq<Event>)
    requires |events| >= 2
    ensures Run(w, events) == Run(Step(Step(w, events[0]), events[1]), events[2..])
  {
    assert events[1..][0] == events[1] && events[1..][1..] == events[2..];
  }
}
