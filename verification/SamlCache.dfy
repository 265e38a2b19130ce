/**
 The cache behind the SAML one-use protocol: its key names, its three implementations as
 functions, and the process-local one as the code has it.
 */
module SamlCache {
  import opened Wrappers
  import OidcRecords

  // ---------- key names ----------

  datatype Kind = State | Response | Assertion | Request

  datatype Key = Key(realm: string, providerId: string, kind: Kind, id: string)

  function KindName(kind: Kind): string {
    match kind
    case State => "state"
    case Response => "response"
    case Assertion => "assertion"
    case Request => "request"
  }

  function Joined(first: string, rest: string): string {
    first + ":" + rest
  }

  function Name(k: Key): string {
    Joined("saml", Joined(k.realm, Joined(k.providerId, Joined(KindName(k.kind), k.id))))
  }

  predicate ColonFree(s: string) {
    ':' !in s
  }

  /** The provider ids the broker accepts. */
  predicate ProviderId(s: string) {
    && 0 < |s| <= 128 && Alphanumeric(s[0])
    && forall i :: 0 <= i < |s| ==> Alphanumeric(s[i]) || s[i] in {'.', '_', '-'}
  }

  predicate Alphanumeric(c: char) {
    'a' <= c <= 'z' || 'A' <= c <= 'Z' || '0' <= c <= '9'
  }

  lemma AlphanumericByCode(c: char)
    ensures Alphanumeric(c) <==> 48 <= c as int <= 57 || 65 <= c as int <= 90 || 97 <= c as int <= 122
  {
  }

  lemma ProviderIdsHoldNoColon(s: string)
    requires ProviderId(s)
    ensures ColonFree(s)
  {
  }

  /** The text before the first colon, or all of it. */
  function Segment(s: string): string {
    if s == "" || s[0] == ':' then "" else [s[0]] + Segment(s[1..])
  }

  lemma {:induction false} SegmentEnds(s: string)
    ensures |Segment(s)| <= |s| && ColonFree(Segment(s)) && s[..|Segment(s)|] == Segment(s)
    ensures ColonFree(s) <==> Segment(s) == s
    ensures !ColonFree(s) ==> |Segment(s)| < |s| && s == Joined(Segment(s), s[|Segment(s)| + 1..])
  {
    if s != "" && s[0] != ':' { SegmentEnds(s[1..]); }
  }

  lemma {:induction false} SegmentOfJoined(s: string, rest: string)
    ensures Segment(Joined(s, rest)) == Segment(s)
  {
    if s != "" {
      assert Joined(s, rest)[1..] == Joined(s[1..], rest);
      if s[0] != ':' { SegmentOfJoined(s[1..], rest); }
    }
  }

  lemma SplitAtColon(a: string, x: string, s: string, y: string)
    requires ColonFree(a) && Joined(a, x) == Joined(s, y)
    ensures a == Segment(s)
    ensures ColonFree(s) ==> x == y
    ensures !ColonFree(s) ==> |a| < |s| && x == Joined(s[|a| + 1..], y)
  {
    SegmentOfJoined(a, x);
    SegmentOfJoined(s, y);
    SegmentEnds(a);
    SegmentEnds(s);
    if ColonFree(s) {
      SamePrefix(a, x, y);
    } else {
      JoinedThrice(a, s[|a| + 1..], y);
      SamePrefix(a, x, Joined(s[|a| + 1..], y));
    }
  }

  lemma SamePrefix(a: string, x: string, y: string)
    requires Joined(a, x) == Joined(a, y)
    ensures x == y
  {
    assert Joined(a, x)[|a| + 1..] == x && Joined(a, y)[|a| + 1..] == y;
  }

  lemma KindNamesDiffer(a: Kind, b: Kind)
    ensures ColonFree(KindName(a)) && (KindName(a) == KindName(b) <==> a == b)
  {
    assert KindName(State)[2] == 'a' && KindName(Response)[2] == 's' && KindName(Request)[2] == 'q';
    assert KindName(Assertion)[0] == 'a' && KindName(Response)[0] == 'r' && KindName(State)[0] == 's';
  }

  function AfterRealm(k: Key): string {
    Joined(k.providerId, Joined(KindName(k.kind), k.id))
  }

  lemma NamesInOneRealmDiffer(j: Key, k: Key)
    requires ColonFree(j.providerId) && ColonFree(k.providerId) && j.realm == k.realm && Name(j) == Name(k)
    ensures j == k
  {
    SamePrefix("saml", Joined(j.realm, AfterRealm(j)), Joined(k.realm, AfterRealm(k)));
    SamePrefix(j.realm, AfterRealm(j), AfterRealm(k));
    SplitAtColon(j.providerId, Joined(KindName(j.kind), j.id), k.providerId, Joined(KindName(k.kind), k.id));
    SegmentEnds(k.providerId);
    KindNamesDiffer(j.kind, k.kind);
    KindNamesDiffer(k.kind, j.kind);
    SplitAtColon(KindName(j.kind), j.id, KindName(k.kind), k.id);
    SegmentEnds(KindName(k.kind));
  }

  predicate IsKindName(s: string) {
    s in {KindName(State), KindName(Response), KindName(Assertion), KindName(Request)}
  }

  /** One realm is the other, a colon and a text that is one segment or has a kind's name as its second. */
  predicate Extends(q: string, r: string) {
    && |r| < |q| && q[..|r|] == r && q[|r|] == ':'
    && var t := q[|r| + 1..];
       ColonFree(t) || (|Segment(t)| < |t| && IsKindName(Segment(t[|Segment(t)| + 1..])))
  }

  /** The segment after the shorter realm is then the provider whose key has the shared name. */
  function NextSegment(q: string, r: string): string
    requires |r| < |q|
  {
    Segment(q[|r| + 1..])
  }

  lemma ShorterIsPrefix(r: string, x: string, q: string, y: string)
    requires |r| < |q| && Joined(r, x) == Joined(q, y)
    ensures q[..|r|] == r && q[|r|] == ':' && x == Joined(q[|r| + 1..], y)
  {
    var s := Joined(r, x);
    assert s[..|q|] == q && s[..|r|] == r && s[|r|] == ':';
    assert q[..|r|] == s[..|r|] && q[|r|] == s[|r|];
    assert s[|r| + 1..] == x && s[|r| + 1..] == Joined(q[|r| + 1..], y);
  }

  lemma SharedNamesExtend(j: Key, k: Key)
    requires ColonFree(j.providerId) && |j.realm| < |k.realm| && Name(j) == Name(k)
    ensures Extends(k.realm, j.realm) && NextSegment(k.realm, j.realm) == j.providerId
  {
    SamePrefix("saml", Joined(j.realm, AfterRealm(j)), Joined(k.realm, AfterRealm(k)));
    ShorterIsPrefix(j.realm, AfterRealm(j), k.realm, AfterRealm(k));
    TailsMeet(j, k.realm[|j.realm| + 1..], AfterRealm(k));
  }

  lemma TailsMeet(j: Key, t: string, y: string)
    requires ColonFree(j.providerId) && AfterRealm(j) == Joined(t, y)
    ensures Segment(t) == j.providerId
    ensures ColonFree(t) || (|Segment(t)| < |t| && IsKindName(Segment(t[|Segment(t)| + 1..])))
  {
    SplitAtColon(j.providerId, Joined(KindName(j.kind), j.id), t, y);
    SegmentEnds(t);
    if !ColonFree(t) {
      KindNamesDiffer(j.kind, j.kind);
      SplitAtColon(KindName(j.kind), j.id, t[|Segment(t)| + 1..], y);
    }
  }

  predicate ShareName(j: Key, k: Key, r: string, q: string) {
    && j.realm == r && k.realm == q && Name(j) == Name(k)
    && ProviderId(j.providerId) && ProviderId(k.providerId)
  }

  ghost predicate RealmsShareName(r: string, q: string) {
    exists j, k :: ShareName(j, k, r, q)
  }

  lemma JoinedThrice(a: string, b: string, c: string)
    ensures Joined(Joined(a, b), c) == Joined(a, Joined(b, c))
  {
  }

  lemma NamesMeet(j: Key, k: Key, t: string)
    requires k.realm == Joined(j.realm, t) && Joined(t, AfterRealm(k)) == AfterRealm(j)
    ensures Name(j) == Name(k)
  {
    JoinedThrice(j.realm, t, AfterRealm(k));
  }

  /** What follows the first segment of the extension begins with a kind's name. */
  lemma RestAfterSegment(t: string, k: Key) returns (kind: Kind, rest: string)
    requires k.providerId == "request"
    requires ColonFree(t) || (|Segment(t)| < |t| && IsKindName(Segment(t[|Segment(t)| + 1..])))
    ensures Joined(t, AfterRealm(k)) == Joined(Segment(t), rest)
    ensures |KindName(kind)| < |rest| && rest == Joined(KindName(kind), rest[|KindName(kind)| + 1..])
  {
    SegmentEnds(t);
    if ColonFree(t) {
      kind, rest := Request, AfterRealm(k);
    } else {
      var second := t[|Segment(t)| + 1..];
      kind, rest := KindNamed(Segment(second)), Joined(second, AfterRealm(k));
      JoinedThrice(Segment(t), second, AfterRealm(k));
    }
    KindHeads(t, rest, kind, k);
  }

  /** The shorter realm's provider is named by the longer realm's next segment. */
  lemma ExtensionsShareNames(r: string, q: string)
    requires Extends(q, r) && ProviderId(NextSegment(q, r))
    ensures RealmsShareName(r, q)
  {
    var t := q[|r| + 1..];
    var k := Key(q, "request", State, "x");
    var kind, rest := RestAfterSegment(t, k);
    var j := Key(r, Segment(t), kind, rest[|KindName(kind)| + 1..]);
    assert q == Joined(r, t);
    NamesMeet(j, k, t);
    assert ShareName(j, k, r, q);
  }

  function KindNamed(s: string): (kind: Kind)
    requires IsKindName(s)
    ensures KindName(kind) == s
  {
    if s == KindName(State) then State
    else if s == KindName(Response) then Response
    else if s == KindName(Assertion) then Assertion
    else Request
  }

  lemma KindHeads(t: string, rest: string, kind: Kind, k: Key)
    requires k.providerId == "request"
    requires ColonFree(t) ==> kind == Request && rest == AfterRealm(k)
    requires !ColonFree(t) ==>
      |Segment(t)| < |t|
      && Segment(t[|Segment(t)| + 1..]) == KindName(kind) && rest == Joined(t[|Segment(t)| + 1..], AfterRealm(k))
    ensures |KindName(kind)| < |rest| && rest == Joined(KindName(kind), rest[|KindName(kind)| + 1..])
  {
    if ColonFree(t) {
      JoinedParts(k.providerId, Joined(KindName(k.kind), k.id));
    } else {
      var second := t[|Segment(t)| + 1..];
      SegmentOfJoined(second, AfterRealm(k));
      JoinedParts(second, AfterRealm(k));
      SegmentEnds(rest);
    }
  }

  lemma JoinedParts(a: string, x: string)
    ensures |Joined(a, x)| == |a| + 1 + |x| && !ColonFree(Joined(a, x)) && Joined(a, x)[|a| + 1..] == x
  {
    assert Joined(a, x)[|a|] == ':';
  }

  /**
   Exactly when two realms can name one key alike, whatever providers the broker accepts: one of
   them is the other followed by a colon and a text that is a single segment or has the name of a
   kind as its second segment, and that text's first segment is a provider id.
   */
  lemma RealmsShareNamesIff(r: string, q: string)
    requires r != q
    ensures RealmsShareName(r, q) <==>
      || (Extends(q, r) && ProviderId(NextSegment(q, r)))
      || (Extends(r, q) && ProviderId(NextSegment(r, q)))
  {
    if RealmsShareName(r, q) {
      var j, k :| ShareName(j, k, r, q);
      ProviderIdsHoldNoColon(j.providerId);
      ProviderIdsHoldNoColon(k.providerId);
      if |r| < |q| { SharedNamesExtend(j, k); }
      else if |q| < |r| { SharedNamesExtend(k, j); }
      else { SameLengthRealms(j, k); }
    }
    if Extends(q, r) && ProviderId(NextSegment(q, r)) { ExtensionsShareNames(r, q); }
    if Extends(r, q) && ProviderId(NextSegment(r, q)) {
      ExtensionsShareNames(q, r);
      var k, j :| ShareName(k, j, q, r);
      assert ShareName(j, k, r, q);
    }
  }

  lemma SameLengthRealms(j: Key, k: Key)
    requires |j.realm| == |k.realm| && Name(j) == Name(k)
    ensures j.realm == k.realm
  {
    SamePrefix("saml", Joined(j.realm, AfterRealm(j)), Joined(k.realm, AfterRealm(k)));
    assert Joined(j.realm, AfterRealm(j))[..|j.realm|] == j.realm;
    assert Joined(k.realm, AfterRealm(k))[..|k.realm|] == k.realm;
  }

  /**
   Realm names that hold no colon, and provider ids never do, give every key a name of its own: not
   across kinds, providers or realms, and not even for a request id chosen by the other side.
   */
  lemma NamesNeverCollide(j: Key, k: Key)
    requires ColonFree(j.realm) && ColonFree(j.providerId) && ColonFree(k.realm) && ColonFree(k.providerId)
    ensures Name(j) == Name(k) <==> j == k
  {
    if Name(j) == Name(k) {
      if |j.realm| < |k.realm| { SharedNamesExtend(j, k); }
      else if |k.realm| < |j.realm| { SharedNamesExtend(k, j); }
      else {
        SameLengthRealms(j, k);
        NamesInOneRealmDiffer(j, k);
      }
    }
  }

  /** The broker alone accepts any realm name, and with a colon in it two keys can share a name. */
  lemma ColonsCollide()
    ensures Name(Key("a", "p", Request, "q:state:x")) == Name(Key("a:p:request", "q", State, "x"))
  {
  }

  // ---------- the implementations ----------

  datatype Value =
    | Pending(realm: string, providerId: string, interactionUid: string, requestId: string)
    | Mark
    | Text(text: string)

  datatype Entry = Entry(value: Value, expiresAt: int, consumed: bool)

  type Cache = map<Key, Entry>

  datatype Implementation = Process | MemoryAdapter | PostgresAdapter

  predicate Alive(e: Entry, now: int) {
    e.expiresAt > now
  }

  function Prune(c: Cache, now: int): Cache {
    map k | k in c && Alive(c[k], now) :: c[k]
  }

  /** `readAt` is the clock when the key is tested, `setAt` the later reading its expiry counts from. */
  function PutIfAbsent(impl: Implementation, c: Cache, k: Key, v: Value, ttl: int, readAt: int, setAt: int)
    : (Cache, bool)
  {
    match impl
    case Process =>
      var p := Prune(c, readAt);
      if k in p then (p, false) else (p[k := Entry(v, setAt + ttl, false)], true)
    case MemoryAdapter =>
      if k in c && Alive(c[k], readAt) then (c, false)
      else (c[k := Entry(v, setAt + ttl, k in c && c[k].consumed)], true)
    case PostgresAdapter =>
      if k in c then (c, false) else (c[k := Entry(v, setAt + ttl, false)], true)
  }

  predicate Available(c: Cache, k: Key, now: int) {
    k in c && Alive(c[k], now) && !c[k].consumed
  }

  function Get(impl: Implementation, c: Cache, k: Key, now: int): (Cache, Option<Value>) {
    var seen := if impl.Process? then Prune(c, now) else c;
    (seen, if Available(c, k, now) then Some(c[k].value) else None)
  }

  /** The atomic part of `consume`: removal in the process-local cache, a guarded update in the others. */
  function Commit(impl: Implementation, c: Cache, k: Key, now: int): (Cache, bool) {
    if impl.Process? then
      var p := Prune(c, now);
      if k in p then (p - {k}, true) else (p, false)
    else if Available(c, k, now) then (c[k := c[k].(consumed := true)], true)
    else (c, false)
  }

  // ---------- one contract for the three of them ----------

  /** What a caller can still get: the values that have not lapsed and were not consumed. */
  function Offered(c: Cache, now: int): map<Key, Value> {
    map k | k in c && c[k].expiresAt > now && !c[k].consumed :: c[k].value
  }

  /** What makes `putIfAbsent` refuse: a record not yet lapsed, and in the database a lapsed one still stored. */
  predicate Blocked(impl: Implementation, c: Cache, k: Key, now: int) {
    k in c && (impl.PostgresAdapter? || c[k].expiresAt > now)
  }

  /**
   Over every cache `putIfAbsent` succeeds exactly on a key that is not blocked. It then offers the
   value until the lifetime is over, unless the adapter had a lapsed consumed record there, whose
   mark it carries over; a refusal and a success leave everything else that is offered alone.
   */
  lemma PutOffers(impl: Implementation, c: Cache, k: Key, v: Value, ttl: int, readAt: int, setAt: int, now: int)
    requires readAt <= now
    ensures var (after, saved) := PutIfAbsent(impl, c, k, v, ttl, readAt, setAt);
      && (saved <==> !Blocked(impl, c, k, readAt))
      && (!saved ==> Offered(after, now) == Offered(c, now))
      && (saved ==>
            && Offered(after, now) - {k} == Offered(c, now) - {k}
            && (k in Offered(after, now) <==>
                  now < setAt + ttl && !(impl.MemoryAdapter? && k in c && c[k].consumed))
            && (k in Offered(after, now) ==> Offered(after, now)[k] == v))
  {
  }

  /** A success blocks its key until the lifetime is over, in the database until the record is cleaned up. */
  lemma PutBlocks(impl: Implementation, c: Cache, k: Key, v: Value, ttl: int, readAt: int, setAt: int, now: int)
    ensures var (after, saved) := PutIfAbsent(impl, c, k, v, ttl, readAt, setAt);
      saved ==> (Blocked(impl, after, k, now) <==> impl.PostgresAdapter? || now < setAt + ttl)
  {
  }

  /** Over every cache `get` answers what is offered, and changes nothing of it. */
  lemma GetAnswersTheOffered(impl: Implementation, c: Cache, k: Key, now: int, later: int)
    requires now <= later
    ensures var (after, got) := Get(impl, c, k, now);
      && got == (if k in Offered(c, now) then Some(Offered(c, now)[k]) else None)
      && Offered(after, later) == Offered(c, later)
  {
  }

  /** Over every cache a consumption succeeds exactly on an offered key, which it takes away for good, and no other. */
  lemma CommitTakesTheOffered(impl: Implementation, c: Cache, k: Key, now: int, later: int)
    requires now <= later && (impl.Process? ==> NeverConsumed(c))
    ensures var (after, taken) := Commit(impl, c, k, now);
      && (taken <==> k in Offered(c, now))
      && Offered(after, later) == Offered(c, later) - {k}
  {
  }

  // ---------- the process-local cache ----------

  const MAX_KEY_LENGTH := 1024
  const MAX_TTL := 24 * 60 * 60 * 1000

  predicate NeverConsumed(c: Cache) {
    forall k :: k in c ==> !c[k].consumed
  }

  /** The TypeError of an invalid key or lifetime. */
  datatype Invalid = InvalidArgument

  /** Each method is one synchronous stretch. No record here is ever marked: `Consume` removes it. */
  class MemorySamlReplayCache {
    var records: Cache

    constructor ()
      ensures records == map[] && NeverConsumed(records)
    {
      records := map[];
    }

    method PruneRecords(now: int)
      modifies this
      ensures records == Prune(old(records), now)
    {
      var todo := records.Keys;
      while todo != {}
        invariant todo <= old(records).Keys
        invariant forall k :: k in records <==> k in old(records) && (k in todo || Alive(old(records)[k], now))
        invariant forall k :: k in records ==> records[k] == old(records)[k]
      {
        var k :| k in todo;
        if k in records && !Alive(records[k], now) { records := records - {k}; }
        todo := todo - {k};
      }
    }

    method PutRecordIfAbsent(k: Key, v: Value, ttl: int, readAt: int, setAt: int) returns (r: Result<bool, Invalid>)
      requires NeverConsumed(records)
      modifies this
      ensures NeverConsumed(records)
      ensures r.Err? <==> |Name(k)| < 1 || |Name(k)| > 1024 || ttl < 1 || ttl > 86400000
      ensures r.Err? ==> records == old(records)
      ensures r.Ok? ==> (records, r.value) == PutIfAbsent(Process, old(records), k, v, ttl, readAt, setAt)
    {
      if |Name(k)| == 0 || |Name(k)| > MAX_KEY_LENGTH || ttl < 1 || ttl > MAX_TTL { return Err(InvalidArgument); }
      PruneRecords(readAt);
      if k in records { return Ok(false); }
      records := records[k := Entry(v, setAt + ttl, false)];
      return Ok(true);
    }

    method GetRecord(k: Key, now: int) returns (r: Result<Option<Value>, Invalid>)
      requires NeverConsumed(records)
      modifies this
      ensures NeverConsumed(records)
      ensures r.Err? <==> |Name(k)| < 1 || |Name(k)| > 1024
      ensures r.Err? ==> records == old(records)
      ensures r.Ok? ==> (records, r.value) == Get(Process, old(records), k, now)
    {
      if |Name(k)| == 0 || |Name(k)| > MAX_KEY_LENGTH { return Err(InvalidArgument); }
      PruneRecords(now);
      return Ok(if k in records then Some(records[k].value) else None);
    }

    method Consume(k: Key, now: int) returns (r: Result<Option<Value>, Invalid>)
      requires NeverConsumed(records)
      modifies this
      ensures NeverConsumed(records)
      ensures r.Err? <==> |Name(k)| < 1 || |Name(k)| > 1024
      ensures r.Err? ==> records == old(records)
      ensures r.Ok? ==> (records, r.value.Some?) == Commit(Process, old(records), k, now)
      ensures r.Ok? ==> r.value == Get(Process, old(records), k, now).1
    {
      if |Name(k)| == 0 || |Name(k)| > MAX_KEY_LENGTH { return Err(InvalidArgument); }
      PruneRecords(now);
      if k !in records { return Ok(None); }
      var value := records[k].value;
      records := records - {k};
      return Ok(Some(value));
    }
  }

  // ---------- the adapter-backed cache is the record store of OidcRecords ----------

  /** The record that holds an entry: model ReplayDetection, bound to no account and no grant. */
  function RecordKey(k: Key): OidcRecords.Key {
    OidcRecords.Key(k.realm, "ReplayDetection", Name(k))
  }

  predicate Holds(r: OidcRecords.Record, e: Entry) {
    && r.expiresAt == Some(e.expiresAt)
    && (OidcRecords.Consumed(r.payload) <==> e.consumed)
    && r.securityVersion.None? && r.payload.accountId.None? && r.payload.grantId.None?
  }

  predicate Represents(rs: OidcRecords.Records, c: Cache, k: Key) {
    && (RecordKey(k) in rs <==> k in c)
    && (k in c ==> Holds(rs[RecordKey(k)], c[k]))
  }

  /**
   The adapter's `upsert`, `find` and `consume` on that record do what the functions above say,
   in one uninterrupted step each; but a consumption in the first second of 1970 leaves no mark,
   since its time reads as zero.
   */
  lemma AdapterCacheIsRecords(rs: OidcRecords.Records, c: Cache, k: Key, v: Value, ttl: int, now: nat,
                              tick: nat, id: nat, users: OidcRecords.Users, body: string)
    requires Represents(rs, c, k)
    ensures var save :=
      OidcRecords.Save(RecordKey(k), OidcRecords.Payload(None, None, None, None, None, body), Some(ttl));
      var outcome := OidcRecords.BeginSave(rs, users, now, tick, id, save);
      var put := PutIfAbsent(MemoryAdapter, c, k, v, ttl, now, now);
      && (outcome.Stored? <==> put.1) && (!put.1 ==> outcome == OidcRecords.Rejected(OidcRecords.InvalidRequest))
      && (put.1 ==> Represents(rs[RecordKey(k) := outcome.record], put.0, k))
    ensures var found := OidcRecords.FindIn(rs, users, now, RecordKey(k));
      (found.Some? && !OidcRecords.Consumed(found.value.payload)) <==> Get(MemoryAdapter, c, k, now).1.Some?
    ensures var commit := Commit(MemoryAdapter, c, k, now);
      && (OidcRecords.Consumable(rs, RecordKey(k), now) <==> commit.1)
      && (commit.1 ==>
            var marked := OidcRecords.MarkConsumed(rs[RecordKey(k)], now);
            Represents(rs[RecordKey(k) := marked], commit.0, k) <==> now >= 1000)
  {
  }
}
