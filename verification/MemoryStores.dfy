/**
 The in-memory adapter as the code has it: one map of buckets, each bucket a map of records,
 updated in place. Every method is tied to the functions of OidcRecords through `Flat`, the
 same records under one key.
 */
module MemoryStores {
  import opened Wrappers
  import opened Accounts
  import opened OidcRecords

  datatype Bucket = Bucket(realm: string, model: string)

  type Stores = map<Bucket, map<string, Record>>

  datatype CodeField = Uid | UserCode

  function CodeOf(p: Payload, field: CodeField): Option<string> {
    if field.Uid? then p.uid else p.userCode
  }

  /** `findByUid` goes by the uid and `findByUserCode` by the user code. */
  lemma CodesByField(p: Payload, code: string)
    ensures CodeOf(p, Uid) == Some(code) <==> p.uid.Some? && p.uid.value == code
    ensures CodeOf(p, UserCode) == Some(code) <==> p.userCode.Some? && p.userCode.value == code
  {
  }

  /** The name under which the code files a bucket. */
  function BucketName(b: Bucket): string {
    b.realm + "\0" + b.model
  }

  predicate NulFree(s: string) {
    '\0' !in s
  }

  /** Testing a bucket's name for the prefix of a realm selects exactly that realm's buckets. */
  lemma PrefixSelectsRealm(realm: string, b: Bucket)
    requires NulFree(realm) && NulFree(b.realm)
    ensures realm + "\0" <= BucketName(b) <==> b.realm == realm
    ensures BucketName(b) == realm + "\0" + "Grant" <==> b == Bucket(realm, "Grant")
  {
    var name, prefix := BucketName(b), realm + "\0";
    if b.realm == realm {
      assert prefix <= name;
    } else if prefix <= name {
      assert name[..|prefix|] == prefix && name[..|b.realm|] == b.realm;
      FirstNulIsUnique(name, |realm|, |b.realm|);
      assert false;
    }
    if name == prefix + "Grant" {
      assert prefix <= name;
      assert name[|realm| + 1..] == b.model == "Grant";
    }
  }

  lemma FirstNulIsUnique(s: string, i: nat, j: nat)
    requires i < |s| && s[i] == '\0' && NulFree(s[..i])
    requires j < |s| && s[j] == '\0' && NulFree(s[..j])
    ensures i == j
  {
    assert forall k :: 0 <= k < i ==> s[..i][k] == s[k];
    assert forall k :: 0 <= k < j ==> s[..j][k] == s[k];
  }

  function FlatOf(stores: Stores): Records {
    map b, id | b in stores && id in stores[b] :: Key(b.realm, b.model, id) := stores[b][id]
  }

  lemma FlatAt(stores: Stores, k: Key)
    ensures k in FlatOf(stores) <==> Bucket(k.realm, k.model) in stores && k.id in stores[Bucket(k.realm, k.model)]
    ensures k in FlatOf(stores) ==> FlatOf(stores)[k] == stores[Bucket(k.realm, k.model)][k.id]
  {
    if Bucket(k.realm, k.model) in stores && k.id in stores[Bucket(k.realm, k.model)] {
      var b, id := Bucket(k.realm, k.model), k.id;
      assert Key(b.realm, b.model, id) in FlatOf(stores);
    }
  }

  function Lookup(rs: Records, key: Key): Option<Record> {
    if key in rs then Some(rs[key]) else None
  }

  lemma FlatExtensional(stores: Stores, rs: Records)
    requires forall k :: (k in rs <==> Bucket(k.realm, k.model) in stores && k.id in stores[Bucket(k.realm, k.model)])
    requires forall k :: k in rs ==> rs[k] == stores[Bucket(k.realm, k.model)][k.id]
    ensures FlatOf(stores) == rs
  {
    forall k: Key ensures k in FlatOf(stores) <==> k in rs
             ensures k in rs ==> FlatOf(stores)[k] == rs[k]
    { FlatAt(stores, k); }
  }

  class MemoryAdapterStores {
    var stores: Stores
    var nextObject: nat

    constructor ()
      ensures Flat() == map[]
    {
      stores := map[];
      nextObject := 0;
    }

    function Flat(): Records
      reads this
    {
      FlatOf(stores)
    }

    function BucketOf(realm: string, model: string): map<string, Record>
      reads this
    {
      if Bucket(realm, model) in stores then stores[Bucket(realm, model)] else map[]
    }

    method Set(key: Key, r: Record)
      modifies this`stores
      ensures Flat() == old(Flat())[key := r]
    {
      var b := Bucket(key.realm, key.model);
      ghost var was := stores;
      stores := stores[b := BucketOf(key.realm, key.model)[key.id := r]];
      forall k: Key ensures (k in FlatOf(was)[key := r] <==>
        Bucket(k.realm, k.model) in stores && k.id in stores[Bucket(k.realm, k.model)])
               ensures k in FlatOf(was)[key := r] ==> FlatOf(was)[key := r][k] == stores[Bucket(k.realm, k.model)][k.id]
      {
        FlatAt(was, k);
      }
      FlatExtensional(stores, FlatOf(was)[key := r]);
    }

    method Get(key: Key) returns (r: Option<Record>)
      ensures r == Lookup(Flat(), key)
    {
      FlatAt(stores, key);
      var bucket := BucketOf(key.realm, key.model);
      r := if key.id in bucket then Some(bucket[key.id]) else None;
    }

    /** The synchronous head of `upsert`, up to its first await. */
    method UpsertBegin(save: Save, users: Users, now: int, tick: nat) returns (outcome: Outcome)
      modifies this
      ensures outcome == BeginSave(old(Flat()), users, now, tick, old(nextObject), save)
      ensures Flat() == if outcome.Stored? then old(Flat())[save.key := outcome.record] else old(Flat())
      ensures nextObject == old(nextObject) + 1
    {
      var existing := Get(save.key);
      if save.key.model == "ReplayDetection" && existing.Some? && Live(existing.value, now) {
        nextObject := nextObject + 1;
        return Rejected(InvalidRequest);
      }
      var next := save.payload;
      if existing.Some? && Consumed(existing.value.payload) && !Consumed(next) {
        next := next.(consumed := existing.value.payload.consumed);
      }
      outcome := BeginBound(save.(payload := next), users, now, tick);
    }

    method BeginBound(save: Save, users: Users, now: int, tick: nat) returns (outcome: Outcome)
      modifies this
      ensures outcome == BeginBinding(old(Flat()), users, now, tick, old(nextObject), save)
      ensures Flat() == if outcome.Stored? then old(Flat())[save.key := outcome.record] else old(Flat())
      ensures nextObject == old(nextObject) + 1
    {
      var id, next := nextObject, save.payload;
      nextObject := nextObject + 1;
      if next.grantId.Some? {
        var parent := Get(GrantKey(save.key.realm, next.grantId.value));
        if parent.None? || !Live(parent.value, now) || parent.value.payload.accountId.None? {
          return Rejected(InvalidGrant);
        }
        var version := VersionFor(users, Account(save.key.realm, parent.value.payload.accountId.value));
        return Suspended(AwaitParent(save, parent.value, version));
      }
      if next.accountId.Some? {
        var version := VersionFor(users, Account(save.key.realm, next.accountId.value));
        return Suspended(AwaitVersion(save, None, version, tick));
      }
      var r := Record(id, next, None, Expiry(save.ttl, now), tick);
      Set(save.key, r);
      outcome := Stored(r);
    }

    /** The synchronous tail of `upsert`, from its last await. */
    method UpsertFinish(id: nat, p: Pending, now: int) returns (outcome: Outcome)
      requires p.AwaitVersion?
      modifies this`stores
      ensures outcome == FinishSave(old(Flat()), now, id, p)
      ensures Flat() == if outcome.Stored? then old(Flat())[p.save.key := outcome.record] else old(Flat())
    {
      if p.read.None? { return Rejected(InvalidGrant); }
      if p.save.payload.grantId.Some? {
        var live := Get(GrantKey(p.save.key.realm, p.save.payload.grantId.value));
        if live.None? || !Live(live.value, now) || p.parent.None? || live.value.ref != p.parent.value.ref
           || live.value.securityVersion != p.read {
          return Rejected(InvalidGrant);
        }
      }
      var r := Record(id, p.save.payload, p.read, Expiry(p.save.ttl, now), p.readAt);
      Set(p.save.key, r);
      outcome := Stored(r);
    }

    method Find(key: Key, users: Users, now: int) returns (r: Option<Record>)
      ensures r == FindIn(Flat(), users, now, key)
    {
      var found := Get(key);
      if found.None? || !Live(found.value, now) { return None; }
      var live := found.value;
      if live.securityVersion.Some? {
        if live.payload.accountId.None? { return None; }
        if VersionFor(users, Account(key.realm, live.payload.accountId.value)) != live.securityVersion { return None; }
      }
      return Some(live);
    }

    /**
     `findByUid` and `findByUserCode` walk the bucket and decide on the first live record with
     that code, in an order left open here: a record they return is one `find` would return, and
     they return nothing only when no live record has the code or `find` refuses the one met.
     */
    method FindByCode(realm: string, model: string, field: CodeField, code: string, users: Users, now: int)
      returns (r: Option<Record>, met: Option<string>)
      ensures met.None? ==>
        && r.None?
        && forall k | k in Flat() && k.realm == realm && k.model == model && Live(Flat()[k], now) ::
             CodeOf(Flat()[k].payload, field) != Some(code)
      ensures met.Some? ==>
        var k := Key(realm, model, met.value);
        && k in Flat() && Live(Flat()[k], now) && CodeOf(Flat()[k].payload, field) == Some(code)
        && r == FindIn(Flat(), users, now, k)
    {
      var bucket := BucketOf(realm, model);
      var todo := bucket.Keys;
      while todo != {}
        invariant todo <= bucket.Keys
        invariant forall id :: id in bucket && id !in todo && Live(bucket[id], now) ==>
          CodeOf(bucket[id].payload, field) != Some(code)
      {
        var id :| id in todo;
        FlatAt(stores, Key(realm, model, id));
        if Live(bucket[id], now) && CodeOf(bucket[id].payload, field) == Some(code) {
          r := Find(Key(realm, model, id), users, now);
          return r, Some(id);
        }
        todo := todo - {id};
      }
      forall k | k in Flat() && k.realm == realm && k.model == model && Live(Flat()[k], now)
        ensures CodeOf(Flat()[k].payload, field) != Some(code)
      {
        FlatAt(stores, k);
      }
      return None, None;
    }

    /** Consumption assigns to the stored object: the record keeps its identity. */
    method Consume(key: Key, now: nat) returns (error: Option<Error>)
      modifies this`stores
      ensures error == if Consumable(old(Flat()), key, now) then None else Some(ConsumeError(key.model))
      ensures Flat() == if Consumable(old(Flat()), key, now)
                        then old(Flat())[key := MarkConsumed(old(Flat())[key], now)] else old(Flat())
    {
      var found := Get(key);
      if found.None? || !Live(found.value, now) || Consumed(found.value.payload) {
        return Some(ConsumeError(key.model));
      }
      Set(key, MarkConsumed(found.value, now));
      return None;
    }

    method ClaimInitialAccessToken(realm: string, id: string, now: nat) returns (claimed: bool)
      modifies this`stores
      ensures var k := Key(realm, "InitialAccessToken", id);
        && claimed == Consumable(old(Flat()), k, now)
        && Flat() == if claimed then old(Flat())[k := MarkConsumed(old(Flat())[k], now)] else old(Flat())
    {
      var error := Consume(Key(realm, "InitialAccessToken", id), now);
      claimed := error.None?;
    }

    method DeleteFrom(b: Bucket, ids: set<string>)
      requires b in stores
      modifies this`stores
      ensures stores.Keys == old(stores).Keys
      ensures forall c :: c in stores && c != b ==> stores[c] == old(stores)[c]
      ensures stores[b] == old(stores)[b] - ids
    {
      stores := stores[b := stores[b] - ids];
    }

    method Destroy(key: Key)
      modifies this`stores
      ensures Flat() == old(Flat()) - {key}
    {
      var b := Bucket(key.realm, key.model);
      ghost var was := stores;
      if b in stores { DeleteFrom(b, {key.id}); }
      forall k: Key ensures (k in FlatOf(was) - {key} <==>
        Bucket(k.realm, k.model) in stores && k.id in stores[Bucket(k.realm, k.model)])
               ensures k in FlatOf(was) - {key} ==> (FlatOf(was) - {key})[k] == stores[Bucket(k.realm, k.model)][k.id]
      {
        FlatAt(was, k);
      }
      FlatExtensional(stores, FlatOf(was) - {key});
    }

    method RevokeByGrantId(realm: string, model: string, grantId: string)
      modifies this`stores
      ensures Flat() == RevokeGrant(old(Flat()), realm, model, grantId)
    {
      var b := Bucket(realm, model);
      if b !in stores {
        forall k: Key ensures k.realm == realm && k.model == model ==> k !in Flat() { FlatAt(stores, k); }
        return;
      }
      var bucket := stores[b];
      ghost var was := stores;
      var todo := bucket.Keys;
      while todo != {}
        invariant todo <= bucket.Keys
        invariant b in stores && stores.Keys == was.Keys
        invariant forall c :: c in stores && c != b ==> stores[c] == was[c]
        invariant forall id :: id in stores[b] <==>
          id in bucket && (id in todo || bucket[id].payload.grantId != Some(grantId))
        invariant forall id :: id in stores[b] ==> stores[b][id] == bucket[id]
      {
        var id :| id in todo;
        if bucket[id].payload.grantId == Some(grantId) { DeleteFrom(b, {id}); }
        todo := todo - {id};
      }
      var left := RevokeGrant(FlatOf(was), realm, model, grantId);
      forall k: Key
        ensures (k in left <==> Bucket(k.realm, k.model) in stores && k.id in stores[Bucket(k.realm, k.model)])
               ensures k in left ==> left[k] == stores[Bucket(k.realm, k.model)][k.id]
      {
        FlatAt(was, k);
      }
      FlatExtensional(stores, left);
    }

    /** First pass: the ids of the grants of an account. */
    method CollectGrants(a: Account) returns (grants: set<string>)
      ensures grants == GrantsOf(Flat(), a)
    {
      grants := {};
      var bucket := BucketOf(a.realm, "Grant");
      var todo := bucket.Keys;
      while todo != {}
        invariant todo <= bucket.Keys
        invariant grants == set id | id in bucket && id !in todo && bucket[id].payload.accountId == Some(a.id)
      {
        var id :| id in todo;
        if bucket[id].payload.accountId == Some(a.id) { grants := grants + {id}; }
        todo := todo - {id};
      }
      forall id ensures id in grants <==> id in GrantsOf(Flat(), a) {
        FlatAt(stores, GrantKey(a.realm, id));
        if id in grants { assert GrantKey(a.realm, id) in OwnedBy(Flat(), a); }
      }
    }

    /** Second pass: every bucket of the realm. */
    method SweepRealm(a: Account, grants: set<string>) returns (deleted: nat)
      modifies this`stores
      ensures stores == Sweep(old(stores), old(stores).Keys, a, grants)
      ensures deleted == |HitKeys(old(stores), old(stores).Keys, a, grants)|
    {
      deleted := 0;
      ghost var was, done := stores, {};
      var todo := stores.Keys;
      while todo != {}
        invariant done !! todo && done + todo == was.Keys
        invariant stores == Sweep(was, done, a, grants)
        invariant deleted == |HitKeys(was, done, a, grants)|
      {
        var b :| b in todo;
        SweepOneMore(was, done, b, a, grants);
        if b.realm == a.realm {
          var left, n := RevokeInBucket(stores[b], a, grants);
          stores := stores[b := left];
          deleted := deleted + n;
        }
        done, todo := done + {b}, todo - {b};
      }
      assert done == was.Keys;
    }

    /**
     Both passes together delete exactly the records the SQL names doomed, and the answer
     is their number.
     */
    method RevokeMemoryAccount(a: Account) returns (deleted: nat)
      modifies this`stores
      ensures Flat() == RevokeAccount(old(Flat()), a)
      ensures deleted == |Doomed(old(Flat()), a)|
    {
      ghost var was := stores;
      var grants := CollectGrants(a);
      deleted := SweepRealm(a, grants);
      DoomedAreHit(was, a, grants);
      RemainderIsFlat(was, stores, a, grants);
    }
  }

  /** The stores once the buckets in `done` have been gone through. */
  function Sweep(was: Stores, done: set<Bucket>, a: Account, grants: set<string>): Stores {
    map b | b in was :: if b in done && b.realm == a.realm then was[b] - Hit(was[b], a, grants) else was[b]
  }

  lemma SweepOneMore(was: Stores, done: set<Bucket>, b: Bucket, a: Account, grants: set<string>)
    requires b in was && b !in done
    ensures Sweep(was, done, a, grants)[b] == was[b]
    ensures Sweep(was, done + {b}, a, grants)
         == if b.realm == a.realm then Sweep(was, done, a, grants)[b := was[b] - Hit(was[b], a, grants)]
            else Sweep(was, done, a, grants)
    ensures |HitKeys(was, done + {b}, a, grants)|
         == |HitKeys(was, done, a, grants)| + if b.realm == a.realm then |Hit(was[b], a, grants)| else 0
  {
    HitKeysGrow(was, done, b, a, grants);
  }

  predicate IsHit(r: Record, a: Account, grants: set<string>) {
    r.payload.accountId == Some(a.id) || (r.payload.grantId.Some? && r.payload.grantId.value in grants)
  }

  function Hit(bucket: map<string, Record>, a: Account, grants: set<string>): set<string> {
    set id | id in bucket && IsHit(bucket[id], a, grants)
  }

  /** The inner loop of the second pass: one bucket of the realm. */
  method RevokeInBucket(bucket: map<string, Record>, a: Account, grants: set<string>)
    returns (left: map<string, Record>, deleted: nat)
    ensures left == bucket - Hit(bucket, a, grants)
    ensures deleted == |Hit(bucket, a, grants)|
  {
    left, deleted := bucket, 0;
    var todo := bucket.Keys;
    ghost var gone: set<string> := {};
    while todo != {}
      invariant todo <= bucket.Keys
      invariant gone == Hit(bucket, a, grants) - todo
      invariant left == bucket - gone && deleted == |gone|
    {
      var id :| id in todo;
      ghost var next := if IsHit(bucket[id], a, grants) then gone + {id} else gone;
      RemoveOneMore(bucket, gone, id);
      assert next == Hit(bucket, a, grants) - (todo - {id});
      if IsHit(bucket[id], a, grants) {
        left := left - {id};
        deleted := deleted + 1;
      }
      gone, todo := next, todo - {id};
    }
    assert gone == Hit(bucket, a, grants);
  }

  lemma RemoveOneMore(bucket: map<string, Record>, gone: set<string>, id: string)
    ensures bucket - gone - {id} == bucket - (gone + {id})
    ensures |gone + {id}| == if id in gone then |gone| else |gone| + 1
  {
    if id in gone { assert gone + {id} == gone; }
  }

  function HitKeys(stores: Stores, done: set<Bucket>, a: Account, grants: set<string>): set<Key> {
    set b, id | b in done && b in stores && b.realm == a.realm && id in Hit(stores[b], a, grants) ::
      Key(b.realm, b.model, id)
  }

  lemma {:induction false} KeysOfBucket(b: Bucket, ids: set<string>)
    ensures |set id | id in ids :: Key(b.realm, b.model, id)| == |ids|
  {
    if ids == {} {
      assert (set id | id in ids :: Key(b.realm, b.model, id)) == {};
    } else {
      var x :| x in ids;
      KeysOfBucket(b, ids - {x});
      assert (set id | id in ids :: Key(b.realm, b.model, id))
          == (set id | id in ids - {x} :: Key(b.realm, b.model, id)) + {Key(b.realm, b.model, x)};
    }
  }

  lemma HitKeysGrow(stores: Stores, done: set<Bucket>, b: Bucket, a: Account, grants: set<string>)
    requires b in stores && b !in done
    ensures |HitKeys(stores, done + {b}, a, grants)|
         == |HitKeys(stores, done, a, grants)| + if b.realm == a.realm then |Hit(stores[b], a, grants)| else 0
  {
    var hit := if b.realm == a.realm then Hit(stores[b], a, grants) else {};
    var here := set id | id in hit :: Key(b.realm, b.model, id);
    var before, after := HitKeys(stores, done, a, grants), HitKeys(stores, done + {b}, a, grants);
    KeysOfBucket(b, hit);
    forall k: Key ensures k in after <==> k in before || k in here {}
    assert after == before + here;
    assert before !! here;
  }

  lemma DoomedAreHit(stores: Stores, a: Account, grants: set<string>)
    requires grants == GrantsOf(FlatOf(stores), a)
    ensures HitKeys(stores, stores.Keys, a, grants) == Doomed(FlatOf(stores), a)
  {
    forall k: Key ensures k in HitKeys(stores, stores.Keys, a, grants) <==> k in Doomed(FlatOf(stores), a) {
      DoomedAt(stores, k, a, grants);
      HitKeysAt(stores, k, a, grants);
    }
  }

  lemma HitKeysAt(stores: Stores, k: Key, a: Account, grants: set<string>)
    ensures k in HitKeys(stores, stores.Keys, a, grants) <==>
      && k.realm == a.realm && Bucket(k.realm, k.model) in stores
      && k.id in Hit(stores[Bucket(k.realm, k.model)], a, grants)
  {
    var b, id := Bucket(k.realm, k.model), k.id;
    if b in stores && b.realm == a.realm && id in Hit(stores[b], a, grants) {
      assert Key(b.realm, b.model, id) in HitKeys(stores, stores.Keys, a, grants);
    }
  }

  lemma RemainderIsFlat(was: Stores, now: Stores, a: Account, grants: set<string>)
    requires grants == GrantsOf(FlatOf(was), a)
    requires now == Sweep(was, was.Keys, a, grants)
    ensures FlatOf(now) == RevokeAccount(FlatOf(was), a)
  {
    var doomed, left := Doomed(FlatOf(was), a), RevokeAccount(FlatOf(was), a);
    forall k: Key ensures k in left <==> k in FlatOf(now)
                  ensures k in left ==> left[k] == FlatOf(now)[k]
    {
      DoomedAt(was, k, a, grants);
      FlatAt(was, k);
      FlatAt(now, k);
    }
  }

  lemma DoomedAt(stores: Stores, k: Key, a: Account, grants: set<string>)
    requires grants == GrantsOf(FlatOf(stores), a)
    ensures k in Doomed(FlatOf(stores), a) <==>
      && k.realm == a.realm && Bucket(k.realm, k.model) in stores
      && k.id in Hit(stores[Bucket(k.realm, k.model)], a, grants)
  {
    FlatAt(stores, k);
  }
}
