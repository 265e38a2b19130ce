/** The keyed promise lock of the federated-identity repository. */
module KeyedLock {
  import opened Wrappers
  import JsonKeys

  // Every call on a key waits for the promise the previous call on that key left in the `#locks`
  // map; a `link` holds its user-provider key while it waits for its identity key.
  //
  // `Lock.calls` lists every `#locked` call ever made, in the order of the calls; `tails` is the
  // map. Each function below is one stretch of code without an await.

  datatype Key =
    | Identity(realm: string, providerId: string, issuer: string, externalSubject: string)
    | UserProvider(realm: string, userId: string, providerId: string, issuer: string)

  function Fields(k: Key): seq<string> {
    match k
    case Identity(realm, providerId, issuer, subject) => [realm, providerId, issuer, subject]
    case UserProvider(realm, userId, providerId, issuer) => ["user-provider", realm, userId, providerId, issuer]
  }

  /** Two keys are one string only when they are one key: no identity is locked or linked as another. */
  lemma KeysNeverCollide(a: Key, b: Key)
    ensures JsonKeys.Stringify(Fields(a)) == JsonKeys.Stringify(Fields(b)) <==> a == b
  {
    JsonKeys.StringifyIsInjective(Fields(a), Fields(b));
    if Fields(a) == Fields(b) {
      var f, g := Fields(a), Fields(b);
      assert |f| == |g| && f[0] == g[0] && f[1] == g[1] && f[2] == g[2] && f[3] == g[3] && f[|f| - 1] == g[|g| - 1];
    }
  }

  /** `Done(threw)`: the operation returned or threw, and `finally` ran. */
  datatype Phase = Waiting | Running | Done(threw: bool)

  /** `inner` is the key the operation itself locks, `child` the call that does so. */
  datatype Call = Call(key: Key, inner: Option<Key>, previous: Option<nat>, child: Option<nat>, phase: Phase)

  datatype Lock = Lock(calls: seq<Call>, tails: map<Key, nat>)

  const Unlocked := Lock([], map[])

  function Queue(l: Lock, key: Key, inner: Option<Key>): Lock {
    var previous := if key in l.tails then Some(l.tails[key]) else None;
    Lock(l.calls + [Call(key, inner, previous, None, Waiting)], l.tails[key := |l.calls|])
  }

  /** The promise a call left in the map: resolved once its predecessor's is and the call released. */
  predicate Settled(l: Lock, i: nat) {
    && i < |l.calls| && l.calls[i].phase.Done?
    && (l.calls[i].previous.Some? ==> l.calls[i].previous.value < i && Settled(l, l.calls[i].previous.value))
  }

  predicate MayEnter(l: Lock, i: nat) {
    && i < |l.calls| && l.calls[i].phase.Waiting?
    && (l.calls[i].previous.Some? ==> Settled(l, l.calls[i].previous.value))
  }

  /** The operation starts; a `link` at once queues on its identity key. */
  function Enter(l: Lock, i: nat): Lock
    requires i < |l.calls|
  {
    var call := l.calls[i];
    if call.inner.None? then l.(calls := l.calls[i := call.(phase := Running)])
    else Queue(l.(calls := l.calls[i := call.(phase := Running, child := Some(|l.calls|))]), call.inner.value, None)
  }

  predicate MayLeave(l: Lock, i: nat) {
    && i < |l.calls| && l.calls[i].phase.Running?
    && (l.calls[i].child.Some? ==> l.calls[i].child.value < |l.calls| && l.calls[l.calls[i].child.value].phase.Done?)
  }

  /** `finally`: release, and drop the map's entry if no later call replaced it. */
  function Leave(l: Lock, i: nat, threw: bool): Lock
    requires i < |l.calls|
  {
    var call := l.calls[i];
    Lock(l.calls[i := call.(phase := Done(threw))],
         if call.key in l.tails && l.tails[call.key] == i then l.tails - {call.key} else l.tails)
  }

  datatype Event =
    | Resolve(identity: Key)
    | Link(user: Key, identity: Key)
    | Start(call: nat)
    | Finish(call: nat, threw: bool)

  function Step(l: Lock, e: Event): Lock {
    match e
    case Resolve(k) => if k.Identity? then Queue(l, k, None) else l
    case Link(u, k) => if u.UserProvider? && k.Identity? then Queue(l, u, Some(k)) else l
    case Start(i) => if MayEnter(l, i) then Enter(l, i) else l
    case Finish(i, threw) => if MayLeave(l, i) then Leave(l, i, threw) else l
  }

  function Run(l: Lock, events: seq<Event>): Lock
    decreases |events|
  {
    if events == [] then l else Run(Step(l, events[0]), events[1..])
  }

  // ---------- the invariant ----------

  ghost predicate DoneBefore(l: Lock, i: nat, k: Key) {
    forall j :: 0 <= j < i && j < |l.calls| && l.calls[j].key == k ==> l.calls[j].phase.Done?
  }

  ghost predicate NoneBetween(l: Lock, lo: int, hi: nat, k: Key) {
    forall j :: lo < j < hi && 0 <= j < |l.calls| ==> l.calls[j].key != k
  }

  /** A call's predecessor is the last earlier call on its key; without one, all those are done. */
  ghost predicate Chained(l: Lock, i: nat) {
    i < |l.calls| ==>
      var call := l.calls[i];
      match call.previous
      case None => DoneBefore(l, i, call.key)
      case Some(p) => p < i && l.calls[p].key == call.key && NoneBetween(l, p, i, call.key)
  }

  /** A call that started found every earlier call on its key done. */
  ghost predicate InTurn(l: Lock, i: nat) {
    i < |l.calls| && !l.calls[i].phase.Waiting? ==> DoneBefore(l, i, l.calls[i].key)
  }

  ghost predicate Tail(l: Lock, k: Key) {
    if k in l.tails then
      var t := l.tails[k];
      t < |l.calls| && l.calls[t].key == k && !l.calls[t].phase.Done? && NoneBetween(l, t, |l.calls|, k)
    else DoneBefore(l, |l.calls|, k)
  }

  /** Only user-provider calls nest, and only on an identity key, queued when they start. */
  predicate Nested(l: Lock, i: nat) {
    i < |l.calls| ==>
      var call := l.calls[i];
      && (call.inner.Some? <==> call.key.UserProvider?)
      && (call.inner.Some? ==> call.inner.value.Identity?)
      && (call.child.Some? <==> call.inner.Some? && !call.phase.Waiting?)
      && (call.child.Some? ==>
            && i < call.child.value < |l.calls|
            && l.calls[call.child.value].key == call.inner.value
            && (call.phase.Done? ==> l.calls[call.child.value].phase.Done?))
  }

  ghost predicate CallInv(l: Lock, i: nat) {
    Chained(l, i) && InTurn(l, i) && Nested(l, i)
  }

  ghost predicate Inv(l: Lock) {
    && (forall i: nat {:trigger CallInv(l, i)} :: CallInv(l, i))
    && (forall k {:trigger Tail(l, k)} :: Tail(l, k))
  }

  lemma QueueKeepsOrder(l: Lock, key: Key, inner: Option<Key>, i: nat)
    requires Chained(l, i) && InTurn(l, i) && Tail(l, key)
    ensures Chained(Queue(l, key, inner), i) && InTurn(Queue(l, key, inner), i)
  {
  }

  lemma QueueKeepsNested(l: Lock, key: Key, inner: Option<Key>, i: nat)
    requires Nested(l, i) && (inner.Some? <==> key.UserProvider?) && (inner.Some? ==> inner.value.Identity?)
    ensures Nested(Queue(l, key, inner), i)
  {
  }

  lemma QueueKeepsTail(l: Lock, key: Key, inner: Option<Key>, k: Key)
    requires Tail(l, key) && Tail(l, k)
    ensures Tail(Queue(l, key, inner), k)
  {
  }

  lemma QueueKeepsInv(l: Lock, key: Key, inner: Option<Key>)
    requires Inv(l) && (inner.Some? <==> key.UserProvider?) && (inner.Some? ==> inner.value.Identity?)
    ensures Inv(Queue(l, key, inner))
  {
    assert Tail(l, key);
    forall i: nat ensures CallInv(Queue(l, key, inner), i) {
      assert CallInv(l, i);
      QueueKeepsOrder(l, key, inner, i);
      QueueKeepsNested(l, key, inner, i);
    }
    forall k ensures Tail(Queue(l, key, inner), k) {
      assert Tail(l, k);
      QueueKeepsTail(l, key, inner, k);
    }
  }

  /** A call may start only when every earlier call on its key is done. */
  lemma EntryIsInTurn(l: Lock, i: nat)
    requires Inv(l) && MayEnter(l, i)
    ensures DoneBefore(l, i, l.calls[i].key)
  {
    assert CallInv(l, i);
    if l.calls[i].previous.Some? {
      var p := l.calls[i].previous.value;
      assert CallInv(l, p);
      forall j | 0 <= j < i && l.calls[j].key == l.calls[i].key ensures l.calls[j].phase.Done? {
        assert j <= p;
      }
    }
  }

  /** The lock with call `i` running, before the call it may queue. */
  function Started(l: Lock, i: nat): Lock
    requires i < |l.calls|
  {
    var call := l.calls[i];
    l.(calls := l.calls[i := call.(phase := Running, child := if call.inner.Some? then Some(|l.calls|) else None)])
  }

  lemma StartedKeepsTail(l: Lock, i: nat, k: Key)
    requires i < |l.calls| && l.calls[i].phase.Waiting? && Tail(l, k)
    ensures Tail(Started(l, i), k)
  {
  }

  lemma EnterKeepsInv(l: Lock, i: nat)
    requires Inv(l) && MayEnter(l, i)
    ensures Inv(Enter(l, i))
  {
    EntryIsInTurn(l, i);
    assert CallInv(l, i);
    var s := Started(l, i);
    var inner := l.calls[i].inner;
    if inner.None? { assert l.calls[i].child.None?; }
    assert Enter(l, i) == if inner.None? then s else Queue(s, inner.value, None);
    forall k ensures Tail(s, k) && Tail(Enter(l, i), k) {
      assert Tail(l, k);
      StartedKeepsTail(l, i, k);
      if inner.Some? {
        assert Tail(l, inner.value);
        StartedKeepsTail(l, i, inner.value);
        QueueKeepsTail(s, inner.value, None, k);
      }
    }
    forall j: nat ensures CallInv(Enter(l, i), j) {
      assert CallInv(l, j);
      if inner.Some? {
        assert Tail(s, inner.value);
        QueueKeepsOrder(s, inner.value, None, j);
        if j != i { QueueKeepsNested(s, inner.value, None, j); }
      }
    }
  }

  lemma LeaveKeepsTail(l: Lock, i: nat, threw: bool, k: Key)
    requires MayLeave(l, i) && InTurn(l, i) && Tail(l, k)
    ensures Tail(Leave(l, i, threw), k)
  {
    if k == l.calls[i].key && k in l.tails && l.tails[k] == i {
      assert DoneBefore(l, i, k) && NoneBetween(l, i, |l.calls|, k);
    }
  }

  lemma LeaveKeepsInv(l: Lock, i: nat, threw: bool)
    requires Inv(l) && MayLeave(l, i)
    ensures Inv(Leave(l, i, threw))
  {
    assert CallInv(l, i);
    forall j: nat ensures CallInv(Leave(l, i, threw), j) {
      assert CallInv(l, j);
    }
    forall k ensures Tail(Leave(l, i, threw), k) {
      assert Tail(l, k);
      LeaveKeepsTail(l, i, threw, k);
    }
  }

  lemma StepKeepsInv(l: Lock, e: Event)
    requires Inv(l)
    ensures Inv(Step(l, e))
  {
    match e
    case Resolve(k) => if k.Identity? { QueueKeepsInv(l, k, None); }
    case Link(u, k) => if u.UserProvider? && k.Identity? { QueueKeepsInv(l, u, Some(k)); }
    case Start(i) => if MayEnter(l, i) { EnterKeepsInv(l, i); }
    case Finish(i, threw) => if MayLeave(l, i) { LeaveKeepsInv(l, i, threw); }
  }

  lemma {:induction false} RunKeepsInv(l: Lock, events: seq<Event>)
    requires Inv(l)
    ensures Inv(Run(l, events))
    decreases |events|
  {
    if events != [] {
      StepKeepsInv(l, events[0]);
      RunKeepsInv(Step(l, events[0]), events[1..]);
    }
  }

  lemma UnlockedInv()
    ensures Inv(Unlocked)
  {
    forall i: nat ensures CallInv(Unlocked, i) {}
    forall k ensures Tail(Unlocked, k) {}
  }

  // ---------- exclusion, order and an empty map ----------

  /**
   On each key operations start in the order of the calls, each only after every earlier one
   is over: so no two ever run together.
   */
  lemma OperationsRunInTurn(events: seq<Event>, i: nat, j: nat)
    requires var l := Run(Unlocked, events);
      i < j < |l.calls| && l.calls[i].key == l.calls[j].key && !l.calls[j].phase.Waiting?
    ensures Run(Unlocked, events).calls[i].phase.Done?
  {
    UnlockedInv();
    RunKeepsInv(Unlocked, events);
    assert CallInv(Run(Unlocked, events), j);
  }

  lemma {:induction false} DoneBeforeIsSettled(l: Lock, i: nat)
    requires Inv(l) && i < |l.calls| && l.calls[i].phase.Done? && DoneBefore(l, i, l.calls[i].key)
    ensures Settled(l, i)
    decreases i
  {
    assert CallInv(l, i);
    if l.calls[i].previous.Some? {
      assert CallInv(l, l.calls[i].previous.value);
      DoneBeforeIsSettled(l, l.calls[i].previous.value);
    }
  }

  /** In every run a waiting call may start exactly when every earlier call on its key is over. */
  lemma TurnsComeIff(events: seq<Event>, i: nat)
    requires i < |Run(Unlocked, events).calls|
    ensures var l := Run(Unlocked, events);
      MayEnter(l, i) <==>
        && l.calls[i].phase.Waiting?
        && forall j :: 0 <= j < i && l.calls[j].key == l.calls[i].key ==> l.calls[j].phase.Done?
  {
    UnlockedInv();
    RunKeepsInv(Unlocked, events);
    var l := Run(Unlocked, events);
    if MayEnter(l, i) { EntryIsInTurn(l, i); }
    assert CallInv(l, i);
    if DoneBefore(l, i, l.calls[i].key) && l.calls[i].previous.Some? {
      var p := l.calls[i].previous.value;
      assert CallInv(l, p);
      DoneBeforeIsSettled(l, p);
    }
  }

  /** The map holds a key exactly while some call on it is not over, and then the latest one. */
  lemma MapHoldsBusyKeys(events: seq<Event>, k: Key)
    ensures var l := Run(Unlocked, events);
      && (k in l.tails <==> exists i :: 0 <= i < |l.calls| && l.calls[i].key == k && !l.calls[i].phase.Done?)
      && (k in l.tails ==> forall i :: 0 <= i < |l.calls| && l.calls[i].key == k ==> i <= l.tails[k])
  {
    UnlockedInv();
    RunKeepsInv(Unlocked, events);
    var l := Run(Unlocked, events);
    assert Tail(l, k);
    if k in l.tails { assert l.calls[l.tails[k]].key == k && !l.calls[l.tails[k]].phase.Done?; }
  }

  // ---------- no deadlock ----------

  lemma {:induction false} DoneIsSettled(l: Lock, i: nat)
    requires Inv(l) && i < |l.calls| && l.calls[i].phase.Done?
    ensures Settled(l, i)
    decreases i
  {
    assert CallInv(l, i);
    if l.calls[i].previous.Some? { DoneIsSettled(l, l.calls[i].previous.value); }
  }

  predicate Enabled(l: Lock, e: Event) {
    match e
    case Start(i) => MayEnter(l, i)
    case Finish(i, _) => MayLeave(l, i)
    case _ => false
  }

  ghost predicate Busy(l: Lock) {
    exists i :: 0 <= i < |l.calls| && !l.calls[i].phase.Done?
  }

  /** The first call of its kind that is not over can always move. */
  lemma FirstBusyCallMoves(l: Lock, i: nat)
    requires Inv(l) && i < |l.calls| && !l.calls[i].phase.Done?
    requires DoneBefore(l, i, l.calls[i].key)
    requires l.calls[i].key.UserProvider? ==> forall j :: 0 <= j < |l.calls| && l.calls[j].key.Identity? ==>
      l.calls[j].phase.Done?
    ensures Enabled(l, if l.calls[i].phase.Waiting? then Start(i) else Finish(i, false))
  {
    assert CallInv(l, i);
    if l.calls[i].phase.Waiting? && l.calls[i].previous.Some? {
      DoneIsSettled(l, l.calls[i].previous.value);
    }
  }

  function FirstBusy(l: Lock, identity: bool, from: nat): Option<nat>
    decreases |l.calls| - from
  {
    if from >= |l.calls| then None
    else if !l.calls[from].phase.Done? && l.calls[from].key.Identity? == identity then Some(from)
    else FirstBusy(l, identity, from + 1)
  }

  lemma {:induction false} FirstBusyIsFirst(l: Lock, identity: bool, from: nat)
    ensures match FirstBusy(l, identity, from)
      case None => forall j :: from <= j < |l.calls| && l.calls[j].key.Identity? == identity ==> l.calls[j].phase.Done?
      case Some(i) =>
        && from <= i < |l.calls| && !l.calls[i].phase.Done? && l.calls[i].key.Identity? == identity
        && forall j :: from <= j < i && l.calls[j].key.Identity? == identity ==> l.calls[j].phase.Done?
    decreases |l.calls| - from
  {
    if from < |l.calls| { FirstBusyIsFirst(l, identity, from + 1); }
  }

  /** The step of the innermost call that has waited longest. */
  function Next(l: Lock): Event {
    var i := if FirstBusy(l, true, 0).Some? then FirstBusy(l, true, 0).value
             else if FirstBusy(l, false, 0).Some? then FirstBusy(l, false, 0).value else 0;
    if i < |l.calls| && l.calls[i].phase.Waiting? then Start(i) else Finish(i, false)
  }

  /** In no reachable state are all unfinished calls stuck, nested or not. */
  lemma NoDeadlock(l: Lock)
    requires Inv(l) && Busy(l)
    ensures Enabled(l, Next(l))
  {
    FirstBusyIsFirst(l, true, 0);
    FirstBusyIsFirst(l, false, 0);
    var i := if FirstBusy(l, true, 0).Some? then FirstBusy(l, true, 0).value else FirstBusy(l, false, 0).value;
    FirstBusyCallMoves(l, i);
  }

  function CallWork(c: Call): nat {
    match c.phase
    case Waiting => if c.inner.Some? then 4 else 2
    case Running => 1
    case Done(_) => 0
  }

  function Work(calls: seq<Call>): nat {
    if calls == [] then 0 else Work(calls[..|calls| - 1]) + CallWork(calls[|calls| - 1])
  }

  lemma {:induction false} WorkAfterUpdate(calls: seq<Call>, i: nat, c: Call)
    requires i < |calls|
    ensures Work(calls[i := c]) == Work(calls) - CallWork(calls[i]) + CallWork(c)
    decreases |calls|
  {
    var n := |calls| - 1;
    if i == n { assert calls[i := c][..n] == calls[..n]; }
    else {
      assert calls[i := c][..n] == calls[..n][i := c];
      WorkAfterUpdate(calls[..n], i, c);
    }
  }

  /** Every start and every finish, in whatever order they come, uses up one unit of work. */
  lemma EveryMoveIsProgress(l: Lock, e: Event)
    requires Inv(l) && Enabled(l, e)
    ensures Work(Step(l, e).calls) == Work(l.calls) - 1
  {
    assert CallInv(l, e.call);
    var s := if e.Start? then Started(l, e.call) else Leave(l, e.call, e.threw);
    WorkAfterUpdate(l.calls, e.call, s.calls[e.call]);
    if e.Start? && l.calls[e.call].inner.Some? {
    }
  }

  lemma {:induction false} NoWorkMeansIdle(calls: seq<Call>)
    ensures Work(calls) == 0 <==> forall i :: 0 <= i < |calls| ==> calls[i].phase.Done?
  {
    if calls != [] {
      var n := |calls| - 1;
      NoWorkMeansIdle(calls[..n]);
      assert forall i :: 0 <= i < n ==> calls[..n][i] == calls[i];
    }
  }

  function Drain(l: Lock, steps: nat): Lock
    decreases steps
  {
    if steps == 0 then l else Drain(Step(l, Next(l)), steps - 1)
  }

  /** With no new call, all calls end after exactly `Work` moves, and the map is empty again. */
  lemma {:induction false} LockQuiesces(l: Lock)
    requires Inv(l)
    ensures Inv(Drain(l, Work(l.calls))) && !Busy(Drain(l, Work(l.calls))) && Drain(l, Work(l.calls)).tails == map[]
    decreases Work(l.calls)
  {
    NoWorkMeansIdle(l.calls);
    if Work(l.calls) == 0 {
      forall k: Key ensures k !in l.tails { assert Tail(l, k); }
    } else {
      NoDeadlock(l);
      EveryMoveIsProgress(l, Next(l));
      StepKeepsInv(l, Next(l));
      LockQuiesces(Step(l, Next(l)));
    }
  }

  /** Wherever a run of calls stands, something can move while anything is unfinished, and all of it ends. */
  lemma NoRunDeadlocks(events: seq<Event>)
    ensures var l := Run(Unlocked, events);
      && (Busy(l) ==> Enabled(l, Next(l)))
      && !Busy(Drain(l, Work(l.calls))) && Drain(l, Work(l.calls)).tails == map[]
  {
    UnlockedInv();
    RunKeepsInv(Unlocked, events);
    var l := Run(Unlocked, events);
    if Busy(l) { NoDeadlock(l); }
    LockQuiesces(l);
  }
}
