/** What the audit writer makes of its callers' events. */
module AuditCalls {
  import opened Wrappers
  import opened AuditMachine
  import opened AuditProofs

  // Every call of `enqueue`, those made from inside hooks included, is listed with its answer in
  // the order in which the calls begin; the writer's items and counters are read off that list.

  datatype Call = Call(event: Event, result: EnqueueResult)

  function CallsOf(w: Writer, event: Event, options: Options, now: int, hook: Script): seq<Call>
    decreases hook, 1
  {
    var a := Admit(w, event, options, now);
    [Call(event, Enqueue(w, event, options, now, hook).1)] + (if a.Invalid? then [] else CallsIn(a.writer, hook))
  }

  function CallsIn(w: Writer, script: Script): seq<Call>
    decreases script, 0
  {
    match script
    case Quiet => []
    case CallEnqueue(event, options, now, inner, rest) =>
      CallsOf(w, event, options, now, inner) + CallsIn(Enqueue(w, event, options, now, inner).0, rest)
    case CallFlush(rest) => CallsIn(Flush(w).0, rest)
    case CallClose(rest) => CallsIn(Close(w).0, rest)
  }

  function CallsDuring(w: Writer, a: Action): seq<Call> {
    match a
    case DoEnqueue(event, options, now, hook) => CallsOf(w, event, options, now, hook)
    case Catch(work, hook) => if work in w.running then CallsIn(ToFailing(w, work), hook) else []
    case _ => []
  }

  function CallsOver(w: Writer, actions: seq<Action>): seq<Call> {
    if actions == [] then []
    else
      var front := actions[..|actions| - 1];
      CallsOver(w, front) + CallsDuring(Run(w, front), actions[|actions| - 1])
  }

  /** The events of the calls with this answer, in order. */
  function Answered(calls: seq<Call>, result: EnqueueResult): seq<Event> {
    if calls == [] then []
    else (if calls[0].result == result then [calls[0].event] else []) + Answered(calls[1..], result)
  }

  function Events(works: seq<Work>): seq<Event> {
    seq(|works|, i requires 0 <= i < |works| => works[i].event)
  }

  lemma {:induction false} AnsweredJoins(a: seq<Call>, b: seq<Call>, result: EnqueueResult)
    ensures Answered(a + b, result) == Answered(a, result) + Answered(b, result)
  {
    if a == [] {
      assert a + b == b;
    } else {
      assert (a + b)[1..] == a[1..] + b;
      AnsweredJoins(a[1..], b, result);
    }
  }

  /** Between two states exactly these calls were answered. */
  predicate Accounts(w: Writer, w': Writer, calls: seq<Call>) {
    && Events(w'.accepted) == Events(w.accepted) + Answered(calls, Accepted)
    && w'.dropped == w.dropped + |Answered(calls, Dropped)|
    && w'.sampled == w.sampled + |Answered(calls, Sampled)|
  }

  lemma AccountsJoin(w: Writer, w1: Writer, w2: Writer, a: seq<Call>, b: seq<Call>)
    requires Accounts(w, w1, a) && Accounts(w1, w2, b)
    ensures Accounts(w, w2, a + b)
  {
    AnsweredJoins(a, b, Accepted);
    AnsweredJoins(a, b, Dropped);
    AnsweredJoins(a, b, Sampled);
  }

  lemma OneCall(event: Event, result: EnqueueResult, other: EnqueueResult)
    ensures Answered([Call(event, result)], other) == if result == other then [event] else []
  {
  }

  /** What admission alone changes of the books. */
  lemma AdmissionWrites(w: Writer, event: Event, options: Options, now: int)
    ensures var a := Admit(w, event, options, now);
      match a
      case Invalid => true
      case Refused(w1, result) =>
        && w1.accepted == w.accepted && result in {Dropped, Sampled}
        && w1.dropped == w.dropped + (if result == Dropped then 1 else 0)
        && w1.sampled == w.sampled + (if result == Sampled then 1 else 0)
      case Queued(w1) =>
        w1.accepted == w.accepted + [Work(|w.accepted|, event)] && w1.dropped == w.dropped && w1.sampled == w.sampled
      case Reserved(w1) =>
        w1.accepted == w.accepted + [Work(|w.accepted|, event)] && w1.dropped == w.dropped && w1.sampled == w.sampled
  {
  }

  /** Before its hook runs a call is already in the books, under the answer it is going to give. */
  lemma AdmissionAccounts(w: Writer, event: Event, options: Options, now: int, hook: Script)
    ensures var a, result := Admit(w, event, options, now), Enqueue(w, event, options, now, hook).1;
      if a.Invalid? then result == Threw else result != Threw && Accounts(w, a.writer, [Call(event, result)])
  {
    var result := Enqueue(w, event, options, now, hook).1;
    AdmissionWrites(w, event, options, now);
    OneCall(event, result, Accepted);
    OneCall(event, result, Dropped);
    OneCall(event, result, Sampled);
    assert Events(w.accepted + [Work(|w.accepted|, event)]) == Events(w.accepted) + [event];
  }

  lemma {:induction false} EnqueueAccounts(w: Writer, event: Event, options: Options, now: int, hook: Script)
    ensures Accounts(w, Enqueue(w, event, options, now, hook).0, CallsOf(w, event, options, now, hook))
    decreases hook, 1
  {
    var a, result := Admit(w, event, options, now), Enqueue(w, event, options, now, hook).1;
    AdmissionAccounts(w, event, options, now, hook);
    if a.Invalid? {
      assert Answered([Call(event, Threw)], Accepted) == [];
    } else {
      ScriptAccounts(a.writer, hook);
      AccountsJoin(w, a.writer, RunScript(a.writer, hook), [Call(event, result)], CallsIn(a.writer, hook));
    }
  }

  lemma {:induction false} ScriptAccounts(w: Writer, script: Script)
    ensures Accounts(w, RunScript(w, script), CallsIn(w, script))
    decreases script, 0
  {
    match script {
      case Quiet =>
      case CallEnqueue(event, options, now, inner, rest) =>
        var w1 := Enqueue(w, event, options, now, inner).0;
        EnqueueAccounts(w, event, options, now, inner);
        ScriptAccounts(w1, rest);
        AccountsJoin(w, w1, RunScript(w1, rest), CallsOf(w, event, options, now, inner), CallsIn(w1, rest));
      case CallFlush(rest) => ScriptAccounts(Flush(w).0, rest);
      case CallClose(rest) => ScriptAccounts(Close(w).0, rest);
    }
  }

  lemma {:induction false} FillAcceptsNothing(w: Writer)
    ensures Fill(w).accepted == w.accepted && Fill(w).dropped == w.dropped && Fill(w).sampled == w.sampled
    decreases |w.queue|
  {
    if Active(w) < w.concurrency && w.queue != [] { FillAcceptsNothing(FillOne(w)); }
  }

  lemma NothingIsAccounted(w: Writer, w': Writer)
    requires w'.accepted == w.accepted && w'.dropped == w.dropped && w'.sampled == w.sampled
    ensures Accounts(w, w', [])
  {
  }

  lemma ReleaseAccounts(w: Writer, x: Work, ok: bool)
    requires x in if ok then w.running else w.failing
    ensures Accounts(w, Release(w, x, ok), [])
  {
    FillAcceptsNothing(if ok then ToWritten(w, x) else ToFailed(w, x));
    NothingIsAccounted(w, Release(w, x, ok));
  }

  lemma CatchAccounts(w: Writer, x: Work, hook: Script)
    requires x in w.running
    ensures Accounts(w, CatchFailure(w, x, hook), CallsIn(ToFailing(w, x), hook))
  {
    ScriptAccounts(ToFailing(w, x), hook);
    assert ToFailing(w, x).accepted == w.accepted;
  }

  lemma StepAccounts(w: Writer, a: Action)
    ensures Accounts(w, Step(w, a), CallsDuring(w, a))
  {
    match a {
      case DoEnqueue(event, options, now, hook) => EnqueueAccounts(w, event, options, now, hook);
      case Catch(x, hook) => if x in w.running { CatchAccounts(w, x, hook); } else { NothingIsAccounted(w, w); }
      case Finally(x, ok) =>
        if x in (if ok then w.running else w.failing) { ReleaseAccounts(w, x, ok); } else { NothingIsAccounted(w, w); }
      case DoFlush => NothingIsAccounted(w, Flush(w).0);
      case DoClose => NothingIsAccounted(w, Close(w).0);
    }
  }

  lemma {:induction false} RunAccounts(w: Writer, actions: seq<Action>)
    ensures Accounts(w, Run(w, actions), CallsOver(w, actions))
  {
    if actions != [] {
      var front, last := actions[..|actions| - 1], actions[|actions| - 1];
      RunAccounts(w, front);
      StepAccounts(Run(w, front), last);
      AccountsJoin(w, Run(w, front), Run(w, actions), CallsOver(w, front), CallsDuring(Run(w, front), last));
    }
  }

  /** The item is the one made for the call that was accepted as the `id`-th. */
  predicate IsAccepted(w: Writer, x: Work) {
    x.id < |w.accepted| && w.accepted[x.id] == x
  }

  lemma AcceptedByNumber(w: Writer, x: Work)
    requires Inv(w) && x in w.accepted
    ensures IsAccepted(w, x)
  {
  }

  lemma EverywhereIsAccepted(w: Writer, x: Work)
    requires Inv(w)
    requires x in w.queue || x in w.reserved || x in w.running || x in w.failing || x in w.written || x in w.failed
             || x in w.started
    ensures IsAccepted(w, x)
  {
    if x in w.queue {
      assert x in w.accepted[|w.accepted| - |w.queue|..];
    } else {
      assert x in multiset(w.reserved) + w.failing + w.running + (multiset(w.written) + multiset(w.failed))
                || x in multiset(w.started);
      assert x in multiset(Left(w));
      assert x in Left(w);
    }
    AcceptedByNumber(w, x);
  }

  /**
   In every run, with all calls that hooks make: the accepted items carry, in order, exactly the
   events of the calls answered `accepted`, and the counters count the calls answered `dropped` and
   `sampled`. Wherever an item is, queued, started, written or failed, it still carries the event of
   its call.
   */
  lemma EveryCallIsAnswered(capacity: nat, concurrency: nat, maxSampleKeys: nat, actions: seq<Action>, w: Writer,
                            calls: seq<Call>)
    requires 1 <= concurrency && 1 <= maxSampleKeys
    requires w == Run(Fresh(capacity, concurrency, maxSampleKeys), actions)
    requires calls == CallsOver(Fresh(capacity, concurrency, maxSampleKeys), actions)
    ensures Events(w.accepted) == Answered(calls, Accepted)
    ensures w.dropped == |Answered(calls, Dropped)| && w.sampled == |Answered(calls, Sampled)|
    ensures forall x :: x in w.queue || x in w.started || x in w.running || x in w.failing || x in w.written
                        || x in w.failed ==>
              x.id < |Answered(calls, Accepted)| && x.event == Answered(calls, Accepted)[x.id]
  {
    var start := Fresh(capacity, concurrency, maxSampleKeys);
    RunAccounts(start, actions);
    FreshAtRest(capacity, concurrency, maxSampleKeys);
    RunStaysAtRest(start, actions);
    assert Events(start.accepted) == [];
    forall x | x in w.queue || x in w.started || x in w.running || x in w.failing || x in w.written || x in w.failed
      ensures x.id < |Events(w.accepted)| && x.event == Events(w.accepted)[x.id]
    {
      EverywhereIsAccepted(w, x);
    }
  }

  /** What `enqueue` throws a TypeError for: half of the two options, or one out of range. */
  predicate Malformed(o: Options) {
    match (o.sampleKey, o.sampleWindowMs)
    case (None, None) => false
    case (Some(key), Some(window)) => |key| == 0 || |key| > 512 || window < 1 || window > 9007199254740991
    case _ => true
  }

  lemma MalformedIsInvalid(o: Options)
    ensures Malformed(o) <==> !ValidOptions(o)
  {
  }

  predicate InWindow(w: Writer, o: Options, now: int) {
    o.sampleKey.Some? && exists s :: s in w.samples && s.key == o.sampleKey.value && now < s.expiresAt
  }

  lemma WindowIsSuppressed(w: Writer, o: Options, now: int)
    requires o.sampleKey.Some?
    ensures InWindow(w, o, now) <==> Suppressed(Prune(w.samples, now), o.sampleKey.value, now)
  {
    PruneKeeps(w.samples, now);
    var pruned := Prune(w.samples, now);
    if InWindow(w, o, now) {
      var s :| s in w.samples && s.key == o.sampleKey.value && now < s.expiresAt;
      assert s in pruned;
    }
    if Suppressed(pruned, o.sampleKey.value, now) {
      var i :| 0 <= i < |pruned| && pruned[i].key == o.sampleKey.value && pruned[i].expiresAt > now;
      assert pruned[i] in pruned;
    }
  }

  /**
   When a call is answered how: it throws on malformed options; a closed writer drops; inside a
   window of its key it is sampled; else it is accepted if a slot or a place in the queue is free
   and dropped if not.
   */
  lemma AnswersIff(w: Writer, event: Event, options: Options, now: int, hook: Script)
    ensures var result := Enqueue(w, event, options, now, hook).1;
      var open, free := !Malformed(options) && w.accepting, Active(w) < w.concurrency || |w.queue| < w.capacity;
      && (result == Threw <==> Malformed(options))
      && (result == Sampled <==> open && InWindow(w, options, now))
      && (result == Accepted <==> open && !InWindow(w, options, now) && free)
      && (result == Dropped <==>
            !Malformed(options) && (!w.accepting || (!InWindow(w, options, now) && !free)))
  {
    MalformedIsInvalid(options);
    if options.sampleKey.Some? { WindowIsSuppressed(w, options, now); }
    var a, result := Admit(w, event, options, now), Enqueue(w, event, options, now, hook).1;
    assert result == match a case Invalid => Threw case Refused(_, r) => r case _ => Accepted;
    var read := ReadClock(w, options, now);
    assert Active(read) == Active(w) && read.queue == w.queue && read.capacity == w.capacity;
  }

  // ---------- flush, close and the table ----------

  /**
   `flush` answers a resolved promise exactly at idle, and changes nothing then; else it answers the
   pending promise, the same one for every call until the writer is idle.
   */
  lemma FlushAnswers(w: Writer)
    requires Inv(w)
    ensures var (after, promise) := Flush(w);
      && (promise in after.resolved <==> Active(w) == 0 && |w.queue| == 0)
      && (Active(w) == 0 && |w.queue| == 0 ==> after == w)
      && (Active(w) + |w.queue| > 0 ==> after.flush == Some(promise) && Flush(after) == (after, promise))
      && (w.flush.Some? ==> promise == w.flush.value && after == w)
      && after == w.(flush := after.flush, promises := after.promises)
  {
  }

  /** The first `close` stops acceptance and answers what `flush` would; every later one answers the same promise. */
  lemma CloseAnswers(w: Writer)
    requires Inv(w)
    ensures var (after, promise) := Close(w);
      && !after.accepting && after.close == Some(promise) && Close(after) == (after, promise)
      && (w.close.None? ==> promise == Flush(w).1)
      && after == w.(accepting := false, flush := after.flush, promises := after.promises, close := after.close)
  {
  }

  /** A new key finds the table full. */
  predicate NoRoom(w: Writer, key: string) {
    |w.samples| >= w.maxSampleKeys && forall s :: s in w.samples ==> s.key != key
  }

  /** The first of the entries with the least expiry. */
  predicate FirstToExpire(samples: seq<Sample>, i: nat) {
    && i < |samples|
    && (forall j :: 0 <= j < |samples| ==> samples[i].expiresAt <= samples[j].expiresAt)
    && (forall j :: 0 <= j < i ==> samples[i].expiresAt < samples[j].expiresAt)
  }

  lemma NoRoomIff(w: Writer, key: string)
    requires 1 <= w.maxSampleKeys
    ensures MustEvict(w, key) <==> NoRoom(w, key)
  {
    assert HasKey(w.samples, key) <==> exists s :: s in w.samples && s.key == key by {
      if HasKey(w.samples, key) {
        var i :| 0 <= i < |w.samples| && w.samples[i].key == key;
        assert w.samples[i] in w.samples;
      }
    }
  }

  /** A key is evicted exactly if the one recorded is new and the table full: the first entry of least expiry. */
  lemma EvictionIsExact(w: Writer, key: string, expiresAt: int)
    requires 1 <= w.maxSampleKeys
    ensures var w' := Remember(w, key, expiresAt);
      if NoRoom(w, key) then
        exists i: nat :: FirstToExpire(w.samples, i) && w'.evicted == w.evicted + [w.samples[i].key]
      else w'.evicted == w.evicted
  {
    NoRoomIff(w, key);
    if NoRoom(w, key) {
      var i := Earliest(w.samples);
      assert FirstToExpire(w.samples, i) && Remember(w, key, expiresAt).evicted == w.evicted + [w.samples[i].key];
    }
  }

  /** Recording a key adds its entry, drops its old one, and makes up no other; nothing but the table changes. */
  lemma RecordingAddsOneEntry(w: Writer, key: string, expiresAt: int)
    requires Bounded(w) && 1 <= w.maxSampleKeys
    ensures var w' := Remember(w, key, expiresAt);
      && (forall s :: s in w'.samples ==> s == Sample(key, expiresAt) || (s in w.samples && s.key != key))
      && w' == w.(samples := w'.samples, evicted := w'.evicted)
  {
    RememberKeeps(w, key, expiresAt);
    var w' := Remember(w, key, expiresAt);
    var table := if MustEvict(w, key) then Without(w.samples, Earliest(w.samples)) else w.samples;
    PutMembers(table, key, expiresAt);
    assert forall s :: s in table ==> s in w.samples;
    forall s | s in w'.samples && s != Sample(key, expiresAt) ensures s in w.samples && s.key != key {
      assert DistinctKeys(w'.samples);
    }
  }
}
