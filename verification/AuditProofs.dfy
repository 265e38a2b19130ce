/** What the audit writer keeps, over every run and at every re-entrant call. */
module AuditProofs {
  import opened Wrappers
  import opened AuditMachine

  // ---------- the invariant ----------

  predicate Slots(w: Writer) {
    && 1 <= w.concurrency && 1 <= w.maxSampleKeys
    && Active(w) <= w.concurrency
    && |w.queue| <= w.capacity
    && (w.queue != [] ==> Active(w) == w.concurrency)
  }

  type Works = multiset<Work>

  predicate Parts(all: Works, reserved: Works, failing: Works, running: Works, settled: Works) {
    all == reserved + failing + running + settled
  }

  /** The accepted items that are not, or no longer, queued. */
  function Left(w: Writer): seq<Work>
    requires |w.queue| <= |w.accepted|
  {
    w.accepted[..|w.accepted| - |w.queue|]
  }

  /** The queue holds the youngest accepted items in order of acceptance: nothing ever overtakes one of them. */
  predicate Fifo(w: Writer) {
    |w.queue| <= |w.accepted| && w.accepted[|w.accepted| - |w.queue|..] == w.queue
  }

  predicate Numbered(w: Writer) {
    forall i :: 0 <= i < |w.accepted| ==> w.accepted[i].id == i
  }

  /** Every item that left the queue is in exactly one place, and all of those but the reserved ones have started. */
  predicate Conserved(w: Writer)
    requires |w.queue| <= |w.accepted|
  {
    && Parts(multiset(Left(w)), multiset(w.reserved), w.failing, w.running, multiset(w.written) + multiset(w.failed))
    && Parts(multiset(w.started), multiset{}, w.failing, w.running, multiset(w.written) + multiset(w.failed))
  }

  /** A pending flush means work is under way; the closing promise is resolved only when all is done. */
  predicate Promised(w: Writer) {
    && 0 in w.resolved && 1 <= w.promises
    && (forall p :: p in w.resolved ==> p < w.promises)
    && (w.flush.Some? ==> Active(w) > 0 && w.flush.value < w.promises && w.flush.value !in w.resolved)
    && (w.close.Some? <==> !w.accepting)
    && (w.close.Some? ==> w.close.value in w.resolved || w.flush == w.close)
    && (w.close.Some? && w.close.value in w.resolved ==> Idle(w))
  }

  /**
   A later item starts before an earlier one if and only if that one is inside its acceptance hook
   at the time; it then starts directly, never from the queue.
   */
  predicate StartsInTurn(started: seq<Work>, starts: seq<Start>) {
    && |starts| == |started|
    && (forall i, j :: 0 <= i < j < |started| ==>
          && (started[i].id > started[j].id <==> started[j] in starts[i].inside)
          && (started[i].id > started[j].id ==> starts[j].direct))
  }

  predicate Ascending(works: seq<Work>) {
    forall i, j :: 0 <= i < j < |works| ==> works[i].id < works[j].id
  }

  /** The same goes for the items still inside a hook, and the innermost of those is the youngest. */
  predicate StartOrder(started: seq<Work>, starts: seq<Start>, reserved: seq<Work>) {
    && StartsInTurn(started, starts)
    && Ascending(reserved)
    && (forall i, x :: 0 <= i < |started| && x in starts[i].inside ==> x.id < started[i].id)
    && (forall i, x :: 0 <= i < |started| && x in reserved && started[i].id > x.id ==> x in starts[i].inside)
  }

  predicate DistinctKeys(samples: seq<Sample>) {
    forall i, j :: 0 <= i < j < |samples| ==> samples[i].key != samples[j].key
  }

  predicate Bounded(w: Writer) {
    DistinctKeys(w.samples) && |w.samples| <= w.maxSampleKeys
  }

  /** Everything but the promises. */
  predicate Tidy(w: Writer) {
    && Slots(w) && Fifo(w) && Conserved(w) && Numbered(w) && Bounded(w)
    && StartOrder(w.started, w.starts, w.reserved)
  }

  predicate Inv(w: Writer) {
    Tidy(w) && Promised(w)
  }

  lemma PromisesKeepTidy(w: Writer, w': Writer)
    requires Tidy(w)
    requires w' == w.(accepting := w'.accepting, flush := w'.flush, close := w'.close, promises := w'.promises,
                      resolved := w'.resolved)
    ensures Tidy(w')
  {
  }

  // ---------- the sample table ----------

  lemma {:induction false} PruneKeeps(samples: seq<Sample>, now: int)
    ensures |Prune(samples, now)| <= |samples|
    ensures forall s :: s in Prune(samples, now) <==> s in samples && s.expiresAt > now
    ensures DistinctKeys(samples) ==> DistinctKeys(Prune(samples, now))
  {
    if samples != [] {
      PruneKeeps(samples[1..], now);
      assert samples == [samples[0]] + samples[1..];
      var rest := Prune(samples[1..], now);
      if DistinctKeys(samples) {
        forall j | 0 <= j < |rest| ensures samples[0].key != rest[j].key {
          assert rest[j] in samples[1..];
        }
      }
    }
  }

  lemma HasKeyCons(s: Sample, rest: seq<Sample>, key: string)
    ensures HasKey([s] + rest, key) <==> s.key == key || HasKey(rest, key)
  {
    var all := [s] + rest;
    assert forall i :: 0 <= i < |rest| ==> all[i + 1] == rest[i];
    assert all[0] == s;
  }

  lemma {:induction false} PutMembers(samples: seq<Sample>, key: string, expiresAt: int)
    ensures var put := Put(samples, key, expiresAt);
      && |put| == |samples| + (if HasKey(samples, key) then 0 else 1)
      && Sample(key, expiresAt) in put
      && (forall s :: s in put ==> s == Sample(key, expiresAt) || s in samples)
      && (forall s :: s in samples && s.key != key ==> s in put)
  {
    if samples != [] {
      assert samples == [samples[0]] + samples[1..];
      HasKeyCons(samples[0], samples[1..], key);
      if samples[0].key != key { PutMembers(samples[1..], key, expiresAt); }
    }
  }

  lemma {:induction false} PutKeeps(samples: seq<Sample>, key: string, expiresAt: int)
    ensures var put := Put(samples, key, expiresAt);
      && |put| == |samples| + (if HasKey(samples, key) then 0 else 1)
      && Sample(key, expiresAt) in put
      && (forall s :: s in put ==> s == Sample(key, expiresAt) || s in samples)
      && (forall s :: s in samples && s.key != key ==> s in put)
      && (DistinctKeys(samples) ==> DistinctKeys(put))
  {
    PutMembers(samples, key, expiresAt);
    if samples != [] && samples[0].key != key && DistinctKeys(samples) {
      PutKeeps(samples[1..], key, expiresAt);
      PutMembers(samples[1..], key, expiresAt);
      var rest := Put(samples[1..], key, expiresAt);
      forall j | 0 <= j < |rest| ensures samples[0].key != rest[j].key {
        assert rest[j] in rest;
      }
    }
  }

  lemma WithoutKeeps(samples: seq<Sample>, i: nat)
    requires i < |samples|
    ensures |Without(samples, i)| == |samples| - 1
    ensures forall s :: s in Without(samples, i) ==> s in samples
    ensures forall s :: s in samples && s != samples[i] ==> s in Without(samples, i)
    ensures DistinctKeys(samples) ==> DistinctKeys(Without(samples, i))
  {
    forall s | s in samples && s != samples[i] ensures s in Without(samples, i) {
      var j :| 0 <= j < |samples| && samples[j] == s;
      assert Without(samples, i)[if j < i then j else j - 1] == s;
    }
  }

  /**
   Recording a key keeps the table within its bound; when a key has to go it is one of least
   expiry, and every other entry stays.
   */
  lemma RememberKeeps(w: Writer, key: string, expiresAt: int)
    requires Bounded(w) && 1 <= w.maxSampleKeys
    ensures var w' := Remember(w, key, expiresAt);
      && Bounded(w')
      && Sample(key, expiresAt) in w'.samples
      && w'.evicted[..|w.evicted|] == w.evicted
      && |w'.evicted| <= |w.evicted| + 1
      && (forall s :: s in w.samples && s.key != key && s.key !in w'.evicted[|w.evicted|..] ==> s in w'.samples)
      && (|w'.evicted| > |w.evicted| ==>
            exists s :: s in w.samples && s.key == w'.evicted[|w.evicted|]
                        && forall t :: t in w.samples ==> s.expiresAt <= t.expiresAt)
  {
    if MustEvict(w, key) {
      var i := Earliest(w.samples);
      WithoutKeeps(w.samples, i);
      PutKeeps(Without(w.samples, i), key, expiresAt);
      var s := w.samples[i];
      assert s in w.samples && forall t :: t in w.samples ==> s.expiresAt <= t.expiresAt;
      forall t | t in w.samples && t.key != key && t.key != s.key
        ensures t in Put(Without(w.samples, i), key, expiresAt) {
        assert t != s;
      }
    } else {
      PutKeeps(w.samples, key, expiresAt);
    }
  }

  // ---------- preservation ----------

  lemma AppendKeepsMultiset<T>(s: seq<T>, x: T)
    ensures multiset(s + [x]) == multiset(s) + multiset{x}
  {
  }

  lemma FrontKeepsMultiset<T>(s: seq<T>)
    requires s != []
    ensures multiset(s) == multiset(s[..|s| - 1]) + multiset{s[|s| - 1]}
  {
    assert s == s[..|s| - 1] + [s[|s| - 1]];
  }

  /** Everything but the sample table and the counters of refused calls. */
  predicate SameWork(w: Writer, w': Writer) {
    w' == w.(samples := w'.samples, evicted := w'.evicted, latest := w'.latest, dropped := w'.dropped,
             sampled := w'.sampled)
  }

  lemma SameWorkKeepsInv(w: Writer, w': Writer)
    requires Inv(w) && SameWork(w, w') && Bounded(w')
    ensures Inv(w')
  {
  }

  lemma NoteKeepsInv(w: Writer, options: Options, now: int)
    requires Inv(w)
    ensures Inv(Note(w, options, now)) && SameWork(w, Note(w, options, now))
  {
    if options.sampleKey.Some? && options.sampleWindowMs.Some? {
      RememberKeeps(w, options.sampleKey.value, now + options.sampleWindowMs.value);
    }
    SameWorkKeepsInv(w, Note(w, options, now));
  }

  lemma MovePart(all: Works, reserved: Works, failing: Works, running: Works, settled: Works, x: Work)
    requires Parts(all, reserved, failing, running, settled)
    ensures Parts(all + multiset{x}, reserved + multiset{x}, failing, running, settled)
    ensures Parts(all + multiset{x}, reserved, failing, running + multiset{x}, settled)
    ensures x in running ==> Parts(all, reserved, failing + multiset{x}, running - multiset{x}, settled)
    ensures x in running ==> Parts(all, reserved, failing, running - multiset{x}, settled + multiset{x})
    ensures x in reserved ==> Parts(all, reserved - multiset{x}, failing, running + multiset{x}, settled)
    ensures x in failing ==> Parts(all, reserved, failing - multiset{x}, running, settled + multiset{x})
  {
  }

  lemma MoveInWriter(w: Writer, x: Work)
    requires Fifo(w) && Conserved(w)
    ensures var all, r, f, n, s := multiset(Left(w)), multiset(w.reserved), w.failing, w.running,
                                   multiset(w.written) + multiset(w.failed);
      && Parts(all + multiset{x}, r + multiset{x}, f, n, s)
      && Parts(all + multiset{x}, r, f, n + multiset{x}, s)
      && (x in r ==> Parts(all, r - multiset{x}, f, n + multiset{x}, s))
      && (x in n ==> Parts(all, r, f + multiset{x}, n - multiset{x}, s))
      && (x in n ==> Parts(all, r, f, n - multiset{x}, s + multiset{x}))
      && (x in f ==> Parts(all, r, f - multiset{x}, n, s + multiset{x}))
    ensures var all, f, n, s := multiset(w.started), w.failing, w.running, multiset(w.written) + multiset(w.failed);
      && Parts(all + multiset{x}, multiset{}, f, n + multiset{x}, s)
      && (x in n ==> Parts(all, multiset{}, f + multiset{x}, n - multiset{x}, s))
      && (x in n ==> Parts(all, multiset{}, f, n - multiset{x}, s + multiset{x}))
      && (x in f ==> Parts(all, multiset{}, f - multiset{x}, n, s + multiset{x}))
  {
    MovePart(multiset(Left(w)), multiset(w.reserved), w.failing, w.running,
             multiset(w.written) + multiset(w.failed), x);
    MovePart(multiset(w.started), multiset{}, w.failing, w.running, multiset(w.written) + multiset(w.failed), x);
  }

  lemma RemoveAdded(m: Works, x: Work)
    ensures m + multiset{x} - multiset{x} == m
  {
  }

  lemma SettledParts(w: Writer, x: Work)
    ensures multiset(w.written + [x]) + multiset(w.failed) == multiset(w.written) + multiset(w.failed) + multiset{x}
    ensures multiset(w.written) + multiset(w.failed + [x]) == multiset(w.written) + multiset(w.failed) + multiset{x}
  {
    AppendKeepsMultiset(w.written, x);
    AppendKeepsMultiset(w.failed, x);
  }

  /** Every started item, and every one inside a hook, is older than all queued ones and than the next accepted. */
  lemma StartedAreOlder(w: Writer)
    requires Fifo(w) && Conserved(w) && Numbered(w)
    ensures forall x :: x in w.started ==> x.id < |w.accepted| - |w.queue|
    ensures forall x :: x in w.reserved ==> x.id < |w.accepted| - |w.queue|
    ensures forall i :: 0 <= i < |w.queue| ==> w.queue[i].id == |w.accepted| - |w.queue| + i
  {
    forall x | x in w.started ensures x.id < |w.accepted| - |w.queue| {
      assert x in multiset(w.started);
      assert x in multiset(Left(w));
      assert x in Left(w);
    }
    forall x | x in w.reserved ensures x.id < |w.accepted| - |w.queue| {
      assert x in multiset(w.reserved);
      assert x in multiset(Left(w));
      assert x in Left(w);
    }
    forall i | 0 <= i < |w.queue| ensures w.queue[i].id == |w.accepted| - |w.queue| + i {
      assert w.queue[i] == w.accepted[|w.accepted| - |w.queue|..][i];
    }
  }

  lemma ReserveConserves(w: Writer, x: Work)
    requires Fifo(w) && Conserved(w) && w.queue == []
    ensures Fifo(ToReserved(w, x)) && Conserved(ToReserved(w, x))
  {
    var w' := ToReserved(w, x);
    assert Left(w') == w.accepted + [x] == Left(w) + [x];
    MoveInWriter(w, x);
    AppendKeepsMultiset(w.reserved, x);
    AppendKeepsMultiset(Left(w), x);
  }

  lemma ReserveKeepsStartOrder(started: seq<Work>, starts: seq<Start>, reserved: seq<Work>, x: Work)
    requires StartOrder(started, starts, reserved)
    requires (forall y :: y in started ==> y.id < x.id) && (forall y :: y in reserved ==> y.id < x.id)
    ensures StartOrder(started, starts, reserved + [x])
  {
    forall i | 0 <= i < |started| ensures started[i].id < x.id { assert started[i] in started; }
    forall i | 0 <= i < |reserved| ensures reserved[i].id < x.id { assert reserved[i] in reserved; }
  }

  lemma ReserveKeepsInv(w: Writer, x: Work)
    requires Inv(w) && w.accepting && Active(w) < w.concurrency && x.id == |w.accepted|
    ensures Inv(ToReserved(w, x))
  {
    ReserveConserves(w, x);
    StartedAreOlder(w);
    ReserveKeepsStartOrder(w.started, w.starts, w.reserved, x);
    assert Promised(ToReserved(w, x)) by { assert Promised(w); }
  }

  lemma QueueConserves(w: Writer, x: Work)
    requires Fifo(w) && Conserved(w)
    ensures Fifo(ToQueue(w, x)) && Conserved(ToQueue(w, x))
  {
    var w' := ToQueue(w, x);
    var n := |w.accepted| - |w.queue|;
    assert w'.accepted[n..] == w.accepted[n..] + [x];
    assert Left(w') == Left(w);
  }

  lemma QueueKeepsInv(w: Writer, x: Work)
    requires Inv(w) && w.accepting && Active(w) >= w.concurrency && |w.queue| < w.capacity && x.id == |w.accepted|
    ensures Inv(ToQueue(w, x))
  {
    QueueConserves(w, x);
    assert Promised(ToQueue(w, x)) by { assert Promised(w); }
  }

  lemma LaunchConserves(w: Writer)
    requires Fifo(w) && Conserved(w) && w.reserved != []
    ensures Fifo(Launch(w)) && Conserved(Launch(w)) && Active(Launch(w)) == Active(w)
  {
    var x := w.reserved[|w.reserved| - 1];
    FrontKeepsMultiset(w.reserved);
    AppendKeepsMultiset(w.started, x);
    RemoveAdded(multiset(w.reserved[..|w.reserved| - 1]), x);
    MoveInWriter(w, x);
    assert Left(Launch(w)) == Left(w);
  }

  lemma LaunchKeepsStartOrder(started: seq<Work>, starts: seq<Start>, reserved: seq<Work>)
    requires reserved != [] && StartOrder(started, starts, reserved)
    ensures var others, x := reserved[..|reserved| - 1], reserved[|reserved| - 1];
      StartOrder(started + [x], starts + [Start(true, others)], others)
  {
    var others, x := reserved[..|reserved| - 1], reserved[|reserved| - 1];
    assert x in reserved && forall y :: y in others ==> y in reserved;
    assert forall y :: y in others ==> y.id < x.id;
    assert Ascending(others);
  }

  lemma FillKeepsStartOrder(started: seq<Work>, starts: seq<Start>, reserved: seq<Work>, x: Work)
    requires StartOrder(started, starts, reserved)
    requires (forall y :: y in started ==> y.id < x.id) && (forall y :: y in reserved ==> y.id < x.id)
    ensures StartOrder(started + [x], starts + [Start(false, reserved)], reserved)
  {
    forall i | 0 <= i < |started| ensures started[i].id < x.id { assert started[i] in started; }
  }

  lemma LaunchKeepsInv(w: Writer)
    requires Inv(w) && w.reserved != []
    ensures Inv(Launch(w))
  {
    LaunchConserves(w);
    LaunchKeepsStartOrder(w.started, w.starts, w.reserved);
    assert Promised(Launch(w)) && Slots(Launch(w)) by { assert Promised(w) && Slots(w); }
  }

  lemma FlushKeepsInv(w: Writer)
    requires Inv(w)
    ensures Inv(Flush(w).0)
  {
    PromisesKeepTidy(w, Flush(w).0);
  }

  lemma CloseKeepsInv(w: Writer)
    requires Inv(w)
    ensures Inv(Close(w).0)
  {
    PromisesKeepTidy(w, Close(w).0);
    assert Promised(Close(w).0) by { assert Promised(w) && Slots(w); }
  }

  // ---------- admission, hooks and scripts ----------

  predicate AdmissionInv(a: Admission) {
    match a
    case Invalid => true
    case Refused(w1, _) => Inv(w1)
    case Queued(w1) => Inv(w1)
    case Reserved(w1) => Inv(w1) && w1.reserved != []
  }

  lemma ReadClockKeepsInv(w: Writer, options: Options, now: int)
    requires Inv(w)
    ensures Inv(ReadClock(w, options, now)) && SameWork(w, ReadClock(w, options, now))
  {
    PruneKeeps(w.samples, now);
    SameWorkKeepsInv(w, ReadClock(w, options, now));
  }

  lemma ReservedAdmission(w: Writer, work: Work, options: Options, now: int)
    requires Inv(w) && w.accepting && Active(w) < w.concurrency && work.id == |w.accepted|
    ensures var w1 := Note(ToReserved(w, work), options, now); Inv(w1) && w1.reserved != []
  {
    ReserveKeepsInv(w, work);
    NoteKeepsInv(ToReserved(w, work), options, now);
  }

  lemma QueuedAdmission(w: Writer, work: Work, options: Options, now: int)
    requires Inv(w) && w.accepting && Active(w) >= w.concurrency && |w.queue| < w.capacity && work.id == |w.accepted|
    ensures Inv(Note(ToQueue(w, work), options, now))
  {
    QueueKeepsInv(w, work);
    NoteKeepsInv(ToQueue(w, work), options, now);
  }

  lemma PlaceKeepsInv(w: Writer, event: Event, options: Options, now: int)
    requires Inv(w) && w.accepting
    ensures AdmissionInv(Place(w, event, options, now))
  {
    var work := Work(|w.accepted|, event);
    if options.sampleKey.Some? && Suppressed(w.samples, options.sampleKey.value, now) {
      SameWorkKeepsInv(w, w.(sampled := w.sampled + 1));
    } else if Active(w) < w.concurrency {
      ReservedAdmission(w, work, options, now);
    } else if |w.queue| < w.capacity {
      QueuedAdmission(w, work, options, now);
    } else {
      SameWorkKeepsInv(w, w.(dropped := w.dropped + 1));
    }
  }

  lemma AdmitKeepsInv(w: Writer, event: Event, options: Options, now: int)
    requires Inv(w)
    ensures AdmissionInv(Admit(w, event, options, now))
  {
    if ValidOptions(options) && !w.accepting {
      SameWorkKeepsInv(w, w.(dropped := w.dropped + 1));
    } else if ValidOptions(options) {
      var w1 := ReadClock(w, options, now);
      assert Inv(w1) && w1.accepting by { ReadClockKeepsInv(w, options, now); }
      PlaceKeepsInv(w1, event, options, now);
    }
  }

  lemma {:induction false} EnqueueKeepsInv(w: Writer, event: Event, options: Options, now: int, hook: Script)
    requires Inv(w)
    ensures Inv(Enqueue(w, event, options, now, hook).0)
    decreases hook, 1
  {
    AdmitKeepsInv(w, event, options, now);
    var a := Admit(w, event, options, now);
    if !a.Invalid? {
      ScriptKeepsInv(a.writer, hook);
      if a.Reserved? { LaunchKeepsInv(RunScript(a.writer, hook)); }
    }
  }

  lemma {:induction false} ScriptKeepsInv(w: Writer, script: Script)
    requires Inv(w)
    ensures Inv(RunScript(w, script))
    decreases script, 0
  {
    match script {
      case Quiet =>
      case CallEnqueue(event, options, now, inner, rest) =>
        EnqueueKeepsInv(w, event, options, now, inner);
        ScriptKeepsInv(Enqueue(w, event, options, now, inner).0, rest);
      case CallFlush(rest) =>
        FlushKeepsInv(w);
        ScriptKeepsInv(Flush(w).0, rest);
      case CallClose(rest) =>
        CloseKeepsInv(w);
        ScriptKeepsInv(Close(w).0, rest);
    }
  }

  // ---------- completion ----------

  /** What is kept of Promised while a slot has been given up and the drain has not run. */
  predicate Awaited(w: Writer) {
    && 0 in w.resolved && 1 <= w.promises
    && (forall p :: p in w.resolved ==> p < w.promises)
    && (w.flush.Some? ==> w.flush.value < w.promises && w.flush.value !in w.resolved)
    && (w.close.Some? <==> !w.accepting)
    && (w.close.Some? ==> w.close.value in w.resolved || w.flush == w.close)
    && (w.close.Some? && w.close.value in w.resolved ==> Idle(w))
  }

  /** The invariant with one slot just given up: the queue may wait for the drain. */
  predicate Slack(w: Writer) {
    && 1 <= w.concurrency && 1 <= w.maxSampleKeys && |w.queue| <= w.capacity
    && Active(w) <= w.concurrency
    && (w.queue != [] ==> Active(w) + 1 >= w.concurrency)
    && Fifo(w) && Conserved(w) && Numbered(w) && Bounded(w) && Awaited(w)
    && StartOrder(w.started, w.starts, w.reserved)
  }

  lemma FillOneConserves(w: Writer)
    requires Fifo(w) && Conserved(w) && w.queue != []
    ensures Fifo(FillOne(w)) && Conserved(FillOne(w))
  {
    var x, n := w.queue[0], |w.accepted| - |w.queue|;
    assert w.accepted[n + 1..] == w.accepted[n..][1..];
    assert w.accepted[n] == w.accepted[n..][0] == x;
    assert Left(FillOne(w)) == Left(w) + [x];
    AppendKeepsMultiset(Left(w), x);
    AppendKeepsMultiset(w.started, x);
    MoveInWriter(w, x);
  }

  lemma FillOneKeepsSlack(w: Writer)
    requires Slack(w) && Active(w) < w.concurrency && w.queue != []
    ensures Slack(FillOne(w)) && Active(FillOne(w)) == Active(w) + 1
  {
    FillOneConserves(w);
    StartedAreOlder(w);
    FillKeepsStartOrder(w.started, w.starts, w.reserved, w.queue[0]);
    assert Awaited(FillOne(w)) by { assert Awaited(w); }
  }

  /** Filling moves items from the queue to free slots and touches nothing else. */
  predicate SameButFilled(w: Writer, w': Writer) {
    w' == w.(queue := w'.queue, running := w'.running, started := w'.started, starts := w'.starts)
    && Active(w') + |w'.queue| == Active(w) + |w.queue|
  }

  lemma {:induction false} FillSettles(w: Writer)
    requires Slack(w)
    ensures Slack(Fill(w)) && Slots(Fill(w)) && SameButFilled(w, Fill(w))
    decreases |w.queue|
  {
    if Active(w) < w.concurrency && w.queue != [] {
      FillOneKeepsSlack(w);
      FillSettles(FillOne(w));
    }
  }

  lemma DrainSettles(w: Writer)
    requires Slack(w)
    ensures Inv(Drain(w))
  {
    FillSettles(w);
    SettledIsInv(Fill(w), Drain(w));
  }

  lemma SettledIsInv(w: Writer, w': Writer)
    requires Slack(w) && Slots(w)
    requires w' == if Idle(w) && w.flush.Some? then w.(flush := None, resolved := w.resolved + {w.flush.value}) else w
    ensures Inv(w')
  {
    PromisesKeepTidy(w, w');
    assert Promised(w') by { assert Awaited(w); }
  }

  lemma WrittenIsSlack(w: Writer, x: Work)
    requires Inv(w) && x in w.running
    ensures Slack(ToWritten(w, x)) && Active(ToWritten(w, x)) == Active(w) - 1
  {
    MoveInWriter(w, x);
    SettledParts(w, x);
    assert Conserved(ToWritten(w, x));
    assert Awaited(ToWritten(w, x)) by { assert Promised(w); }
  }

  lemma FailingConserves(w: Writer, x: Work)
    requires Fifo(w) && Conserved(w) && x in w.running
    ensures Fifo(ToFailing(w, x)) && Conserved(ToFailing(w, x)) && Active(ToFailing(w, x)) == Active(w)
  {
    MoveInWriter(w, x);
    assert Left(ToFailing(w, x)) == Left(w);
  }

  lemma FailingKeepsInv(w: Writer, x: Work)
    requires Inv(w) && x in w.running
    ensures Inv(ToFailing(w, x))
  {
    FailingConserves(w, x);
    assert Promised(ToFailing(w, x)) by { assert Promised(w); }
  }

  lemma FailedIsSlack(w: Writer, x: Work)
    requires Inv(w) && x in w.failing
    ensures Slack(ToFailed(w, x)) && Active(ToFailed(w, x)) == Active(w) - 1
  {
    MoveInWriter(w, x);
    SettledParts(w, x);
    assert Left(ToFailed(w, x)) == Left(w);
    assert Conserved(ToFailed(w, x));
    assert Awaited(ToFailed(w, x)) by { assert Promised(w); }
  }

  lemma CatchKeepsInv(w: Writer, x: Work, hook: Script)
    requires Inv(w) && x in w.running
    ensures Inv(CatchFailure(w, x, hook))
  {
    FailingKeepsInv(w, x);
    ScriptKeepsInv(ToFailing(w, x), hook);
  }

  lemma ReleaseKeepsInv(w: Writer, x: Work, ok: bool)
    requires Inv(w) && x in if ok then w.running else w.failing
    ensures Inv(Release(w, x, ok))
  {
    if ok {
      WrittenIsSlack(w, x);
      DrainSettles(ToWritten(w, x));
    } else {
      FailedIsSlack(w, x);
      DrainSettles(ToFailed(w, x));
    }
  }

  // ---------- every run ----------

  /** Between the run's actions no call is inside a hook; failed writes may still hold their slots. */
  predicate AtRest(w: Writer) {
    Inv(w) && w.reserved == [] && w.writeFailures == |w.failed| + |w.failing|
  }

  /** What no re-entrant call can change: outcomes belong to the event loop. */
  predicate SameOutcomes(w: Writer, w': Writer) {
    && w'.written == w.written && w'.failed == w.failed && w'.writeFailures == w.writeFailures
    && w'.resolved == w.resolved
    && |w'.accepted| >= |w.accepted|
    && (if w.flush.Some? then w'.flush == w.flush else w'.flush.Some? ==> w'.flush.value >= w.promises)
    && w'.promises >= w.promises
    && |w'.accepted| - Active(w') - |w'.queue| == |w.accepted| - Active(w) - |w.queue|
  }

  lemma SameOutcomesTransitive(w: Writer, w1: Writer, w2: Writer)
    requires SameOutcomes(w, w1) && SameOutcomes(w1, w2)
    ensures SameOutcomes(w, w2)
  {
  }

  lemma AdmitKeepsOutcomes(w: Writer, event: Event, options: Options, now: int)
    ensures var a := Admit(w, event, options, now); !a.Invalid? ==> SameOutcomes(w, a.writer)
  {
  }

  lemma FlushKeepsOutcomes(w: Writer)
    ensures SameOutcomes(w, Flush(w).0) && SameOutcomes(w, Close(w).0)
  {
  }

  lemma {:induction false} EnqueueKeepsOutcomes(w: Writer, event: Event, options: Options, now: int, hook: Script)
    ensures SameOutcomes(w, Enqueue(w, event, options, now, hook).0)
    decreases hook, 1
  {
    AdmitKeepsOutcomes(w, event, options, now);
    var a := Admit(w, event, options, now);
    if !a.Invalid? {
      var w1 := RunScript(a.writer, hook);
      ScriptKeepsOutcomes(a.writer, hook);
      SameOutcomesTransitive(w, a.writer, w1);
      if a.Reserved? {
        SameOutcomesTransitive(w, w1, Launch(w1));
      }
    }
  }

  lemma {:induction false} ScriptKeepsOutcomes(w: Writer, script: Script)
    ensures SameOutcomes(w, RunScript(w, script))
    decreases script, 0
  {
    match script {
      case Quiet =>
      case CallEnqueue(event, options, now, inner, rest) =>
        var w1 := Enqueue(w, event, options, now, inner).0;
        EnqueueKeepsOutcomes(w, event, options, now, inner);
        ScriptKeepsOutcomes(w1, rest);
        SameOutcomesTransitive(w, w1, RunScript(w1, rest));
      case CallFlush(rest) =>
        FlushKeepsOutcomes(w);
        ScriptKeepsOutcomes(Flush(w).0, rest);
        SameOutcomesTransitive(w, Flush(w).0, RunScript(w, script));
      case CallClose(rest) =>
        FlushKeepsOutcomes(w);
        ScriptKeepsOutcomes(Close(w).0, rest);
        SameOutcomesTransitive(w, Close(w).0, RunScript(w, script));
    }
  }

  lemma CatchStaysAtRest(w: Writer, x: Work, hook: Script)
    requires AtRest(w) && x in w.running
    ensures AtRest(CatchFailure(w, x, hook)) && CatchFailure(w, x, hook).resolved == w.resolved
    ensures w.flush.Some? ==> CatchFailure(w, x, hook).flush == w.flush
  {
    CatchKeepsInv(w, x, hook);
    ScriptKeepsOutcomes(ToFailing(w, x), hook);
  }

  lemma ReleaseStaysAtRest(w: Writer, x: Work, ok: bool)
    requires AtRest(w) && x in if ok then w.running else w.failing
    ensures AtRest(Release(w, x, ok))
  {
    ReleaseKeepsInv(w, x, ok);
    ReleaseReleases(w, x, ok);
  }

  lemma StepStaysAtRest(w: Writer, a: Action)
    requires AtRest(w)
    ensures AtRest(Step(w, a))
  {
    match a {
      case DoEnqueue(event, options, now, hook) =>
        EnqueueKeepsInv(w, event, options, now, hook);
        EnqueueKeepsOutcomes(w, event, options, now, hook);
      case DoFlush => FlushKeepsInv(w);
      case DoClose => CloseKeepsInv(w);
      case Catch(x, hook) =>
        if x in w.running { CatchStaysAtRest(w, x, hook); }
      case Finally(x, ok) =>
        if x in (if ok then w.running else w.failing) { ReleaseStaysAtRest(w, x, ok); }
    }
  }

  /**
   The drain moves queued items into free slots and resolves the pending promise if and only if it
   leaves the writer idle.
   */
  predicate Drained(w: Writer, w': Writer) {
    && w'.reserved == w.reserved && w'.failing == w.failing
    && w'.written == w.written && w'.failed == w.failed && w'.writeFailures == w.writeFailures
    && w'.accepted == w.accepted
    && Active(w') + |w'.queue| == Active(w) + |w.queue|
    && (if Idle(w') && w.flush.Some? then w'.flush.None? && w'.resolved == w.resolved + {w.flush.value}
        else w'.flush == w.flush && w'.resolved == w.resolved)
  }

  lemma DrainDrains(w: Writer)
    requires Slack(w)
    ensures Drained(w, Drain(w))
  {
    FillSettles(w);
    var w1 := Fill(w);
    assert Drained(w, Drain(w)) by {
      assert Active(Drain(w)) == Active(w1);
    }
  }

  /** One release: exactly one outcome, for exactly that item; its slot is free; promises resolve only at idle. */
  predicate Released(w: Writer, w': Writer, x: Work, ok: bool) {
    && w'.reserved == w.reserved && w'.failing == (if ok then w.failing else w.failing - multiset{x})
    && w'.written == (if ok then w.written + [x] else w.written)
    && w'.failed == (if ok then w.failed else w.failed + [x])
    && w'.writeFailures == w.writeFailures
    && w'.accepted == w.accepted
    && Active(w') + |w'.queue| == Active(w) + |w.queue| - 1
    && (forall p :: p in w'.resolved && p !in w.resolved ==> Idle(w') && w.flush == Some(p))
    && (w.flush.Some? ==> if Idle(w') then w.flush.value in w'.resolved else w'.flush == w.flush)
  }

  lemma WrittenReleases(w: Writer, x: Work)
    requires Inv(w) && x in w.running
    ensures Released(w, Drain(ToWritten(w, x)), x, true)
  {
    WrittenIsSlack(w, x);
    DrainDrains(ToWritten(w, x));
  }

  lemma FailedReleases(w: Writer, x: Work)
    requires Inv(w) && x in w.failing
    ensures Released(w, Drain(ToFailed(w, x)), x, false)
  {
    FailedIsSlack(w, x);
    DrainDrains(ToFailed(w, x));
  }

  lemma ReleaseReleases(w: Writer, x: Work, ok: bool)
    requires Inv(w) && x in if ok then w.running else w.failing
    ensures Released(w, Release(w, x, ok), x, ok)
  {
    if ok { WrittenReleases(w, x); } else { FailedReleases(w, x); }
  }

  lemma FreshAtRest(capacity: nat, concurrency: nat, maxSampleKeys: nat)
    requires 1 <= concurrency && 1 <= maxSampleKeys
    ensures AtRest(Fresh(capacity, concurrency, maxSampleKeys))
  {
  }

  lemma {:induction false} RunStaysAtRest(w: Writer, actions: seq<Action>)
    requires AtRest(w)
    ensures AtRest(Run(w, actions))
  {
    if actions != [] {
      RunStaysAtRest(w, actions[..|actions| - 1]);
      StepStaysAtRest(Run(w, actions[..|actions| - 1]), actions[|actions| - 1]);
    }
  }

  // ---------- main results ----------

  lemma {:induction false} NumberedHasNoDuplicates(s: seq<Work>)
    requires forall i :: 0 <= i < |s| ==> s[i].id == i
    ensures forall x :: multiset(s)[x] <= 1
  {
    if s != [] {
      FrontKeepsMultiset(s);
      var last := s[|s| - 1];
      NumberedHasNoDuplicates(s[..|s| - 1]);
      assert last !in s[..|s| - 1];
      forall x ensures multiset(s)[x] <= 1 {
        if x == last { assert multiset(s[..|s| - 1])[x] == 0; }
      }
    }
  }

  lemma RestIsCounted(w: Writer)
    requires AtRest(w)
    ensures multiset(w.started) == multiset(Left(w))
    ensures |w.accepted| == |w.written| + |w.failed| + Active(w) + |w.queue|
  {
    assert |Left(w)| == |multiset(Left(w))|;
    assert |multiset(w.written) + multiset(w.failed)| == |w.written| + |w.failed|;
    assert |w.failing + w.running + (multiset(w.written) + multiset(w.failed))| == Active(w) + |w.written| + |w.failed|;
    assert multiset(Left(w)) == w.failing + w.running + (multiset(w.written) + multiset(w.failed));
  }

  lemma RestStartsOnce(w: Writer)
    requires Numbered(w) && |w.queue| <= |w.accepted| && multiset(w.started) == multiset(Left(w))
    ensures forall x :: multiset(w.started)[x] <= 1
  {
    NumberedHasNoDuplicates(Left(w));
  }

  /**
   In every run, re-entrant hooks included: at most `concurrency` writes hold a slot and the
   queue is non-empty only when all slots are taken; accepted = finished + active + queued; the
   writes started so far are exactly the oldest accepted items, each once, and the queue holds
   the others in order. A write starts before that of an older item if and only if the older one is
   still inside its acceptance hook: a queued item is never overtaken, and the queue starts in
   its order. The table is bounded.
   */
  lemma EveryRunIsOrderly(capacity: nat, concurrency: nat, maxSampleKeys: nat, actions: seq<Action>, w: Writer)
    requires 1 <= concurrency && 1 <= maxSampleKeys
    requires w == Run(Fresh(capacity, concurrency, maxSampleKeys), actions)
    ensures Active(w) <= w.concurrency && |w.queue| <= w.capacity
    ensures w.queue != [] ==> Active(w) == w.concurrency
    ensures |w.accepted| == |w.written| + |w.failed| + Active(w) + |w.queue|
    ensures w.queue == w.accepted[|w.accepted| - |w.queue|..]
    ensures multiset(w.started) == multiset(w.accepted[..|w.accepted| - |w.queue|])
    ensures forall x :: multiset(w.started)[x] <= 1
    ensures StartsInTurn(w.started, w.starts)
    ensures |w.samples| <= w.maxSampleKeys
  {
    FreshAtRest(capacity, concurrency, maxSampleKeys);
    RunStaysAtRest(Fresh(capacity, concurrency, maxSampleKeys), actions);
    RestIsCounted(w);
    RestStartsOnce(w);
  }

  /** The one exception happens: an item accepted by the hook of another one's acceptance starts first. */
  lemma InnerItemsStartFirst()
    ensures var inner := CallEnqueue("inner", Options(None, None), 0, Quiet, Quiet);
      var w := Run(Fresh(0, 2, 1), [DoEnqueue("outer", Options(None, None), 0, inner)]);
      w.started == [Work(1, "inner"), Work(0, "outer")]
  {
    var options := Options(None, None);
    var w0 := Fresh(0, 2, 1);
    var outer, inner := Work(0, "outer"), Work(1, "inner");
    var w1 := ToReserved(w0, outer);
    assert Admit(w0, "outer", options, 0) == Reserved(w1);
    assert Admit(w1, "inner", options, 0) == Reserved(ToReserved(w1, inner));
    assert Enqueue(w1, "inner", options, 0, Quiet).0 == Launch(ToReserved(w1, inner));
    assert RunScript(w1, CallEnqueue("inner", options, 0, Quiet, Quiet)) == Launch(ToReserved(w1, inner));
  }

  /**
   No wake-up is lost. While a flush is pending some write runs or, failed, still holds its slot,
   and a promise is resolved only by the release that leaves no slot taken and nothing queued; it
   is then the pending one.
   */
  lemma FlushResolvesAtIdle(w: Writer, a: Action)
    requires AtRest(w)
    ensures w.flush.Some? ==> |w.running| + |w.failing| > 0
    ensures Active(w) + |w.queue| > 0 ==> |w.running| + |w.failing| > 0
    ensures forall p :: p in Step(w, a).resolved && p !in w.resolved ==>
              a.Finally? && Idle(Step(w, a)) && w.flush == Some(p)
    ensures w.flush.Some? ==>
      (if Idle(Step(w, a)) then w.flush.value in Step(w, a).resolved else Step(w, a).flush == w.flush)
  {
    match a {
      case DoEnqueue(event, options, now, hook) =>
        EnqueueKeepsOutcomes(w, event, options, now, hook);
        EnqueueKeepsInv(w, event, options, now, hook);
      case DoFlush => FlushKeepsOutcomes(w);
      case DoClose => FlushKeepsOutcomes(w);
      case Catch(x, hook) =>
        if x in w.running { CatchStaysAtRest(w, x, hook); }
      case Finally(x, ok) =>
        if x in (if ok then w.running else w.failing) { ReleaseReleases(w, x, ok); }
    }
  }

  predicate Releases(w: Writer, a: Action) {
    a.Finally? && a.work in if a.ok then w.running else w.failing
  }

  /** A running write fails or a slot is released, and nothing new comes in. */
  predicate Quietly(w: Writer, a: Action) {
    Releases(w, a) || (a.Catch? && a.work in w.running && a.hook.Quiet?)
  }

  predicate OnlySettles(w: Writer, actions: seq<Action>)
    decreases |actions|
  {
    actions == [] || (Quietly(w, actions[0]) && OnlySettles(Step(w, actions[0]), actions[1..]))
  }

  function CountReleases(actions: seq<Action>): nat {
    if actions == [] then 0 else (if actions[0].Finally? then 1 else 0) + CountReleases(actions[1..])
  }

  function RunForward(w: Writer, actions: seq<Action>): Writer
    decreases |actions|
  {
    if actions == [] then w else RunForward(Step(w, actions[0]), actions[1..])
  }

  lemma QuietStepShrinks(w: Writer, a: Action, w': Writer)
    requires AtRest(w) && Quietly(w, a) && w' == Step(w, a)
    ensures AtRest(w') && w'.accepted == w.accepted
    ensures Active(w') + |w'.queue| == Active(w) + |w.queue| - (if a.Finally? then 1 else 0)
    ensures w.flush.Some? ==> if Idle(w') then w.flush.value in w'.resolved else w'.flush == w.flush
  {
    StepStaysAtRest(w, a);
    if a.Finally? { ReleaseReleases(w, a.work, a.ok); }
  }

  /**
   Without new work the writer comes to rest after exactly as many releases as there are active
   and queued items, never sooner, and the pending flush is then resolved.
   */
  lemma {:induction false} CompletionsDrain(w: Writer, actions: seq<Action>, w': Writer)
    requires AtRest(w) && OnlySettles(w, actions) && w' == RunForward(w, actions)
    ensures Active(w') + |w'.queue| + CountReleases(actions) == Active(w) + |w.queue|
    ensures w'.accepted == w.accepted
    ensures w.flush.Some? && Idle(w') ==> w.flush.value in w'.resolved
    ensures w.flush.Some? && !Idle(w') ==> w'.flush == w.flush
    decreases |actions|
  {
    if actions != [] {
      var w1 := Step(w, actions[0]);
      QuietStepShrinks(w, actions[0], w1);
      CompletionsDrain(w1, actions[1..], w');
      if Idle(w1) { NothingSettlesAtIdle(w1, actions[1..]); }
    }
  }

  lemma NothingSettlesAtIdle(w: Writer, actions: seq<Action>)
    requires Idle(w) && OnlySettles(w, actions)
    ensures actions == []
  {
    assert |w.running| == 0 && |w.failing| == 0;
  }

  /**
   Once the promise `close` returned is resolved every event ever accepted was written or counted as
   failed, each once.
   */
  lemma CloseAccountsForAll(capacity: nat, concurrency: nat, maxSampleKeys: nat, actions: seq<Action>)
    requires 1 <= concurrency && 1 <= maxSampleKeys
    requires var w := Run(Fresh(capacity, concurrency, maxSampleKeys), actions);
      w.close.Some? && w.close.value in w.resolved
    ensures var w := Run(Fresh(capacity, concurrency, maxSampleKeys), actions);
      && Idle(w) && !w.accepting
      && multiset(w.accepted) == multiset(w.written) + multiset(w.failed)
      && w.writeFailures == |w.failed|
      && (forall x :: x in w.accepted ==> (x in w.written) != (x in w.failed))
  {
    FreshAtRest(capacity, concurrency, maxSampleKeys);
    RunStaysAtRest(Fresh(capacity, concurrency, maxSampleKeys), actions);
    var w := Run(Fresh(capacity, concurrency, maxSampleKeys), actions);
    assert Left(w) == w.accepted;
    NumberedHasNoDuplicates(w.accepted);
    forall x | x in w.accepted ensures (x in w.written) != (x in w.failed) {
      assert multiset(w.accepted)[x] == 1;
      assert multiset(w.written)[x] + multiset(w.failed)[x] == 1;
    }
  }

  // ---------- sampling ----------

  /** The entry is still in the table unless its key was evicted or some clock reading reached its expiry. */
  predicate StillSampled(w: Writer, w': Writer, s: Sample) {
    && w.evicted <= w'.evicted
    && (w.latest.Some? ==> w'.latest.Some? && w.latest.value <= w'.latest.value)
    && (s in w.samples && s.key !in w'.evicted[|w.evicted|..] && (w'.latest.None? || w'.latest.value < s.expiresAt)
        ==> s in w'.samples)
  }

  lemma StillSampledTransitive(w: Writer, w1: Writer, w2: Writer, s: Sample)
    requires StillSampled(w, w1, s) && StillSampled(w1, w2, s)
    ensures StillSampled(w, w2, s)
  {
    var a, b := |w.evicted|, |w1.evicted|;
    assert w2.evicted[..b] == w1.evicted;
    assert w2.evicted[..b][..a] == w2.evicted[..a];
    if s.key !in w2.evicted[a..] {
      forall i | 0 <= i < b - a ensures w1.evicted[a..][i] != s.key {
        assert w1.evicted[a..][i] == w2.evicted[a..][i];
      }
      forall i | 0 <= i < |w2.evicted| - b ensures w2.evicted[b..][i] != s.key {
        assert w2.evicted[b..][i] == w2.evicted[a..][b - a + i];
      }
    }
  }

  predicate SameTable(w: Writer, w': Writer) {
    w'.samples == w.samples && w'.evicted == w.evicted && w'.latest == w.latest
  }

  /** What admission does to the table after the prune: record the key when the event is accepted. */
  lemma PlaceTable(w: Writer, event: Event, options: Options, now: int)
    ensures var a := Place(w, event, options, now);
      && !a.Invalid?
      && (a.Refused? ==> SameTable(w, a.writer))
      && (!a.Refused? ==>
            && SameTable(Note(w, options, now), a.writer)
            && (options.sampleKey.Some? ==> !Suppressed(w.samples, options.sampleKey.value, now)))
  {
    var work := Work(|w.accepted|, event);
    assert SameTable(w, ToReserved(w, work)) && SameTable(w, ToQueue(w, work));
    NoteTable(w, ToReserved(w, work), options, now);
    NoteTable(w, ToQueue(w, work), options, now);
  }

  lemma NoteTable(w: Writer, w': Writer, options: Options, now: int)
    requires SameTable(w, w') && w'.maxSampleKeys == w.maxSampleKeys
    ensures SameTable(Note(w, options, now), Note(w', options, now))
  {
  }

  lemma ReadClockStillSampled(w: Writer, options: Options, now: int, s: Sample)
    ensures StillSampled(w, ReadClock(w, options, now), s)
    ensures Bounded(w) ==> Bounded(ReadClock(w, options, now))
  {
    PruneKeeps(w.samples, now);
  }

  /**
   A key that is not suppressed after pruning has no entry left, so recording it displaces no other
   entry but an evicted one.
   */
  lemma NoteStillSampled(w: Writer, options: Options, now: int, s: Sample)
    requires Bounded(w) && 1 <= w.maxSampleKeys && options.sampleKey.Some? && options.sampleWindowMs.Some?
    requires forall t :: t in w.samples ==> t.expiresAt > now
    requires !Suppressed(w.samples, options.sampleKey.value, now)
    ensures StillSampled(w, Note(w, options, now), s)
  {
    RememberKeeps(w, options.sampleKey.value, now + options.sampleWindowMs.value);
    forall t | t in w.samples ensures t.key != options.sampleKey.value {
      var i :| 0 <= i < |w.samples| && w.samples[i] == t;
      assert w.samples[i].expiresAt > now ==> w.samples[i].key != options.sampleKey.value;
    }
  }

  lemma PlaceStillSampled(w: Writer, event: Event, options: Options, now: int, s: Sample)
    requires Bounded(w) && 1 <= w.maxSampleKeys && ValidOptions(options)
    requires options.sampleKey.Some? ==> forall t :: t in w.samples ==> t.expiresAt > now
    ensures var a := Place(w, event, options, now); !a.Invalid? && StillSampled(w, a.writer, s)
  {
    PlaceTable(w, event, options, now);
    if !Place(w, event, options, now).Refused? && options.sampleKey.Some? { NoteStillSampled(w, options, now, s); }
  }

  lemma AdmitStillSampled(w: Writer, event: Event, options: Options, now: int, s: Sample)
    requires Inv(w)
    ensures var a := Admit(w, event, options, now); !a.Invalid? ==> StillSampled(w, a.writer, s)
  {
    if ValidOptions(options) && w.accepting {
      var w1 := ReadClock(w, options, now);
      ReadClockStillSampled(w, options, now, s);
      PruneKeeps(w.samples, now);
      PlaceStillSampled(w1, event, options, now, s);
      StillSampledTransitive(w, w1, Place(w1, event, options, now).writer, s);
    }
  }

  lemma {:induction false} EnqueueStillSampled(w: Writer, event: Event, options: Options, now: int, hook: Script,
                                               s: Sample)
    requires Inv(w)
    ensures StillSampled(w, Enqueue(w, event, options, now, hook).0, s)
    decreases hook, 1
  {
    AdmitStillSampled(w, event, options, now, s);
    AdmitKeepsInv(w, event, options, now);
    var a := Admit(w, event, options, now);
    if !a.Invalid? {
      ScriptStillSampled(a.writer, hook, s);
      StillSampledTransitive(w, a.writer, RunScript(a.writer, hook), s);
      assert SameTable(RunScript(a.writer, hook), Enqueue(w, event, options, now, hook).0);
    }
  }

  lemma {:induction false} ScriptStillSampled(w: Writer, script: Script, s: Sample)
    requires Inv(w)
    ensures StillSampled(w, RunScript(w, script), s)
    decreases script, 0
  {
    match script {
      case Quiet =>
      case CallEnqueue(event, options, now, inner, rest) =>
        var w1 := Enqueue(w, event, options, now, inner).0;
        EnqueueKeepsInv(w, event, options, now, inner);
        EnqueueStillSampled(w, event, options, now, inner, s);
        ScriptStillSampled(w1, rest, s);
        StillSampledTransitive(w, w1, RunScript(w1, rest), s);
      case CallFlush(rest) =>
        FlushKeepsInv(w);
        ScriptStillSampled(Flush(w).0, rest, s);
      case CallClose(rest) =>
        CloseKeepsInv(w);
        ScriptStillSampled(Close(w).0, rest, s);
    }
  }

  lemma DrainKeepsTable(w: Writer)
    requires Slack(w)
    ensures SameTable(w, Drain(w))
  {
    FillSettles(w);
  }

  lemma CatchStillSampled(w: Writer, x: Work, hook: Script, s: Sample)
    requires Inv(w) && x in w.running
    ensures StillSampled(w, CatchFailure(w, x, hook), s)
  {
    FailingKeepsInv(w, x);
    ScriptStillSampled(ToFailing(w, x), hook, s);
    assert SameTable(ToFailing(w, x), w);
  }

  lemma ReleaseStillSampled(w: Writer, x: Work, ok: bool, s: Sample)
    requires Inv(w) && x in if ok then w.running else w.failing
    ensures StillSampled(w, Release(w, x, ok), s)
  {
    if ok {
      WrittenIsSlack(w, x);
      DrainKeepsTable(ToWritten(w, x));
    } else {
      FailedIsSlack(w, x);
      DrainKeepsTable(ToFailed(w, x));
    }
  }

  lemma StepStillSampled(w: Writer, a: Action, s: Sample)
    requires AtRest(w)
    ensures StillSampled(w, Step(w, a), s)
  {
    match a {
      case DoEnqueue(event, options, now, hook) => EnqueueStillSampled(w, event, options, now, hook, s);
      case DoFlush =>
      case DoClose =>
      case Catch(x, hook) => if x in w.running { CatchStillSampled(w, x, hook, s); }
      case Finally(x, ok) => if x in (if ok then w.running else w.failing) { ReleaseStillSampled(w, x, ok, s); }
    }
  }

  lemma {:induction false} RunStillSampled(w: Writer, actions: seq<Action>, s: Sample)
    requires AtRest(w)
    ensures StillSampled(w, Run(w, actions), s)
  {
    if actions != [] {
      var before := actions[..|actions| - 1];
      RunStaysAtRest(w, before);
      RunStillSampled(w, before, s);
      StepStillSampled(Run(w, before), actions[|actions| - 1], s);
      StillSampledTransitive(w, Run(w, before), Run(w, actions), s);
    }
  }

  lemma PlacementOpensWindow(w: Writer, event: Event, options: Options, now: int, a: Admission)
    requires Bounded(w) && 1 <= w.maxSampleKeys && options.sampleKey.Some? && options.sampleWindowMs.Some?
    requires a == Place(w, event, options, now) && w.latest.Some?
    ensures !a.Invalid?
    ensures !a.Refused? ==> a.writer.latest.Some?
    ensures !a.Refused? ==> Sample(options.sampleKey.value, now + options.sampleWindowMs.value) in a.writer.samples
  {
    PlaceTable(w, event, options, now);
    RememberKeeps(w, options.sampleKey.value, now + options.sampleWindowMs.value);
  }

  /** An accepted event with a sample key leaves its window in the table before any hook runs. */
  lemma AcceptanceOpensWindow(w: Writer, event: Event, options: Options, now: int)
    requires Inv(w) && options.sampleKey.Some?
    requires var a := Admit(w, event, options, now); a.Reserved? || a.Queued?
    ensures var w1 := Admit(w, event, options, now).writer;
      && options.sampleWindowMs.Some?
      && Sample(options.sampleKey.value, now + options.sampleWindowMs.value) in w1.samples
      && w1.latest.Some?
  {
    var w1 := ReadClock(w, options, now);
    ReadClockStillSampled(w, options, now, Sample("", 0));
    PlacementOpensWindow(w1, event, options, now, Place(w1, event, options, now));
  }

  lemma WindowSuppresses(w: Writer, s: Sample, event: Event, options: Options, now: int, hook: Script)
    requires s in w.samples && options.sampleKey == Some(s.key) && now < s.expiresAt
    ensures Enqueue(w, event, options, now, hook).1 ==
      if !ValidOptions(options) then Threw else if w.accepting then Sampled else Dropped
  {
    PruneKeeps(w.samples, now);
    var pruned := Prune(w.samples, now);
    assert s in pruned;
    var i :| 0 <= i < |pruned| && pruned[i] == s;
    assert Suppressed(pruned, s.key, now);
  }

  /**
   An event accepted with a sample key opens a window. Unless the key is evicted meanwhile, no
   later event with that key is accepted while the clock, which has not gone back behind any
   earlier reading, is inside the window, whatever ran in between, hooks included.
   */
  lemma NoRepeatWithinWindow(
    w: Writer, event: Event, options: Options, at: int, hook: Script, actions: seq<Action>,
    event': Event, options': Options, now: int, hook': Script, window: Writer, w': Writer)
    requires AtRest(w) && options.sampleKey.Some? && options.sampleWindowMs.Some?
    requires var a := Admit(w, event, options, at); (a.Reserved? || a.Queued?) && window == a.writer
    requires w' == Run(Enqueue(w, event, options, at, hook).0, actions)
    requires options'.sampleKey == options.sampleKey
    requires |window.evicted| <= |w'.evicted| ==> options.sampleKey.value !in w'.evicted[|window.evicted|..]
    requires w'.latest.Some? ==> w'.latest.value <= now
    requires now < at + options.sampleWindowMs.value
    ensures Enqueue(w', event', options', now, hook').1 ==
      if !ValidOptions(options') then Threw else if w'.accepting then Sampled else Dropped
  {
    var s := Sample(options.sampleKey.value, at + options.sampleWindowMs.value);
    var w1 := Enqueue(w, event, options, at, hook).0;
    AcceptanceOpensWindow(w, event, options, at);
    AdmitKeepsInv(w, event, options, at);
    ScriptStillSampled(window, hook, s);
    assert SameTable(RunScript(window, hook), w1);
    StepStaysAtRest(w, DoEnqueue(event, options, at, hook));
    RunStillSampled(w1, actions, s);
    StillSampledTransitive(window, w1, w', s);
    WindowSuppresses(w', s, event', options', now, hook');
  }
}
