/** The bounded audit writer as the code has it: a ring buffer, counters and a sample table updated in place. */
module AuditWriter {
  import opened Wrappers
  import opened AuditMachine
  import opened AuditProofs

  /** The slot `i` places after `head` in a ring of `capacity` slots. */
  function Slot(head: nat, i: nat, capacity: nat): nat
    requires head < capacity && i <= capacity
  {
    if head + i < capacity then head + i else head + i - capacity
  }

  lemma NextSlot(t: nat, capacity: nat)
    requires t < capacity
    ensures (t + 1) % capacity == if t + 1 == capacity then 0 else t + 1
  {
    if t + 1 < capacity { SmallRemainder(t + 1, capacity); }
  }

  lemma SmallRemainder(t: nat, capacity: nat)
    requires t < capacity
    ensures t % capacity == t
  {
  }

  class FixedQueue {
    const capacity: nat
    const items: array<Option<Work>>
    var head: nat
    var tail: nat
    var length: nat
    ghost var Contents: seq<Work>

    ghost predicate Valid()
      reads this, items
    {
      && items.Length == capacity
      && length == |Contents| <= capacity
      && (capacity == 0 ==> head == tail == 0)
      && (capacity > 0 ==>
            && head < capacity
            && tail == Slot(head, length, capacity)
            && (forall i :: 0 <= i < length ==> items[Slot(head, i, capacity)] == Some(Contents[i])))
    }

    constructor (capacity: nat)
      ensures Valid() && fresh(items) && this.capacity == capacity && Contents == []
    {
      this.capacity := capacity;
      items := new Option<Work>[capacity](_ => None);
      head, tail, length := 0, 0, 0;
      Contents := [];
    }

    method Push(value: Work) returns (ok: bool)
      requires Valid()
      modifies this, items
      ensures Valid()
      ensures ok == (|old(Contents)| < capacity)
      ensures Contents == if ok then old(Contents) + [value] else old(Contents)
    {
      if length == capacity { return false; }
      NextSlot(tail, capacity);
      items[tail] := Some(value);
      tail := (tail + 1) % capacity;
      length := length + 1;
      Contents := Contents + [value];
      return true;
    }

    method Shift() returns (value: Option<Work>)
      requires Valid()
      modifies this, items
      ensures Valid()
      ensures value == if old(Contents) == [] then None else Some(old(Contents)[0])
      ensures Contents == if old(Contents) == [] then [] else old(Contents)[1..]
    {
      if length == 0 { return None; }
      NextSlot(head, capacity);
      value := items[head];
      items[head] := None;
      ghost var was := head;
      head := (head + 1) % capacity;
      length := length - 1;
      Contents := Contents[1..];
      assert forall i :: 0 <= i < capacity - 1 ==> Slot(head, i, capacity) == Slot(was, i + 1, capacity);
    }
  }

  class BoundedAuditWriter {
    const queue: FixedQueue
    const concurrency: nat
    const maxSampleKeys: nat
    var active: nat
    var accepting: bool
    var acceptedCount: nat
    var droppedCount: nat
    var sampledCount: nat
    var writeFailures: nat
    var samples: seq<Sample>
    var flushPromise: Option<nat>
    var closePromise: Option<nat>
    var nextPromise: nat
    ghost var model: Writer

    ghost predicate Valid()
      reads this, queue, queue.items
    {
      && queue.Valid() && queue.Contents == model.queue && queue.capacity == model.capacity
      && concurrency == model.concurrency && maxSampleKeys == model.maxSampleKeys
      && active == Active(model)
      && accepting == model.accepting
      && acceptedCount == |model.accepted|
      && droppedCount == model.dropped
      && sampledCount == model.sampled
      && writeFailures == model.writeFailures
      && samples == model.samples
      && flushPromise == model.flush
      && closePromise == model.close
      && nextPromise == model.promises
    }

    constructor (maxQueue: nat, concurrency: nat, maxSampleKeys: nat)
      requires 1 <= concurrency && 1 <= maxSampleKeys
      ensures Valid() && fresh(queue) && fresh(queue.items)
      ensures model == Fresh(maxQueue, concurrency, maxSampleKeys) && AtRest(model)
    {
      this.queue := new FixedQueue(maxQueue);
      this.concurrency := concurrency;
      this.maxSampleKeys := maxSampleKeys;
      active, accepting := 0, true;
      acceptedCount, droppedCount, sampledCount, writeFailures := 0, 0, 0, 0;
      samples, flushPromise, closePromise, nextPromise := [], None, None, 1;
      model := Fresh(maxQueue, concurrency, maxSampleKeys);
      new;
      FreshAtRest(maxQueue, concurrency, maxSampleKeys);
    }

    method PruneSamples(now: int)
      modifies this`samples
      ensures samples == Prune(old(samples), now)
    {
      var i, kept := 0, [];
      while i < |samples|
        invariant i <= |samples| && samples == old(samples)
        invariant kept + Prune(samples[i..], now) == Prune(samples, now)
      {
        if samples[i].expiresAt > now { kept := kept + [samples[i]]; }
        assert samples[i..][1..] == samples[i + 1..];
        i := i + 1;
      }
      samples := kept;
    }

    method IndexOf(key: string) returns (found: Option<nat>)
      ensures found.Some? <==> HasKey(samples, key)
      ensures found.Some? ==> found.value < |samples| && samples[found.value].key == key
                              && forall j :: 0 <= j < found.value ==> samples[j].key != key
    {
      var i := 0;
      while i < |samples|
        invariant i <= |samples|
        invariant forall j :: 0 <= j < i ==> samples[j].key != key
      {
        if samples[i].key == key { return Some(i); }
        i := i + 1;
      }
      return None;
    }

    /** Evicts the first entry of least expiry when a new key finds the table full, then records the key. */
    method RememberSample(key: string, expiresAt: int)
      requires samples == model.samples && maxSampleKeys == model.maxSampleKeys
      modifies this`samples, this`model
      ensures model == Remember(old(model), key, expiresAt) && samples == model.samples
    {
      ghost var was := model;
      var found := IndexOf(key);
      if found.None? && |samples| >= maxSampleKeys && samples != [] {
        var earliest, i := 0, 1;
        while i < |samples|
          invariant 1 <= i <= |samples| && earliest == Earliest(samples[..i])
        {
          assert samples[..i + 1][..i] == samples[..i];
          if samples[i].expiresAt < samples[earliest].expiresAt { earliest := i; }
          i := i + 1;
        }
        assert samples[..i] == samples;
        samples := Without(samples, earliest);
      }
      ghost var afterEviction := samples;
      var at := IndexOf(key);
      PutAt(samples, key, expiresAt, at);
      if at.Some? {
        samples := samples[at.value := Sample(key, expiresAt)];
      } else {
        samples := samples + [Sample(key, expiresAt)];
      }
      model := Remember(was, key, expiresAt);
      if MustEvict(was, key) {
        assert afterEviction == Without(was.samples, Earliest(was.samples));
      }
    }

    method IsSuppressed(key: string, now: int) returns (yes: bool)
      ensures yes == Suppressed(samples, key, now)
    {
      var i := 0;
      while i < |samples|
        invariant i <= |samples|
        invariant forall j :: 0 <= j < i ==> !(samples[j].key == key && samples[j].expiresAt > now)
      {
        if samples[i].key == key && samples[i].expiresAt > now { return true; }
        i := i + 1;
      }
      return false;
    }

    method RecordDropped(hook: Script) returns (result: EnqueueResult)
      requires Valid()
      modifies this, queue, queue.items
      ensures Valid() && result == Dropped
      ensures model == RunScript(old(model).(dropped := old(model).dropped + 1), hook)
      decreases hook, 1
    {
      droppedCount := droppedCount + 1;
      model := model.(dropped := model.dropped + 1);
      RunHook(hook);
      return Dropped;
    }

    /** A slot or a queue place is taken, the sample key recorded and the event counted before the hook runs. */
    method Enqueue(event: Event, options: Options, now: int, hook: Script) returns (result: EnqueueResult)
      requires Valid()
      modifies this, queue, queue.items
      ensures Valid()
      ensures model == AuditMachine.Enqueue(old(model), event, options, now, hook).0
      ensures result == AuditMachine.Enqueue(old(model), event, options, now, hook).1
      decreases hook, 5
    {
      if !ValidOptions(options) { return Threw; }
      if !accepting {
        result := RecordDropped(hook);
        return;
      }
      result := EnqueueOpen(event, options, now, hook);
    }

    method EnqueueOpen(event: Event, options: Options, now: int, hook: Script) returns (result: EnqueueResult)
      requires Valid() && ValidOptions(options)
      modifies this, queue, queue.items
      ensures Valid()
      ensures Settled(Place(ReadClock(old(model), options, now), event, options, now), hook, model, result)
      decreases hook, 4
    {
      var suppressed := CheckSamples(options, now);
      if suppressed {
        result := RecordSampled(hook);
      } else {
        result := Admitted(event, options, now, hook);
      }
    }

    method RecordSampled(hook: Script) returns (result: EnqueueResult)
      requires Valid()
      modifies this, queue, queue.items
      ensures Valid() && result == Sampled
      ensures model == RunScript(old(model).(sampled := old(model).sampled + 1), hook)
      decreases hook, 1
    {
      sampledCount := sampledCount + 1;
      model := model.(sampled := model.sampled + 1);
      RunHook(hook);
      return Sampled;
    }

    method CheckSamples(options: Options, now: int) returns (suppressed: bool)
      requires Valid() && ValidOptions(options)
      modifies this`samples, this`model
      ensures Valid() && model == ReadClock(old(model), options, now)
      ensures suppressed == (options.sampleKey.Some? && Suppressed(model.samples, options.sampleKey.value, now))
    {
      suppressed := false;
      if options.sampleKey.Some? {
        PruneSamples(now);
        model := ReadClock(model, options, now);
        suppressed := IsSuppressed(options.sampleKey.value, now);
      }
    }

    method Admitted(event: Event, options: Options, now: int, hook: Script) returns (result: EnqueueResult)
      requires Valid() && ValidOptions(options)
      requires options.sampleKey.Some? ==> !Suppressed(model.samples, options.sampleKey.value, now)
      modifies this, queue, queue.items
      ensures Valid()
      ensures Settled(Place(old(model), event, options, now), hook, model, result)
      decreases hook, 3
    {
      var work := Work(acceptedCount, event);
      if active < concurrency {
        StartAdmitted(work, options, now, hook);
        result := Accepted;
      } else {
        result := QueueAdmitted(work, options, now, hook);
      }
    }

    method StartAdmitted(work: Work, options: Options, now: int, hook: Script)
      requires Valid() && ValidOptions(options)
      modifies this, queue, queue.items
      ensures Valid()
      ensures Settled(Reserved(Note(ToReserved(old(model), work), options, now)), hook, model, Accepted)
      decreases hook, 1
    {
      TakeSlot(work, options, now);
      RunHook(hook);
      model := Launch(model);
    }

    method QueueAdmitted(work: Work, options: Options, now: int, hook: Script) returns (result: EnqueueResult)
      requires Valid() && ValidOptions(options)
      modifies this, queue, queue.items
      ensures Valid()
      ensures var w := old(model);
        Settled(if |w.queue| < w.capacity then Queued(Note(ToQueue(w, work), options, now))
                else Refused(w.(dropped := w.dropped + 1), Dropped), hook, model, result)
      decreases hook, 2
    {
      var queued := TakePlace(work, options, now);
      if queued {
        RunHook(hook);
        result := Accepted;
      } else {
        result := RecordDropped(hook);
      }
    }

    method TakeSlot(work: Work, options: Options, now: int)
      requires Valid() && ValidOptions(options)
      modifies this
      ensures Valid() && model == Note(ToReserved(old(model), work), options, now)
    {
      active := active + 1;
      acceptedCount := acceptedCount + 1;
      model := ToReserved(model, work);
      NoteSample(options, now);
    }

    method TakePlace(work: Work, options: Options, now: int) returns (queued: bool)
      requires Valid() && ValidOptions(options)
      modifies this, queue, queue.items
      ensures Valid() && queued == (|old(model).queue| < old(model).capacity)
      ensures model == if queued then Note(ToQueue(old(model), work), options, now) else old(model)
    {
      queued := queue.Push(work);
      if queued {
        acceptedCount := acceptedCount + 1;
        model := ToQueue(model, work);
        NoteSample(options, now);
      }
    }

    method NoteSample(options: Options, now: int)
      requires Valid() && ValidOptions(options)
      modifies this`samples, this`model
      ensures Valid() && model == Note(old(model), options, now)
    {
      if options.sampleKey.Some? {
        RememberSample(options.sampleKey.value, now + options.sampleWindowMs.value);
      }
    }

    /** One hook invocation: whatever finite sequence of calls into the writer it makes. */
    method RunHook(script: Script)
      requires Valid()
      modifies this, queue, queue.items
      ensures Valid() && model == RunScript(old(model), script)
      decreases script, 0
    {
      match script {
        case Quiet =>
        case CallEnqueue(event, options, now, inner, rest) =>
          var _ := Enqueue(event, options, now, inner);
          RunHook(rest);
        case CallFlush(rest) =>
          var _ := Flush();
          RunHook(rest);
        case CallClose(rest) =>
          var _ := Close();
          RunHook(rest);
      }
    }

    method Flush() returns (promise: nat)
      requires Valid()
      modifies this`flushPromise, this`nextPromise, this`model
      ensures Valid()
      ensures model == AuditMachine.Flush(old(model)).0 && promise == AuditMachine.Flush(old(model)).1
    {
      if active == 0 && queue.length == 0 { return 0; }
      if flushPromise.Some? { return flushPromise.value; }
      promise := nextPromise;
      flushPromise, nextPromise := Some(promise), nextPromise + 1;
      model := AuditMachine.Flush(model).0;
    }

    method Close() returns (promise: nat)
      requires Valid()
      modifies this`accepting, this`closePromise, this`flushPromise, this`nextPromise, this`model
      ensures Valid()
      ensures model == AuditMachine.Close(old(model)).0 && promise == AuditMachine.Close(old(model)).1
    {
      if closePromise.Some? { return closePromise.value; }
      accepting := false;
      model := model.(accepting := false);
      promise := Flush();
      closePromise := Some(promise);
      model := model.(close := Some(promise));
    }

    /** The `catch` of a failed write: count it and report it; its slot stays taken. */
    method CatchFailure(work: Work, hook: Script)
      requires Valid() && work in model.running
      modifies this, queue, queue.items
      ensures Valid() && model == AuditMachine.CatchFailure(old(model), work, hook)
    {
      writeFailures := writeFailures + 1;
      model := ToFailing(model, work);
      RunHook(hook);
    }

    /** The `finally` of a write: give up the slot, drain. */
    method Release(work: Work, ghost ok: bool)
      requires Valid() && work in if ok then model.running else model.failing
      modifies this, queue, queue.items
      ensures Valid() && model == AuditMachine.Release(old(model), work, ok)
    {
      active := active - 1;
      model := if ok then ToWritten(model, work) else ToFailed(model, work);
      Drain();
    }

    method Drain()
      requires Valid()
      modifies this, queue, queue.items
      ensures Valid() && model == AuditMachine.Drain(old(model))
    {
      ghost var was := model;
      while active < concurrency && queue.length > 0
        invariant Valid() && Fill(model) == Fill(was)
        decreases queue.length
      {
        ExecuteNext();
      }
      if active != 0 || queue.length != 0 || flushPromise.None? { return; }
      model := model.(flush := None, resolved := model.resolved + {flushPromise.value});
      flushPromise := None;
    }

    method ExecuteNext()
      requires Valid() && active < concurrency && queue.length > 0
      modifies this`active, this`model, queue, queue.items
      ensures Valid() && model == FillOne(old(model)) && queue.length == old(queue.length) - 1
    {
      var _ := queue.Shift();
      active := active + 1;
      model := FillOne(model);
    }
  }

  /** What an admitted call leaves behind once its hook has returned. */
  ghost predicate Settled(a: Admission, hook: Script, after: Writer, result: EnqueueResult) {
    match a
    case Invalid => false
    case Refused(w, r) => after == RunScript(w, hook) && result == r
    case Queued(w) => after == RunScript(w, hook) && result == Accepted
    case Reserved(w) => RunScript(w, hook).reserved != [] && after == Launch(RunScript(w, hook)) && result == Accepted
  }

  lemma {:induction false} PutAt(samples: seq<Sample>, key: string, expiresAt: int, at: Option<nat>)
    requires at.Some? <==> HasKey(samples, key)
    requires at.Some? ==> at.value < |samples| && samples[at.value].key == key
                          && forall j :: 0 <= j < at.value ==> samples[j].key != key
    ensures Put(samples, key, expiresAt) ==
      if at.Some? then samples[at.value := Sample(key, expiresAt)] else samples + [Sample(key, expiresAt)]
  {
    if samples == [] || (at.Some? && at.value == 0) {
    } else {
      var rest := samples[1..];
      assert samples == [samples[0]] + rest;
      if at.Some? {
        assert rest[at.value - 1].key == key;
        PutAt(rest, key, expiresAt, Some(at.value - 1));
      } else {
        assert forall i :: 0 <= i < |rest| ==> rest[i] == samples[i + 1];
        PutAt(rest, key, expiresAt, None);
      }
    }
  }
}
