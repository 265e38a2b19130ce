/**
 What the bounded audit writer does, as a machine on values with its history.

 Hooks run synchronously inside the writer and may call back into it. What one hook
 invocation does to the writer is a Script: a finite tree of calls, each with the script of
 the hook it fires in turn. Writes are settled by the event loop, so only a run's own actions
 complete work: a failed one in two of them, with anything in between.
 */
module AuditMachine {
  import opened Wrappers

  type Event = string

  /** A work item; `id` is its rank among accepted items and stands for the object's identity. */
  datatype Work = Work(id: nat, event: Event)

  datatype Sample = Sample(key: string, expiresAt: int)

  datatype Options = Options(sampleKey: Option<string>, sampleWindowMs: Option<int>)

  datatype Script =
    | Quiet
    | CallEnqueue(event: Event, options: Options, now: int, inner: Script, rest: Script)
    | CallFlush(rest: Script)
    | CallClose(rest: Script)

  datatype EnqueueResult = Accepted | Dropped | Sampled | Threw

  /**
   How an item came to start: at once from `enqueue` or from the queue, and while which other
   items were still inside their acceptance hooks.
   */
  datatype Start = Start(direct: bool, inside: seq<Work>)

  /**
   `reserved` holds the accepted items that are still inside their acceptance hook, innermost
   last, and `failing` the failed ones whose slot is not yet released. `accepted`, `started` with
   `starts`, `written`, `failed`, `evicted` and `latest` (the greatest clock reading) are history.
   Promise 0 is the shared resolved promise.
   */
  datatype Writer = Writer(
    capacity: nat,
    concurrency: nat,
    maxSampleKeys: nat,
    accepting: bool,
    reserved: seq<Work>,
    failing: multiset<Work>,
    running: multiset<Work>,
    queue: seq<Work>,
    dropped: nat,
    sampled: nat,
    writeFailures: nat,
    samples: seq<Sample>,
    flush: Option<nat>,
    close: Option<nat>,
    promises: nat,
    resolved: set<nat>,
    accepted: seq<Work>,
    started: seq<Work>,
    starts: seq<Start>,
    written: seq<Work>,
    failed: seq<Work>,
    evicted: seq<string>,
    latest: Option<int>)

  function Fresh(capacity: nat, concurrency: nat, maxSampleKeys: nat): Writer {
    Writer(capacity, concurrency, maxSampleKeys, true, [], multiset{}, multiset{}, [], 0, 0, 0, [], None, None, 1, {0},
           [], [], [], [], [], [], None)
  }

  function Active(w: Writer): nat {
    |w.reserved| + |w.failing| + |w.running|
  }

  predicate Idle(w: Writer) {
    Active(w) == 0 && w.queue == []
  }

  // ---------- sampling ----------

  const MAX_SAMPLE_KEY_LENGTH := 512
  const MAX_SAFE_INTEGER := 0x1F_FFFF_FFFF_FFFF

  predicate ValidOptions(o: Options) {
    && o.sampleKey.Some? == o.sampleWindowMs.Some?
    && (o.sampleKey.Some? ==> 1 <= |o.sampleKey.value| <= MAX_SAMPLE_KEY_LENGTH)
    && (o.sampleWindowMs.Some? ==> 1 <= o.sampleWindowMs.value <= MAX_SAFE_INTEGER)
  }

  function Prune(samples: seq<Sample>, now: int): seq<Sample> {
    if samples == [] then []
    else (if samples[0].expiresAt <= now then [] else [samples[0]]) + Prune(samples[1..], now)
  }

  predicate HasKey(samples: seq<Sample>, key: string) {
    exists i :: 0 <= i < |samples| && samples[i].key == key
  }

  predicate Suppressed(samples: seq<Sample>, key: string, now: int) {
    exists i :: 0 <= i < |samples| && samples[i].key == key && samples[i].expiresAt > now
  }

  /** The first index of least expiry. */
  function Earliest(samples: seq<Sample>): (i: nat)
    requires samples != []
    ensures i < |samples|
    ensures forall j :: 0 <= j < |samples| ==> samples[i].expiresAt <= samples[j].expiresAt
    ensures forall j :: 0 <= j < i ==> samples[i].expiresAt < samples[j].expiresAt
  {
    if |samples| == 1 then 0
    else
      var i := Earliest(samples[..|samples| - 1]);
      if samples[|samples| - 1].expiresAt < samples[i].expiresAt then |samples| - 1 else i
  }

  function Without(samples: seq<Sample>, i: nat): seq<Sample>
    requires i < |samples|
  {
    samples[..i] + samples[i + 1..]
  }

  /** A present key keeps its place, a new one goes last. */
  function Put(samples: seq<Sample>, key: string, expiresAt: int): seq<Sample> {
    if samples == [] then [Sample(key, expiresAt)]
    else if samples[0].key == key then [Sample(key, expiresAt)] + samples[1..]
    else [samples[0]] + Put(samples[1..], key, expiresAt)
  }

  predicate MustEvict(w: Writer, key: string) {
    !HasKey(w.samples, key) && |w.samples| >= w.maxSampleKeys && w.samples != []
  }

  function Remember(w: Writer, key: string, expiresAt: int): Writer {
    if MustEvict(w, key) then
      var i := Earliest(w.samples);
      w.(samples := Put(Without(w.samples, i), key, expiresAt), evicted := w.evicted + [w.samples[i].key])
    else w.(samples := Put(w.samples, key, expiresAt))
  }

  function Later(latest: Option<int>, now: int): Option<int> {
    if latest.None? || latest.value < now then Some(now) else latest
  }

  // ---------- the operations ----------

  datatype Admission =
    | Invalid
    | Refused(writer: Writer, result: EnqueueResult)
    | Queued(writer: Writer)
    | Reserved(writer: Writer)

  function ReadClock(w: Writer, options: Options, now: int): Writer {
    if options.sampleKey.Some? then w.(samples := Prune(w.samples, now), latest := Later(w.latest, now)) else w
  }

  /** All that `enqueue` does before any hook runs. */
  function Admit(w: Writer, event: Event, options: Options, now: int): Admission {
    if !ValidOptions(options) then Invalid
    else if !w.accepting then Refused(w.(dropped := w.dropped + 1), Dropped)
    else Place(ReadClock(w, options, now), event, options, now)
  }

  function Place(w: Writer, event: Event, options: Options, now: int): Admission {
    var work := Work(|w.accepted|, event);
    if options.sampleKey.Some? && Suppressed(w.samples, options.sampleKey.value, now) then
      Refused(w.(sampled := w.sampled + 1), Sampled)
    else if Active(w) < w.concurrency then Reserved(Note(ToReserved(w, work), options, now))
    else if |w.queue| < w.capacity then Queued(Note(ToQueue(w, work), options, now))
    else Refused(w.(dropped := w.dropped + 1), Dropped)
  }

  function ToReserved(w: Writer, x: Work): Writer {
    w.(reserved := w.reserved + [x], accepted := w.accepted + [x])
  }

  function ToQueue(w: Writer, x: Work): Writer {
    w.(queue := w.queue + [x], accepted := w.accepted + [x])
  }

  function Note(w: Writer, options: Options, now: int): Writer {
    if options.sampleKey.Some? && options.sampleWindowMs.Some?
    then Remember(w, options.sampleKey.value, now + options.sampleWindowMs.value) else w
  }

  /** `#execute` of the item whose acceptance hook has just returned. */
  function Launch(w: Writer): Writer
    requires w.reserved != []
  {
    var others, work := w.reserved[..|w.reserved| - 1], w.reserved[|w.reserved| - 1];
    w.(reserved := others,
       running := w.running + multiset{work},
       started := w.started + [work],
       starts := w.starts + [Start(true, others)])
  }

  function Enqueue(w: Writer, event: Event, options: Options, now: int, hook: Script): (r: (Writer, EnqueueResult))
    ensures r.0.reserved == w.reserved && r.0.failing == w.failing
    decreases hook, 1
  {
    match Admit(w, event, options, now)
    case Invalid => (w, Threw)
    case Refused(w1, result) => (RunScript(w1, hook), result)
    case Queued(w1) => (RunScript(w1, hook), Accepted)
    case Reserved(w1) => (Launch(RunScript(w1, hook)), Accepted)
  }

  function RunScript(w: Writer, script: Script): (w': Writer)
    ensures w'.reserved == w.reserved && w'.failing == w.failing
    decreases script, 0
  {
    match script
    case Quiet => w
    case CallEnqueue(event, options, now, inner, rest) => RunScript(Enqueue(w, event, options, now, inner).0, rest)
    case CallFlush(rest) => RunScript(Flush(w).0, rest)
    case CallClose(rest) => RunScript(Close(w).0, rest)
  }

  function Flush(w: Writer): (Writer, nat) {
    if Idle(w) then (w, 0)
    else if w.flush.Some? then (w, w.flush.value)
    else (w.(flush := Some(w.promises), promises := w.promises + 1), w.promises)
  }

  function Close(w: Writer): (Writer, nat) {
    if w.close.Some? then (w, w.close.value)
    else
      var (w1, promise) := Flush(w.(accepting := false));
      (w1.(close := Some(promise)), promise)
  }

  function FillOne(w: Writer): Writer
    requires w.queue != []
  {
    w.(queue := w.queue[1..],
       running := w.running + multiset{w.queue[0]},
       started := w.started + [w.queue[0]],
       starts := w.starts + [Start(false, w.reserved)])
  }

  function Fill(w: Writer): Writer
    decreases |w.queue|
  {
    if Active(w) < w.concurrency && w.queue != [] then Fill(FillOne(w)) else w
  }

  function Drain(w: Writer): Writer {
    var w1 := Fill(w);
    if Idle(w1) && w1.flush.Some? then w1.(flush := None, resolved := w1.resolved + {w1.flush.value}) else w1
  }

  function ToFailing(w: Writer, x: Work): Writer {
    w.(running := w.running - multiset{x}, failing := w.failing + multiset{x}, writeFailures := w.writeFailures + 1)
  }

  function ToWritten(w: Writer, x: Work): Writer {
    w.(running := w.running - multiset{x}, written := w.written + [x])
  }

  function ToFailed(w: Writer, x: Work): Writer {
    w.(failing := w.failing - multiset{x}, failed := w.failed + [x])
  }

  /** The `catch` of a failed write: it is counted and its hook runs; the slot stays taken. */
  function CatchFailure(w: Writer, work: Work, hook: Script): Writer
    requires work in w.running
  {
    RunScript(ToFailing(w, work), hook)
  }

  /** The `finally` of a write, a turn of its own: the slot is released and the queue drained. */
  function Release(w: Writer, work: Work, ok: bool): Writer
    requires work in if ok then w.running else w.failing
  {
    Drain(if ok then ToWritten(w, work) else ToFailed(w, work))
  }

  // ---------- runs ----------

  datatype Action =
    | DoEnqueue(event: Event, options: Options, now: int, hook: Script)
    | DoFlush
    | DoClose
    | Catch(work: Work, hook: Script)
    | Finally(work: Work, ok: bool)

  function Step(w: Writer, a: Action): Writer {
    match a
    case DoEnqueue(event, options, now, hook) => Enqueue(w, event, options, now, hook).0
    case DoFlush => Flush(w).0
    case DoClose => Close(w).0
    case Catch(work, hook) => if work in w.running then CatchFailure(w, work, hook) else w
    case Finally(work, ok) => if work in (if ok then w.running else w.failing) then Release(w, work, ok) else w
  }

  function Run(w: Writer, actions: seq<Action>): Writer {
    if actions == [] then w else Step(Run(w, actions[..|actions| - 1]), actions[|actions| - 1])
  }
}
