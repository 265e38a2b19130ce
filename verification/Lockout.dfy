/** The login lockout. */
module Lockout {
  import opened Wrappers

  // Five failures lock an account for fifteen minutes. The in-memory store assigns fields one
  // after the other, the database updates both in one CASE statement.

  const LIMIT: nat := 5
  const WINDOW: nat := 15 * 60000

  datatype Counter = Counter(failedAttempts: nat, lockedUntil: Option<int>)

  const Clear := Counter(0, None)

  predicate Locked(c: Counter, now: int) {
    c.lockedUntil.Some? && c.lockedUntil.value > now
  }

  /** The two CASE expressions; `now()` is one instant in the whole statement. */
  function SqlFailure(c: Counter, now: int): Counter {
    Counter(
      if c.lockedUntil.Some? && c.lockedUntil.value <= now then 1
      else if c.lockedUntil.Some? && c.lockedUntil.value > now then c.failedAttempts
      else c.failedAttempts + 1,
      if c.lockedUntil.Some? && c.lockedUntil.value > now then c.lockedUntil
      else if c.lockedUntil.Some? && c.lockedUntil.value <= now then None
      else if c.failedAttempts + 1 >= LIMIT then Some(now + WINDOW)
      else None)
  }

  /** The in-memory form; it reads the clock to test the lock and again, maybe later, to set one. */
  function Failure(c: Counter, readAt: int, setAt: int): Counter {
    if Locked(c, readAt) then c
    else
      var failed := if c.lockedUntil.Some? then 1 else c.failedAttempts + 1;
      Counter(failed, if failed >= LIMIT then Some(setAt + WINDOW) else None)
  }

  class LockoutFields {
    var failedAttempts: nat
    var lockedUntil: Option<int>

    constructor ()
      ensures failedAttempts == 0 && lockedUntil == None
    {
      failedAttempts, lockedUntil := 0, None;
    }

    /** At one instant the assignments do what the statement of the database does. */
    method RecordLoginFailure(readAt: int, setAt: int)
      modifies this
      ensures Counter(failedAttempts, lockedUntil) == Failure(old(Counter(failedAttempts, lockedUntil)), readAt, setAt)
      ensures readAt == setAt ==>
        Counter(failedAttempts, lockedUntil) == SqlFailure(old(Counter(failedAttempts, lockedUntil)), readAt)
    {
      if lockedUntil.Some? && lockedUntil.value > readAt { return; }
      if lockedUntil.Some? {
        failedAttempts := 0;
        lockedUntil := None;
      }
      failedAttempts := failedAttempts + 1;
      if failedAttempts >= LIMIT { lockedUntil := Some(setAt + WINDOW); }
    }

    /** `recordLoginSuccess` and `unlockUser`. */
    method Unlock()
      modifies this
      ensures Counter(failedAttempts, lockedUntil) == Clear
    {
      failedAttempts, lockedUntil := 0, None;
    }
  }

  // ---------- runs ----------

  datatype Event = Fail(readAt: int, setAt: int) | Unlock

  function Step(c: Counter, e: Event): Counter {
    match e
    case Fail(readAt, setAt) => Failure(c, readAt, setAt)
    case Unlock => Clear
  }

  function SqlStep(c: Counter, e: Event): Counter {
    match e
    case Fail(readAt, _) => SqlFailure(c, readAt)
    case Unlock => Clear
  }

  function Run(c: Counter, events: seq<Event>): Counter
    decreases |events|
  {
    if events == [] then c else Run(Step(c, events[0]), events[1..])
  }

  function SqlRun(c: Counter, events: seq<Event>): Counter
    decreases |events|
  {
    if events == [] then c else SqlRun(SqlStep(c, events[0]), events[1..])
  }

  /** An unlocked account has fewer than five failures on it, a locked one exactly five. */
  predicate Valid(c: Counter) {
    if c.lockedUntil.None? then c.failedAttempts < LIMIT else c.failedAttempts == LIMIT
  }

  lemma {:induction false} RunKeepsValid(c: Counter, events: seq<Event>)
    requires Valid(c)
    ensures Valid(Run(c, events))
    decreases |events|
  {
    if events != [] { RunKeepsValid(Step(c, events[0]), events[1..]); }
  }

  /** Over every run the two stores hold the same counter, when a failure takes no time. */
  lemma {:induction false} StoresAgree(c: Counter, events: seq<Event>)
    requires Valid(c) && forall e :: e in events && e.Fail? ==> e.readAt == e.setAt
    ensures SqlRun(c, events) == Run(c, events) && Valid(Run(c, events))
    decreases |events|
  {
    if events != [] {
      assert events[0] in events;
      StoresAgree(Step(c, events[0]), events[1..]);
    }
  }

  // ---------- when an account is locked ----------

  /**
   A failure on a locked account changes nothing. The first one after a lock, and the first one of
   all, count as one; the fifth locks the account for 900000 milliseconds.
   */
  lemma FifthFailureLocks(c: Counter, readAt: int, setAt: int)
    requires Valid(c)
    ensures var after := Failure(c, readAt, setAt);
      match c.lockedUntil
      case Some(until) => after == if readAt < until then c else Counter(1, None)
      case None =>
        && after.failedAttempts == c.failedAttempts + 1
        && (after.lockedUntil.Some? <==> c.failedAttempts == 4)
        && (after.lockedUntil.Some? ==> forall now :: Locked(after, now) <==> now < setAt + 900000)
  {
  }

  /** Four failures leave an account open, the fifth locks it, and a success or an unlock clears it. */
  lemma FourAreForgiven(readAt: seq<int>, setAt: seq<int>, now: int)
    requires |readAt| == |setAt| == 5
    ensures var four := Step(Step(Step(Step(Clear, Fail(readAt[0], setAt[0])), Fail(readAt[1], setAt[1])),
                                  Fail(readAt[2], setAt[2])), Fail(readAt[3], setAt[3]));
      && !Locked(four, now) && (Locked(Step(four, Fail(readAt[4], setAt[4])), now) <==> now < setAt[4] + 900000)
      && !Locked(Step(Step(four, Fail(readAt[4], setAt[4])), Unlock), now)
      && Step(Step(four, Fail(readAt[4], setAt[4])), Unlock).failedAttempts == 0
  {
  }

  // ---------- how many guesses a window allows ----------

  predicate Counted(c: Counter, e: Event) {
    e.Fail? && !Locked(c, e.readAt)
  }

  function CountedIn(c: Counter, events: seq<Event>): nat
    decreases |events|
  {
    if events == [] then 0
    else (if Counted(c, events[0]) then 1 else 0) + CountedIn(Step(c, events[0]), events[1..])
  }

  /** Only failures, on a clock that does not go back, between `from` and `to`. */
  predicate Within(events: seq<Event>, from: int, to: int)
    decreases |events|
  {
    events == [] ||
    (events[0].Fail? && from <= events[0].readAt <= events[0].setAt <= to && Within(events[1..], events[0].setAt, to))
  }

  function Windows(length: int): nat {
    if length < 0 then 0 else length / WINDOW
  }

  /** The failures an account in state `c` can still be charged with between `now` and `to`. */
  function Budget(c: Counter, now: int, to: int): int {
    match c.lockedUntil
    case None => LIMIT - c.failedAttempts + LIMIT * Windows(to - now)
    case Some(until) =>
      if until <= now then LIMIT + LIMIT * Windows(to - now)
      else if until <= to then LIMIT + LIMIT * Windows(to - until)
      else 0
  }

  lemma WindowsStep(length: int)
    requires length >= WINDOW
    ensures Windows(length - WINDOW) == Windows(length) - 1
  {
  }

  lemma WindowsGrow(a: int, b: int)
    requires a <= b
    ensures Windows(a) <= Windows(b)
  {
    if a >= 0 && b >= a + WINDOW {
      WindowsGrow(a, b - WINDOW);
      WindowsStep(b);
    }
  }

  lemma BudgetShrinks(c: Counter, now: int, later: int, to: int)
    requires Valid(c) && now <= later <= to
    ensures 0 <= Budget(c, later, to) <= Budget(c, now, to)
  {
    WindowsGrow(to - later, to - now);
    if c.lockedUntil.Some? && c.lockedUntil.value <= later { WindowsGrow(to - later, to - c.lockedUntil.value); }
  }

  /** A counted failure pays for itself. */
  lemma FailurePays(c: Counter, e: Event, to: int)
    requires Valid(c) && Counted(c, e) && e.readAt <= e.setAt <= to
    ensures Budget(Step(c, e), e.setAt, to) <= Budget(c, e.readAt, to) - 1
  {
    WindowsGrow(to - e.setAt, to - e.readAt);
    if e.setAt + WINDOW <= to { WindowsStep(to - e.setAt); }
  }

  lemma {:induction false} CountedFitsBudget(c: Counter, events: seq<Event>, now: int, to: int)
    requires Valid(c) && now <= to && Within(events, now, to)
    ensures CountedIn(c, events) <= Budget(c, now, to)
    decreases |events|
  {
    BudgetShrinks(c, now, now, to);
    if events != [] {
      var e := events[0];
      BudgetShrinks(c, now, e.readAt, to);
      if Counted(c, e) { FailurePays(c, e, to); }
      else { BudgetShrinks(c, e.readAt, e.setAt, to); }
      CountedFitsBudget(Step(c, e), events[1..], e.setAt, to);
    }
  }

  /**
   Between two logins or unlocks, at most five failures are counted per quarter of an hour,
   one more quarter begun included: the password guesses a window of length T leaves.
   */
  lemma GuessesAreBounded(before: seq<Event>, events: seq<Event>, from: int, to: int)
    requires from <= to && Within(events, from, to)
    ensures CountedIn(Run(Clear, before), events) <= 5 * ((to - from) / 900000 + 1)
  {
    RunKeepsValid(Clear, before);
    var c := Run(Clear, before);
    CountedFitsBudget(c, events, from, to);
    if c.lockedUntil.Some? && c.lockedUntil.value > from { WindowsGrow(to - c.lockedUntil.value, to - from); }
  }

  // ---------- the bound is reached ----------

  function Burst(at: int): seq<Event> {
    [Fail(at, at), Fail(at, at), Fail(at, at), Fail(at, at), Fail(at, at)]
  }

  /** Five failures as soon as each lock ends, `n` times after the first. */
  function Persistent(at: int, n: nat): seq<Event>
    decreases n
  {
    Burst(at) + if n == 0 then [] else Persistent(at + WINDOW, n - 1)
  }

  lemma BurstLocks(c: Counter, at: int, rest: seq<Event>)
    requires Valid(c) && c.failedAttempts in {0, LIMIT} && !Locked(c, at)
    ensures CountedIn(c, Burst(at) + rest) == LIMIT + CountedIn(Counter(LIMIT, Some(at + WINDOW)), rest)
  {
    var events := Burst(at) + rest;
    var c1 := Step(c, events[0]);
    var c2 := Step(c1, events[1]);
    var c3 := Step(c2, events[2]);
    var c4 := Step(c3, events[3]);
    assert c1 == Counter(1, None) && c2 == Counter(2, None) && c3 == Counter(3, None) && c4 == Counter(4, None);
    assert events[1..][1..] == events[2..] && events[2..][1..] == events[3..] && events[3..][1..] == events[4..] &&
      events[4..][1..] == rest;
    assert CountedIn(c4, events[4..]) == 1 + CountedIn(Step(c4, events[4]), rest);
    assert CountedIn(c2, events[2..]) == 2 + CountedIn(c4, events[4..]);
  }

  lemma {:induction false} PersistentFits(at: int, n: nat)
    ensures Within(Persistent(at, n), at, at + n * WINDOW)
    decreases n
  {
    var rest := if n == 0 then [] else Persistent(at + WINDOW, n - 1);
    var to := at + n * WINDOW;
    if n > 0 {
      PersistentFits(at + WINDOW, n - 1);
    }
    BurstFits(at, rest, to);
  }

  lemma BurstFits(at: int, rest: seq<Event>, to: int)
    requires at <= to && Within(rest, at, to)
    ensures Within(Burst(at) + rest, at, to)
  {
    var events := Burst(at) + rest;
    assert events[1..][1..] == events[2..] && events[2..][1..] == events[3..] && events[3..][1..] == events[4..] &&
      events[4..][1..] == rest;
    assert Within(events[4..], at, to);
    assert Within(events[2..], at, to);
  }

  lemma {:induction false} PersistenceIsCounted(c: Counter, at: int, n: nat)
    requires Valid(c) && c.failedAttempts in {0, LIMIT} && !Locked(c, at)
    ensures CountedIn(c, Persistent(at, n)) == LIMIT * (n + 1)
    decreases n
  {
    var rest := if n == 0 then [] else Persistent(at + WINDOW, n - 1);
    BurstLocks(c, at, rest);
    if n > 0 { PersistenceIsCounted(Counter(LIMIT, Some(at + WINDOW)), at + WINDOW, n - 1); }
  }

  /**
   No smaller bound holds: in every window of n quarters of an hour, whoever starts again as each
   lock ends is charged with five failures for each of them and five more.
   */
  lemma TheBoundIsReached(c: Counter, at: int, n: nat)
    requires Valid(c) && c.failedAttempts in {0, LIMIT} && !Locked(c, at)
    ensures Within(Persistent(at, n), at, at + n * 900000)
    ensures CountedIn(c, Persistent(at, n)) == 5 * ((at + n * 900000 - at) / 900000 + 1)
  {
    PersistentFits(at, n);
    PersistenceIsCounted(c, at, n);
    assert (n * WINDOW) / WINDOW == n;
  }
}
