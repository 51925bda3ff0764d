/** Counting wrong passwords: concurrent requests, one atomic increment each, and the row lock an UPDATE
    holds until its transaction commits. */
module Lockout {
  import opened Wrappers

  type RequestId = nat
  type Time = nat

  datatype Settings = Settings(maxFailed: nat, lockout: nat)

  /** The two columns as a request loaded them. */
  datatype Seen = Seen(count: nat, lockedUntil: Option<Time>)

  /** `failures` and `locks` count since the last reset; the row stores `count` and `lockedUntil`. `writer`
      is the request whose UPDATE is not committed yet, with the count it got back. */
  datatype Door = Door(settings: Settings, now: Time, count: nat, lockedUntil: Option<Time>, failures: nat, locks: nat,
                       loaded: map<RequestId, Seen>, writer: Option<(RequestId, nat)>)

  datatype Step =
    | Tick(elapsed: nat)
    | Load(q: RequestId, signIn: bool)
    | Wrong(q: RequestId)     // the increment
    | LockOut(q: RequestId)   // the second UPDATE, when the count is reached
    | Commit(q: RequestId)
    | Clear(q: RequestId)     // a good password, or a completed password reset

  ghost predicate Enabled(s: Door, e: Step) {
    match e
    case Tick(_) => true
    // a sign-in is turned away while the lock lasts; following a reset link is not
    case Load(q, signIn) => q !in s.loaded && (signIn ==> !IsLocked(s))
    case Wrong(q) => q in s.loaded && s.writer.None?
    case LockOut(q) =>
      s.writer.Some? && s.writer.value.0 == q && s.writer.value.1 >= s.settings.maxFailed && s.count > 0
    case Commit(q) =>
      s.writer.Some? && s.writer.value.0 == q && (s.writer.value.1 < s.settings.maxFailed || s.count == 0)
    case Clear(q) => q in s.loaded && s.writer.None?
  }

  predicate IsLocked(s: Door) {
    s.lockedUntil.Some? && s.lockedUntil.value > s.now
  }

  function Next(s: Door, e: Step): Door
    requires Enabled(s, e)
  {
    match e
    case Tick(elapsed) => s.(now := s.now + elapsed)
    case Load(q, _) => s.(loaded := s.loaded[q := Seen(s.count, s.lockedUntil)])
    case Wrong(q) =>
      s.(count := s.count + 1, failures := s.failures + 1, writer := Some((q, s.count + 1)), loaded := s.loaded - {q})
    case LockOut(_) => s.(count := 0, lockedUntil := Some(s.now + s.settings.lockout), locks := s.locks + 1)
    case Commit(_) => s.(writer := None)
    case Clear(q) =>
      // an assignment that leaves a loaded column as it was does not write it
      var seen := s.loaded[q];
      var s1 := if seen.lockedUntil.None? then s else s.(lockedUntil := None);
      var s2 := if seen.count == 0 then s1 else s1.(count := 0, failures := 0, locks := 0);
      s2.(loaded := s.loaded - {q})
  }

  ghost predicate ValidRun(s: Door, es: seq<Step>)
    decreases |es|
  {
    es == [] || (Enabled(s, es[0]) && ValidRun(Next(s, es[0]), es[1..]))
  }

  ghost function Run(s: Door, es: seq<Step>): Door
    requires ValidRun(s, es)
    decreases |es|
  {
    if es == [] then s else Run(Next(s, es[0]), es[1..])
  }

  function Open(settings: Settings, now: Time): Door {
    Door(settings, now, 0, None, 0, 0, map[], None)
  }

  /** Nothing is lost between requests: all counted failures are in the count or were spent on a lock. */
  ghost predicate Inv(s: Door) {
    && s.settings.maxFailed > 0
    && s.failures == s.settings.maxFailed * s.locks + s.count
    && (s.writer.None? ==> s.count < s.settings.maxFailed)
    && (s.writer.Some? ==>
          || s.count == s.writer.value.1 <= s.settings.maxFailed
          || (s.count == 0 && s.writer.value.1 == s.settings.maxFailed))
  }

  lemma {:induction false} RunKeeps(s: Door, es: seq<Step>)
    requires Inv(s) && ValidRun(s, es)
    ensures Inv(Run(s, es)) && Run(s, es).settings == s.settings
    decreases |es|
  {
    if es != [] {
      StepKeeps(s, es[0]);
      RunKeeps(Next(s, es[0]), es[1..]);
    }
  }

  lemma StepKeeps(s: Door, e: Step)
    requires Inv(s) && Enabled(s, e)
    ensures Inv(Next(s, e)) && Next(s, e).settings == s.settings
  {
    if e.LockOut? {
      var m, k := s.settings.maxFailed, s.locks;
      assert s.count == m;
      assert m * (k + 1) == m * k + m;
    }
  }

  /** However many guesses run at once, none goes uncounted: with no write under way the account has been
      locked exactly once for each full batch of failures since the last reset. */
  lemma EveryFailureCounts(settings: Settings, now: Time, es: seq<Step>)
    requires settings.maxFailed > 0 && ValidRun(Open(settings, now), es)
    ensures var s := Run(Open(settings, now), es);
            && s.failures == settings.maxFailed * s.locks + s.count
            && (s.writer.None? ==>
                  s.locks == s.failures / settings.maxFailed && s.count == s.failures % settings.maxFailed)
  {
    RunKeeps(Open(settings, now), es);
    var s := Run(Open(settings, now), es);
    if s.writer.None? { Quotient(s.failures, settings.maxFailed, s.locks, s.count); }
  }

  // ---- how long a lock lasts ----

  ghost predicate NeverCleared(es: seq<Step>) {
    forall i :: 0 <= i < |es| ==> !es[i].Clear?
  }

  lemma {:induction false} LockStands(s: Door, es: seq<Step>, until: Time)
    requires ValidRun(s, es) && NeverCleared(es)
    requires s.lockedUntil.Some? && until <= s.lockedUntil.value && until <= s.now + s.settings.lockout
    ensures var s' := Run(s, es); s'.lockedUntil.Some? && until <= s'.lockedUntil.value
    decreases |es|
  {
    if es != [] { LockStands(Next(s, es[0]), es[1..], until); }
  }

  /** From the moment the account is locked until the configured time has passed, no sign-in gets as far as its
      password, unless a sign-in already past that point or a reset clears the lock. */
  lemma LockedIsTurnedAway(s: Door, q: RequestId, es: seq<Step>, r: RequestId)
    requires Enabled(s, LockOut(q)) && ValidRun(Next(s, LockOut(q)), es) && NeverCleared(es)
    requires Run(Next(s, LockOut(q)), es).now < s.now + s.settings.lockout
    ensures !Enabled(Run(Next(s, LockOut(q)), es), Load(r, true))
  {
    LockStands(Next(s, LockOut(q)), es, s.now + s.settings.lockout);
  }

  lemma {:induction false} NoNewLock(s: Door, es: seq<Step>, until: Time)
    requires ValidRun(s, es) && forall i :: 0 <= i < |es| ==> !es[i].LockOut?
    requires s.lockedUntil.Some? ==> s.lockedUntil.value <= until
    ensures Run(s, es).lockedUntil.Some? ==> Run(s, es).lockedUntil.value <= until
    decreases |es|
  {
    if es != [] { NoNewLock(Next(s, es[0]), es[1..], until); }
  }

  /** And it lifts by itself: once that time has passed with no further lock, a sign-in is let through again. */
  lemma LockLifts(s: Door, q: RequestId, es: seq<Step>, r: RequestId)
    requires Enabled(s, LockOut(q)) && ValidRun(Next(s, LockOut(q)), es)
    requires forall i :: 0 <= i < |es| ==> !es[i].LockOut?
    requires s.now + s.settings.lockout <= Run(Next(s, LockOut(q)), es).now
    requires r !in Run(Next(s, LockOut(q)), es).loaded
    ensures Enabled(Run(Next(s, LockOut(q)), es), Load(r, true))
  {
    NoNewLock(Next(s, LockOut(q)), es, s.now + s.settings.lockout);
  }

  /** A good password, or a reset, clears what its request had seen: it leaves no count if it saw one, and no
      lock if it saw one. */
  lemma ClearingClears(s: Door, q: RequestId)
    requires Enabled(s, Clear(q))
    ensures s.loaded[q].count > 0 ==> Next(s, Clear(q)).count == 0
    ensures s.loaded[q].lockedUntil.Some? ==> !IsLocked(Next(s, Clear(q)))
    ensures s.loaded[q] == Seen(s.count, s.lockedUntil) ==> Next(s, Clear(q)).count == 0 && !IsLocked(Next(s, Clear(q)))
  {
  }

  lemma Quotient(n: nat, m: nat, q: nat, r: nat)
    requires m > 0 && n == m * q + r && r < m
    ensures n / m == q && n % m == r
  {
    var d := n / m;
    assert n == m * d + n % m;
    if q > d {
      Monotone(m, d + 1, q);
      Monotone(m, d, d);
    } else if q < d {
      Monotone(m, q + 1, d);
      Monotone(m, q, q);
    }
  }

  lemma Monotone(m: nat, a: nat, b: nat)
    requires a <= b
    ensures m * a <= m * b && m * (a + 1) == m * a + m
  {
  }
}
