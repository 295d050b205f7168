/**
 Failure limits whose window is anchored at its first failure, and the two-factor limiter.
 */
module FailureWindows {
  import opened Wrappers

  const FAILURE_LIMIT: nat := 5

  /** One failed check: when it was recorded, and the position of the failure its window starts with. */
  datatype Mark = Mark(at: nat, start: nat)

  predicate MarkOk(h: seq<Mark>, n: nat)
    requires n < |h|
  {
    && n < h[n].start + FAILURE_LIMIT && h[n].start <= n
    && (n == 0 || h[n - 1].at <= h[n].at)
  }

  /**
   A new window starts when the last one has run its length or, if that one was full, when a lock of that length has
   passed.
   */
  predicate StartOk(h: seq<Mark>, n: nat, window: nat)
    requires 0 < n < |h| && h[n - 1].start < n
  {
    var p := h[n - 1].start;
    if h[n].start != n then h[n].start == p
    else h[n].at - h[if n == p + FAILURE_LIMIT then n - 1 else p].at >= window
  }

  /** The failures of one key, split into windows of at most five. */
  ghost predicate Windowed(h: seq<Mark>, window: nat) {
    && (forall n | 0 <= n < |h| :: MarkOk(h, n))
    && (forall n | 0 < n < |h| :: MarkOk(h, n - 1) && StartOk(h, n, window))
  }

  lemma {:induction false} Ordered(h: seq<Mark>, window: nat, a: nat, b: nat)
    requires Windowed(h, window) && a <= b < |h|
    ensures h[a].at <= h[b].at
  {
    if a < b {
      Ordered(h, window, a, b - 1);
      assert MarkOk(h, b);
    }
  }

  /** The failure that starts the window of `n` starts its own window, and so do all failures up to `n`. */
  lemma {:induction false} SameStart(h: seq<Mark>, window: nat, n: nat, m: nat)
    requires Windowed(h, window) && n < |h| && h[n].start <= m <= n
    ensures h[m].start == h[n].start
    decreases n
  {
    assert MarkOk(h, n);
    if m < n {
      assert MarkOk(h, n - 1) && StartOk(h, n, window);
      SameStart(h, window, n - 1, m);
    }
  }

  /** Nine failures of one key always span at least one window: any half-open interval that long holds at most eight. */
  lemma NineSpanAWindow(h: seq<Mark>, window: nat, i: nat)
    requires Windowed(h, window) && i + 8 < |h|
    ensures h[i + 8].at - h[i].at >= window
  {
    var c2 := h[i + 8].start;
    assert MarkOk(h, i + 8);
    SameStart(h, window, i + 8, c2);
    // the last window starts at i + 4 or later; the one before it is full, or starts at i or later
    assert MarkOk(h, c2 - 1) && StartOk(h, c2, window);
    var c1 := h[c2 - 1].start;
    Ordered(h, window, c2, i + 8);
    Ordered(h, window, i, c2 - 1);
    if c1 >= i {
      Ordered(h, window, i, c1);
    }
  }

  /** Between two failures less than a window apart, in windows that are not yet full, no window starts. */
  lemma {:induction false} NoStartBetween(h: seq<Mark>, window: nat, i: nat, n: nat)
    requires Windowed(h, window) && i <= n < |h| && n < i + FAILURE_LIMIT
    requires h[i].start == i && h[n].at - h[i].at < window
    ensures h[n].start == i
  {
    if i < n {
      Ordered(h, window, n - 1, n);
      NoStartBetween(h, window, i, n - 1);
      assert StartOk(h, n, window);
    }
  }

  /** Five failures within one window length fill a window exactly when the first of them opened it. */
  lemma FiveFillAWindow(h: seq<Mark>, window: nat, i: nat)
    requires Windowed(h, window) && i + 4 < |h| && h[i + 4].at - h[i].at < window
    ensures h[i + 4].start == i <==> h[i].start == i
  {
    if h[i].start == i {
      NoStartBetween(h, window, i, i + 4);
    } else if h[i + 4].start == i {
      SameStart(h, window, i + 4, i);
    }
  }

  // ---- the two-factor limiter

  const TWO_FACTOR_WINDOW_MS: nat := 10 * 60 * 1000
  const TWO_FACTOR_LOCKOUT_MS: nat := 15 * 60 * 1000

  datatype Failure = Failure(failures: nat, firstFailureAt: nat, lockedUntil: Option<nat>)

  predicate Locked(entry: Option<Failure>, now: nat) {
    entry.Some? && entry.value.lockedUntil.Some? && entry.value.lockedUntil.value > now
  }

  /** A check forgets an account whose lock has run out. */
  function AfterCheck(entry: Option<Failure>, now: nat): Option<Failure> {
    if entry.Some? && entry.value.lockedUntil.Some? && entry.value.lockedUntil.value <= now then None else entry
  }

  function AfterFailure(entry: Option<Failure>, now: nat): Failure {
    var active := entry.Some? && now - entry.value.firstFailureAt < TWO_FACTOR_WINDOW_MS;
    var failures := (if active then entry.value.failures else 0) + 1;
    Failure(failures,
            if active then entry.value.firstFailureAt else now,
            if failures >= FAILURE_LIMIT then Some(now + TWO_FACTOR_LOCKOUT_MS) else None)
  }

  type UserId = string

  /** The failure map of the authentication service. */
  class TwoFactorFailures {
    var entries: map<UserId, Failure>

    function Entry(user: UserId): Option<Failure>
      reads this
    {
      if user in entries then Some(entries[user]) else None
    }

    constructor ()
      ensures entries == map[]
    {
      entries := map[];
    }

    method AssertNotLocked(user: UserId, now: nat) returns (locked: bool)
      modifies this
      ensures locked == Locked(old(Entry(user)), now)
      ensures Entry(user) == AfterCheck(old(Entry(user)), now)
      ensures forall u | u != user :: Entry(u) == old(Entry(u))
    {
      if user !in entries || entries[user].lockedUntil.None? {
        return false;
      }
      if entries[user].lockedUntil.value > now {
        return true;
      }
      entries := entries - {user};
      return false;
    }

    method RecordFailure(user: UserId, now: nat)
      modifies this
      ensures Entry(user) == Some(AfterFailure(old(Entry(user)), now))
      ensures forall u | u != user :: Entry(u) == old(Entry(u))
    {
      var failures, first := 1, now;
      if user in entries && now - entries[user].firstFailureAt < TWO_FACTOR_WINDOW_MS {
        failures, first := entries[user].failures + 1, entries[user].firstFailureAt;
      }
      var lockedUntil := if failures >= FAILURE_LIMIT then Some(now + TWO_FACTOR_LOCKOUT_MS) else None;
      entries := entries[user := Failure(failures, first, lockedUntil)];
    }

    method Succeed(user: UserId)
      modifies this
      ensures Entry(user) == None
      ensures forall u | u != user :: Entry(u) == old(Entry(u))
    {
      entries := entries - {user};
    }
  }

  // ---- attempts on one account, one after another

  /** `passed`: an attempt has passed the lock check and has not ended. */
  datatype Account = Account(entry: Option<Failure>, passed: bool, now: nat, failed: seq<Mark>)

  datatype Step = Check(at: nat) | Fail(at: nat) | GiveUp

  predicate Enabled(a: Account, step: Step) {
    match step
    case Check(t) => !a.passed && a.now <= t
    case Fail(t) => a.passed && a.now <= t
    case GiveUp => true
  }

  function NextMark(failed: seq<Mark>, now: nat, sameWindow: bool): Mark {
    Mark(now, if sameWindow && failed != [] then failed[|failed| - 1].start else |failed|)
  }

  function Next(a: Account, step: Step): Account {
    match step
    case Check(t) => Account(AfterCheck(a.entry, t), !Locked(a.entry, t), t, a.failed)
    case Fail(t) =>
      var e := AfterFailure(a.entry, t);
      Account(Some(e), false, t, a.failed + [NextMark(a.failed, t, e.failures > 1)])
    case GiveUp => a.(passed := false)
  }

  ghost predicate Run(states: seq<Account>, steps: seq<Step>) {
    && |states| == |steps| + 1
    && states[0] == Account(None, false, 0, [])
    && (forall i | 0 <= i < |steps| :: Enabled(states[i], steps[i]) && states[i + 1] == Next(states[i], steps[i]))
  }

  ghost predicate Tracks(e: Failure, h: seq<Mark>) {
    && h != [] && MarkOk(h, |h| - 1)
    && var last := h[|h| - 1];
       && e.failures == |h| - last.start && e.firstFailureAt == h[last.start].at
       && e.lockedUntil == (if e.failures == FAILURE_LIMIT then Some(last.at + TWO_FACTOR_LOCKOUT_MS) else None)
  }

  ghost predicate Inv(a: Account) {
    && Windowed(a.failed, TWO_FACTOR_WINDOW_MS)
    && (a.failed != [] ==> a.failed[|a.failed| - 1].at <= a.now)
    && (a.passed ==> a.entry.None? || a.entry.value.lockedUntil.None?)
    && match a.entry
       case Some(e) => Tracks(e, a.failed)
       case None => a.failed == [] || FullAndOver(a.failed, a.now)
  }

  ghost predicate FullAndOver(h: seq<Mark>, now: nat)
    requires h != []
  {
    |h| == h[|h| - 1].start + FAILURE_LIMIT && now - h[|h| - 1].at >= TWO_FACTOR_LOCKOUT_MS
  }

  lemma WindowedAppend(h: seq<Mark>, m: Mark, window: nat)
    requires Windowed(h, window)
    requires MarkOk(h + [m], |h|)
    requires h != [] ==> MarkOk(h + [m], |h| - 1) && StartOk(h + [m], |h|, window)
    ensures Windowed(h + [m], window)
  {
    var h' := h + [m];
    forall n | 0 <= n < |h'| ensures MarkOk(h', n) {
      if n < |h| {
        assert MarkOk(h, n);
      }
    }
    forall n | 0 < n < |h'| ensures MarkOk(h', n - 1) && StartOk(h', n, window) {
      if n < |h| {
        assert MarkOk(h, n - 1) && StartOk(h, n, window);
      }
    }
  }

  lemma FailKeeps(a: Account, t: nat)
    requires Inv(a) && Enabled(a, Fail(t))
    ensures Inv(Next(a, Fail(t)))
  {
    var h := a.failed;
    var e := AfterFailure(a.entry, t);
    var m := NextMark(h, t, e.failures > 1);
    var h' := h + [m];
    if h != [] {
      assert MarkOk(h, |h| - 1);
      assert MarkOk(h', |h| - 1);
    }
    assert MarkOk(h', |h|);
    WindowedAppend(h, m, TWO_FACTOR_WINDOW_MS);
  }

  lemma {:induction false} InvHolds(states: seq<Account>, steps: seq<Step>, n: nat)
    requires Run(states, steps) && n < |states|
    ensures Inv(states[n])
  {
    if n > 0 {
      InvHolds(states, steps, n - 1);
      if steps[n - 1].Fail? {
        FailKeeps(states[n - 1], steps[n - 1].at);
      }
    }
  }

  /** Any half-open interval of ten minutes holds at most eight failed two-factor checks of one account. */
  lemma TwoFactorBound(states: seq<Account>, steps: seq<Step>, n: nat, i: nat)
    requires Run(states, steps) && n < |states| && i + 8 < |states[n].failed|
    ensures states[n].failed[i + 8].at - states[n].failed[i].at >= TWO_FACTOR_WINDOW_MS
  {
    InvHolds(states, steps, n);
    NineSpanAWindow(states[n].failed, TWO_FACTOR_WINDOW_MS, i);
  }

  lemma {:induction false} FailuresStay(states: seq<Account>, steps: seq<Step>, m: nat, n: nat)
    requires Run(states, steps) && m <= n < |states|
    ensures states[m].failed <= states[n].failed
  {
    if m < n {
      FailuresStay(states, steps, m, n - 1);
    }
  }

  /** What a failure at `t` finds: no window is open, so that it opens one. */
  predicate OpensWindow(entry: Option<Failure>, t: nat) {
    entry.None? || t - entry.value.firstFailureAt >= TWO_FACTOR_WINDOW_MS
  }

  lemma OpeningIsMarked(states: seq<Account>, steps: seq<Step>, p: nat)
    requires Run(states, steps) && p < |steps| && steps[p].Fail?
    ensures var i := |states[p].failed|;
            && |states[p + 1].failed| == i + 1 && states[p + 1].failed[i].at == steps[p].at
            && (states[p + 1].failed[i].start == i <==> OpensWindow(states[p].entry, steps[p].at))
  {
    InvHolds(states, steps, p);
    if states[p].failed != [] {
      assert MarkOk(states[p].failed, |states[p].failed| - 1);
    }
  }

  lemma LockIsMarked(states: seq<Account>, steps: seq<Step>, q: nat)
    requires Run(states, steps) && q < |steps| && steps[q].Fail?
    ensures var h := states[q + 1].failed;
            && h != [] && (Locked(states[q + 1].entry, steps[q].at) <==> |h| == h[|h| - 1].start + FAILURE_LIMIT)
  {
    InvHolds(states, steps, q + 1);
  }

  /**
   When five failures in ten minutes lock the account: step `p` records one failure, step `q` the fourth after it, less
   than ten minutes later. The account is then locked if and only if the first of the five found no open window.
   */
  lemma FiveFailuresLockExactly(states: seq<Account>, steps: seq<Step>, p: nat, q: nat)
    requires Run(states, steps) && p < q < |steps| && steps[p].Fail? && steps[q].Fail?
    requires |states[q].failed| == |states[p].failed| + 4
    requires steps[q].at - steps[p].at < TWO_FACTOR_WINDOW_MS
    ensures Locked(states[q + 1].entry, steps[q].at) <==> OpensWindow(states[p].entry, steps[p].at)
  {
    var i, h := |states[p].failed|, states[q + 1].failed;
    OpeningIsMarked(states, steps, p);
    OpeningIsMarked(states, steps, q);
    FailuresStay(states, steps, p + 1, q + 1);
    assert h[i] == states[p + 1].failed[i];
    InvHolds(states, steps, q + 1);
    FiveFillAWindow(h, TWO_FACTOR_WINDOW_MS, i);
    LockIsMarked(states, steps, q);
  }

  /** A failed attempt extends a run. */
  lemma FailAgain(states: seq<Account>, steps: seq<Step>, t: nat) returns (states': seq<Account>, steps': seq<Step>)
    requires Run(states, steps) && states[|steps|].now <= t && !states[|steps|].passed
             && !Locked(states[|steps|].entry, t)
    ensures Run(states', steps')
    ensures var a := states[|steps|]; var a' := states'[|steps'|];
            var e := AfterFailure(AfterCheck(a.entry, t), t);
            a' == Account(Some(e), false, t, a.failed + [NextMark(a.failed, t, e.failures > 1)])
  {
    var a := states[|steps|];
    var a1 := Next(a, Check(t));
    steps' := steps + [Check(t), Fail(t)];
    states' := states + [a1, Next(a1, Fail(t))];
  }

  predicate EndsWith(a: Account, e: Failure, latest: nat, failures: nat) {
    !a.passed && a.now <= latest && a.entry == Some(e) && |a.failed| == failures
  }

  /** The bound is exact: eight failures can fall within one millisecond of each other. */
  lemma EightCanMeet() returns (states: seq<Account>, steps: seq<Step>)
    ensures Run(states, steps)
    ensures var h := states[|steps|].failed; |h| == 9 && h[8].at - h[1].at == 1
  {
    states, steps := [Account(None, false, 0, [])], [];
    states, steps := FailAgain(states, steps, 0);
    for i := 0 to 3
      invariant Run(states, steps)
      invariant EndsWith(states[|steps|], Failure(1 + i, 0, None), TWO_FACTOR_WINDOW_MS - 1, 1 + i)
      invariant forall k | 1 <= k <= i :: states[|steps|].failed[k].at == TWO_FACTOR_WINDOW_MS - 1
    {
      states, steps := FailAgain(states, steps, TWO_FACTOR_WINDOW_MS - 1);
    }
    for i := 0 to 5
      invariant Run(states, steps)
      invariant EndsWith(states[|steps|],
                         if i == 0 then Failure(4, 0, None)
                         else Failure(i, TWO_FACTOR_WINDOW_MS,
                                      if i == 5 then Some(TWO_FACTOR_WINDOW_MS + TWO_FACTOR_LOCKOUT_MS) else None),
                         TWO_FACTOR_WINDOW_MS, 4 + i)
      invariant states[|steps|].failed[1].at == TWO_FACTOR_WINDOW_MS - 1
      invariant forall k | 4 <= k < 4 + i :: states[|steps|].failed[k].at == TWO_FACTOR_WINDOW_MS
    {
      states, steps := FailAgain(states, steps, TWO_FACTOR_WINDOW_MS);
    }
  }
}
