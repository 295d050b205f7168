/**
 Backup codes of two-factor enrolments. A code is taken by comparing the whole stored list with the one that was read
 and writing back the list without that code, so concurrent attempts can only win against the list they saw.
 */
module BackupCodes {
  import opened Wrappers

  const CODE_COUNT: nat := 8

  type CallId = nat

  /** A bcrypt hash: the code it accepts and its salt. */
  datatype Hashed = Hashed(code: string, salt: nat)

  type Codes = seq<Hashed>

  /** The column: null, text that is not a JSON list of strings, or a list of hashes. */
  datatype Column = Null | Malformed | Stored(codes: Codes)

  // ---- one attempt

  /** The first hash that accepts the token. */
  function FirstMatch(codes: Codes, token: string): (r: Option<Hashed>)
    ensures r.Some? ==> r.value in codes && r.value.code == token
    ensures r.None? ==> forall h | h in codes :: h.code != token
  {
    if codes == [] then None
    else if codes[0].code == token then Some(codes[0])
    else FirstMatch(codes[1..], token)
  }

  function Without(codes: Codes, gone: set<Hashed>): (r: Codes)
    ensures |r| <= |codes|
  {
    if codes == [] then []
    else
      var n := |codes| - 1;
      Without(codes[..n], gone) + (if codes[n] in gone then [] else [codes[n]])
  }

  /** The user row's column, as `verifyAndConsumeBackupCode` reads and writes it. */
  class TwoFactorRow {
    var column: Column

    constructor (column: Column)
      ensures this.column == column
    {
      this.column := column;
    }

    /** `seen` is what the caller read; the row may have changed since. */
    method VerifyAndConsume(seen: Column, token: string) returns (accepted: bool)
      modifies this
      ensures accepted <==> seen.Stored? && FirstMatch(seen.codes, token).Some? && old(column) == seen
      ensures accepted ==> column == Stored(Without(seen.codes, {FirstMatch(seen.codes, token).value}))
      ensures !accepted ==> column == old(column)
    {
      if !seen.Stored? {
        return false;
      }
      var codes := seen.codes;
      for i := 0 to |codes|
        invariant column == old(column)
        invariant FirstMatch(codes, token) == FirstMatch(codes[i..], token)
      {
        if codes[i].code != token {
          continue;
        }
        if column == seen {
          var remaining := Filtered(codes, codes[i]);
          column := Stored(remaining);
          return true;
        }
        return false;
      }
      return false;
    }
  }

  /** `codes.filter((code) => code !== taken)` */
  method Filtered(codes: Codes, taken: Hashed) returns (remaining: Codes)
    ensures remaining == Without(codes, {taken})
  {
    remaining := [];
    for i := 0 to |codes|
      invariant remaining == Without(codes[..i], {taken})
    {
      assert codes[..i + 1][..i] == codes[..i];
      if codes[i] != taken {
        remaining := remaining + [codes[i]];
      }
    }
    assert codes[..|codes|] == codes;
  }

  // ---- concurrent attempts, enrolments and removals on one account

  datatype Event = Enrolled(codes: Codes) | Accepted(hash: Hashed) | Cleared

  /** An attempt that has read the column and found which hash its token opens. */
  datatype Attempt = Attempt(seen: Codes, taken: Hashed)

  datatype State = State(column: Column, calls: map<CallId, Attempt>, log: seq<Event>)

  datatype Step =
    | Enrol(codes: Codes)
    | Read(call: CallId, token: string)
    | Take(call: CallId)
    | Drop(call: CallId)
    | Clear                     // two-factor disabled by the user or removed by an admin

  ghost predicate Init(s: State) {
    s == State(Null, map[], [])
  }

  /** Salts are never drawn twice. */
  ghost predicate Fresh(log: seq<Event>, codes: Codes) {
    && |codes| == CODE_COUNT
    && (forall i, j | 0 <= i < |codes| && 0 <= j < |codes| && codes[i] == codes[j] :: i == j)
    && (forall k, h | 0 <= k < |log| && log[k].Enrolled? && h in log[k].codes :: h !in codes)
  }

  ghost predicate Enabled(s: State, step: Step) {
    match step
    case Enrol(codes) => Fresh(s.log, codes)
    case Read(c, token) => c !in s.calls && s.column.Stored? && FirstMatch(s.column.codes, token).Some?
    case Take(c) => c in s.calls
    case Drop(c) => c in s.calls
    case Clear => true
  }

  ghost function Next(s: State, step: Step): State
    requires Enabled(s, step)
  {
    match step
    case Enrol(codes) => s.(column := Stored(codes), log := s.log + [Enrolled(codes)])
    case Read(c, token) => s.(calls := s.calls[c := Attempt(s.column.codes, FirstMatch(s.column.codes, token).value)])
    case Take(c) =>
      var a := s.calls[c];
      if s.column == Stored(a.seen)
      then State(Stored(Without(a.seen, {a.taken})), s.calls - {c}, s.log + [Accepted(a.taken)])
      else s.(calls := s.calls - {c})
    case Drop(c) => s.(calls := s.calls - {c})
    case Clear => s.(column := Null, log := s.log + [Cleared])
  }

  ghost predicate Run(states: seq<State>, steps: seq<Step>) {
    && |states| == |steps| + 1
    && Init(states[0])
    && (forall i | 0 <= i < |steps| :: Enabled(states[i], steps[i]) && states[i + 1] == Next(states[i], steps[i]))
  }

  // ---- what the log says is left

  /** Nothing but acceptances since entry `k`. */
  ghost predicate Current(log: seq<Event>, k: nat) {
    k < |log| && log[k].Enrolled? && forall i | k < i < |log| :: log[i].Accepted?
  }

  /** The hashes accepted since entry `k`. */
  ghost function Taken(log: seq<Event>, k: nat): set<Hashed> {
    set i | k < i < |log| && log[i].Accepted? :: log[i].hash
  }

  ghost predicate Distinct(codes: Codes) {
    forall i, j | 0 <= i < |codes| && 0 <= j < |codes| && codes[i] == codes[j] :: i == j
  }

  ghost predicate Once(log: seq<Event>) {
    && (forall a, b | 0 <= a < |log| && 0 <= b < |log| && log[a].Accepted? && log[b].Accepted?
                      && log[a].hash == log[b].hash :: a == b)
    && (forall a, b, h | 0 <= a < |log| && 0 <= b < |log| && log[a].Enrolled? && log[b].Enrolled?
                         && h in log[a].codes && h in log[b].codes :: a == b)
  }

  ghost predicate ColumnOk(column: Column, log: seq<Event>) {
    match column
    case Null => forall k: nat :: !Current(log, k)
    case Malformed => false
    case Stored(codes) => exists k: nat :: LeftOf(log, k, codes)
  }

  /** `codes` is what enrolment `k`, the current one, has left. */
  ghost predicate LeftOf(log: seq<Event>, k: nat, codes: Codes) {
    && Current(log, k) && Distinct(log[k].codes) && |log[k].codes| == CODE_COUNT
    && codes == Without(log[k].codes, Taken(log, k))
    && (forall i | k < i < |log| :: log[i].hash in log[k].codes)
  }

  /** Every accepted hash belongs to an enrolment made before. */
  ghost predicate Known(log: seq<Event>) {
    forall i | 0 <= i < |log| && log[i].Accepted? ::
      exists k | 0 <= k < i :: log[k].Enrolled? && log[i].hash in log[k].codes
  }

  ghost predicate Sized(log: seq<Event>) {
    forall k | 0 <= k < |log| && log[k].Enrolled? :: |log[k].codes| == CODE_COUNT
  }

  ghost predicate Inv(s: State) {
    && ColumnOk(s.column, s.log) && Once(s.log) && Known(s.log) && Sized(s.log)
    && (forall c | c in s.calls :: s.calls[c].taken in s.calls[c].seen)
  }

  lemma {:induction false} WithoutNone(codes: Codes)
    ensures Without(codes, {}) == codes
  {
    if codes != [] {
      WithoutNone(codes[..|codes| - 1]);
    }
  }

  lemma {:induction false} WithoutMembers(codes: Codes, gone: set<Hashed>, h: Hashed)
    ensures h in Without(codes, gone) <==> h in codes && h !in gone
  {
    if codes != [] {
      WithoutMembers(codes[..|codes| - 1], gone, h);
    }
  }

  lemma WithoutSnoc(codes: Codes, h: Hashed, gone: set<Hashed>)
    ensures Without(codes + [h], gone) == Without(codes, gone) + (if h in gone then [] else [h])
  {
    assert (codes + [h])[..|codes|] == codes;
  }

  lemma {:induction false} WithoutTwice(codes: Codes, a: set<Hashed>, b: set<Hashed>)
    ensures Without(Without(codes, a), b) == Without(codes, a + b)
  {
    if codes != [] {
      var n := |codes| - 1;
      WithoutTwice(codes[..n], a, b);
      if codes[n] in a {
        assert Without(codes, a) == Without(codes[..n], a);
        assert Without(codes, a + b) == Without(codes[..n], a + b);
      } else {
        assert Without(codes, a) == Without(codes[..n], a) + [codes[n]];
        WithoutSnoc(Without(codes[..n], a), codes[n], b);
      }
    }
  }

  lemma EnrolKeeps(s: State, codes: Codes)
    requires Inv(s) && Fresh(s.log, codes)
    ensures Inv(Next(s, Enrol(codes)))
  {
    var log' := s.log + [Enrolled(codes)];
    assert Taken(log', |s.log|) == {};
    WithoutNone(codes);
    assert LeftOf(log', |s.log|, codes);
    KnownAppend(s.log, Enrolled(codes));
  }

  lemma KnownAppend(log: seq<Event>, e: Event)
    requires Known(log)
    requires e.Accepted? ==> exists k | 0 <= k < |log| :: log[k].Enrolled? && e.hash in log[k].codes
    ensures Known(log + [e])
  {
    var log' := log + [e];
    forall i | 0 <= i < |log'| && log'[i].Accepted?
      ensures exists k | 0 <= k < i :: log'[k].Enrolled? && log'[i].hash in log'[k].codes
    {
      if i < |log| {
        var k :| 0 <= k < i && log[k].Enrolled? && log[i].hash in log[k].codes;
        assert log'[k].Enrolled? && log'[i].hash in log'[k].codes;
      } else {
        var k :| 0 <= k < |log| && log[k].Enrolled? && e.hash in log[k].codes;
        assert log'[k].Enrolled? && log'[i].hash in log'[k].codes;
      }
    }
  }

  lemma ClearKeeps(s: State)
    requires Inv(s)
    ensures Inv(Next(s, Clear))
  {
    var log' := s.log + [Cleared];
    assert log'[|s.log|] == Cleared;
    KnownAppend(s.log, Cleared);
  }

  lemma TakeLeaves(log: seq<Event>, k: nat, codes: Codes, h: Hashed)
    requires LeftOf(log, k, codes) && h in codes
    ensures LeftOf(log + [Accepted(h)], k, Without(codes, {h}))
  {
    var log' := log + [Accepted(h)];
    assert Taken(log', k) == Taken(log, k) + {h} by {
      assert log'[|log|].hash == h;
      assert forall i | k < i < |log| :: log'[i] == log[i];
    }
    WithoutTwice(log[k].codes, Taken(log, k), {h});
    WithoutMembers(log[k].codes, Taken(log, k), h);
  }

  lemma TakeKeeps(s: State, c: CallId)
    requires Inv(s) && c in s.calls
    ensures Inv(Next(s, Take(c)))
  {
    var a := s.calls[c];
    if s.column == Stored(a.seen) {
      var k: nat :| LeftOf(s.log, k, a.seen);
      TakeLeaves(s.log, k, a.seen, a.taken);
      WithoutMembers(s.log[k].codes, Taken(s.log, k), a.taken);
      assert s.log[k].Enrolled? && a.taken in s.log[k].codes;
      KnownAppend(s.log, Accepted(a.taken));
      NotTakenBefore(s.log, k, a.taken);
      OnceAppend(s.log, a.taken);
    }
  }

  lemma OnceAppend(log: seq<Event>, h: Hashed)
    requires Once(log) && forall i | 0 <= i < |log| && log[i].Accepted? :: log[i].hash != h
    ensures Once(log + [Accepted(h)])
  {
  }

  /** A hash that is still stored has never been accepted, in this enrolment or an earlier one. */
  lemma NotTakenBefore(log: seq<Event>, k: nat, h: Hashed)
    requires Once(log) && Known(log) && Current(log, k)
    requires h in Without(log[k].codes, Taken(log, k))
    ensures forall i | 0 <= i < |log| && log[i].Accepted? :: log[i].hash != h
  {
    WithoutMembers(log[k].codes, Taken(log, k), h);
    forall i | 0 <= i < |log| && log[i].Accepted? ensures log[i].hash != h {
      var m :| 0 <= m < i && log[m].Enrolled? && log[i].hash in log[m].codes;
      assert log[i].hash == h ==> m == k;
      assert m == k ==> log[i].hash in Taken(log, k);
    }
  }

  lemma NextKeeps(s: State, step: Step)
    requires Inv(s) && Enabled(s, step)
    ensures Inv(Next(s, step))
  {
    match step
    case Enrol(codes) => EnrolKeeps(s, codes);
    case Read(_, _) =>
    case Take(c) => TakeKeeps(s, c);
    case Drop(_) =>
    case Clear => ClearKeeps(s);
  }

  lemma {:induction false} InvHolds(states: seq<State>, steps: seq<Step>, n: nat)
    requires Run(states, steps) && n < |states|
    ensures Inv(states[n])
  {
    if n > 0 {
      InvHolds(states, steps, n - 1);
      NextKeeps(states[n - 1], steps[n - 1]);
    }
  }

  // ---- the theorems

  /** A backup code is accepted at most once, over every enrolment of the account. */
  lemma AcceptedOnce(states: seq<State>, steps: seq<Step>, n: nat, a: nat, b: nat)
    requires Run(states, steps) && n < |states| && a < |states[n].log| && b < |states[n].log|
    requires states[n].log[a].Accepted? && states[n].log[b].Accepted? && states[n].log[a].hash == states[n].log[b].hash
    ensures a == b
  {
    InvHolds(states, steps, n);
  }

  /** Until it is cleared, the stored list is the enrolled one minus the accepted codes, in its order. */
  lemma StoredIsEnrolledMinusAccepted(states: seq<State>, steps: seq<Step>, n: nat, k: nat)
    requires Run(states, steps) && n < |states| && Current(states[n].log, k)
    ensures states[n].column == Stored(Without(states[n].log[k].codes, Taken(states[n].log, k)))
  {
    InvHolds(states, steps, n);
    OneCurrent(states[n].log, k);
  }

  lemma OneCurrent(log: seq<Event>, k: nat)
    requires Current(log, k)
    ensures forall m: nat | Current(log, m) :: m == k
  {
    forall m: nat | Current(log, m) ensures m == k {
      assert log[m].Enrolled? && log[k].Enrolled?;
    }
  }

  /** The positions at which a code of `codes` was accepted, before position `n`. */
  ghost function Acceptances(log: seq<Event>, codes: Codes, n: nat): set<nat>
    requires n <= |log|
  {
    set i: nat | i < n && log[i].Accepted? && log[i].hash in codes
  }

  ghost function Opened(log: seq<Event>, codes: Codes, n: nat): set<Hashed>
    requires n <= |log|
  {
    set i | 0 <= i < n && log[i].Accepted? && log[i].hash in codes :: log[i].hash
  }

  /** One enrolment is good for at most eight acceptances, over the whole run. */
  lemma AtMostEight(states: seq<State>, steps: seq<Step>, n: nat, k: nat)
    requires Run(states, steps) && n < |states| && k < |states[n].log| && states[n].log[k].Enrolled?
    ensures |Acceptances(states[n].log, states[n].log[k].codes, |states[n].log|)| <= CODE_COUNT
  {
    InvHolds(states, steps, n);
    AcceptancesFit(states[n].log, states[n].log[k].codes, |states[n].log|);
    Elements(states[n].log[k].codes);
  }

  lemma {:induction false} AcceptancesFit(log: seq<Event>, codes: Codes, n: nat)
    requires Once(log) && n <= |log|
    ensures |Acceptances(log, codes, n)| <= |set h | h in codes|
  {
    var hashes := Opened(log, codes, n);
    AcceptancesAreHashes(log, codes, n);
    Subset(hashes, set h | h in codes);
  }

  lemma OneMoreAcceptance(log: seq<Event>, codes: Codes, n: nat)
    requires Once(log) && 0 < n <= |log| && log[n - 1].Accepted? && log[n - 1].hash in codes
    ensures Acceptances(log, codes, n) == Acceptances(log, codes, n - 1) + {n - 1}
    ensures Opened(log, codes, n) == Opened(log, codes, n - 1) + {log[n - 1].hash}
    ensures log[n - 1].hash !in Opened(log, codes, n - 1)
  {
    forall h ensures h in Opened(log, codes, n) <==> h in Opened(log, codes, n - 1) + {log[n - 1].hash} {
    }
  }

  lemma NoMoreAcceptances(log: seq<Event>, codes: Codes, n: nat)
    requires 0 < n <= |log| && !(log[n - 1].Accepted? && log[n - 1].hash in codes)
    ensures Acceptances(log, codes, n) == Acceptances(log, codes, n - 1)
    ensures Opened(log, codes, n) == Opened(log, codes, n - 1)
  {
    forall h ensures h in Opened(log, codes, n) <==> h in Opened(log, codes, n - 1) {
    }
  }

  lemma {:induction false} AcceptancesAreHashes(log: seq<Event>, codes: Codes, n: nat)
    requires Once(log) && n <= |log|
    ensures |Acceptances(log, codes, n)| == |Opened(log, codes, n)|
  {
    if n == 0 {
      assert Acceptances(log, codes, n) == {};
    } else {
      AcceptancesAreHashes(log, codes, n - 1);
      if log[n - 1].Accepted? && log[n - 1].hash in codes {
        OneMoreAcceptance(log, codes, n);
      } else {
        NoMoreAcceptances(log, codes, n);
      }
    }
  }

  lemma {:induction false} Elements(codes: Codes)
    ensures |set h | h in codes| <= |codes|
  {
    var all := set h | h in codes;
    if codes == [] {
      assert all == {};
    } else {
      Elements(codes[1..]);
      var rest := set h | h in codes[1..];
      assert all == rest + {codes[0]};
    }
  }

  lemma {:induction false} Subset<T>(a: set<T>, b: set<T>)
    requires a <= b
    ensures |a| <= |b|
  {
    if a != {} {
      var x :| x in a;
      Subset(a - {x}, b - {x});
    }
  }

  /** While an enrolment is current, the codes stored and the codes accepted add up to eight. */
  lemma StoredAndAcceptedAddUp(states: seq<State>, steps: seq<Step>, n: nat, k: nat)
    requires Run(states, steps) && n < |states| && Current(states[n].log, k)
    ensures states[n].column.Stored?
    ensures |states[n].column.codes| + (|states[n].log| - 1 - k) == CODE_COUNT
  {
    InvHolds(states, steps, n);
    StoredIsEnrolledMinusAccepted(states, steps, n, k);
    OneCurrent(states[n].log, k);
    var log := states[n].log;
    Removed(log[k].codes, Taken(log, k));
    TakenSize(log, k, |log|);
    assert Taken(log, k) == TakenUpTo(log, k, |log|);
  }

  ghost function TakenUpTo(log: seq<Event>, k: nat, n: nat): set<Hashed>
    requires n <= |log|
  {
    set i | k < i < n && log[i].Accepted? :: log[i].hash
  }

  lemma {:induction false} TakenSize(log: seq<Event>, k: nat, n: nat)
    requires Once(log) && Current(log, k) && k < n <= |log|
    ensures |TakenUpTo(log, k, n)| == n - 1 - k
    decreases n
  {
    if n == k + 1 {
      assert TakenUpTo(log, k, n) == {};
    } else {
      TakenSize(log, k, n - 1);
      assert log[n - 1].hash !in TakenUpTo(log, k, n - 1);
      assert TakenUpTo(log, k, n) == TakenUpTo(log, k, n - 1) + {log[n - 1].hash};
    }
  }

  lemma {:induction false} Removed(codes: Codes, gone: set<Hashed>)
    requires Distinct(codes) && forall h | h in gone :: h in codes
    ensures |Without(codes, gone)| + |gone| == |codes|
  {
    if codes == [] {
      assert gone == {};
    } else {
      var n := |codes| - 1;
      var h, rest := codes[n], codes[..n];
      assert h !in rest;
      if h in gone {
        WithoutIrrelevant(rest, gone, h);
        Removed(rest, gone - {h});
      } else {
        Removed(rest, gone);
      }
    }
  }

  lemma {:induction false} WithoutIrrelevant(codes: Codes, gone: set<Hashed>, h: Hashed)
    requires h !in codes
    ensures Without(codes, gone) == Without(codes, gone - {h})
  {
    if codes != [] {
      WithoutIrrelevant(codes[..|codes| - 1], gone, h);
    }
  }
}
