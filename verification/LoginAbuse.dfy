/**
 The login limiter: two insertion-ordered maps of failures, pruned, bumped and evicted in place.

 A map is a sequence of entries with distinct keys, in the order in which the keys were inserted. Identifiers are
 already trimmed, lowercased and cut; a source is the hexadecimal digest of the caller's address.
 */
module LoginAbuse {
  import opened Wrappers
  import opened FailureWindows

  const FAILURE_WINDOW_MS: nat := 15 * 60 * 1000
  const MAX_PAIR_ENTRIES: nat := 20_000
  const MAX_ACCOUNT_ENTRIES: nat := 5_000
  const MAX_PROGRESSIVE_DELAY_MS: nat := 100

  type Key = string

  datatype Entry = Entry(key: Key, failures: nat, firstFailureAt: nat, lastFailureAt: nat)

  type Entries = seq<Entry>

  ghost predicate Distinct(es: Entries) {
    forall i, j | 0 <= i < |es| && 0 <= j < |es| && es[i].key == es[j].key :: i == j
  }

  function Find(es: Entries, key: Key): (r: Option<Entry>)
    ensures r.Some? ==> r.value in es && r.value.key == key
    ensures r.None? ==> forall e | e in es :: e.key != key
  {
    if es == [] then None else if es[0].key == key then Some(es[0]) else Find(es[1..], key)
  }

  predicate Stale(e: Entry, now: nat) {
    now - e.lastFailureAt >= FAILURE_WINDOW_MS
  }

  function Pruned(es: Entries, now: nat): (r: Entries)
    ensures |r| <= |es|
    ensures forall e :: e in r <==> e in es && !Stale(e, now)
  {
    if es == [] then []
    else
      var n := |es| - 1;
      Pruned(es[..n], now) + (if Stale(es[n], now) then [] else [es[n]])
  }

  /** `key.startsWith(prefix)` */
  predicate StartsWith(key: Key, prefix: Key) {
    prefix <= key
  }

  function WithoutPrefix(es: Entries, prefix: Key): (r: Entries)
    ensures |r| <= |es|
    ensures forall e :: e in r <==> e in es && !StartsWith(e.key, prefix)
  {
    if es == [] then []
    else
      var n := |es| - 1;
      WithoutPrefix(es[..n], prefix) + (if StartsWith(es[n].key, prefix) then [] else [es[n]])
  }

  function Without(es: Entries, key: Key): (r: Entries)
    ensures |r| <= |es|
    ensures forall e :: e in r <==> e in es && e.key != key
  {
    if es == [] then []
    else
      var n := |es| - 1;
      Without(es[..n], key) + (if es[n].key == key then [] else [es[n]])
  }

  /** An existing key keeps its place; a new one goes to the end. */
  function Put(es: Entries, entry: Entry): (r: Entries)
    ensures entry in r && |es| <= |r| <= |es| + 1
    ensures |r| == |es| + 1 <==> Find(es, entry.key).None?
    ensures forall e | e in r :: e == entry || e in es
    ensures Find(es, entry.key).None? ==> r == es + [entry]
  {
    if es == [] then [entry]
    else if es[0].key == entry.key then [entry] + es[1..]
    else
      var rest := Put(es[1..], entry);
      [es[0]] + rest
  }

  function Bump(es: Entries, key: Key, now: nat): Entry {
    BumpFrom(Find(es, key), key, now)
  }

  /** A failure joins a window that is still open, or opens one. */
  function BumpFrom(previous: Option<Entry>, key: Key, now: nat): Entry {
    if previous.Some? && now - previous.value.firstFailureAt < FAILURE_WINDOW_MS
    then Entry(key, previous.value.failures + 1, previous.value.firstFailureAt, now)
    else Entry(key, 1, now, now)
  }

  function Newest(es: Entries, max: nat): (r: Entries)
    ensures |r| <= max
  {
    if |es| <= max then es else es[|es| - max..]
  }

  function Bumped(es: Entries, key: Key, now: nat, max: nat): Entries {
    Newest(Put(es, Bump(es, key, now)), max)
  }

  function PairKey(identifier: string, source: string): Key {
    identifier + ['\0'] + source
  }

  // ---- lookups through the operations

  lemma DistinctTail(es: Entries)
    requires Distinct(es) && es != []
    ensures Distinct(es[1..]) && forall e | e in es[1..] :: e.key != es[0].key
  {
    forall i, j | 0 <= i < |es[1..]| && 0 <= j < |es[1..]| && es[1..][i].key == es[1..][j].key ensures i == j {
      assert es[i + 1].key == es[j + 1].key;
    }
  }

  lemma DistinctInit(es: Entries)
    requires Distinct(es) && es != []
    ensures var n := |es| - 1; Distinct(es[..n]) && forall e | e in es[..n] :: e.key != es[n].key
  {
  }

  lemma DistinctSnoc(es: Entries, e: Entry)
    requires Distinct(es) && forall x | x in es :: x.key != e.key
    ensures Distinct(es + [e])
  {
    assert forall i | 0 <= i < |es| :: es[i] in es;
  }

  lemma DistinctCons(e: Entry, es: Entries)
    requires Distinct(es) && forall x | x in es :: x.key != e.key
    ensures Distinct([e] + es)
  {
    var all := [e] + es;
    forall i, j | 0 <= i < |all| && 0 <= j < |all| && all[i].key == all[j].key ensures i == j {
      assert i > 0 ==> all[i] == es[i - 1];
      assert j > 0 ==> all[j] == es[j - 1];
    }
  }

  /** In a map, a key finds the one entry that has it. */
  lemma {:induction false} FindMember(es: Entries, e: Entry)
    requires Distinct(es) && e in es
    ensures Find(es, e.key) == Some(e)
  {
    DistinctTail(es);
    if e != es[0] {
      FindMember(es[1..], e);
    }
  }

  lemma {:induction false} PrunedIsMap(es: Entries, now: nat)
    requires Distinct(es)
    ensures Distinct(Pruned(es, now))
  {
    if es != [] {
      var n := |es| - 1;
      DistinctInit(es);
      PrunedIsMap(es[..n], now);
      if !Stale(es[n], now) {
        DistinctSnoc(Pruned(es[..n], now), es[n]);
      }
    }
  }

  lemma {:induction false} ClearedIsMap(es: Entries, prefix: Key)
    requires Distinct(es)
    ensures Distinct(WithoutPrefix(es, prefix))
  {
    if es != [] {
      var n := |es| - 1;
      DistinctInit(es);
      ClearedIsMap(es[..n], prefix);
      if !StartsWith(es[n].key, prefix) {
        DistinctSnoc(WithoutPrefix(es[..n], prefix), es[n]);
      }
    }
  }

  lemma {:induction false} WithoutIsMap(es: Entries, key: Key)
    requires Distinct(es)
    ensures Distinct(Without(es, key))
  {
    if es != [] {
      var n := |es| - 1;
      DistinctInit(es);
      WithoutIsMap(es[..n], key);
      if es[n].key != key {
        DistinctSnoc(Without(es[..n], key), es[n]);
      }
    }
  }

  lemma {:induction false} PutIsMap(es: Entries, entry: Entry)
    requires Distinct(es)
    ensures Distinct(Put(es, entry))
    ensures forall e | e in es && e.key != entry.key :: e in Put(es, entry)
    ensures forall e | e in Put(es, entry) && e.key == entry.key :: e == entry
  {
    if es != [] {
      DistinctTail(es);
      if es[0].key == entry.key {
        DistinctCons(entry, es[1..]);
      } else {
        PutIsMap(es[1..], entry);
        DistinctCons(es[0], Put(es[1..], entry));
      }
    }
  }

  lemma NewestIsMap(es: Entries, max: nat)
    requires Distinct(es)
    ensures Distinct(Newest(es, max))
  {
    if |es| > max {
      var r := es[|es| - max..];
      forall i, j | 0 <= i < |r| && 0 <= j < |r| && r[i].key == r[j].key ensures i == j {
        assert es[|es| - max + i].key == es[|es| - max + j].key;
      }
    }
  }

  lemma BumpedIsMap(es: Entries, key: Key, now: nat, max: nat)
    requires Distinct(es)
    ensures Distinct(Bumped(es, key, now, max))
  {
    PutIsMap(es, Bump(es, key, now));
    NewestIsMap(Put(es, Bump(es, key, now)), max);
  }

  lemma FindPruned(es: Entries, now: nat, key: Key)
    requires Distinct(es)
    ensures Find(Pruned(es, now), key)
            == if Find(es, key).Some? && !Stale(Find(es, key).value, now) then Find(es, key) else None
  {
    PrunedIsMap(es, now);
    var r := Find(Pruned(es, now), key);
    if r.Some? {
      FindMember(es, r.value);
    }
  }

  /** The key just recorded is never the one evicted, and its entry is the new one. */
  lemma RecordedSurvives(es: Entries, key: Key, now: nat, max: nat)
    requires Distinct(es) && 0 < max && |es| <= max
    ensures Find(Bumped(es, key, now, max), key) == Some(Bump(es, key, now))
  {
    var entry := Bump(es, key, now);
    var all := Put(es, entry);
    BumpedIsMap(es, key, now, max);
    if |all| > max {
      assert all[|all| - 1] == entry;
      assert Newest(all, max)[max - 1] == entry;
    }
    FindMember(Bumped(es, key, now, max), entry);
  }

  /** Other keys are found as before, unless they were evicted. */
  lemma OthersSurvive(es: Entries, key: Key, now: nat, max: nat, other: Key)
    requires Distinct(es) && other != key
    requires Find(es, other).Some? ==> Find(Bumped(es, key, now, max), other).Some?
    ensures Find(Bumped(es, key, now, max), other) == Find(es, other)
  {
    var r := Find(Bumped(es, key, now, max), other);
    if r.Some? {
      assert r.value in Put(es, Bump(es, key, now));
      FindMember(es, r.value);
    }
  }

  // ---- the service

  datatype Verdict = RateLimited | Allowed(delayMs: nat)

  function Delay(account: Option<Entry>): nat {
    if account.None? || account.value.failures <= FAILURE_LIMIT then 0
    else
      var delay := (account.value.failures - FAILURE_LIMIT) * 10;
      if delay < MAX_PROGRESSIVE_DELAY_MS then delay else MAX_PROGRESSIVE_DELAY_MS
  }

  /** Ten milliseconds for each failure of the account beyond the fifth, and never more than a hundred. */
  ghost predicate Delayed(accounts: Entries, identifier: string, delayMs: nat) {
    && delayMs <= 100
    && (delayMs > 0 ==> exists e | e in accounts :: e.key == identifier)
    && (forall e | e in accounts && e.key == identifier ::
          && (e.failures <= 5 ==> delayMs == 0)
          && (5 < e.failures < 15 ==> delayMs == 10 * e.failures - 50)
          && (e.failures >= 15 ==> delayMs == 100))
  }

  class LoginAbuseService {
    var pairFailures: Entries
    var accountFailures: Entries

    /** Two maps within their caps. */
    ghost predicate Valid()
      reads this
    {
      && Distinct(pairFailures) && |pairFailures| <= MAX_PAIR_ENTRIES
      && Distinct(accountFailures) && |accountFailures| <= MAX_ACCOUNT_ENTRIES
    }

    constructor ()
      ensures Valid() && pairFailures == [] && accountFailures == []
    {
      pairFailures, accountFailures := [], [];
    }

    method AssertAllowed(identifier: string, source: string, now: nat) returns (verdict: Verdict)
      requires Valid()
      modifies this
      ensures Valid()
      ensures pairFailures == Pruned(old(pairFailures), now) && accountFailures == Pruned(old(accountFailures), now)
      ensures verdict.RateLimited? <==>
                exists e | e in pairFailures :: e.key == PairKey(identifier, source) && e.failures >= FAILURE_LIMIT
      ensures verdict.Allowed? ==> Delayed(accountFailures, identifier, verdict.delayMs)
    {
      Prune(now);
      var pair := Find(pairFailures, PairKey(identifier, source));
      if pair.Some? && pair.value.failures >= FAILURE_LIMIT {
        return RateLimited;
      }
      forall e | e in pairFailures && e.key == PairKey(identifier, source) ensures e.failures < FAILURE_LIMIT {
        FindMember(pairFailures, e);
      }
      forall e | e in accountFailures && e.key == identifier ensures Find(accountFailures, identifier) == Some(e) {
        FindMember(accountFailures, e);
      }
      return Allowed(Delay(Find(accountFailures, identifier)));
    }

    method RecordFailure(identifier: string, source: string, now: nat)
      requires Valid()
      modifies this
      ensures Valid()
      ensures pairFailures == Bumped(Pruned(old(pairFailures), now), PairKey(identifier, source), now, MAX_PAIR_ENTRIES)
      ensures accountFailures == Bumped(Pruned(old(accountFailures), now), identifier, now, MAX_ACCOUNT_ENTRIES)
      ensures Find(pairFailures, PairKey(identifier, source)).Some? && Find(accountFailures, identifier).Some?
    {
      Prune(now);
      RecordedSurvives(pairFailures, PairKey(identifier, source), now, MAX_PAIR_ENTRIES);
      RecordedSurvives(accountFailures, identifier, now, MAX_ACCOUNT_ENTRIES);
      pairFailures := BumpEntries(pairFailures, PairKey(identifier, source), now, MAX_PAIR_ENTRIES);
      accountFailures := BumpEntries(accountFailures, identifier, now, MAX_ACCOUNT_ENTRIES);
    }

    method RecordSuccess(identifier: string)
      requires Valid()
      modifies this
      ensures Valid()
      ensures pairFailures == WithoutPrefix(old(pairFailures), identifier + ['\0'])
      ensures accountFailures == Without(old(accountFailures), identifier)
    {
      ClearedIsMap(pairFailures, identifier + ['\0']);
      WithoutIsMap(accountFailures, identifier);
      accountFailures := Without(accountFailures, identifier);
      pairFailures := ClearPrefix(pairFailures, identifier + ['\0']);
    }

    method Prune(now: nat)
      requires Valid()
      modifies this
      ensures Valid()
      ensures pairFailures == Pruned(old(pairFailures), now) && accountFailures == Pruned(old(accountFailures), now)
    {
      PrunedIsMap(pairFailures, now);
      PrunedIsMap(accountFailures, now);
      pairFailures := PruneEntries(pairFailures, now);
      accountFailures := PruneEntries(accountFailures, now);
    }
  }

  method PruneEntries(es: Entries, now: nat) returns (kept: Entries)
    ensures kept == Pruned(es, now)
  {
    kept := [];
    for i := 0 to |es|
      invariant kept == Pruned(es[..i], now)
    {
      assert es[..i + 1][..i] == es[..i];
      if now - es[i].lastFailureAt < FAILURE_WINDOW_MS {
        kept := kept + [es[i]];
      }
    }
    assert es[..|es|] == es;
  }

  method ClearPrefix(es: Entries, prefix: Key) returns (kept: Entries)
    ensures kept == WithoutPrefix(es, prefix)
  {
    kept := [];
    for i := 0 to |es|
      invariant kept == WithoutPrefix(es[..i], prefix)
    {
      assert es[..i + 1][..i] == es[..i];
      if !StartsWith(es[i].key, prefix) {
        kept := kept + [es[i]];
      }
    }
    assert es[..|es|] == es;
  }

  method BumpEntries(es: Entries, key: Key, now: nat, max: nat) returns (r: Entries)
    requires Distinct(es)
    ensures r == Bumped(es, key, now, max) && Distinct(r) && |r| <= max
  {
    BumpedIsMap(es, key, now, max);
    r := Put(es, Bump(es, key, now));
    ghost var all := r;
    while |r| > max
      invariant |r| <= |all| && r == all[|all| - |r|..] && (|all| <= max ==> r == all)
      invariant |all| > max ==> |r| >= max
      decreases |r|
    {
      r := r[1..];
    }
  }

  // ---- what a success clears

  /** A source digest is hexadecimal text of a fixed length. */
  predicate Digest(source: string) {
    |source| == 64 && '\0' !in source
  }

  lemma PairKeyIsInjective(a: string, d: string, a': string, d': string)
    requires Digest(d) && Digest(d') && PairKey(a, d) == PairKey(a', d')
    ensures a == a' && d == d'
  {
    assert |a| == |a'|;
    assert PairKey(a, d)[..|a|] == a && PairKey(a', d')[..|a|] == a';
    assert PairKey(a, d)[|a| + 1..] == d && PairKey(a', d')[|a| + 1..] == d';
  }

  lemma ClearedBelongs(account: string, a: string, d: string)
    requires Digest(d) && StartsWith(PairKey(a, d), account + ['\0'])
    ensures a == account || StartsWith(a, account + ['\0'])
  {
    var key := PairKey(a, d);
    assert key[|account|] == (account + ['\0'])[|account|] == '\0';
    assert forall i | |a| < i < |key| :: key[i] in d;
    assert |account| <= |a|;
    assert a == key[..|a|];
    assert account == (account + ['\0'])[..|account|];
  }

  lemma BelongingIsCleared(account: string, a: string, d: string)
    requires a == account || StartsWith(a, account + ['\0'])
    ensures StartsWith(PairKey(a, d), account + ['\0'])
  {
    assert PairKey(a, d) == (a + ['\0']) + d;
    assert StartsWith(a, account + ['\0']) ==> PairKey(a, d)[..|a|] == a;
  }

  /**
   A success clears the pairs of its own account, and also those of any identifier that continues it after a NUL
   character: nothing else.
   */
  lemma SuccessClears(account: string, a: string, d: string)
    requires Digest(d)
    ensures StartsWith(PairKey(a, d), account + ['\0']) <==> a == account || StartsWith(a, account + ['\0'])
  {
    if StartsWith(PairKey(a, d), account + ['\0']) {
      ClearedBelongs(account, a, d);
    } else if a == account || StartsWith(a, account + ['\0']) {
      BelongingIsCleared(account, a, d);
    }
  }

  /** Identifiers without NUL characters clear exactly their own pairs. */
  lemma SuccessClearsItsOwn(account: string, a: string, d: string)
    requires Digest(d) && '\0' !in a
    ensures StartsWith(PairKey(a, d), account + ['\0']) <==> a == account
  {
    SuccessClears(account, a, d);
    assert (account + ['\0'])[|account|] == '\0';
  }

  /**
   On the service alone, a success of one account removes a failure recorded for an identifier that continues it after a
   NUL character. `before` and `after` say whether that failure is on record.
   */
  method ContinuedIdentifierIsCleared(source: string, now: nat) returns (before: bool, after: bool)
    requires Digest(source)
    ensures before && !after
  {
    var other := "ann" + ['\0'] + "x";
    var service := new LoginAbuseService();
    service.RecordFailure(other, source, now);
    before := Find(service.pairFailures, PairKey(other, source)).Some?;
    service.RecordSuccess("ann");
    after := Find(service.pairFailures, PairKey(other, source)).Some?;
    SuccessClears("ann", other, source);
    assert StartsWith(other, "ann" + ['\0']);
  }

  // ---- attempts on one key, one after another, among attempts on others

  /** The pair map, with the failures of one tracked key; `passed`: an attempt on it was allowed and has not ended. */
  datatype Tracked = Tracked(entries: Entries, passed: bool, now: nat, failed: seq<Mark>)

  datatype Step =
    | Ask(key: Key, at: nat)
    | Fail(key: Key, at: nat)
    | GiveUp
    | Success(prefix: Key)      // of an account the tracked key does not belong to

  predicate Limited(es: Entries, key: Key) {
    Find(es, key).Some? && Find(es, key).value.failures >= FAILURE_LIMIT
  }

  ghost predicate Enabled(s: Tracked, k: Key, step: Step) {
    match step
    case Ask(key, t) => s.now <= t && (key == k ==> !s.passed)
    case Fail(key, t) =>
      && s.now <= t && (key == k ==> s.passed)
      && (Find(Pruned(s.entries, t), k).Some? ==> Find(Bumped(Pruned(s.entries, t), key, t, MAX_PAIR_ENTRIES), k).Some?)
    case GiveUp => true
    case Success(prefix) => !StartsWith(k, prefix)
  }

  function Next(s: Tracked, k: Key, step: Step): Tracked {
    match step
    case Ask(key, t) =>
      var es := Pruned(s.entries, t);
      Tracked(es, if key == k then !Limited(es, k) else s.passed, t, s.failed)
    case Fail(key, t) =>
      var es := Pruned(s.entries, t);
      var es' := Bumped(es, key, t, MAX_PAIR_ENTRIES);
      if key == k
      then Tracked(es', false, t, s.failed + [NextMark(s.failed, t, Bump(es, k, t).failures > 1)])
      else Tracked(es', s.passed, t, s.failed)
    case GiveUp => s.(passed := false)
    case Success(prefix) => s.(entries := WithoutPrefix(s.entries, prefix))
  }

  ghost predicate Run(k: Key, states: seq<Tracked>, steps: seq<Step>) {
    && |states| == |steps| + 1
    && Distinct(states[0].entries) && |states[0].entries| <= MAX_PAIR_ENTRIES && Find(states[0].entries, k).None?
    && states[0].failed == [] && !states[0].passed
    && (forall i | 0 <= i < |steps| :: Enabled(states[i], k, steps[i]) && states[i + 1] == Next(states[i], k, steps[i]))
  }

  ghost predicate Tracks(e: Entry, h: seq<Mark>) {
    && h != [] && MarkOk(h, |h| - 1)
    && var last := h[|h| - 1];
       e.failures == |h| - last.start && e.firstFailureAt == h[last.start].at && e.lastFailureAt == last.at
  }

  ghost predicate EntryOk(entry: Option<Entry>, h: seq<Mark>, now: nat) {
    match entry
    case Some(e) => Tracks(e, h)
    case None => h == [] || now - h[|h| - 1].at >= FAILURE_WINDOW_MS
  }

  ghost predicate Inv(s: Tracked, k: Key) {
    && Distinct(s.entries) && |s.entries| <= MAX_PAIR_ENTRIES
    && Windowed(s.failed, FAILURE_WINDOW_MS)
    && (s.failed != [] ==> s.failed[|s.failed| - 1].at <= s.now)
    && (s.passed ==> !Limited(s.entries, k))
    && EntryOk(Find(s.entries, k), s.failed, s.now)
  }

  lemma PruneKeeps(s: Tracked, k: Key, t: nat)
    requires Inv(s, k) && s.now <= t
    ensures Inv(s.(entries := Pruned(s.entries, t), now := t), k)
  {
    PrunedIsMap(s.entries, t);
    FindPruned(s.entries, t, k);
  }

  /** One more failure of the tracked key keeps its history split into windows. */
  lemma HistoryGrows(entry: Option<Entry>, k: Key, h: seq<Mark>, t: nat)
    requires Windowed(h, FAILURE_WINDOW_MS) && EntryOk(entry, h, t)
    requires h != [] ==> h[|h| - 1].at <= t
    requires entry.Some? ==> entry.value.failures < FAILURE_LIMIT
    ensures var e := BumpFrom(entry, k, t); var h' := h + [NextMark(h, t, e.failures > 1)];
            Windowed(h', FAILURE_WINDOW_MS) && Tracks(e, h')
  {
    var e := BumpFrom(entry, k, t);
    var m := NextMark(h, t, e.failures > 1);
    if h != [] {
      assert MarkOk(h, |h| - 1);
      assert MarkOk(h + [m], |h| - 1);
      Ordered(h, FAILURE_WINDOW_MS, h[|h| - 1].start, |h| - 1);
    }
    assert MarkOk(h + [m], |h|);
    WindowedAppend(h, m, FAILURE_WINDOW_MS);
  }

  lemma OwnFailKeeps(s: Tracked, k: Key, t: nat)
    requires Inv(s, k) && s.passed && s.now == t
    ensures Inv(Tracked(Bumped(s.entries, k, t, MAX_PAIR_ENTRIES), false, t,
                        s.failed + [NextMark(s.failed, t, Bump(s.entries, k, t).failures > 1)]), k)
  {
    BumpedIsMap(s.entries, k, t, MAX_PAIR_ENTRIES);
    RecordedSurvives(s.entries, k, t, MAX_PAIR_ENTRIES);
    HistoryGrows(Find(s.entries, k), k, s.failed, t);
  }

  lemma OtherFailKeeps(s: Tracked, k: Key, key: Key, t: nat)
    requires Inv(s, k) && key != k && s.now == t
    requires Find(s.entries, k).Some? ==> Find(Bumped(s.entries, key, t, MAX_PAIR_ENTRIES), k).Some?
    ensures Inv(s.(entries := Bumped(s.entries, key, t, MAX_PAIR_ENTRIES)), k)
  {
    BumpedIsMap(s.entries, key, t, MAX_PAIR_ENTRIES);
    OthersSurvive(s.entries, key, t, MAX_PAIR_ENTRIES, k);
  }

  lemma SuccessKeeps(s: Tracked, k: Key, prefix: Key)
    requires Inv(s, k) && !StartsWith(k, prefix)
    ensures Inv(s.(entries := WithoutPrefix(s.entries, prefix)), k)
  {
    ClearedIsMap(s.entries, prefix);
    var r := Find(WithoutPrefix(s.entries, prefix), k);
    if r.Some? {
      FindMember(s.entries, r.value);
    } else {
      assert Find(s.entries, k).None?;
    }
  }

  lemma NextKeeps(s: Tracked, k: Key, step: Step)
    requires Inv(s, k) && Enabled(s, k, step)
    ensures Inv(Next(s, k, step), k)
  {
    match step
    case Ask(_, t) => PruneKeeps(s, k, t);
    case Fail(key, t) =>
      PruneKeeps(s, k, t);
      var s' := s.(entries := Pruned(s.entries, t), now := t);
      if key == k {
        OwnFailKeeps(s', k, t);
      } else {
        OtherFailKeeps(s', k, key, t);
      }
    case GiveUp =>
    case Success(prefix) => SuccessKeeps(s, k, prefix);
  }

  lemma {:induction false} InvHolds(k: Key, states: seq<Tracked>, steps: seq<Step>, n: nat)
    requires Run(k, states, steps) && n < |states|
    ensures Inv(states[n], k)
  {
    if n > 0 {
      InvHolds(k, states, steps, n - 1);
      NextKeeps(states[n - 1], k, steps[n - 1]);
    }
  }

  /** Any half-open interval of fifteen minutes holds at most eight failed logins of one identifier from one source. */
  lemma LoginBound(k: Key, states: seq<Tracked>, steps: seq<Step>, n: nat, i: nat)
    requires Run(k, states, steps) && n < |states| && i + 8 < |states[n].failed|
    ensures states[n].failed[i + 8].at - states[n].failed[i].at >= FAILURE_WINDOW_MS
  {
    InvHolds(k, states, steps, n);
    NineSpanAWindow(states[n].failed, FAILURE_WINDOW_MS, i);
  }

  // ---- when five failures limit a key

  lemma {:induction false} FailuresStay(k: Key, states: seq<Tracked>, steps: seq<Step>, m: nat, n: nat)
    requires Run(k, states, steps) && m <= n < |states|
    ensures states[m].failed <= states[n].failed
  {
    if m < n {
      FailuresStay(k, states, steps, m, n - 1);
    }
  }

  /** What a failure at `t` finds once stale entries are gone: no window of the key is open. */
  predicate OpensWindow(es: Entries, k: Key, t: nat) {
    var e := Find(Pruned(es, t), k);
    e.None? || t - e.value.firstFailureAt >= FAILURE_WINDOW_MS
  }

  lemma OpeningIsMarked(s: Tracked, k: Key, t: nat)
    requires Inv(s, k) && Enabled(s, k, Step.Fail(k, t))
    ensures var i, h := |s.failed|, Next(s, k, Step.Fail(k, t)).failed;
            |h| == i + 1 && h[i].at == t && (h[i].start == i <==> OpensWindow(s.entries, k, t))
  {
    PruneKeeps(s, k, t);
    if s.failed != [] {
      assert MarkOk(s.failed, |s.failed| - 1);
    }
  }

  lemma LimitIsMarked(s: Tracked, k: Key)
    requires Inv(s, k) && s.failed != [] && s.failed[|s.failed| - 1].at == s.now
    ensures var h := s.failed; Limited(s.entries, k) <==> |h| == h[|h| - 1].start + FAILURE_LIMIT
  {
    assert MarkOk(s.failed, |s.failed| - 1);
  }

  /**
   When five failures in fifteen minutes limit the key: step `p` records one failure of it, step `q` the fourth after
   it, less than fifteen minutes later. The key is
       then refused if and only if the first of the five found no open window.
   */
  lemma FiveFailuresLimitExactly(k: Key, states: seq<Tracked>, steps: seq<Step>, p: nat, q: nat)
    requires Run(k, states, steps) && p < q < |steps| && steps[p].Fail? && steps[q].Fail?
    requires steps[p].key == k && steps[q].key == k && |states[q].failed| == |states[p].failed| + 4
    requires steps[q].at - steps[p].at < FAILURE_WINDOW_MS
    ensures Limited(states[q + 1].entries, k) <==> OpensWindow(states[p].entries, k, steps[p].at)
  {
    var i, h := |states[p].failed|, states[q + 1].failed;
    InvHolds(k, states, steps, p);
    InvHolds(k, states, steps, q);
    InvHolds(k, states, steps, q + 1);
    OpeningIsMarked(states[p], k, steps[p].at);
    OpeningIsMarked(states[q], k, steps[q].at);
    FailuresStay(k, states, steps, p + 1, q + 1);
    assert h[i] == states[p + 1].failed[i];
    FiveFillAWindow(h, FAILURE_WINDOW_MS, i);
    LimitIsMarked(states[q + 1], k);
  }
}
