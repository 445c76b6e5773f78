/** The in-memory rolling-window limiter. It forgets lazily, by taking expired hits off the front of
    each key when it happens to look; what it decides depends only on everything ever admitted, not on
    when it looked, and is exact when expiries are in order. Instants are seconds. */
module RateLimiter {
  import opened Basics

  type Key = string

  /** The instants at which the hits of one key expire, as they were admitted. */
  type Hits = seq<real>
  type History = map<Key, Hits>

  datatype Decision = Decision(allowed: bool, retryAfter: int)

  // ---------------------------------------------------------------- live hits

  function Live(hits: Hits, now: real): (live: Hits)
    ensures |live| <= |hits|
  {
    if hits == [] then [] else (if hits[0] > now then [hits[0]] else []) + Live(hits[1..], now)
  }

  /** What taking expired hits off the front leaves. */
  function Popped(hits: Hits, now: real): Hits {
    if hits != [] && hits[0] <= now then Popped(hits[1..], now) else hits
  }

  ghost predicate IsSorted(hits: Hits) {
    forall i, j :: 0 <= i < j < |hits| ==> hits[i] <= hits[j]
  }

  /** No expired hit stands behind a live one. */
  ghost predicate ExpiredFirst(hits: Hits, now: real) {
    forall i, j :: 0 <= i < j < |hits| && hits[j] <= now ==> hits[i] <= now
  }

  lemma {:induction false} LiveAll(hits: Hits, now: real)
    ensures Live(hits, now) == hits <==> forall i :: 0 <= i < |hits| ==> hits[i] > now
  {
    if hits != [] {
      LiveAll(hits[1..], now);
      assert hits == [hits[0]] + hits[1..];
    }
  }

  lemma FirstIsLive(hits: Hits, now: real)
    requires ExpiredFirst(hits, now) && hits != [] && hits[0] > now
    ensures forall i :: 0 <= i < |hits| ==> hits[i] > now
  {
  }

  lemma LiveOne(hit: real, now: real)
    ensures Live([hit], now) == if hit > now then [hit] else []
  {
    assert [hit][1..] == [] && Live([], now) == [];
  }

  /** Taking hits off the front forgets exactly the expired ones if and only if none of them stands
      behind a live one. */
  lemma {:induction false} PoppedIsLiveExactlyWhen(hits: Hits, now: real)
    ensures Popped(hits, now) == Live(hits, now) <==> ExpiredFirst(hits, now)
  {
    if hits != [] {
      if hits[0] <= now {
        PoppedIsLiveExactlyWhen(hits[1..], now);
        assert ExpiredFirst(hits, now) <==> ExpiredFirst(hits[1..], now) by {
          if ExpiredFirst(hits[1..], now) {
            forall i, j | 0 <= i < j < |hits| && hits[j] <= now ensures hits[i] <= now {
              if i > 0 { assert hits[1..][i - 1] == hits[i] && hits[1..][j - 1] == hits[j]; }
            }
          }
          if ExpiredFirst(hits, now) {
            forall i, j | 0 <= i < j < |hits[1..]| && hits[1..][j] <= now ensures hits[1..][i] <= now {
              assert hits[i + 1] <= now;
            }
          }
        }
      } else {
        LiveAll(hits, now);
        if ExpiredFirst(hits, now) { FirstIsLive(hits, now); }
      }
    }
  }

  lemma {:induction false} LiveSplit(a: Hits, b: Hits, now: real)
    ensures Live(a + b, now) == Live(a, now) + Live(b, now)
  {
    if a == [] {
      assert a + b == b;
    } else {
      assert (a + b)[1..] == a[1..] + b;
      LiveSplit(a[1..], b, now);
    }
  }

  lemma {:induction false} LiveLater(hits: Hits, now: real, later: real)
    requires now <= later
    ensures Live(Live(hits, now), later) == Live(hits, later)
  {
    if hits != [] {
      LiveLater(hits[1..], now, later);
      if hits[0] > now {
        LiveSplit([hits[0]], Live(hits[1..], now), later);
        LiveOne(hits[0], later);
      } else {
        assert Live(hits, now) == Live(hits[1..], now) && Live(hits, later) == Live(hits[1..], later);
      }
    }
  }

  // -------------------------------------------------------------- the decision

  /** Only what is live: what an eager limiter knows. */
  function LiveOnly(history: History, now: real): History {
    map k | k in history && Live(history[k], now) != [] :: Live(history[k], now)
  }

  /** Without what can be taken off the front: what a lazy limiter knows once it has looked. */
  function PoppedOnly(history: History, now: real): History {
    map k | k in history && Popped(history[k], now) != [] :: Popped(history[k], now)
  }

  /** The two agree if and only if no key has an expired hit behind a live one. */
  lemma LazyIsExactExactlyWhen(history: History, now: real)
    ensures PoppedOnly(history, now) == LiveOnly(history, now) <==> forall k :: k in history ==> ExpiredFirst(history[k], now)
  {
    hide Live, Popped, ExpiredFirst;
    forall k | k in history
      ensures Popped(history[k], now) == Live(history[k], now) <==> ExpiredFirst(history[k], now)
    {
      PoppedIsLiveExactlyWhen(history[k], now);
    }
    var lazy, eager := PoppedOnly(history, now), LiveOnly(history, now);
    if lazy == eager {
      forall k | k in history ensures Popped(history[k], now) == Live(history[k], now) {
        if k in lazy { assert lazy[k] == eager[k]; } else { assert k !in eager; }
      }
    }
  }

  function Sizes(table: History): map<Key, nat> {
    map k | k in table :: |table[k]|
  }

  function FirstExpiry(table: History, k: Key): real {
    if k in table && table[k] != [] then table[k][0] else 0.0
  }

  /** The keys that are at their limit. */
  function Blocked(table: History, limits: map<Key, nat>): set<Key> {
    set k | k in limits && k in table && |table[k]| >= limits[k]
  }

  function RetryAfter(wait: real): int {
    Max(1, (wait + 0.999).Floor)
  }

  function KeyRetry(table: History, k: Key, now: real): int {
    RetryAfter(FirstExpiry(table, k) - now)
  }

  /** The longest wait among the blocked keys. */
  ghost predicate IsLongest(table: History, limits: map<Key, nat>, now: real, retry: int) {
    && (exists k :: k in Blocked(table, limits) && retry == KeyRetry(table, k, now))
    && forall k :: k in Blocked(table, limits) ==> KeyRetry(table, k, now) <= retry
  }

  /** The wait for the first hit of all to expire. */
  ghost predicate IsCapacityRetry(table: History, now: real, retry: int) {
    if table == map[] then retry == RetryAfter(1.0)
    else
      exists k :: k in table && retry == KeyRetry(table, k, now)
        && forall j :: j in table ==> FirstExpiry(table, k) <= FirstExpiry(table, j)
  }

  ghost predicate HasCapacity(table: History, limits: map<Key, nat>, maxKeys: nat, maxHits: nat) {
    |table.Keys + limits.Keys| <= maxKeys && Total(Sizes(table)) + |limits| <= maxHits
  }

  /** What a limiter that knows `table` decides. */
  ghost predicate IsDecision(table: History, limits: map<Key, nat>, now: real, maxKeys: nat, maxHits: nat, d: Decision) {
    if Blocked(table, limits) != {} then !d.allowed && IsLongest(table, limits, now, d.retryAfter)
    else if !HasCapacity(table, limits, maxKeys, maxHits) then !d.allowed && IsCapacityRetry(table, now, d.retryAfter)
    else d == Decision(true, 0)
  }

  lemma DecisionIsUnique(table: History, limits: map<Key, nat>, now: real, maxKeys: nat, maxHits: nat, d: Decision, e: Decision)
    requires IsDecision(table, limits, now, maxKeys, maxHits, d) && IsDecision(table, limits, now, maxKeys, maxHits, e)
    ensures d == e
  {
  }

  /** One more hit for every requested key. */
  function Admit(history: History, keys: set<Key>, expiry: real): History {
    map k | k in history.Keys + keys :: (if k in history then history[k] else []) + if k in keys then [expiry] else []
  }

  // --------------------------------------------------------------- arithmetic

  /** The reported wait misses the real one by less than a millisecond or overstates it by less than
      a second, but is never less than a second. */
  lemma RetryIsClose(wait: real)
    requires wait > 0.0
    ensures wait - 0.001 < RetryAfter(wait) as real && (RetryAfter(wait) as real < wait + 1.0 || RetryAfter(wait) == 1)
  {
  }

  /** The wait is long enough unless it ends within the first millisecond of a second. */
  lemma RetrySufficesExactlyWhen(wait: real)
    requires wait > 1.0
    ensures RetryAfter(wait) as real >= wait <==> wait == wait.Floor as real || wait - wait.Floor as real >= 0.001
  {
    var whole := wait.Floor;
    assert RetryAfter(wait) == if wait - whole as real >= 0.001 then whole + 1 else whole by { FloorAbove(wait, whole); }
  }

  lemma FloorAbove(wait: real, whole: int)
    requires whole as real <= wait < whole as real + 1.0 && whole >= 1
    ensures (wait + 0.999).Floor == if wait - whole as real >= 0.001 then whole + 1 else whole
  {
    var up := (wait + 0.999).Floor;
    assert up as real <= wait + 0.999 < up as real + 1.0;
  }

  /** A key exactly at its limit is blocked until its first live hit expires, and no longer. */
  lemma BlockEndsExactlyWhen(hits: Hits, now: real, later: real, limit: nat)
    requires IsSorted(hits) && now <= later && |Live(hits, now)| == limit > 0
    ensures |Live(hits, later)| < limit <==> later >= Live(hits, now)[0]
  {
    var live := Live(hits, now);
    LiveLater(hits, now, later);
    LiveAll(live, later);
    SortedLive(hits, now);
    if |Live(live, later)| == |live| { SameLength(live, later); }
  }

  lemma {:induction false} SameLength(hits: Hits, now: real)
    requires |Live(hits, now)| == |hits|
    ensures Live(hits, now) == hits
  {
    if hits != [] {
      SameLength(hits[1..], now);
    }
  }

  lemma {:induction false} SortedLive(hits: Hits, now: real)
    requires IsSorted(hits)
    ensures IsSorted(Live(hits, now)) && forall x :: x in Live(hits, now) ==> x in hits && x > now
  {
    if hits != [] {
      SortedLive(hits[1..], now);
      var rest := Live(hits[1..], now);
      forall i | 0 <= i < |rest| ensures rest[i] in hits && hits[0] <= rest[i] {
        assert rest[i] in rest;
        var j :| 0 <= j < |hits[1..]| && hits[1..][j] == rest[i];
        assert hits[j + 1] == rest[i];
      }
      assert Live(hits, now) == (if hits[0] > now then [hits[0]] else []) + rest;
    }
  }

  // -------------------------------------------------------------------- class

  lemma {:induction false} PoppedAt(hits: Hits, now: real)
    ensures |Popped(hits, now)| <= |hits| && Popped(hits, now) == hits[|hits| - |Popped(hits, now)|..]
    ensures forall i :: 0 <= i < |hits| - |Popped(hits, now)| ==> hits[i] <= now
  {
    if hits != [] && hits[0] <= now { PoppedAt(hits[1..], now); }
  }

  /** The kept hits of a key are the last ones it was given; the forgotten ones have expired. */
  ghost predicate IsKept(history: Hits, kept: Hits, clock: real) {
    && |kept| <= |history| && kept == history[|history| - |kept|..]
    && forall i :: 0 <= i < |history| - |kept| ==> history[i] <= clock
  }

  function Of(entries: History, k: Key): Hits {
    if k in entries then entries[k] else []
  }

  /** Whatever was forgotten before, taking the expired hits off the front now gives the same. */
  lemma KeptIsPopped(history: Hits, kept: Hits, clock: real, now: real)
    requires IsKept(history, kept, clock) && clock <= now
    ensures Popped(kept, now) == Popped(history, now) && IsKept(history, Popped(kept, now), now)
  {
    hide Popped;
    var n := |history| - |kept|;
    PoppedDrop(history, n, now);
    PoppedAt(kept, now);
    var m := |kept| - |Popped(kept, now)|;
    assert kept[m..] == history[n + m..];
    forall i | 0 <= i < n + m ensures history[i] <= now {
      if i >= n { assert history[i] == kept[i - n]; }
    }
  }

  lemma {:induction false} PoppedDrop(hits: Hits, n: nat, now: real)
    requires n <= |hits| && forall i :: 0 <= i < n ==> hits[i] <= now
    ensures Popped(hits[n..], now) == Popped(hits, now)
  {
    if n == 0 {
      assert hits[0..] == hits;
    } else {
      assert hits[1..][n - 1..] == hits[n..];
      PoppedDrop(hits[1..], n - 1, now);
    }
  }

  lemma UpdateTotal(entries: History, k: Key, hits: Hits)
    ensures Total(Sizes(entries[k := hits])) == Total(Sizes(entries)) - |Of(entries, k)| + |hits|
  {
    var before, after := Sizes(entries), Sizes(entries[k := hits]);
    TotalTake(after, k);
    if k in entries {
      TotalTake(before, k);
      assert before - {k} == after - {k};
    } else {
      assert before == after - {k};
    }
  }

  lemma RemoveTotal(entries: History, k: Key)
    requires k in entries
    ensures Total(Sizes(entries - {k})) == Total(Sizes(entries)) - |entries[k]|
  {
    TotalTake(Sizes(entries), k);
    assert Sizes(entries) - {k} == Sizes(entries - {k});
  }

  function Put(entries: History, k: Key, hits: Hits): History {
    if hits == [] then entries - {k} else entries[k := hits]
  }

  /** The limiter's table against everything ever admitted. */
  ghost predicate IsLazy(history: History, entries: History, clock: real) {
    && entries.Keys <= history.Keys
    && (forall k :: k in history ==> IsKept(history[k], Of(entries, k), clock))
    && forall k :: k in entries ==> entries[k] != []
  }

  lemma PopKeepsLazy(history: History, entries: History, now: real, k: Key)
    requires IsLazy(history, entries, now) && k in entries
    ensures var hits := Popped(entries[k], now);
            && hits == Popped(history[k], now) && IsLazy(history, Put(entries, k, hits), now)
            && Total(Sizes(Put(entries, k, hits))) == Total(Sizes(entries)) - |entries[k]| + |hits|
  {
    hide IsKept, Popped;
    assert Of(entries, k) == entries[k];
    var hits := Popped(entries[k], now);
    KeptIsPopped(history[k], entries[k], now, now);
    PutTotal(entries, k, hits);
    var after := Put(entries, k, hits);
    forall j | j in history ensures IsKept(history[j], Of(after, j), now) {
      if j != k { assert Of(after, j) == Of(entries, j); } else { assert Of(after, k) == hits; }
    }
  }

  lemma PutTotal(entries: History, k: Key, hits: Hits)
    requires k in entries
    ensures Total(Sizes(Put(entries, k, hits))) == Total(Sizes(entries)) - |entries[k]| + |hits|
  {
    RemoveTotal(entries, k);
    UpdateTotal(entries, k, hits);
  }

  lemma LaterIsLazy(history: History, entries: History, clock: real, now: real)
    requires IsLazy(history, entries, clock) && clock <= now
    ensures IsLazy(history, entries, now)
  {
  }

  /** A key the table has forgotten has nothing left. */
  lemma GoneIsPopped(history: History, entries: History, now: real)
    requires IsLazy(history, entries, now)
    ensures forall k :: k in history && k !in entries ==> Popped(history[k], now) == []
  {
    forall k | k in history && k !in entries ensures Popped(history[k], now) == [] {
      assert Of(entries, k) == [];
      KeptIsPopped(history[k], [], now, now);
    }
  }

  lemma SweptIsPopped(history: History, entries: History, now: real)
    requires IsLazy(history, entries, now) && forall k :: k in entries ==> entries[k] == Popped(history[k], now)
    ensures entries == PoppedOnly(history, now)
  {
    GoneIsPopped(history, entries, now);
  }

  /** The limits asked for, key by key the strictest. */
  function Normalized(requests: seq<(Key, int)>): map<Key, nat> {
    if requests == [] then map[]
    else
      var n := |requests| - 1;
      var limits, k, limit := Normalized(requests[..n]), requests[n].0, Max(1, requests[n].1);
      limits[k := if k in limits then Min(limits[k], limit) else limit]
  }

  /** Every request counts, and the strictest one is the limit; no limit is below one. */
  lemma {:induction false} NormalizedIsStrictest(requests: seq<(Key, int)>)
    ensures forall i :: 0 <= i < |requests| ==>
      requests[i].0 in Normalized(requests) && Normalized(requests)[requests[i].0] <= Max(1, requests[i].1)
    ensures forall k :: k in Normalized(requests) ==>
      exists i :: 0 <= i < |requests| && requests[i].0 == k && Normalized(requests)[k] == Max(1, requests[i].1)
  {
    if requests != [] {
      var n := |requests| - 1;
      NormalizedIsStrictest(requests[..n]);
      forall k | k in Normalized(requests)
        ensures exists i :: 0 <= i < |requests| && requests[i].0 == k && Normalized(requests)[k] == Max(1, requests[i].1)
      {
        var limits, limit := Normalized(requests[..n]), Max(1, requests[n].1);
        if k in limits && (k != requests[n].0 || limits[k] <= limit) {
          var i :| 0 <= i < n && requests[..n][i].0 == k && limits[k] == Max(1, requests[..n][i].1);
          assert requests[i].0 == k;
        } else {
          assert requests[n].0 == k;
        }
      }
      forall i | 0 <= i < |requests|
        ensures requests[i].0 in Normalized(requests) && Normalized(requests)[requests[i].0] <= Max(1, requests[i].1)
      {
        if i < n { assert requests[..n][i] == requests[i]; }
      }
    }
  }

  lemma KeptMore(history: Hits, kept: Hits, clock: real, expiry: real)
    requires IsKept(history, kept, clock)
    ensures IsKept(history + [expiry], kept + [expiry], clock)
  {
  }

  lemma KeptWhole(hits: Hits, clock: real)
    ensures IsKept(hits, hits, clock)
  {
  }

  lemma AdmitKeepsLazy(history: History, entries: History, clock: real, keys: set<Key>, expiry: real)
    requires IsLazy(history, entries, clock)
    ensures IsLazy(Admit(history, keys, expiry), Admit(entries, keys, expiry), clock)
  {
    hide IsKept;
    var h, e := Admit(history, keys, expiry), Admit(entries, keys, expiry);
    forall k | k in h ensures IsKept(h[k], Of(e, k), clock) {
      if k in history && k in keys {
        KeptMore(history[k], Of(entries, k), clock, expiry);
        assert h[k] == history[k] + [expiry] && Of(e, k) == Of(entries, k) + [expiry];
      } else if k in history {
        assert h[k] == history[k] && Of(e, k) == Of(entries, k);
      } else {
        assert h[k] == [expiry] && Of(e, k) == [expiry];
        KeptWhole([expiry], clock);
      }
    }
  }

  lemma NoneAdmitted(entries: History, expiry: real)
    ensures Admit(entries, {}, expiry) == entries
  {
    assert forall k :: k in entries ==> entries[k] + [] == entries[k];
  }

  lemma OneMoreAdmitted(entries: History, keys: set<Key>, k: Key, expiry: real)
    requires k !in keys
    ensures var some := Admit(entries, keys, expiry); some[k := Of(some, k) + [expiry]] == Admit(entries, keys + {k}, expiry)
  {
    var some := Admit(entries, keys, expiry);
    assert Of(some, k) == Of(entries, k);
  }

  /** Hits not yet taken off the front can only make the table look fuller than it is. */
  lemma TableIsLarger(history: History, entries: History, keys: set<Key>, now: real)
    requires IsLazy(history, entries, now)
    ensures var known := PoppedOnly(history, now);
            |known.Keys + keys| <= |entries.Keys + keys| && Total(Sizes(known)) <= Total(Sizes(entries))
  {
    hide IsKept, Popped;
    var known := PoppedOnly(history, now);
    GoneIsPopped(history, entries, now);
    forall k | k in known ensures k in entries && |known[k]| <= |entries[k]| {
      assert Of(entries, k) == entries[k];
      KeptIsPopped(history[k], entries[k], now, now);
      PoppedAt(entries[k], now);
    }
    TotalMono(Sizes(known), Sizes(entries));
    SubsetSize(known.Keys + keys, entries.Keys + keys);
  }

  class RollingWindowLimiter {
    const maxKeys: nat
    const maxHits: nat
    const sweepSeconds: nat
    var entries: History
    var lastSweep: real
    var totalHits: int
    ghost var history: History
    ghost var clock: real

    ghost predicate Valid()
      reads this
    {
      IsLazy(history, entries, clock) && totalHits == Total(Sizes(entries))
    }

    constructor (maxKeys: int, maxHits: int, sweepSeconds: int, ghost now: real)
      ensures Valid() && history == map[] && clock == now
      ensures this.maxKeys == Max(1, maxKeys) && this.maxHits == Max(1, maxHits) && this.sweepSeconds == Max(1, sweepSeconds)
    {
      this.maxKeys, this.maxHits, this.sweepSeconds := Max(1, maxKeys), Max(1, maxHits), Max(1, sweepSeconds);
      entries, lastSweep, totalHits, history, clock := map[], 0.0, 0, map[], now;
    }

    /** The expired hits at the front of one key go. */
    method PopExpired(k: Key, now: real)
      requires Valid() && k in entries && now == clock
      modifies `entries, `totalHits
      ensures Valid() && entries == Put(old(entries), k, Popped(history[k], now))
    {
      hide IsLazy;
      PopKeepsLazy(history, entries, now, k);
      var hits, gone := entries[k], 0;
      while hits != [] && hits[0] <= now
        invariant Popped(hits, now) == Popped(entries[k], now) && gone + |hits| == |entries[k]|
      {
        hits, gone := hits[1..], gone + 1;
      }
      totalHits := totalHits - gone;
      if hits == [] {
        entries := entries - {k};
      } else {
        entries := entries[k := hits];
      }
    }

    /** `_sweep_expired` */
    method SweepExpired(now: real, force: bool)
      requires Valid() && now == clock
      modifies `entries, `totalHits, `lastSweep
      ensures Valid()
      ensures force ==> entries == PoppedOnly(history, now)
    {
      hide IsKept;
      if !force && now - lastSweep < sweepSeconds as real { return; }
      var left := entries.Keys;
      while left != {}
        invariant Valid() && left <= entries.Keys
        invariant forall k :: k in entries && k !in left ==> entries[k] == Popped(history[k], now)
      {
        var k :| k in left;
        PopExpired(k, now);
        left := left - {k};
      }
      lastSweep := now;
      SweptIsPopped(history, entries, now);
    }

    method Normalize(requests: seq<(Key, int)>) returns (limits: map<Key, nat>)
      ensures limits == Normalized(requests)
    {
      limits := map[];
      for i := 0 to |requests|
        invariant limits == Normalized(requests[..i])
      {
        assert requests[..i + 1][..i] == requests[..i];
        var k, limit := requests[i].0, Max(1, requests[i].1);
        limits := limits[k := if k in limits then Min(limits[k], limit) else limit];
      }
      assert requests[..|requests|] == requests;
    }

    /** The keys that are at their limit, after their expired hits are gone; 0 means there is none. */
    method LongestWait(limits: map<Key, nat>, now: real) returns (retry: int)
      requires Valid() && now == clock
      modifies `entries, `totalHits
      ensures Valid()
      ensures var known := PoppedOnly(history, now);
              if Blocked(known, limits) == {} then retry == 0 else retry != 0 && IsLongest(known, limits, now, retry)
    {
      hide IsKept, IsLazy, Popped, RetryAfter, PoppedOnly, FirstExpiry;
      ghost var known := PoppedOnly(history, now);
      retry := 0;
      var left := limits.Keys;
      while left != {}
        invariant Valid() && left <= limits.Keys
        invariant retry != 0 ==> exists k :: k in Blocked(known, limits) && retry == KeyRetry(known, k, now)
        invariant forall k :: k in Blocked(known, limits) && k !in left ==> 1 <= KeyRetry(known, k, now) <= retry
      {
        var k :| k in left;
        left := left - {k};
        var wait := Wait(k, limits[k], now);
        retry := Max(retry, wait);
      }
    }

    /** The wait one key imposes, or 0. */
    method Wait(k: Key, limit: nat, now: real) returns (wait: int)
      requires Valid() && now == clock
      modifies `entries, `totalHits
      ensures Valid()
      ensures var known := PoppedOnly(history, now);
              if k in known && |known[k]| >= limit then wait == KeyRetry(known, k, now) >= 1 else wait == 0
    {
      hide IsKept, Popped;
      GoneIsPopped(history, entries, now);
      if k !in entries { return 0; }
      PopExpired(k, now);
      if k !in entries || |entries[k]| < limit { return 0; }
      return RetryAfter(entries[k][0] - now);
    }

    /** `_retry_after_for_capacity` */
    method CapacityWait(now: real) returns (retry: int)
      requires forall k :: k in entries ==> entries[k] != []
      ensures IsCapacityRetry(entries, now, retry)
    {
      var first: Option<Key>, left := None, entries.Keys;
      while left != {}
        invariant left <= entries.Keys
        invariant first.None? ==> left == entries.Keys
        invariant first.Some? ==> first.value in entries
        invariant first.Some? ==> forall k :: k in entries && k !in left ==> entries[first.value][0] <= entries[k][0]
      {
        var k :| k in left;
        left := left - {k};
        if first.None? || entries[k][0] < entries[first.value][0] { first := Some(k); }
      }
      return RetryAfter(if first.None? then 1.0 else entries[first.value][0] - now);
    }

    /** The check on the number of keys, made again after a sweep before it refuses. */
    method CheckKeys(keys: set<Key>, now: real) returns (refused: bool)
      requires Valid() && now == clock
      modifies `entries, `totalHits, `lastSweep
      ensures Valid()
      ensures refused <==> |PoppedOnly(history, now).Keys + keys| > maxKeys
      ensures refused ==> entries == PoppedOnly(history, now)
    {
      hide IsLazy, PoppedOnly;
      TableIsLarger(history, entries, keys, now);
      if |entries.Keys + keys| <= maxKeys { return false; }
      SweepExpired(now, true);
      return |entries.Keys + keys| > maxKeys;
    }

    /** The check on the number of hits, likewise. */
    method CheckHits(wanted: nat, now: real) returns (refused: bool)
      requires Valid() && now == clock
      modifies `entries, `totalHits, `lastSweep
      ensures Valid()
      ensures refused <==> Total(Sizes(PoppedOnly(history, now))) + wanted > maxHits
      ensures refused ==> entries == PoppedOnly(history, now)
    {
      hide IsLazy, PoppedOnly;
      TableIsLarger(history, entries, {}, now);
      if totalHits + wanted <= maxHits { return false; }
      SweepExpired(now, true);
      return totalHits + wanted > maxHits;
    }

    method CheckCapacity(limits: map<Key, nat>, now: real) returns (refusal: Option<int>)
      requires Valid() && now == clock
      modifies `entries, `totalHits, `lastSweep
      ensures Valid()
      ensures refusal.None? <==> HasCapacity(PoppedOnly(history, now), limits, maxKeys, maxHits)
      ensures refusal.Some? ==> IsCapacityRetry(PoppedOnly(history, now), now, refusal.value)
    {
      hide IsCapacityRetry, IsKept, PoppedOnly;
      var refused := CheckKeys(limits.Keys, now);
      if !refused { refused := CheckHits(|limits|, now); }
      if !refused { return None; }
      var retry := CapacityWait(now);
      return Some(retry);
    }

    /** `reserve`, whatever windows it is called with: the decision is that of a limiter recomputed from
        everything ever admitted, so it does not depend on the sweeps, and a refusal adds no hit anywhere. */
    method Reserve(requests: seq<(Key, int)>, windowSeconds: int, now: real) returns (d: Decision)
      requires Valid() && now >= clock
      modifies this
      ensures Valid() && clock == now
      ensures IsDecision(PoppedOnly(old(history), now), Normalized(requests), now, maxKeys, maxHits, d)
      ensures history == if d.allowed then Admit(old(history), Normalized(requests).Keys, now + Max(1, windowSeconds) as real)
                         else old(history)
    {
      hide IsKept, IsLazy, HasCapacity, IsLongest, IsCapacityRetry, Blocked, Admit, Normalized, PoppedOnly;
      var limits := Normalize(requests);
      LaterIsLazy(history, entries, clock, now);
      clock := now;
      SweepExpired(now, false);
      var wait := LongestWait(limits, now);
      if wait != 0 { return Decision(false, wait); }
      var refusal := CheckCapacity(limits, now);
      if refusal.Some? { return Decision(false, refusal.value); }
      AddHits(limits.Keys, now + Max(1, windowSeconds) as real);
      return Decision(true, 0);
    }

    method AddHits(keys: set<Key>, expiry: real)
      requires Valid()
      modifies `entries, `totalHits, `history
      ensures Valid() && history == Admit(old(history), keys, expiry)
    {
      hide IsLazy, IsKept, Admit;
      ghost var table := entries;
      var left := keys;
      AdmitKeepsLazy(history, entries, clock, keys, expiry);
      NoneAdmitted(entries, expiry);
      assert keys - keys == {};
      while left != {}
        invariant left <= keys && history == old(history)
        invariant entries == Admit(table, keys - left, expiry) && totalHits == Total(Sizes(entries))
      {
        var k :| k in left;
        OneMoreAdmitted(table, keys - left, k, expiry);
        assert keys - left + {k} == keys - (left - {k});
        left := left - {k};
        UpdateTotal(entries, k, Of(entries, k) + [expiry]);
        entries, totalHits := entries[k := Of(entries, k) + [expiry]], totalHits + 1;
      }
      assert keys - left == keys;
      history := Admit(history, keys, expiry);
    }

    /** `clear` */
    method Clear(k: Key)
      requires Valid()
      modifies `entries, `totalHits, `history
      ensures Valid() && history == old(history) - {k}
    {
      if k in entries {
        RemoveTotal(entries, k);
        totalHits := totalHits - |entries[k]|;
        entries := entries - {k};
      }
      history := history - {k};
    }

    /** `reset` */
    method Reset()
      modifies `entries, `totalHits, `lastSweep, `history
      ensures Valid() && history == map[]
    {
      entries, totalHits, lastSweep, history := map[], 0, 0.0, map[];
    }
  }
}
